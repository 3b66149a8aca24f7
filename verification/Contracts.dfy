/** Allowlisted tool contracts, the hash that identifies one, and the actions recorded under it. */
module Contracts {
  import opened Texts
  import opened Json
  import opened Cells
  import opened Schemas
  import opened Annotations
  import SchemaOrder

  const MAX_SCHEMA_BYTES := 64 * 1024

  datatype Identity = Identity(providerType: Text, provider: Text, toolName: Text)

  datatype Contract = Contract(identity: Identity, arguments: Json, version: Text, readOnly: bool)

  /** A tool selection: the tool, its arguments, and the hash of the contract it was made under. */
  datatype Action = Action(identity: Identity, arguments: Json, contractHash: Text)

  // ----- hashes -----

  const TAG := Ascii("schema")
  const CONTRACT_TAG := Ascii("crystalflow.tool-contract.v1")
  const PROVIDER_TYPE := Ascii("provider_type")
  const PROVIDER := Ascii("provider")
  const TOOL_NAME := Ascii("tool_name")
  const ARGUMENTS_SCHEMA := Ascii("arguments_schema")
  const CONTRACT_VERSION := Ascii("contract_version")
  const READ_ONLY := Ascii("read_only")
  const ARGUMENTS := Ascii("arguments")
  const CONTRACT_HASH := Ascii("contract_hash")

  function ContractFields(c: Contract): seq<Field<Json>> {
    [Field(TAG, Str(CONTRACT_TAG)), Field(PROVIDER_TYPE, Str(c.identity.providerType)), Field(PROVIDER, Str(c.identity.provider)),
     Field(TOOL_NAME, Str(c.identity.toolName)), Field(ARGUMENTS_SCHEMA, c.arguments), Field(CONTRACT_VERSION, Str(c.version)),
     Field(READ_ONLY, Bool(c.readOnly))]
  }

  function ContractHash(c: Contract): Text {
    ContentHash(Obj(ContractFields(c)))
  }

  function ActionFields(a: Action): seq<Field<Json>> {
    [Field(PROVIDER_TYPE, Str(a.identity.providerType)), Field(PROVIDER, Str(a.identity.provider)),
     Field(TOOL_NAME, Str(a.identity.toolName)), Field(ARGUMENTS, a.arguments), Field(CONTRACT_HASH, Str(a.contractHash))]
  }

  function ActionHash(a: Action): Text {
    ContentHash(Obj(ActionFields(a)))
  }

  lemma ContractKeys(c: Contract)
    requires WellFormed(c.arguments)
    ensures UniqueKeys(ContractFields(c)) && WellFormed(Obj(ContractFields(c)))
  {
    assert |TAG| == 6 && |PROVIDER_TYPE| == 13 && |PROVIDER| == 8 && |TOOL_NAME| == 9 && |ARGUMENTS_SCHEMA| == 16;
    assert |CONTRACT_VERSION| == 16 && |READ_ONLY| == 9;
    assert TOOL_NAME[0] == 't' as int && READ_ONLY[0] == 'r' as int;
    assert ARGUMENTS_SCHEMA[0] == 'a' as int && CONTRACT_VERSION[0] == 'c' as int;
    ScalarsWellFormed();
    assert WellFormed(Bool(c.readOnly));
  }

  lemma ActionKeys(a: Action)
    requires WellFormed(a.arguments)
    ensures UniqueKeys(ActionFields(a)) && WellFormed(Obj(ActionFields(a)))
  {
    assert |PROVIDER_TYPE| == 13 && |PROVIDER| == 8 && |TOOL_NAME| == 9 && |ARGUMENTS| == 9 && |CONTRACT_HASH| == 13;
    assert PROVIDER_TYPE[0] == 'p' as int && CONTRACT_HASH[0] == 'c' as int;
    assert TOOL_NAME[0] == 't' as int && ARGUMENTS[0] == 'a' as int;
    ScalarsWellFormed();
  }

  /** One field of a hashed object, recovered from the hash. */
  lemma HashedField(a: seq<Field<Json>>, b: seq<Field<Json>>, i: nat)
    requires WellFormed(Obj(a)) && WellFormed(Obj(b)) && ContentHash(Obj(a)) == ContentHash(Obj(b))
    requires i < |a| && i < |b| && a[i].key == b[i].key
    ensures Normalize(a[i].value) == Normalize(b[i].value)
  {
    hide WellFormed, Lookup, SortByKey, NormalizeFields, ContentHash;
    HashIsInjective(Obj(a), Obj(b));
    assert UniqueKeys(a) && UniqueKeys(b) by {
      ObjectKeys(a);
      ObjectKeys(b);
    }
    LookupAt(a, i);
    LookupAt(b, i);
    LookupNormalized(a, a[i].key);
    LookupNormalized(b, a[i].key);
  }

  lemma ObjectKeys(fields: seq<Field<Json>>)
    requires WellFormed(Obj(fields))
    ensures UniqueKeys(fields)
  {
  }

  /** A contract hash determines the contract, up to key order in its schema. */
  lemma ContractHashDetermines(c: Contract, d: Contract)
    requires WellFormed(c.arguments) && WellFormed(d.arguments) && ContractHash(c) == ContractHash(d)
    ensures c.identity == d.identity && c.version == d.version && c.readOnly == d.readOnly
    ensures Normalize(c.arguments) == Normalize(d.arguments)
  {
    hide WellFormed, ContentHash, SortByKey, NormalizeFields;
    ContractKeys(c);
    ContractKeys(d);
    var a, b := ContractFields(c), ContractFields(d);
    HashedField(a, b, 1);
    HashedField(a, b, 2);
    HashedField(a, b, 3);
    HashedField(a, b, 4);
    HashedField(a, b, 5);
    HashedField(a, b, 6);
  }

  /** An action hash determines the action, up to key order in its arguments. */
  lemma ActionHashDetermines(c: Action, d: Action)
    requires WellFormed(c.arguments) && WellFormed(d.arguments) && ActionHash(c) == ActionHash(d)
    ensures c.identity == d.identity && c.contractHash == d.contractHash && Normalize(c.arguments) == Normalize(d.arguments)
  {
    hide WellFormed, ContentHash, SortByKey, NormalizeFields;
    ActionKeys(c);
    ActionKeys(d);
    var a, b := ActionFields(c), ActionFields(d);
    HashedField(a, b, 0);
    HashedField(a, b, 1);
    HashedField(a, b, 2);
    HashedField(a, b, 3);
    HashedField(a, b, 4);
  }

  // ----- contracts as they are made -----

  /** The schema is admitted and declares the object type. */
  predicate ContractOk(c: Contract) {
    && WellFormed(c.arguments)
    && SchemaOk(c.arguments, 0)
    && Lookup(c.arguments.fields, TYPE).Some?
    && Declares(Lookup(c.arguments.fields, TYPE), OBJECT_TYPE)
  }

  /** The checks of a contract: a snapshot of the schema, stripped, admitted and for objects. */
  function MakeContract(identity: Identity, schema: Json, version: Text, readOnly: bool): Option<Contract> {
    var taken := Snapshot(schema, MAX_SCHEMA_BYTES);
    if taken.None? || !taken.value.Obj? then None
    else
      var stripped := Obj(Strip(taken.value.fields));
      if !SchemaOk(stripped, 0) || Lookup(stripped.fields, TYPE).None? || !Declares(Lookup(stripped.fields, TYPE), OBJECT_TYPE)
      then None
      else Some(Contract(identity, stripped, version, readOnly))
  }

  /** A contract admits exactly the arguments its annotated schema admits. */
  lemma ContractMeansItsSchema(identity: Identity, schema: Json, version: Text, readOnly: bool, arguments: Json)
    requires WellFormed(schema) && WellFormed(arguments) && MakeContract(identity, schema, version, readOnly).Some?
    ensures var c := MakeContract(identity, schema, version, readOnly).value;
            ContractOk(c) && (CheckValue(Normalize(arguments), c.arguments).Passes? <==> CheckValue(arguments, schema).Passes?)
  {
    hide CheckValue, SchemaOk, WellFormed, Strip, Snapshot, Normalize;
    SnapshotSorts(schema, MAX_SCHEMA_BYTES);
    var taken := Snapshot(schema, MAX_SCHEMA_BYTES).value;
    assert UniqueKeys(taken.fields) && forall i :: 0 <= i < |taken.fields| ==> WellFormed(taken.fields[i].value) by {
      FieldsOfObject(taken);
    }
    StripWellFormed(taken.fields);
    StripKeepsMeaning(Normalize(arguments), taken);
    SchemaOrder.CheckNormalizes(arguments, schema);
  }

  lemma FieldsOfObject(v: Json)
    requires v.Obj? && WellFormed(v)
    ensures UniqueKeys(v.fields) && forall i :: 0 <= i < |v.fields| ==> WellFormed(v.fields[i].value)
  {
  }

  /** Contracts with the same hash admit the same arguments. */
  lemma SameHashSameAdmission(c: Contract, d: Contract, arguments: Json)
    requires WellFormed(c.arguments) && WellFormed(d.arguments) && ContractHash(c) == ContractHash(d) && WellFormed(arguments)
    ensures Admits(c.arguments, arguments) <==> Admits(d.arguments, arguments)
  {
    hide Admits, WellFormed, Normalize, ContractHash;
    ContractHashDetermines(c, d);
    SchemaOrder.AdmitsNormalizes(c.arguments, arguments);
    SchemaOrder.AdmitsNormalizes(d.arguments, arguments);
  }
}
