/**
 * What the registry keeps in its key-value cells, and the JSON each cell is
 * written as.  A content hash is modelled as the canonical text it digests: the
 * digest is taken to be free of collisions.
 */
module Cells {
  import opened Texts
  import opened Json
  import opened Canonical
  import opened Reader

  datatype Lifecycle = Draft | Active | Retired

  /** One version of a crystal, as its alias lists it. */
  datatype Entry = Entry(version: int, contentHash: Text, programHash: Text, state: Lifecycle, revision: int)

  /** The mutable cell of one crystal name. */
  datatype Alias = Alias(name: Text, description: Text, revision: int, latest: int, active: Option<int>, versions: seq<Entry>)

  /** The immutable artifact of one version. */
  datatype Record = Record(name: Text, version: int, revision: int, description: Text, programHash: Text,
                           program: Json, tests: Json, metadata: Json)

  /** The run counters of one version. */
  datatype Telemetry = Telemetry(contentHash: Text, runCount: int, avoided: int, revision: int)

  /** The catalog of known names. */
  datatype Catalog = Catalog(revision: int, names: seq<Text>)

  const MAX_STORED_BYTES := 2 * 1024 * 1024

  function ContentHash(v: Json): Text {
    Render(v)
  }

  /** Equal hashes mean values equal up to key order. */
  lemma HashIsInjective(a: Json, b: Json)
    requires WellFormed(a) && WellFormed(b)
    ensures ContentHash(a) == ContentHash(b) <==> Normalize(a) == Normalize(b)
  {
    hide Render;
    RenderIsUnambiguous(a, b);
  }

  // ----- the JSON of the catalog -----

  const CATALOG_SCHEMA := Ascii("crystalflow.index.v1")
  const NAMES := Ascii("names")

  function CatalogJson(c: Catalog): Json {
    Obj([Field(SCHEMA, Str(CATALOG_SCHEMA)), Field(REVISION, Int(c.revision)),
         Field(NAMES, Arr(seq(|c.names|, i requires 0 <= i < |c.names| => Str(c.names[i]))))])
  }

  /** The catalog is small enough for its cell. */
  predicate CatalogFits(c: Catalog) {
    |Utf8Encode(Render(CatalogJson(c)))| <= MAX_STORED_BYTES
  }

  // ----- the JSON of a record -----

  const SCHEMA := Ascii("schema")
  const RECORD_SCHEMA := Ascii("crystalflow.version.v1")
  const NAME := Ascii("name")
  const VERSION := Ascii("version")
  const REVISION := Ascii("revision")
  const DESCRIPTION := Ascii("description")
  const PROGRAM_HASH := Ascii("program_hash")
  const PROGRAM := Ascii("program")
  const TESTS := Ascii("tests")
  const METADATA := Ascii("metadata")

  function RecordFields(r: Record): seq<Field<Json>> {
    [Field(SCHEMA, Str(RECORD_SCHEMA)), Field(NAME, Str(r.name)), Field(VERSION, Int(r.version)),
     Field(REVISION, Int(r.revision)), Field(DESCRIPTION, Str(r.description)), Field(PROGRAM_HASH, Str(r.programHash)),
     Field(PROGRAM, r.program), Field(TESTS, r.tests), Field(METADATA, r.metadata)]
  }

  function RecordJson(r: Record): Json {
    Obj(RecordFields(r))
  }

  function TextAt(fields: seq<Field<Json>>, key: Text): Option<Text> {
    var v := Lookup(fields, key);
    if v.Some? && v.value.Str? then Some(v.value.text) else None
  }

  function IntAt(fields: seq<Field<Json>>, key: Text): Option<int> {
    var v := Lookup(fields, key);
    if v.Some? && v.value.Int? then Some(v.value.number) else None
  }

  /** The record a stored JSON value spells, if it spells one. */
  function RecordOf(j: Json): Option<Record> {
    if !j.Obj? || TextAt(j.fields, SCHEMA) != Some(RECORD_SCHEMA) then None
    else
      var name, version, revision := TextAt(j.fields, NAME), IntAt(j.fields, VERSION), IntAt(j.fields, REVISION);
      var description, programHash := TextAt(j.fields, DESCRIPTION), TextAt(j.fields, PROGRAM_HASH);
      var program, tests, metadata := Lookup(j.fields, PROGRAM), Lookup(j.fields, TESTS), Lookup(j.fields, METADATA);
      if name.Some? && version.Some? && revision.Some? && description.Some? && programHash.Some?
         && program.Some? && tests.Some? && metadata.Some? then
        Some(Record(name.value, version.value, revision.value, description.value, programHash.value,
                    program.value, tests.value, metadata.value))
      else None
  }

  /** A snapshot: well formed, encodable and in key order. */
  predicate IsSnapshot(v: Json) {
    WellFormed(v) && Clean(v) && Normalize(v) == v
  }

  predicate IsStored(r: Record) {
    IsSnapshot(r.program) && IsSnapshot(r.tests) && IsSnapshot(r.metadata)
    && Encodable(r.name) && Encodable(r.description) && Encodable(r.programHash)
  }

  lemma RecordKeysUnique(r: Record)
    ensures UniqueKeys(RecordFields(r))
  {
    assert |SCHEMA| == 6 && |NAME| == 4 && |VERSION| == 7 && |REVISION| == 8 && |DESCRIPTION| == 11;
    assert |PROGRAM_HASH| == 12 && |PROGRAM| == 7 && |TESTS| == 5 && |METADATA| == 8;
    assert VERSION[0] == 'v' as int && PROGRAM[0] == 'p' as int && REVISION[0] == 'r' as int && METADATA[0] == 'm' as int;
  }

  lemma RecordWellFormed(r: Record)
    requires IsStored(r)
    ensures WellFormed(RecordJson(r)) && Clean(RecordJson(r))
  {
    hide WellFormed, Clean, UniqueKeys;
    RecordKeysUnique(r);
    var fields := RecordFields(r);
    assert forall t :: WellFormed(Str(t)) && (Encodable(t) ==> Clean(Str(t))) by {
      ScalarsWellFormed();
    }
    assert forall n :: WellFormed(Int(n)) && Clean(Int(n)) by {
      ScalarsWellFormed();
    }
    AsciiEncodable("schema");
    AsciiEncodable("crystalflow.version.v1");
    AsciiEncodable("name");
    AsciiEncodable("version");
    AsciiEncodable("revision");
    AsciiEncodable("description");
    AsciiEncodable("program_hash");
    AsciiEncodable("program");
    AsciiEncodable("tests");
    AsciiEncodable("metadata");
    ObjectWellFormed(fields);
  }

  lemma ScalarsWellFormed()
    ensures forall t :: WellFormed(Str(t)) && (Encodable(t) ==> Clean(Str(t)))
    ensures forall n :: WellFormed(Int(n)) && Clean(Int(n))
  {
  }

  lemma AsciiEncodable(s: string)
    requires forall i :: 0 <= i < |s| ==> s[i] as int < 0x80
    ensures Encodable(Ascii(s))
  {
  }

  lemma ObjectWellFormed(fields: seq<Field<Json>>)
    requires UniqueKeys(fields)
    requires forall i :: 0 <= i < |fields| ==> WellFormed(fields[i].value) && Encodable(fields[i].key) && Clean(fields[i].value)
    ensures WellFormed(Obj(fields)) && Clean(Obj(fields))
  {
  }

  /** What each key of a written record is read back as. */
  lemma RecordField(r: Record, i: nat)
    requires i < 9
    ensures var f := RecordFields(r)[i]; Lookup(Normalize(RecordJson(r)).fields, f.key) == Some(Normalize(f.value))
  {
    hide Lookup, NormalizeFields, SortByKey;
    RecordKeysUnique(r);
    LookupAt(RecordFields(r), i);
    LookupNormalized(RecordFields(r), RecordFields(r)[i].key);
  }

  lemma {:induction false} RecordDecodes(r: Record)
    requires IsStored(r)
    ensures RecordOf(Normalize(RecordJson(r))) == Some(r)
  {
    hide Lookup, NormalizeFields, SortByKey, WellFormed, Clean;
    forall i | 0 <= i < 9
      ensures var f := RecordFields(r)[i]; Lookup(Normalize(RecordJson(r)).fields, f.key) == Some(Normalize(f.value))
    {
      RecordField(r, i);
    }
    var fields := RecordFields(r);
    assert fields[0].key == SCHEMA && fields[1].key == NAME && fields[2].key == VERSION && fields[3].key == REVISION;
    assert fields[4].key == DESCRIPTION && fields[5].key == PROGRAM_HASH && fields[6].key == PROGRAM;
    assert fields[7].key == TESTS && fields[8].key == METADATA;
  }

  /** The bytes written for a record read back, in strict canonical form, as that record. */
  lemma RecordRoundTrip(r: Record)
    requires IsStored(r) && |Utf8Encode(Render(RecordJson(r)))| <= MAX_STORED_BYTES
    ensures CanonicalBytes(RecordJson(r)).Some?
    ensures var read := JsonFromBytes(CanonicalBytes(RecordJson(r)).value, true, MAX_STORED_BYTES);
            read.Some? && RecordOf(read.value) == Some(r) && ContentHash(read.value) == ContentHash(RecordJson(r))
  {
    hide WellFormed, Clean, Normalize, Render, RecordOf, RecordFields;
    RecordWellFormed(r);
    StoredRoundTrip(RecordJson(r), true, MAX_STORED_BYTES);
    RecordDecodes(r);
    RenderNormalizes(RecordJson(r));
  }

  /** The content hash of a record determines the record. */
  lemma RecordHashDetermines(a: Record, b: Record)
    requires IsStored(a) && IsStored(b) && ContentHash(RecordJson(a)) == ContentHash(RecordJson(b))
    ensures a == b
  {
    hide WellFormed, Clean, Normalize, Render, RecordOf, RecordFields, IsStored;
    RecordWellFormed(a);
    RecordWellFormed(b);
    HashIsInjective(RecordJson(a), RecordJson(b));
    RecordDecodes(a);
    RecordDecodes(b);
  }

  // ----- snapshots -----

  /** `_snapshot`: canonical bytes within a limit, decoded again. */
  function Snapshot(v: Json, maxBytes: nat): Option<Json> {
    match CanonicalBytes(v)
    case None => None
    case Some(raw) => if |raw| > maxBytes then None else JsonFromBytes(raw, false, MAX_STORED_BYTES)
  }

  /** A snapshot is the value with its keys sorted, and has the same hash. */
  lemma SnapshotSorts(v: Json, maxBytes: nat)
    requires WellFormed(v) && maxBytes <= MAX_STORED_BYTES
    ensures Snapshot(v, maxBytes).Some? <==> Clean(v) && |Utf8Encode(Render(v))| <= maxBytes
    ensures Snapshot(v, maxBytes).Some? ==>
              var s := Snapshot(v, maxBytes).value;
              s == Normalize(v) && IsSnapshot(s) && ContentHash(s) == ContentHash(v) && (s.Obj? <==> v.Obj?)
  {
    hide WellFormed, Clean, Normalize, Render;
    if Clean(v) {
      StoredRoundTrip(v, false, MAX_STORED_BYTES);
      NormalizeClean(v);
      NormalizeWellFormed(v);
      NormalizeIdempotent(v);
      RenderNormalizes(v);
      NormalKeepsKind(v);
    }
  }

  lemma NormalKeepsKind(v: Json)
    ensures Normalize(v).Obj? <==> v.Obj?
  {
  }

  lemma HashEncodable(v: Json)
    requires Clean(v)
    ensures Encodable(ContentHash(v))
  {
    RenderEncodable(v);
  }
}
