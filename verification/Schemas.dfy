/**
 * The JSON Schema subset that guards program inputs, outputs and tool routes:
 * which schemas are admitted, which values a schema admits, and the removal of
 * documentation annotations.
 */
module Schemas {
  import opened Texts
  import opened Json
  import opened Canonical
  import Reader

  const MAX_SCHEMA_PATH_PARTS := 128

  const TYPE := Ascii("type")
  const PROPERTIES := Ascii("properties")
  const REQUIRED := Ascii("required")
  const ADDITIONAL := Ascii("additionalProperties")
  const ITEMS := Ascii("items")
  const ENUM := Ascii("enum")
  const MINIMUM := Ascii("minimum")
  const MAXIMUM := Ascii("maximum")
  const MIN_LENGTH := Ascii("minLength")
  const MAX_LENGTH := Ascii("maxLength")
  const MIN_ITEMS := Ascii("minItems")
  const MAX_ITEMS := Ascii("maxItems")
  const MIN_PROPERTIES := Ascii("minProperties")
  const MAX_PROPERTIES := Ascii("maxProperties")

  const NULL_TYPE := Ascii("null")
  const BOOLEAN_TYPE := Ascii("boolean")
  const INTEGER_TYPE := Ascii("integer")
  const NUMBER_TYPE := Ascii("number")
  const STRING_TYPE := Ascii("string")
  const ARRAY_TYPE := Ascii("array")
  const OBJECT_TYPE := Ascii("object")

  predicate IsKeyword(key: Text) {
    || key == TYPE || key == PROPERTIES || key == REQUIRED || key == ADDITIONAL || key == ITEMS || key == ENUM
    || key == MINIMUM || key == MAXIMUM || key == MIN_LENGTH || key == MAX_LENGTH || key == MIN_ITEMS || key == MAX_ITEMS
    || key == MIN_PROPERTIES || key == MAX_PROPERTIES
  }

  predicate IsType(name: Text) {
    || name == NULL_TYPE || name == BOOLEAN_TYPE || name == INTEGER_TYPE || name == NUMBER_TYPE
    || name == STRING_TYPE || name == ARRAY_TYPE || name == OBJECT_TYPE
  }

  // ----- admitted schemas -----

  predicate TypeNamesOk(names: seq<Json>) {
    && (forall i :: 0 <= i < |names| ==> names[i].Str? && IsType(names[i].text))
    && (forall i, j :: 0 <= i < j < |names| ==> names[i] != names[j])
  }

  predicate TypeOk(declared: Json) {
    if declared.Arr? then declared.items != [] && TypeNamesOk(declared.items)
    else declared.Str? && IsType(declared.text)
  }

  /** Whether a keyword that needs the given type may stand beside the `type` keyword. */
  predicate Declares(declared: Option<Json>, name: Text) {
    declared.None? || declared.value == Str(name) || (declared.value.Arr? && Str(name) in declared.value.items)
  }

  predicate Compatible(s: Json)
    requires s.Obj?
  {
    var declared, fs := Lookup(s.fields, TYPE), s.fields;
    && ((HasKey(fs, PROPERTIES) || HasKey(fs, REQUIRED) || HasKey(fs, ADDITIONAL)) ==> Declares(declared, OBJECT_TYPE))
    && ((HasKey(fs, MIN_PROPERTIES) || HasKey(fs, MAX_PROPERTIES)) ==> Declares(declared, OBJECT_TYPE))
    && (HasKey(fs, ITEMS) || HasKey(fs, MIN_ITEMS) || HasKey(fs, MAX_ITEMS) ==> Declares(declared, ARRAY_TYPE))
    && (HasKey(fs, MIN_LENGTH) || HasKey(fs, MAX_LENGTH) ==> Declares(declared, STRING_TYPE))
    && (HasKey(fs, MINIMUM) || HasKey(fs, MAXIMUM)
        ==> Declares(declared, NUMBER_TYPE) || Declares(declared, INTEGER_TYPE))
  }

  predicate RequiredOk(names: Json) {
    names.Null? ||
    (names.Arr?
     && (forall i :: 0 <= i < |names.items| ==> names.items[i].Str?)
     && (forall i, j :: 0 <= i < j < |names.items| ==> names.items[i] != names.items[j]))
  }

  /** Every entry can be printed, and no two print alike. */
  predicate SpellingsOk(items: seq<Json>) {
    && (forall i :: 0 <= i < |items| ==> Clean(items[i]))
    && (forall i, j :: 0 <= i < j < |items| ==> Render(items[i]) != Render(items[j]))
  }

  predicate EnumOk(entries: Json) {
    entries.Arr? && entries.items != [] && SpellingsOk(entries.items)
  }

  /** Both bounds are integers of the least allowed size, and not inverted. */
  predicate BoundsOk(low: Option<Json>, high: Option<Json>, natural: bool) {
    && (low.Some? ==> low.value.Int? && (natural ==> low.value.number >= 0))
    && (high.Some? ==> high.value.Int? && (natural ==> high.value.number >= 0))
    && (low.Some? && high.Some? ==> low.value.number <= high.value.number)
  }

  predicate AllBoundsOk(s: Json)
    requires s.Obj?
  {
    && BoundsOk(Lookup(s.fields, MINIMUM), Lookup(s.fields, MAXIMUM), false)
    && BoundsOk(Lookup(s.fields, MIN_LENGTH), Lookup(s.fields, MAX_LENGTH), true)
    && BoundsOk(Lookup(s.fields, MIN_ITEMS), Lookup(s.fields, MAX_ITEMS), true)
    && BoundsOk(Lookup(s.fields, MIN_PROPERTIES), Lookup(s.fields, MAX_PROPERTIES), true)
  }

  predicate KeysKnown(fields: seq<Field<Json>>) {
    forall i :: 0 <= i < |fields| ==> IsKeyword(fields[i].key)
  }

  /** `validate_schema` at a path of the given length. */
  predicate SchemaOk(s: Json, depth: nat)
    decreases s, 2
  {
    && depth <= MAX_SCHEMA_PATH_PARTS
    && s.Obj?
    && KeysKnown(s.fields)
    && (HasKey(s.fields, TYPE) ==> TypeOk(Lookup(s.fields, TYPE).value))
    && Compatible(s)
    && PropertiesOk(s, depth)
    && (HasKey(s.fields, REQUIRED) ==> RequiredOk(Lookup(s.fields, REQUIRED).value))
    && NestedOk(s, depth)
    && (HasKey(s.fields, ENUM) ==> EnumOk(Lookup(s.fields, ENUM).value))
    && AllBoundsOk(s)
  }

  predicate PropertiesOk(s: Json, depth: nat)
    requires s.Obj?
    decreases s, 1
  {
    var properties := Member(s, PROPERTIES);
    properties.None? || properties.value.Null? ||
    (properties.value.Obj? && ChildrenOk(properties.value.fields, depth + 2))
  }

  /** `additionalProperties` and `items`. */
  predicate NestedOk(s: Json, depth: nat)
    requires s.Obj?
    decreases s, 1
  {
    var additional, items := Member(s, ADDITIONAL), Member(s, ITEMS);
    && (additional.None? || additional.value.Null? || additional.value.Bool? ||
        (additional.value.Obj? && SchemaOk(additional.value, depth + 1)))
    && (items.None? || SchemaOk(items.value, depth + 1))
  }

  predicate ChildrenOk(children: seq<Field<Json>>, depth: nat)
    decreases children, 0
  {
    children == [] || (SchemaOk(children[0].value, depth) && ChildrenOk(children[1..], depth))
  }

  // ----- admitted values -----

  /** `Broken` is a Python exception that is not a validation error. */
  datatype Outcome = Passes | Refused | Broken

  function Both(a: Outcome, b: Outcome): Outcome {
    if a.Passes? then b else a
  }

  function Decide(ok: bool): Outcome {
    if ok then Passes else Refused
  }

  /** `_matches_type`, with the assertion for an unknown name as None. */
  function MatchesType(v: Json, name: Json): Option<bool> {
    if name == Str(NULL_TYPE) then Some(v.Null?)
    else if name == Str(BOOLEAN_TYPE) then Some(v.Bool?)
    else if name == Str(INTEGER_TYPE) || name == Str(NUMBER_TYPE) then Some(v.Int?)
    else if name == Str(STRING_TYPE) then Some(v.Str?)
    else if name == Str(ARRAY_TYPE) then Some(v.Arr?)
    else if name == Str(OBJECT_TYPE) then Some(v.Obj?)
    else None
  }

  function AnyType(v: Json, names: seq<Json>): Outcome {
    if names == [] then Refused
    else
      var m := MatchesType(v, names[0]);
      if m.None? then Broken else if m.value then Passes else AnyType(v, names[1..])
  }

  function CheckType(v: Json, declared: Option<Json>): Outcome {
    if declared.None? || declared.value.Null? then Passes
    else if declared.value.Str? then AnyType(v, [declared.value])
    else if declared.value.Arr? then AnyType(v, declared.value.items)
    else Broken
  }

  /** `_json_equal`: numbers by value, Booleans apart from them, the rest by spelling. */
  predicate JsonEqual(left: Json, right: Json) {
    if left.Bool? || right.Bool? then left == right
    else if left.Int? && right.Int? then left.number == right.number
    else Render(left) == Render(right)
  }

  predicate Listed(v: Json, entries: seq<Json>) {
    exists i :: 0 <= i < |entries| && JsonEqual(v, entries[i])
  }

  function CheckEnum(v: Json, entries: Option<Json>): Outcome {
    if entries.None? then Passes
    else if !entries.value.Arr? then Broken
    else Decide(Listed(v, entries.value.items))
  }

  function CheckBounds(n: int, low: Option<Json>, high: Option<Json>): Outcome {
    Both(if low.None? then Passes else if !low.value.Int? then Broken else Decide(n >= low.value.number),
         if high.None? then Passes else if !high.value.Int? then Broken else Decide(n <= high.value.number))
  }

  function EachPresent(names: seq<Json>, fields: seq<Field<Json>>): Outcome {
    if names == [] then Passes
    else if !names[0].Str? then Broken
    else Both(Decide(HasKey(fields, names[0].text)), EachPresent(names[1..], fields))
  }

  function CheckRequired(fields: seq<Field<Json>>, required: Option<Json>): Outcome {
    if required.None? then Passes
    else if !required.value.Arr? then Broken
    else EachPresent(required.value.items, fields)
  }

  /** `_validate_value`. */
  function CheckValue(v: Json, s: Json): Outcome
    decreases v, 2
  {
    if !s.Obj? then Broken
    else
      Both(CheckType(v, Lookup(s.fields, TYPE)),
           Both(CheckEnum(v, Lookup(s.fields, ENUM)), CheckShape(v, s.fields)))
  }

  /** The keywords that apply to one kind of value only. */
  function CheckShape(v: Json, s: seq<Field<Json>>): Outcome
    decreases v, 1
  {
    match v
    case Int(n) => CheckBounds(n, Lookup(s, MINIMUM), Lookup(s, MAXIMUM))
    case Str(t) => CheckBounds(|t|, Lookup(s, MIN_LENGTH), Lookup(s, MAX_LENGTH))
    case Arr(items) =>
      Both(CheckBounds(|items|, Lookup(s, MIN_ITEMS), Lookup(s, MAX_ITEMS)), CheckItems(items, Lookup(s, ITEMS)))
    case Obj(fields) =>
      Both(CheckBounds(|fields|, Lookup(s, MIN_PROPERTIES), Lookup(s, MAX_PROPERTIES)),
           Both(CheckRequired(fields, Lookup(s, REQUIRED)),
                CheckFields(fields, Lookup(s, PROPERTIES), Lookup(s, ADDITIONAL))))
    case _ => Passes
  }

  function CheckItems(items: seq<Json>, s: Option<Json>): Outcome
    decreases items, 0
  {
    if s.None? || items == [] then Passes else Both(CheckValue(items[0], s.value), CheckItems(items[1..], s))
  }

  function CheckFields(fields: seq<Field<Json>>, properties: Option<Json>, additional: Option<Json>): Outcome
    decreases fields, 0
  {
    if fields == [] then Passes
    else Both(CheckField(fields[0], properties, additional), CheckFields(fields[1..], properties, additional))
  }

  /** A field under its own schema, or under `additionalProperties`. */
  function CheckField(f: Field<Json>, properties: Option<Json>, additional: Option<Json>): Outcome
    decreases f, 0
  {
    if properties.Some? && !properties.value.Obj? then Broken
    else
      var own := if properties.None? then None else Lookup(properties.value.fields, f.key);
      if own.Some? then CheckValue(f.value, own.value)
      else if additional == Some(Bool(false)) then Refused
      else if additional.Some? && additional.value.Obj? then CheckValue(f.value, additional.value)
      else Passes
  }

  /** `validate_instance` succeeds. */
  predicate Admits(s: Json, v: Json) {
    SchemaOk(s, 0) && Clean(v) && CheckValue(v, s).Passes?
  }

  // ----- the schema validator as it runs -----

  /** `_validate_type_keyword`, which remembers the names it has seen. */
  method TypeKeyword(declared: Json) returns (ok: bool)
    ensures ok <==> TypeOk(declared)
  {
    hide IsType;
    if declared.Str? {
      return IsType(declared.text);
    }
    if !declared.Arr? || declared.items == [] {
      return false;
    }
    var names, seen: set<Text> := declared.items, {};
    for i := 0 to |names|
      invariant TypeNamesOk(names[..i])
      invariant forall t :: t in seen <==> Str(t) in names[..i]
    {
      if !names[i].Str? || !IsType(names[i].text) || names[i].text in seen {
        return false;
      }
      seen := seen + {names[i].text};
    }
    assert names[..|names|] == names;
    ok := true;
  }

  method RequiredNames(declared: Json) returns (ok: bool)
    ensures ok <==> RequiredOk(declared)
  {
    if declared.Null? {
      return true;
    }
    if !declared.Arr? {
      return false;
    }
    var names, seen: set<Text> := declared.items, {};
    for i := 0 to |names|
      invariant forall j :: 0 <= j < i ==> names[j].Str? && names[j].text in seen
      invariant forall j, k :: 0 <= j < k < i ==> names[j] != names[k]
      invariant forall t :: t in seen ==> Str(t) in names[..i]
    {
      if !names[i].Str? || names[i].text in seen {
        return false;
      }
      seen := seen + {names[i].text};
    }
    ok := true;
  }

  /** The `enum` loop, which remembers the canonical spellings it has seen. */
  method EnumSpellings(entries: Json) returns (ok: bool)
    ensures ok <==> EnumOk(entries)
  {
    hide Render, Clean;
    if !entries.Arr? || entries.items == [] {
      return false;
    }
    var items, spellings: set<Text> := entries.items, {};
    for i := 0 to |items|
      invariant SpellingsOk(items[..i])
      invariant forall t :: t in spellings <==> exists j :: 0 <= j < i && Render(items[j]) == t
    {
      if !Clean(items[i]) || Render(items[i]) in spellings {
        return false;
      }
      spellings := spellings + {Render(items[i])};
    }
    assert items[..|items|] == items;
    ok := true;
  }

  method ValidateSchema(s: Json, depth: nat) returns (ok: bool)
    ensures ok <==> SchemaOk(s, depth)
    decreases s, 2
  {
    hide IsKeyword, TypeOk, Compatible, RequiredOk, EnumOk, AllBoundsOk, PropertiesOk, NestedOk;
    if depth > MAX_SCHEMA_PATH_PARTS || !s.Obj? {
      return false;
    }
    for i := 0 to |s.fields|
      invariant KeysKnown(s.fields[..i])
    {
      if !IsKeyword(s.fields[i].key) {
        return false;
      }
    }
    assert s.fields[..|s.fields|] == s.fields;
    var declared := Lookup(s.fields, TYPE);
    if declared.Some? {
      ok := TypeKeyword(declared.value);
      if !ok {
        return;
      }
    }
    if !Compatible(s) {
      return false;
    }
    ok := ValidateProperties(s, depth);
    if !ok {
      return;
    }
    var required := Lookup(s.fields, REQUIRED);
    if required.Some? {
      ok := RequiredNames(required.value);
      if !ok {
        return;
      }
    }
    ok := ValidateNested(s, depth);
    if !ok {
      return;
    }
    var entries := Lookup(s.fields, ENUM);
    if entries.Some? {
      ok := EnumSpellings(entries.value);
      if !ok {
        return;
      }
    }
    ok := AllBoundsOk(s);
  }

  method ValidateProperties(s: Json, depth: nat) returns (ok: bool)
    requires s.Obj?
    ensures ok <==> PropertiesOk(s, depth)
    decreases s, 1
  {
    var properties := Member(s, PROPERTIES);
    if properties.None? || properties.value.Null? {
      return true;
    }
    if !properties.value.Obj? {
      return false;
    }
    var children := properties.value.fields;
    for i := 0 to |children|
      invariant ChildrenOk(children, depth + 2) <==> ChildrenOk(children[i..], depth + 2)
    {
      assert children[i..][0] == children[i] && children[i..][1..] == children[i + 1..];
      ok := ValidateSchema(children[i].value, depth + 2);
      if !ok {
        return;
      }
    }
    ok := true;
  }

  method ValidateNested(s: Json, depth: nat) returns (ok: bool)
    requires s.Obj?
    ensures ok <==> NestedOk(s, depth)
    decreases s, 1
  {
    hide SchemaOk;
    var additional, items := Member(s, ADDITIONAL), Member(s, ITEMS);
    if additional.Some? && !additional.value.Null? && !additional.value.Bool? {
      if !additional.value.Obj? {
        return false;
      }
      ok := ValidateSchema(additional.value, depth + 1);
      if !ok {
        return;
      }
    }
    ok := true;
    if items.Some? {
      ok := ValidateSchema(items.value, depth + 1);
    }
  }
}
