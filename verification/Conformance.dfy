/**
 * What it means for a value to conform to a schema, stated keyword by keyword
 * without outcomes or order of checks, and the proof that validation decides it.
 */
module Conformance {
  import opened Texts
  import opened Json
  import opened Schemas
  import opened SchemaSafety
  import SchemaOrder

  // ----- the keywords one by one -----

  /** The value is of the JSON type with this name; an integer is also a number. */
  predicate OfType(v: Json, name: Text) {
    || (v.Null? && name == NULL_TYPE)
    || (v.Bool? && name == BOOLEAN_TYPE)
    || (v.Int? && (name == INTEGER_TYPE || name == NUMBER_TYPE))
    || (v.Str? && name == STRING_TYPE)
    || (v.Arr? && name == ARRAY_TYPE)
    || (v.Obj? && name == OBJECT_TYPE)
  }

  /** The `type` keyword is the name, or lists it. */
  predicate Names(declared: Json, name: Text) {
    declared == Str(name) || (declared.Arr? && Str(name) in declared.items)
  }

  /** Some named type is the value's. */
  ghost predicate Typed(v: Json, declared: Option<Json>) {
    declared.Some? ==> exists name: Text :: Names(declared.value, name) && OfType(v, name)
  }

  /** Some entry is the value, up to key order. */
  predicate Enumerated(v: Json, entries: Option<Json>) {
    entries.Some? && entries.value.Arr? ==>
      exists i :: 0 <= i < |entries.value.items| && Normalize(entries.value.items[i]) == Normalize(v)
  }

  predicate Between(n: int, low: Option<Json>, high: Option<Json>) {
    && (low.Some? && low.value.Int? ==> low.value.number <= n)
    && (high.Some? && high.value.Int? ==> n <= high.value.number)
  }

  /** A number's value, a string's length, and the count of items or properties are within their bounds. */
  predicate Measured(v: Json, s: seq<Field<Json>>) {
    match v
    case Int(n) => Between(n, Lookup(s, MINIMUM), Lookup(s, MAXIMUM))
    case Str(t) => Between(|t|, Lookup(s, MIN_LENGTH), Lookup(s, MAX_LENGTH))
    case Arr(items) => Between(|items|, Lookup(s, MIN_ITEMS), Lookup(s, MAX_ITEMS))
    case Obj(fields) => Between(|fields|, Lookup(s, MIN_PROPERTIES), Lookup(s, MAX_PROPERTIES))
    case _ => true
  }

  /** Every required name is a key. */
  predicate Complete(fields: seq<Field<Json>>, required: Option<Json>) {
    required.Some? && required.value.Arr? ==>
      forall i :: 0 <= i < |required.value.items| ==>
        required.value.items[i].Str? && HasKey(fields, required.value.items[i].text)
  }

  /** What a schema demands of the value under a key. */
  datatype Rule = Anything | Nothing | Under(schema: Json)

  function RuleFor(s: seq<Field<Json>>, key: Text): Rule {
    var properties, additional := Lookup(s, PROPERTIES), Lookup(s, ADDITIONAL);
    if properties.Some? && properties.value.Obj? && HasKey(properties.value.fields, key) then
      Under(Lookup(properties.value.fields, key).value)
    else if additional.Some? && additional.value.Obj? then Under(additional.value)
    else if additional == Some(Bool(false)) then Nothing
    else Anything
  }

  /** The value conforms to the schema, and so does every part of it to the schema that governs it. */
  ghost predicate Conforms(v: Json, s: Json)
    decreases v, 2
  {
    && s.Obj?
    && Typed(v, Lookup(s.fields, TYPE))
    && Enumerated(v, Lookup(s.fields, ENUM))
    && Measured(v, s.fields)
    && PartsConform(v, s.fields)
  }

  ghost predicate PartsConform(v: Json, s: seq<Field<Json>>)
    decreases v, 1
  {
    && (v.Arr? && Lookup(s, ITEMS).Some? ==> forall i :: 0 <= i < |v.items| ==> Conforms(v.items[i], Lookup(s, ITEMS).value))
    && (v.Obj? ==> Complete(v.fields, Lookup(s, REQUIRED)) && forall i :: 0 <= i < |v.fields| ==> FieldConforms(v.fields[i], s))
  }

  ghost predicate FieldConforms(f: Field<Json>, s: seq<Field<Json>>)
    decreases f, 0
  {
    var rule := RuleFor(s, f.key);
    !rule.Nothing? && (rule.Under? ==> Conforms(f.value, rule.schema))
  }

  // ----- validation decides conformance -----

  lemma TypesDiffer()
    ensures |NULL_TYPE| == 4 && |BOOLEAN_TYPE| == 7 && |INTEGER_TYPE| == 7 && |NUMBER_TYPE| == 6 && |STRING_TYPE| == 6
    ensures |ARRAY_TYPE| == 5 && |OBJECT_TYPE| == 6 && BOOLEAN_TYPE != INTEGER_TYPE
    ensures NUMBER_TYPE != STRING_TYPE && NUMBER_TYPE != OBJECT_TYPE && STRING_TYPE != OBJECT_TYPE
  {
    assert BOOLEAN_TYPE[0] == 'b' as int && INTEGER_TYPE[0] == 'i' as int;
    assert NUMBER_TYPE[0] == 'n' as int && STRING_TYPE[0] == 's' as int && OBJECT_TYPE[0] == 'o' as int;
  }

  lemma MatchesExact(v: Json, name: Json)
    requires name.Str? && IsType(name.text)
    ensures MatchesType(v, name) == Some(OfType(v, name.text))
  {
    TypesDiffer();
  }

  lemma {:induction false} AnyTypeExact(v: Json, names: seq<Json>)
    requires forall i :: 0 <= i < |names| ==> names[i].Str? && IsType(names[i].text)
    ensures AnyType(v, names).Passes? <==> exists name: Text :: Str(name) in names && OfType(v, name)
  {
    hide OfType, IsType, MatchesType;
    if names != [] {
      MatchesExact(v, names[0]);
      AnyTypeExact(v, names[1..]);
      assert names == [names[0]] + names[1..];
      assert names[0] == Str(names[0].text);
    }
  }

  lemma TypeExact(v: Json, declared: Option<Json>)
    requires declared.Some? ==> TypeOk(declared.value)
    ensures CheckType(v, declared).Passes? <==> Typed(v, declared)
  {
    hide OfType, IsType, AnyType;
    if declared.Some? {
      var names := if declared.value.Arr? then declared.value.items else [declared.value];
      AnyTypeExact(v, names);
      assert forall name: Text :: Str(name) in names <==> Names(declared.value, name);
    }
  }

  lemma EnumExact(v: Json, entries: Option<Json>)
    requires WellFormed(v) && (entries.Some? ==> entries.value.Arr? && WellFormed(entries.value))
    ensures CheckEnum(v, entries).Passes? <==> Enumerated(v, entries)
  {
    hide JsonEqual, Normalize;
    if entries.Some? {
      forall i | 0 <= i < |entries.value.items|
        ensures JsonEqual(v, entries.value.items[i]) <==> Normalize(entries.value.items[i]) == Normalize(v)
      {
        SchemaOrder.JsonEqualIsEqual(v, entries.value.items[i]);
        EqualIsSameNormalForm(v, entries.value.items[i]);
      }
    }
  }

  lemma {:induction false} PresentExact(names: seq<Json>, fields: seq<Field<Json>>)
    requires forall i :: 0 <= i < |names| ==> names[i].Str?
    ensures EachPresent(names, fields).Passes? <==> forall i :: 0 <= i < |names| ==> HasKey(fields, names[i].text)
  {
    if names != [] {
      PresentExact(names[1..], fields);
      assert names == [names[0]] + names[1..];
    }
  }

  /** Validation against an admitted schema without null keywords passes exactly the values that conform to it. */
  lemma {:induction false} ValidationDecides(v: Json, s: Json, depth: nat)
    requires Usable(s, depth) && WellFormed(v) && WellFormed(s)
    ensures CheckValue(v, s).Passes? <==> Conforms(v, s)
    decreases v, 2
  {
    hide TypeOk, Compatible, RequiredOk, PropertiesOk, NestedOk, KeysKnown, AllBoundsOk, Lookup, NullFree, SpellingsOk,
      Typed, Enumerated, CheckType, CheckEnum, Measured, PartsConform, CheckShape;
    assert WellFormed(Obj(s.fields)) && s == Obj(s.fields);
    SchemaOrder.KeywordNormalizes(s.fields, ENUM);
    TypeExact(v, Lookup(s.fields, TYPE));
    EnumExact(v, Lookup(s.fields, ENUM));
    ShapeDecides(v, s, depth);
  }

  lemma {:induction false} ShapeDecides(v: Json, s: Json, depth: nat)
    requires Usable(s, depth) && s.Obj? && WellFormed(v) && WellFormed(s)
    ensures CheckShape(v, s.fields).Passes? <==> Measured(v, s.fields) && PartsConform(v, s.fields)
    decreases v, 1
  {
    hide TypeOk, Compatible, Listed, KeysKnown, CheckItems, CheckFields, Lookup, EnumOk, SchemaOk, NullFree, EachPresent, Conforms, FieldConforms,
      Complete, CheckRequired;
    assert AllBoundsOk(s) by {
      BoundsOfUsable(s, depth);
    }
    if v.Arr? {
      ItemsDecide(v.items, s, depth);
    } else if v.Obj? {
      RequiredDecides(v.fields, s, depth);
      FieldsDecide(v.fields, s, depth);
    }
  }

  lemma RequiredDecides(fields: seq<Field<Json>>, s: Json, depth: nat)
    requires Usable(s, depth) && s.Obj?
    ensures CheckRequired(fields, Lookup(s.fields, REQUIRED)).Passes? <==> Complete(fields, Lookup(s.fields, REQUIRED))
  {
    hide TypeOk, Compatible, KeysKnown, PropertiesOk, NestedOk, EnumOk, AllBoundsOk, Lookup, EachPresent, EachNullFree;
    var required := Lookup(s.fields, REQUIRED);
    if required.Some? && required.value.Arr? {
      PresentExact(required.value.items, fields);
    }
  }

  lemma {:induction false} ItemsDecide(items: seq<Json>, s: Json, depth: nat)
    requires Usable(s, depth) && s.Obj? && WellFormed(s) && forall i :: 0 <= i < |items| ==> WellFormed(items[i])
    ensures CheckItems(items, Lookup(s.fields, ITEMS)).Passes?
            <==> (Lookup(s.fields, ITEMS).Some? ==> forall i :: 0 <= i < |items| ==> Conforms(items[i], Lookup(s.fields, ITEMS).value))
    decreases items, 0
  {
    hide TypeOk, Compatible, KeysKnown, PropertiesOk, EnumOk, AllBoundsOk, RequiredOk, Lookup, CheckValue, EachNullFree, Conforms;
    var schema := Lookup(s.fields, ITEMS);
    if items != [] && schema.Some? {
      assert Member(s, ITEMS) == schema && NestedOk(s, depth);
      SchemaOrder.KeywordNormalizes(s.fields, ITEMS);
      ValidationDecides(items[0], schema.value, depth + 1);
      ItemsDecide(items[1..], s, depth);
      assert items == [items[0]] + items[1..];
    }
  }

  lemma {:induction false} FieldsDecide(fields: seq<Field<Json>>, s: Json, depth: nat)
    requires Usable(s, depth) && s.Obj? && WellFormed(s) && forall i :: 0 <= i < |fields| ==> WellFormed(fields[i].value)
    ensures CheckFields(fields, Lookup(s.fields, PROPERTIES), Lookup(s.fields, ADDITIONAL)).Passes?
            <==> forall i :: 0 <= i < |fields| ==> FieldConforms(fields[i], s.fields)
    decreases fields, 0
  {
    hide Usable, CheckField, Lookup, FieldConforms, WellFormed;
    if fields != [] {
      FieldDecides(fields[0], s, depth);
      FieldsDecide(fields[1..], s, depth);
      assert fields == [fields[0]] + fields[1..];
    }
  }

  lemma {:induction false} FieldDecides(f: Field<Json>, s: Json, depth: nat)
    requires Usable(s, depth) && s.Obj? && WellFormed(s) && WellFormed(f.value)
    ensures CheckField(f, Lookup(s.fields, PROPERTIES), Lookup(s.fields, ADDITIONAL)).Passes? <==> FieldConforms(f, s.fields)
    decreases f, 0
  {
    hide TypeOk, Compatible, KeysKnown, EnumOk, AllBoundsOk, RequiredOk, Lookup, CheckValue, EachNullFree, ChildrenOk, Conforms;
    var properties, additional := Lookup(s.fields, PROPERTIES), Lookup(s.fields, ADDITIONAL);
    assert Member(s, PROPERTIES) == properties && Member(s, ADDITIONAL) == additional;
    assert PropertiesOk(s, depth) && NestedOk(s, depth);
    SchemaOrder.KeywordNormalizes(s.fields, PROPERTIES);
    SchemaOrder.KeywordNormalizes(s.fields, ADDITIONAL);
    if properties.Some? {
      LookupFindsKey(properties.value.fields, f.key);
      PropertyUsable(properties.value.fields, depth + 2, f.key);
      var own := Lookup(properties.value.fields, f.key);
      if own.Some? {
        SchemaOrder.KeywordNormalizes(properties.value.fields, f.key);
        ValidationDecides(f.value, own.value, depth + 2);
      }
    }
    if additional.Some? && additional.value.Obj? {
      ValidationDecides(f.value, additional.value, depth + 1);
    }
  }
}
