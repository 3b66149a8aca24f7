/**
 * What `null` under `properties` or `required` does: the schema validator admits
 * it, and checking a value can then end in an exception that is not a validation
 * error.  Exactly when, for one value and for all values.
 */
module NullKeywords {
  import opened Texts
  import opened Json
  import opened Schemas
  import opened SchemaSafety
  import Conformance
  import SchemaOrder

  // ----- one value -----

  /** One of the values breaks, and those before it pass. */
  ghost predicate FirstBreaks(outcomes: seq<Outcome>) {
    exists i :: 0 <= i < |outcomes| && outcomes[i].Broken? && forall j :: 0 <= j < i ==> outcomes[j].Passes?
  }

  function ItemOutcomes(items: seq<Json>, s: Json): seq<Outcome> {
    seq(|items|, i requires 0 <= i < |items| => CheckValue(items[i], s))
  }

  function FieldOutcomes(fields: seq<Field<Json>>, properties: Option<Json>, additional: Option<Json>): seq<Outcome> {
    seq(|fields|, i requires 0 <= i < |fields| => CheckField(fields[i], properties, additional))
  }

  /** What is left to break a check once the type, the enumeration and the bounds have passed. */
  ghost predicate PartsBreak(v: Json, s: seq<Field<Json>>) {
    match v
    case Arr(items) => Lookup(s, ITEMS).Some? && FirstBreaks(ItemOutcomes(items, Lookup(s, ITEMS).value))
    case Obj(fields) =>
      var required, properties, additional := Lookup(s, REQUIRED), Lookup(s, PROPERTIES), Lookup(s, ADDITIONAL);
      || required == Some(Null)
      || (CheckRequired(fields, required).Passes?
          && if properties == Some(Null) then fields != [] else FirstBreaks(FieldOutcomes(fields, properties, additional)))
    case _ => false
  }

  lemma {:induction false} ItemsBreakFirst(items: seq<Json>, s: Option<Json>)
    ensures CheckItems(items, s).Broken? <==> s.Some? && FirstBreaks(ItemOutcomes(items, s.value))
  {
    hide CheckValue;
    if s.Some? && items != [] {
      ItemsBreakFirst(items[1..], s);
      var all, rest := ItemOutcomes(items, s.value), ItemOutcomes(items[1..], s.value);
      FirstOrLater(all, rest);
    }
  }

  lemma {:induction false} FieldsBreakFirst(fields: seq<Field<Json>>, properties: Option<Json>, additional: Option<Json>)
    ensures CheckFields(fields, properties, additional).Broken? <==> FirstBreaks(FieldOutcomes(fields, properties, additional))
  {
    hide CheckField;
    if fields != [] {
      FieldsBreakFirst(fields[1..], properties, additional);
      var all, rest := FieldOutcomes(fields, properties, additional), FieldOutcomes(fields[1..], properties, additional);
      FirstOrLater(all, rest);
    }
  }

  lemma FirstOrLater(all: seq<Outcome>, rest: seq<Outcome>)
    requires all != [] && rest == all[1..]
    ensures FirstBreaks(all) <==> all[0].Broken? || (all[0].Passes? && FirstBreaks(rest))
  {
    if all[0].Passes? && FirstBreaks(rest) {
      var i :| 0 <= i < |rest| && rest[i].Broken? && forall j :: 0 <= j < i ==> rest[j].Passes?;
      assert all[i + 1].Broken? && forall j :: 0 <= j < i + 1 ==> all[j].Passes?;
    }
    if FirstBreaks(all) && !all[0].Broken? {
      var i :| 0 <= i < |all| && all[i].Broken? && forall j :: 0 <= j < i ==> all[j].Passes?;
      assert rest[i - 1].Broken? && forall j :: 0 <= j < i - 1 ==> rest[j].Passes?;
    }
  }

  /**
   * Exactly when checking a value against an admitted schema breaks: the keywords
   * checked before pass, and `required` is null, or `properties` is null and there
   * is a property, or the check of a part breaks before another part is refused.
   */
  lemma BreaksExactly(v: Json, s: Json, depth: nat)
    requires SchemaOk(s, depth)
    ensures CheckValue(v, s).Broken? <==>
              && CheckType(v, Lookup(s.fields, TYPE)).Passes?
              && CheckEnum(v, Lookup(s.fields, ENUM)).Passes?
              && Conformance.Measured(v, s.fields)
              && PartsBreak(v, s.fields)
  {
    hide TypeOk, Compatible, KeysKnown, SchemaOk, CheckItems, CheckFields, EachPresent, Lookup, FirstBreaks, AnyType, Listed;
    AdmittedParts(s, depth);
    CheckTypeUnbroken(v, Lookup(s.fields, TYPE));
    match v
    case Arr(items) => ItemsBreakFirst(items, Lookup(s.fields, ITEMS));
    case Obj(fields) =>
      RequiredBreaks(fields, s, depth);
      FieldsBreakFirst(fields, Lookup(s.fields, PROPERTIES), Lookup(s.fields, ADDITIONAL));
      NullBreaksFirst(fields, Lookup(s.fields, ADDITIONAL));
    case _ =>
  }

  lemma AdmittedParts(s: Json, depth: nat)
    requires SchemaOk(s, depth)
    ensures s.Obj? && AllBoundsOk(s)
    ensures Lookup(s.fields, TYPE).Some? ==> TypeOk(Lookup(s.fields, TYPE).value)
    ensures Lookup(s.fields, ENUM).Some? ==> Lookup(s.fields, ENUM).value.Arr?
    ensures Lookup(s.fields, REQUIRED).Some? ==> RequiredOk(Lookup(s.fields, REQUIRED).value)
    ensures Compatible(s)
  {
    hide TypeOk, KeysKnown, AllBoundsOk, RequiredOk, Compatible, PropertiesOk, NestedOk;
  }

  lemma RequiredBreaks(fields: seq<Field<Json>>, s: Json, depth: nat)
    requires SchemaOk(s, depth)
    ensures CheckRequired(fields, Lookup(s.fields, REQUIRED)).Broken? <==> Lookup(s.fields, REQUIRED) == Some(Null)
  {
    hide SchemaOk, TypeOk, Compatible, AllBoundsOk, EachPresent, Lookup;
    AdmittedParts(s, depth);
    var required := Lookup(s.fields, REQUIRED);
    if required.Some? && required.value.Arr? {
      EachPresentUnbroken(required.value.items, fields);
    }
  }

  /** Null properties break on the first property there is. */
  lemma NullBreaksFirst(fields: seq<Field<Json>>, additional: Option<Json>)
    ensures CheckFields(fields, Some(Null), additional).Broken? <==> fields != []
  {
  }

  /** The validator admits `{"required": null}`, and then every object breaks it. */
  lemma NullRequiredBreaks(fields: seq<Field<Json>>)
    ensures SchemaOk(Obj([Field(REQUIRED, Null)]), 0)
    ensures CheckValue(Obj(fields), Obj([Field(REQUIRED, Null)])).Broken?
  {
    var s := [Field(REQUIRED, Null)];
    assert |PROPERTIES| == 10 && |ITEMS| == 5 && |ADDITIONAL| == 20 && |TYPE| == 4 && |ENUM| == 4 && |REQUIRED| == 8;
    assert |MINIMUM| == 7 && |MAXIMUM| == 7 && |MIN_LENGTH| == 9 && |MAX_LENGTH| == 9 && |MIN_ITEMS| == 8 && |MAX_ITEMS| == 8;
    assert |MIN_PROPERTIES| == 13 && |MAX_PROPERTIES| == 13;
    assert REQUIRED[0] == 'r' as int && MIN_ITEMS[0] == 'm' as int && MAX_ITEMS[0] == 'm' as int;
    assert s[1..] == [];
    assert Lookup(s, REQUIRED) == Some(Null);
    assert forall key :: key != REQUIRED ==> Lookup(s, key) == None;
    assert Lookup(s, ADDITIONAL) == None && Lookup(s, ITEMS) == None && Lookup(s, TYPE) == None;
    assert KeysKnown(s) && Compatible(Obj(s));
    assert PropertiesOk(Obj(s), 0) && NestedOk(Obj(s), 0);
    assert AllBoundsOk(Obj(s));
    BreaksExactly(Obj(fields), Obj(s), 0);
  }

  // ----- all values -----

  /** At every depth there is no enumeration, and no bound on the number of items or properties. */
  predicate Plain(s: Json)
    decreases s, 1
  {
    s.Obj? ==>
      var properties, additional, items := Member(s, PROPERTIES), Member(s, ADDITIONAL), Member(s, ITEMS);
      && !HasKey(s.fields, ENUM) && !HasKey(s.fields, MIN_ITEMS) && !HasKey(s.fields, MAX_ITEMS)
      && !HasKey(s.fields, MIN_PROPERTIES) && !HasKey(s.fields, MAX_PROPERTIES)
      && (properties.Some? && properties.value.Obj? ==> EachPlain(properties.value.fields))
      && (additional.Some? ==> Plain(additional.value))
      && (items.Some? ==> Plain(items.value))
  }

  predicate EachPlain(children: seq<Field<Json>>)
    decreases children, 0
  {
    children == [] || (Plain(children[0].value) && EachPlain(children[1..]))
  }

  /** The names other than the given key, as properties that hold null. */
  function NullsFor(names: seq<Json>, key: Text): seq<Field<Json>> {
    if names == [] then []
    else (if names[0].Str? && names[0].text != key then [Field(names[0].text, Null)] else []) + NullsFor(names[1..], key)
  }

  /** An object with one property first, and every other required name after it. */
  function ObjectWith(key: Text, v: Json, required: Option<Json>): Json {
    Obj([Field(key, v)] + if required.Some? && required.value.Arr? then NullsFor(required.value.items, key) else [])
  }

  lemma {:induction false} NullsNamed(names: seq<Json>, key: Text)
    requires forall i :: 0 <= i < |names| ==> names[i].Str?
    requires forall i, j :: 0 <= i < j < |names| ==> names[i] != names[j]
    ensures var fs := NullsFor(names, key);
            && UniqueKeys(fs) && (forall i :: 0 <= i < |fs| ==> fs[i].value.Null? && fs[i].key != key && Str(fs[i].key) in names)
            && (forall i :: 0 <= i < |names| ==> names[i].text == key || HasKey(fs, names[i].text))
  {
    hide Lookup;
    if names != [] {
      var rest, fs := NullsFor(names[1..], key), NullsFor(names, key);
      NullsNamed(names[1..], key);
      assert names == [names[0]] + names[1..];
      forall i | 0 <= i < |names| ensures names[i].text == key || HasKey(fs, names[i].text) {
        LookupFindsKey(fs, names[i].text);
        if i > 0 && names[i].text != key {
          LookupFindsKey(rest, names[i].text);
          assert HasKey(rest, names[1..][i - 1].text);
          var k :| 0 <= k < |rest| && rest[k].key == names[i].text;
          assert fs[k + |fs| - |rest|] == rest[k];
        }
        if i == 0 && names[0].text != key {
          assert fs[0].key == names[0].text;
        }
      }
    }
  }

  /** The object is well formed, has the required names, and is checked from its first property on. */
  lemma ObjectBreaks(key: Text, v: Json, s: Json, depth: nat)
    requires SchemaOk(s, depth) && Plain(s) && WellFormed(v) && Conformance.Typed(Obj([]), Lookup(s.fields, TYPE))
    requires Lookup(s.fields, REQUIRED) != Some(Null)
    requires CheckField(Field(key, v), Lookup(s.fields, PROPERTIES), Lookup(s.fields, ADDITIONAL)).Broken?
    ensures var w := ObjectWith(key, v, Lookup(s.fields, REQUIRED)); WellFormed(w) && CheckValue(w, s).Broken?
  {
    hide SchemaOk, TypeOk, Compatible, Lookup, CheckField, NullsFor, EachPresent;
    AdmittedParts(s, depth);
    var required := Lookup(s.fields, REQUIRED);
    var w := ObjectWith(key, v, required);
    var names := if required.Some? && required.value.Arr? then required.value.items else [];
    NullsNamed(names, key);
    assert WellFormed(w);
    ObjectTyped(w, s, depth);
    Conformance.PresentExact(names, w.fields);
    forall i | 0 <= i < |names| ensures HasKey(w.fields, names[i].text) {
      LookupFindsKey(w.fields, names[i].text);
      LookupFindsKey(NullsFor(names, key), names[i].text);
      if names[i].text == key {
        assert w.fields[0].key == key;
      } else {
        var k :| 0 <= k < |NullsFor(names, key)| && NullsFor(names, key)[k].key == names[i].text;
        assert w.fields[k + 1].key == names[i].text;
      }
    }
    assert w.fields[0] == Field(key, v);
    FirstFieldBreaks(w.fields, s);
  }

  lemma ObjectTyped(w: Json, s: Json, depth: nat)
    requires SchemaOk(s, depth) && w.Obj? && Conformance.Typed(Obj([]), Lookup(s.fields, TYPE))
    ensures CheckType(w, Lookup(s.fields, TYPE)).Passes?
  {
    hide SchemaOk, TypeOk, Compatible, Lookup, CheckType;
    AdmittedParts(s, depth);
    Conformance.TypeExact(w, Lookup(s.fields, TYPE));
    if Lookup(s.fields, TYPE).Some? {
      var name: Text :| Conformance.Names(Lookup(s.fields, TYPE).value, name) && Conformance.OfType(Obj([]), name);
      assert Conformance.OfType(w, name);
    }
  }

  lemma FirstFieldBreaks(fields: seq<Field<Json>>, s: Json)
    requires s.Obj? && Plain(s) && fields != []
    requires CheckType(Obj(fields), Lookup(s.fields, TYPE)).Passes? && CheckRequired(fields, Lookup(s.fields, REQUIRED)).Passes?
    requires CheckField(fields[0], Lookup(s.fields, PROPERTIES), Lookup(s.fields, ADDITIONAL)).Broken?
    ensures CheckValue(Obj(fields), s).Broken?
  {
    hide CheckType, CheckRequired, CheckField, Lookup;
    assert !HasKey(s.fields, ENUM) && !HasKey(s.fields, MIN_PROPERTIES) && !HasKey(s.fields, MAX_PROPERTIES);
    assert CheckFields(fields, Lookup(s.fields, PROPERTIES), Lookup(s.fields, ADDITIONAL)).Broken?;
    assert CheckShape(Obj(fields), s.fields).Broken?;
  }

  /** A key that none of the properties has. */
  function Fresh(children: seq<Field<Json>>): (key: Text)
    ensures forall i :: 0 <= i < |children| ==> |children[i].key| < |key|
  {
    if children == [] then [0]
    else
      var key := Fresh(children[1..]);
      if |children[0].key| < |key| then key else children[0].key + [0]
  }

  lemma {:induction false} NullChild(children: seq<Field<Json>>, depth: nat) returns (i: nat)
    requires ChildrenOk(children, depth) && EachPlain(children) && !EachNullFree(children)
    ensures i < |children| && !NullFree(children[i].value) && Plain(children[i].value) && SchemaOk(children[i].value, depth)
  {
    hide SchemaOk, NullFree, Plain;
    if !NullFree(children[0].value) {
      i := 0;
    } else {
      i := NullChild(children[1..], depth);
      i := i + 1;
    }
  }

  /** A keyword that needs a type stands only where some value of that type is admitted. */
  lemma DeclaredIsTyped(declared: Option<Json>, name: Text, v: Json)
    requires Declares(declared, name) && Conformance.OfType(v, name)
    ensures Conformance.Typed(v, declared)
  {
    hide Conformance.OfType;
    if declared.Some? {
      assert Conformance.Names(declared.value, name);
    }
  }

  /** Where a null keyword is left at some depth, a value that breaks the check can be built. */
  lemma {:induction false} NullBreaks(s: Json, depth: nat) returns (v: Json)
    requires SchemaOk(s, depth) && WellFormed(s) && Plain(s) && !NullFree(s)
    ensures WellFormed(v) && CheckValue(v, s).Broken?
    decreases s, 1
  {
    hide SchemaOk, TypeOk, Compatible, Lookup, CheckValue, WellFormed, Plain, NullFree;
    AdmittedParts(s, depth);
    var items := Member(s, ITEMS);
    NullSomewhere(s);
    if Lookup(s.fields, REQUIRED) == Some(Null) {
      v := Obj([]);
      EmptyObjectBreaks(s, depth);
    } else if items.Some? && !NullFree(items.value) {
      v := ItemBreaks(s, depth);
    } else {
      v := PropertyBreaks(s, depth);
    }
  }

  /** Where a null keyword can be. */
  lemma NullSomewhere(s: Json)
    requires s.Obj? && !NullFree(s)
    ensures var properties, additional, items := Member(s, PROPERTIES), Member(s, ADDITIONAL), Member(s, ITEMS);
            || Lookup(s.fields, REQUIRED) == Some(Null)
            || (items.Some? && !NullFree(items.value))
            || properties == Some(Null)
            || (properties.Some? && properties.value.Obj? && !EachNullFree(properties.value.fields))
            || (additional.Some? && additional.value.Obj? && !NullFree(additional.value))
  {
    hide Lookup;
  }

  lemma EmptyObjectBreaks(s: Json, depth: nat)
    requires SchemaOk(s, depth) && Plain(s) && Lookup(s.fields, REQUIRED) == Some(Null)
    ensures WellFormed(Obj([])) && CheckValue(Obj([]), s).Broken?
  {
    hide SchemaOk, TypeOk, Lookup;
    AdmittedParts(s, depth);
    DeclaredIsTyped(Lookup(s.fields, TYPE), OBJECT_TYPE, Obj([]));
    Conformance.TypeExact(Obj([]), Lookup(s.fields, TYPE));
    assert !HasKey(s.fields, ENUM) && !HasKey(s.fields, MIN_PROPERTIES) && !HasKey(s.fields, MAX_PROPERTIES);
    BreaksExactly(Obj([]), s, depth);
  }

  lemma {:induction false} ItemBreaks(s: Json, depth: nat) returns (v: Json)
    requires SchemaOk(s, depth) && WellFormed(s) && Plain(s) && Member(s, ITEMS).Some? && !NullFree(Member(s, ITEMS).value)
    ensures WellFormed(v) && CheckValue(v, s).Broken?
    decreases s, 0
  {
    hide TypeOk, Lookup, CheckValue, PropertiesOk, NullFree, EachPlain, AllBoundsOk, KeysKnown;
    AdmittedParts(s, depth);
    var schema := Member(s, ITEMS).value;
    SchemaOrder.KeywordNormalizes(s.fields, ITEMS);
    assert NestedOk(s, depth);
    var item := NullBreaks(schema, depth + 1);
    v := Arr([item]);
    DeclaredIsTyped(Lookup(s.fields, TYPE), ARRAY_TYPE, v);
    Conformance.TypeExact(v, Lookup(s.fields, TYPE));
    assert ItemOutcomes([item], schema)[0].Broken?;
    BreaksExactly(v, s, depth);
  }

  lemma {:induction false} PropertyBreaks(s: Json, depth: nat) returns (v: Json)
    requires SchemaOk(s, depth) && WellFormed(s) && Plain(s) && Lookup(s.fields, REQUIRED) != Some(Null)
    requires var properties, additional := Member(s, PROPERTIES), Member(s, ADDITIONAL);
             || properties == Some(Null)
             || (properties.Some? && properties.value.Obj? && !EachNullFree(properties.value.fields))
             || (additional.Some? && additional.value.Obj? && !NullFree(additional.value))
    ensures WellFormed(v) && CheckValue(v, s).Broken?
    decreases s, 0
  {
    hide TypeOk, Lookup, CheckValue, NullFree, AllBoundsOk, KeysKnown, ObjectWith, EnumOk, RequiredOk;
    AdmittedParts(s, depth);
    var properties, additional := Member(s, PROPERTIES), Member(s, ADDITIONAL);
    SchemaOrder.KeywordNormalizes(s.fields, PROPERTIES);
    SchemaOrder.KeywordNormalizes(s.fields, ADDITIONAL);
    assert PropertiesOk(s, depth) && NestedOk(s, depth);
    var key: Text, inner: Json := [], Null;
    if properties == Some(Null) {
    } else if properties.Some? && !EachNullFree(properties.value.fields) {
      var children := properties.value.fields;
      var i := NullChild(children, depth + 2);
      key := children[i].key;
      inner := NullBreaks(children[i].value, depth + 2);
      LookupAt(children, i);
    } else {
      inner := NullBreaks(additional.value, depth + 1);
      if properties.Some? {
        key := Fresh(properties.value.fields);
        LookupFindsKey(properties.value.fields, key);
      }
    }
    DeclaredIsTyped(Lookup(s.fields, TYPE), OBJECT_TYPE, Obj([]));
    ObjectBreaks(key, inner, s, depth);
    v := ObjectWith(key, inner, Lookup(s.fields, REQUIRED));
  }

  /**
   * For an admitted schema without enumerations and counts: no value breaks the
   * check if and only if no `properties` and no `required` is null, at any depth.
   */
  lemma NullFreeExactly(s: Json, depth: nat)
    requires SchemaOk(s, depth) && WellFormed(s) && Plain(s)
    ensures NullFree(s) <==> forall v: Json :: WellFormed(v) ==> !CheckValue(v, s).Broken?
  {
    hide SchemaOk, CheckValue, Plain, NullFree, WellFormed;
    if NullFree(s) {
      forall v: Json | WellFormed(v) ensures !CheckValue(v, s).Broken? {
        UsableNeverBreaks(v, s, depth);
      }
    } else {
      var v := NullBreaks(s, depth);
      assert CheckValue(v, s).Broken?;
    }
  }
}
