/**
 * Which admitted schemas can be used without a Python exception: those where
 * `properties` and `required` are absent rather than null.
 */
module SchemaSafety {
  import opened Texts
  import opened Json
  import opened Schemas

  /** At every depth, `properties` and `required` are absent or not null. */
  predicate NullFree(s: Json)
    decreases s, 1
  {
    s.Obj? ==>
      var properties, additional, items := Member(s, PROPERTIES), Member(s, ADDITIONAL), Member(s, ITEMS);
      && Lookup(s.fields, REQUIRED) != Some(Null)
      && properties != Some(Null)
      && (properties.Some? && properties.value.Obj? ==> EachNullFree(properties.value.fields))
      && (additional.Some? ==> NullFree(additional.value))
      && (items.Some? ==> NullFree(items.value))
  }

  predicate EachNullFree(children: seq<Field<Json>>)
    decreases children, 0
  {
    children == [] || (NullFree(children[0].value) && EachNullFree(children[1..]))
  }

  predicate Usable(s: Json, depth: nat) {
    SchemaOk(s, depth) && NullFree(s)
  }

  lemma {:induction false} PropertyUsable(children: seq<Field<Json>>, depth: nat, name: Text)
    requires ChildrenOk(children, depth) && EachNullFree(children)
    ensures HasKey(children, name) ==> Usable(Lookup(children, name).value, depth)
  {
    hide SchemaOk, NullFree;
    if children != [] {
      PropertyUsable(children[1..], depth, name);
    }
  }

  lemma {:induction false} AnyTypeUnbroken(v: Json, names: seq<Json>)
    requires TypeNamesOk(names)
    ensures !AnyType(v, names).Broken?
  {
    if names != [] {
      AnyTypeUnbroken(v, names[1..]);
    }
  }

  lemma CheckTypeUnbroken(v: Json, declared: Option<Json>)
    requires declared.Some? ==> TypeOk(declared.value)
    ensures !CheckType(v, declared).Broken?
  {
    hide IsType, AnyType;
    if declared.Some? {
      var names := if declared.value.Arr? then declared.value.items else [declared.value];
      AnyTypeUnbroken(v, names);
    }
  }

  lemma {:induction false} EachPresentUnbroken(names: seq<Json>, fields: seq<Field<Json>>)
    requires forall i :: 0 <= i < |names| ==> names[i].Str?
    ensures !EachPresent(names, fields).Broken?
  {
    if names != [] {
      EachPresentUnbroken(names[1..], fields);
    }
  }

  /** With a usable schema every value is either admitted or refused. */
  lemma {:induction false} UsableNeverBreaks(v: Json, s: Json, depth: nat)
    requires Usable(s, depth)
    ensures !CheckValue(v, s).Broken?
    decreases v, 2
  {
    hide CheckType, TypeOk, Compatible, RequiredOk, Listed, PropertiesOk, NestedOk, KeysKnown, AllBoundsOk, CheckShape, Lookup,
      NullFree;
    CheckTypeUnbroken(v, Lookup(s.fields, TYPE));
    ShapeUnbroken(v, s, depth);
  }

  lemma {:induction false} ShapeUnbroken(v: Json, s: Json, depth: nat)
    requires Usable(s, depth) && s.Obj?
    ensures !CheckShape(v, s.fields).Broken?
    decreases v, 1
  {
    hide TypeOk, Compatible, Listed, KeysKnown, CheckItems, CheckFields, Lookup, EnumOk, SchemaOk, NullFree, EachPresent;
    assert AllBoundsOk(s) by {
      BoundsOfUsable(s, depth);
    }
    if v.Arr? {
      ItemsUnbroken(v.items, s, depth);
    } else if v.Obj? {
      RequiredUnbroken(v.fields, s, depth);
      FieldsUnbroken(v.fields, s, depth);
    }
  }

  lemma BoundsOfUsable(s: Json, depth: nat)
    requires SchemaOk(s, depth)
    ensures AllBoundsOk(s)
  {
  }

  lemma RequiredUnbroken(fields: seq<Field<Json>>, s: Json, depth: nat)
    requires Usable(s, depth)
    ensures !CheckRequired(fields, Lookup(s.fields, REQUIRED)).Broken?
  {
    hide TypeOk, Compatible, KeysKnown, PropertiesOk, NestedOk, EnumOk, AllBoundsOk, Lookup, EachPresent;
    var required := Lookup(s.fields, REQUIRED);
    if required.Some? && required.value.Arr? {
      EachPresentUnbroken(required.value.items, fields);
    }
  }

  lemma {:induction false} ItemsUnbroken(items: seq<Json>, s: Json, depth: nat)
    requires Usable(s, depth) && s.Obj?
    ensures !CheckItems(items, Lookup(s.fields, ITEMS)).Broken?
    decreases items, 0
  {
    hide TypeOk, Compatible, KeysKnown, PropertiesOk, EnumOk, AllBoundsOk, RequiredOk, Lookup, CheckValue, EachNullFree;
    var schema := Lookup(s.fields, ITEMS);
    if items != [] && schema.Some? {
      assert Member(s, ITEMS) == schema && NestedOk(s, depth);
      UsableNeverBreaks(items[0], schema.value, depth + 1);
      ItemsUnbroken(items[1..], s, depth);
    }
  }

  lemma {:induction false} FieldsUnbroken(fields: seq<Field<Json>>, s: Json, depth: nat)
    requires Usable(s, depth) && s.Obj?
    ensures !CheckFields(fields, Lookup(s.fields, PROPERTIES), Lookup(s.fields, ADDITIONAL)).Broken?
    decreases fields, 0
  {
    hide Usable, CheckField, Lookup;
    if fields != [] {
      FieldUnbroken(fields[0], s, depth);
      FieldsUnbroken(fields[1..], s, depth);
    }
  }

  lemma {:induction false} FieldUnbroken(f: Field<Json>, s: Json, depth: nat)
    requires Usable(s, depth) && s.Obj?
    ensures !CheckField(f, Lookup(s.fields, PROPERTIES), Lookup(s.fields, ADDITIONAL)).Broken?
    decreases f, 0
  {
    hide TypeOk, Compatible, KeysKnown, EnumOk, AllBoundsOk, RequiredOk, Lookup, CheckValue, EachNullFree, ChildrenOk;
    var properties, additional := Lookup(s.fields, PROPERTIES), Lookup(s.fields, ADDITIONAL);
    assert Member(s, PROPERTIES) == properties && Member(s, ADDITIONAL) == additional;
    assert PropertiesOk(s, depth) && NestedOk(s, depth);
    if properties.Some? {
      PropertyUsable(properties.value.fields, depth + 2, f.key);
      var own := Lookup(properties.value.fields, f.key);
      if own.Some? {
        UsableNeverBreaks(f.value, own.value, depth + 2);
      }
    }
    if additional.Some? && additional.value.Obj? {
      UsableNeverBreaks(f.value, additional.value, depth + 1);
    }
  }

  /** The validator admits `{"properties": null}`, and then every object with a field breaks it. */
  lemma NullPropertiesBreak(f: Field<Json>, rest: seq<Field<Json>>)
    ensures SchemaOk(Obj([Field(PROPERTIES, Null)]), 0)
    ensures CheckValue(Obj([f] + rest), Obj([Field(PROPERTIES, Null)])).Broken?
  {
    var s := [Field(PROPERTIES, Null)];
    assert |PROPERTIES| == 10 && |ITEMS| == 5 && |ADDITIONAL| == 20 && |TYPE| == 4 && |ENUM| == 4 && |REQUIRED| == 8;
    assert |MINIMUM| == 7 && |MAXIMUM| == 7 && |MIN_LENGTH| == 9 && |MAX_LENGTH| == 9 && |MIN_ITEMS| == 8 && |MAX_ITEMS| == 8;
    assert |MIN_PROPERTIES| == 13 && |MAX_PROPERTIES| == 13;
    assert s[1..] == [];
    assert Lookup(s, PROPERTIES) == Some(Null);
    assert forall key :: key != PROPERTIES ==> Lookup(s, key) == None;
    assert Lookup(s, ADDITIONAL) == None && Lookup(s, ITEMS) == None && Lookup(s, TYPE) == None;
    assert KeysKnown(s) && Compatible(Obj(s));
    assert PropertiesOk(Obj(s), 0) && NestedOk(Obj(s), 0);
    assert AllBoundsOk(Obj(s));
    assert CheckField(f, Some(Null), None).Broken?;
    var fields := [f] + rest;
    assert fields[0] == f && fields[1..] == rest;
    assert CheckFields(fields, Some(Null), None).Broken?;
    assert CheckShape(Obj(fields), s).Broken?;
  }
}
