/**
 * Removing documentation annotations from a tool's argument schema, and why
 * the schema left over admits exactly the values the annotated one does.
 */
module Annotations {
  import opened Texts
  import opened Json
  import opened Schemas

  const DEFAULT_NOTE := Ascii("default")
  const DESCRIPTION := Ascii("description")
  const EXAMPLES := Ascii("examples")
  const TITLE := Ascii("title")

  predicate IsAnnotation(key: Text) {
    key == DEFAULT_NOTE || key == DESCRIPTION || key == EXAMPLES || key == TITLE
  }

  /** `_strip_schema_annotations`. */
  function Strip(fields: seq<Field<Json>>): seq<Field<Json>>
    decreases fields, 1
  {
    if fields == [] then []
    else if IsAnnotation(fields[0].key) then Strip(fields[1..])
    else [Field(fields[0].key, StripKeyword(fields[0]))] + Strip(fields[1..])
  }

  /** What a kept keyword holds afterwards. */
  function StripKeyword(f: Field<Json>): Json
    decreases f, 0
  {
    if f.key == PROPERTIES && f.value.Obj? then Obj(StripEach(f.value.fields))
    else if (f.key == ITEMS || f.key == ADDITIONAL) && f.value.Obj? then Obj(Strip(f.value.fields))
    else f.value
  }

  /** Each property's own schema; property names are not keywords. */
  function StripEach(properties: seq<Field<Json>>): seq<Field<Json>>
    decreases properties, 1
  {
    if properties == [] then []
    else [Field(properties[0].key, StripSchema(properties[0].value))] + StripEach(properties[1..])
  }

  function StripSchema(s: Json): Json
    decreases s, 0
  {
    if s.Obj? then Obj(Strip(s.fields)) else s
  }

  function StripOption(s: Option<Json>): Option<Json> {
    if s.Some? then Some(StripSchema(s.value)) else None
  }

  /** The same removal as the source runs it, filling a result dictionary key by key. */
  method StripSchemaAnnotations(fields: seq<Field<Json>>) returns (result: seq<Field<Json>>)
    ensures result == Strip(fields)
    decreases fields, 1
  {
    hide IsAnnotation;
    result := [];
    for i := 0 to |fields|
      invariant Strip(fields) == result + Strip(fields[i..])
    {
      var f := fields[i];
      assert fields[i..][0] == f && fields[i..][1..] == fields[i + 1..];
      if !IsAnnotation(f.key) {
        var value := f.value;
        if f.key == PROPERTIES && f.value.Obj? {
          var each := StripProperties(f.value.fields);
          value := Obj(each);
        } else if (f.key == ITEMS || f.key == ADDITIONAL) && f.value.Obj? {
          var nested := StripSchemaAnnotations(f.value.fields);
          value := Obj(nested);
        }
        assert value == StripKeyword(f);
        assert (result + [Field(f.key, value)]) + Strip(fields[i + 1..]) == result + ([Field(f.key, value)] + Strip(fields[i + 1..]));
        result := result + [Field(f.key, value)];
      }
    }
  }

  method StripProperties(properties: seq<Field<Json>>) returns (result: seq<Field<Json>>)
    ensures result == StripEach(properties)
    decreases properties, 1
  {
    result := [];
    for i := 0 to |properties|
      invariant StripEach(properties) == result + StripEach(properties[i..])
    {
      var f := properties[i];
      assert properties[i..][0] == f && properties[i..][1..] == properties[i + 1..];
      var child := f.value;
      if f.value.Obj? {
        var fields := StripSchemaAnnotations(f.value.fields);
        child := Obj(fields);
      }
      assert (result + [Field(f.key, child)]) + StripEach(properties[i + 1..])
          == result + ([Field(f.key, child)] + StripEach(properties[i + 1..]));
      result := result + [Field(f.key, child)];
    }
  }

  // ----- keywords after stripping -----

  /** Annotations are spelled unlike every keyword of the subset. */
  lemma KeywordsAreNotAnnotations(key: Text)
    requires IsKeyword(key)
    ensures !IsAnnotation(key)
  {
    assert |TITLE| == 5 && |DEFAULT_NOTE| == 7 && |EXAMPLES| == 8 && |DESCRIPTION| == 11;
    assert TITLE[0] == 't' as int && ITEMS[0] == 'i' as int;
    assert DEFAULT_NOTE[0] == 'd' as int && MINIMUM[0] == 'm' as int && MAXIMUM[0] == 'm' as int;
    assert EXAMPLES[0] == 'e' as int && REQUIRED[0] == 'r' as int && MIN_ITEMS[0] == 'm' as int && MAX_ITEMS[0] == 'm' as int;
  }

  lemma {:induction false} StrippedKeyword(fields: seq<Field<Json>>, key: Text)
    requires !IsAnnotation(key)
    ensures var found := Lookup(fields, key);
            Lookup(Strip(fields), key) == if found.Some? then Some(StripKeyword(Field(key, found.value))) else None
  {
    hide IsAnnotation, StripKeyword;
    if fields != [] {
      StrippedKeyword(fields[1..], key);
      if !IsAnnotation(fields[0].key) {
        assert Strip(fields)[1..] == Strip(fields[1..]);
      }
    }
  }

  /** A keyword that holds no schema. */
  predicate IsPlain(key: Text) {
    IsKeyword(key) && key != PROPERTIES && key != ITEMS && key != ADDITIONAL
  }

  /** The keywords that hold no schema keep their value. */
  lemma PlainKeyword(fields: seq<Field<Json>>, key: Text)
    requires IsPlain(key)
    ensures Lookup(Strip(fields), key) == Lookup(fields, key)
  {
    hide Strip, IsKeyword, IsAnnotation;
    KeywordsAreNotAnnotations(key);
    StrippedKeyword(fields, key);
  }

  lemma PlainKeywords(fields: seq<Field<Json>>)
    ensures forall key | IsPlain(key) :: Lookup(Strip(fields), key) == Lookup(fields, key)
    ensures IsPlain(TYPE) && IsPlain(ENUM) && IsPlain(REQUIRED) && IsPlain(MINIMUM) && IsPlain(MAXIMUM)
    ensures IsPlain(MIN_LENGTH) && IsPlain(MAX_LENGTH) && IsPlain(MIN_ITEMS) && IsPlain(MAX_ITEMS)
    ensures IsPlain(MIN_PROPERTIES) && IsPlain(MAX_PROPERTIES)
  {
    hide Strip, Lookup;
    forall key | IsPlain(key) ensures Lookup(Strip(fields), key) == Lookup(fields, key) {
      PlainKeyword(fields, key);
    }
    assert |PROPERTIES| == 10 && |ITEMS| == 5 && |ADDITIONAL| == 20;
    assert |TYPE| == 4 && |ENUM| == 4 && |REQUIRED| == 8 && |MINIMUM| == 7 && |MAXIMUM| == 7 && |MIN_LENGTH| == 9;
    assert |MAX_LENGTH| == 9 && |MIN_ITEMS| == 8 && |MAX_ITEMS| == 8 && |MIN_PROPERTIES| == 13 && |MAX_PROPERTIES| == 13;
  }

  lemma NestedKeywords(fields: seq<Field<Json>>)
    ensures Lookup(Strip(fields), ITEMS) == StripOption(Lookup(fields, ITEMS))
    ensures Lookup(Strip(fields), ADDITIONAL) == StripOption(Lookup(fields, ADDITIONAL))
    ensures var p := Lookup(fields, PROPERTIES);
            Lookup(Strip(fields), PROPERTIES)
            == if p.Some? && p.value.Obj? then Some(Obj(StripEach(p.value.fields))) else p
  {
    hide Strip, Lookup, StripEach, IsAnnotation;
    assert |PROPERTIES| == 10 && |ITEMS| == 5 && |ADDITIONAL| == 20;
    KeywordsAreNotAnnotations(ITEMS);
    KeywordsAreNotAnnotations(ADDITIONAL);
    KeywordsAreNotAnnotations(PROPERTIES);
    StrippedKeyword(fields, ITEMS);
    StrippedKeyword(fields, ADDITIONAL);
    StrippedKeyword(fields, PROPERTIES);
  }

  lemma {:induction false} StrippedProperty(properties: seq<Field<Json>>, name: Text)
    ensures Lookup(StripEach(properties), name) == StripOption(Lookup(properties, name))
  {
    hide StripSchema;
    if properties != [] {
      StrippedProperty(properties[1..], name);
      assert StripEach(properties)[1..] == StripEach(properties[1..]);
    }
  }

  // ----- stripping preserves meaning -----

  /**
   * For every JSON schema and every value, the outcome is the same with the
   * annotations and without them, also where a property is named like one.
   */
  lemma {:induction false} StripKeepsMeaning(v: Json, s: Json)
    ensures CheckValue(v, StripSchema(s)) == CheckValue(v, s)
    decreases v, 2
  {
    hide CheckType, CheckEnum, CheckShape, Strip, Lookup, IsPlain;
    if s.Obj? {
      PlainKeywords(s.fields);
      ShapeStripped(v, s.fields);
    }
  }

  lemma {:induction false} ShapeStripped(v: Json, fields: seq<Field<Json>>)
    ensures CheckShape(v, Strip(fields)) == CheckShape(v, fields)
    decreases v, 1
  {
    hide CheckBounds, CheckItems, CheckFields, CheckRequired, Strip, Lookup, StripEach, StripOption, IsPlain;
    PlainKeywords(fields);
    NestedKeywords(fields);
    if v.Arr? {
      ItemsStripped(v.items, Lookup(fields, ITEMS));
    } else if v.Obj? {
      FieldsStripped(v.fields, Lookup(fields, PROPERTIES), Lookup(fields, ADDITIONAL));
    }
  }

  lemma {:induction false} ItemsStripped(items: seq<Json>, s: Option<Json>)
    ensures CheckItems(items, StripOption(s)) == CheckItems(items, s)
    decreases items, 0
  {
    hide CheckValue, StripSchema;
    if items != [] && s.Some? {
      StripKeepsMeaning(items[0], s.value);
      ItemsStripped(items[1..], s);
    }
  }

  function StrippedProperties(properties: Option<Json>): Option<Json> {
    if properties.Some? && properties.value.Obj? then Some(Obj(StripEach(properties.value.fields))) else properties
  }

  lemma {:induction false} FieldsStripped(fields: seq<Field<Json>>, properties: Option<Json>, additional: Option<Json>)
    ensures CheckFields(fields, StrippedProperties(properties), StripOption(additional))
         == CheckFields(fields, properties, additional)
    decreases fields, 0
  {
    hide CheckField, StrippedProperties, StripOption;
    if fields != [] {
      FieldStripped(fields[0], properties, additional);
      FieldsStripped(fields[1..], properties, additional);
    }
  }

  lemma {:induction false} FieldStripped(f: Field<Json>, properties: Option<Json>, additional: Option<Json>)
    ensures CheckField(f, StrippedProperties(properties), StripOption(additional)) == CheckField(f, properties, additional)
    decreases f, 0
  {
    hide CheckValue, Strip, Lookup, StripEach;
    if properties.Some? && properties.value.Obj? {
      StrippedProperty(properties.value.fields, f.key);
      var own := Lookup(properties.value.fields, f.key);
      if own.Some? {
        StripKeepsMeaning(f.value, own.value);
      }
    }
    if additional.Some? && additional.value.Obj? {
      StripKeepsMeaning(f.value, additional.value);
    }
  }

  // ----- stripping keeps schemas well formed -----

  lemma {:induction false} StrippedKeys(fields: seq<Field<Json>>, i: nat)
    requires i < |Strip(fields)|
    ensures HasKey(fields, Strip(fields)[i].key)
    decreases |fields|
  {
    hide StripKeyword, IsAnnotation;
    if IsAnnotation(fields[0].key) {
      StrippedKeys(fields[1..], i);
    } else if i > 0 {
      StrippedKeys(fields[1..], i - 1);
    }
  }

  lemma {:induction false} StripUnique(fields: seq<Field<Json>>)
    requires UniqueKeys(fields)
    ensures UniqueKeys(Strip(fields))
    decreases |fields|
  {
    hide StripKeyword, IsAnnotation;
    if fields != [] {
      var rest := Strip(fields[1..]);
      StripUnique(fields[1..]);
      forall i | 0 <= i < |rest| ensures rest[i].key != fields[0].key {
        StrippedKeys(fields[1..], i);
        LookupFindsKey(fields[1..], rest[i].key);
      }
      assert !IsAnnotation(fields[0].key) ==> Strip(fields)[1..] == rest;
    }
  }

  lemma {:induction false} StripWellFormed(fields: seq<Field<Json>>)
    requires UniqueKeys(fields) && forall i :: 0 <= i < |fields| ==> WellFormed(fields[i].value)
    ensures WellFormed(Obj(Strip(fields)))
    decreases fields, 1
  {
    hide StripKeyword, IsAnnotation;
    StripUnique(fields);
    if fields != [] {
      StripWellFormed(fields[1..]);
      StripKeywordWellFormed(fields[0]);
      assert !IsAnnotation(fields[0].key) ==> Strip(fields)[1..] == Strip(fields[1..]);
    }
  }

  lemma {:induction false} StripKeywordWellFormed(f: Field<Json>)
    requires WellFormed(f.value)
    ensures WellFormed(StripKeyword(f))
    decreases f, 0
  {
    hide Strip;
    if f.key == PROPERTIES && f.value.Obj? {
      StripEachWellFormed(f.value.fields);
      StripEachUnique(f.value.fields);
    } else if (f.key == ITEMS || f.key == ADDITIONAL) && f.value.Obj? {
      StripWellFormed(f.value.fields);
    }
  }

  lemma {:induction false} StripEachWellFormed(properties: seq<Field<Json>>)
    requires forall i :: 0 <= i < |properties| ==> WellFormed(properties[i].value)
    ensures |StripEach(properties)| == |properties|
    ensures forall i :: 0 <= i < |properties| ==> WellFormed(StripEach(properties)[i].value)
    ensures forall i :: 0 <= i < |properties| ==> StripEach(properties)[i].key == properties[i].key
    decreases properties, 1
  {
    hide Strip;
    if properties != [] {
      StripEachWellFormed(properties[1..]);
      if properties[0].value.Obj? {
        StripWellFormed(properties[0].value.fields);
      }
      var r := StripEach(properties);
      assert r[1..] == StripEach(properties[1..]);
      assert forall i :: 0 < i < |properties| ==> properties[i] == properties[1..][i - 1] && r[i] == r[1..][i - 1];
    }
  }

  lemma StripEachUnique(properties: seq<Field<Json>>)
    requires UniqueKeys(properties) && forall i :: 0 <= i < |properties| ==> WellFormed(properties[i].value)
    ensures UniqueKeys(StripEach(properties))
  {
    hide WellFormed, StripSchema;
    StripEachWellFormed(properties);
  }

  // ----- what is left over -----

  /** A schema the validator admits has nothing to strip, at any depth. */
  lemma {:induction false} AdmittedHasNoAnnotations(s: Json, depth: nat)
    requires SchemaOk(s, depth) && WellFormed(s)
    ensures StripSchema(s) == s
    decreases s, 3
  {
    hide Strip, SchemaOk, WellFormed;
    assert s.Obj? by {
      AdmittedIsObject(s, depth);
    }
    AdmittedFields(s, 0, depth);
    assert s.fields[0..] == s.fields;
  }

  lemma AdmittedIsObject(s: Json, depth: nat)
    ensures SchemaOk(s, depth) ==> s.Obj?
  {
  }

  lemma {:induction false} AdmittedFields(s: Json, i: nat, depth: nat)
    requires s.Obj? && SchemaOk(s, depth) && WellFormed(s) && i <= |s.fields|
    ensures Strip(s.fields[i..]) == s.fields[i..]
    decreases s, 2, |s.fields| - i
  {
    hide IsKeyword, IsAnnotation, StripKeyword, Compatible, PropertiesOk, NestedOk, AllBoundsOk, TypeOk, RequiredOk, EnumOk;
    if i < |s.fields| {
      var f := s.fields[i];
      assert s.fields[i..][0] == f && s.fields[i..][1..] == s.fields[i + 1..];
      KeywordsAreNotAnnotations(f.key);
      AdmittedKeyword(s, i, depth);
      AdmittedFields(s, i + 1, depth);
    }
  }

  lemma {:induction false} AdmittedKeyword(s: Json, i: nat, depth: nat)
    requires s.Obj? && SchemaOk(s, depth) && WellFormed(s) && i < |s.fields|
    ensures StripKeyword(s.fields[i]) == s.fields[i].value
    decreases s, 1, 0
  {
    hide IsKeyword, Compatible, AllBoundsOk, TypeOk, RequiredOk, EnumOk, Lookup, Strip, StripEach;
    var f := s.fields[i];
    LookupAt(s.fields, i);
    assert PropertiesOk(s, depth) && NestedOk(s, depth);
    if f.key == PROPERTIES && f.value.Obj? {
      assert Member(s, PROPERTIES) == Some(f.value);
      AdmittedChildren(f.value.fields, depth + 2);
    } else if f.key == ITEMS {
      assert Member(s, ITEMS) == Some(f.value);
      AdmittedHasNoAnnotations(f.value, depth + 1);
    } else if f.key == ADDITIONAL && f.value.Obj? {
      assert Member(s, ADDITIONAL) == Some(f.value);
      AdmittedHasNoAnnotations(f.value, depth + 1);
    }
  }

  lemma {:induction false} AdmittedChildren(children: seq<Field<Json>>, depth: nat)
    requires ChildrenOk(children, depth)
    requires forall i :: 0 <= i < |children| ==> WellFormed(children[i].value)
    ensures StripEach(children) == children
    decreases children, 0, 0
  {
    hide SchemaOk, WellFormed, StripSchema;
    if children != [] {
      AdmittedHasNoAnnotations(children[0].value, depth);
      AdmittedChildren(children[1..], depth);
    }
  }
}
