/**
 * Schemas do not see key order: sorting the keys of a schema, or of a value,
 * changes neither which schemas are admitted nor which values a schema admits.
 */
module SchemaOrder {
  import opened Texts
  import opened Json
  import opened Canonical
  import opened Schemas
  import Reader

  ghost predicate WellFormedAll(items: seq<Json>) {
    forall i :: 0 <= i < |items| ==> WellFormed(items[i])
  }

  ghost predicate WellFormedOption(o: Option<Json>) {
    o.Some? ==> WellFormed(o.value)
  }

  /** What a keyword holds in the sorted schema. */
  lemma KeywordNormalizes(fields: seq<Field<Json>>, key: Text)
    requires WellFormed(Obj(fields))
    ensures Lookup(SortByKey(NormalizeFields(fields)), key) == OptionNormalize(Lookup(fields, key))
    ensures WellFormedOption(Lookup(fields, key))
  {
    LookupNormalized(fields, key);
    LookupFindsKey(fields, key);
  }

  // ----- admitted values -----

  lemma {:induction false} AnyTypeNormalizes(v: Json, names: seq<Json>)
    ensures AnyType(Normalize(v), NormalizeItems(names)) == AnyType(v, names)
  {
    hide IsType;
    if names != [] {
      AnyTypeNormalizes(v, names[1..]);
      assert NormalizeItems(names)[1..] == NormalizeItems(names[1..]);
      assert MatchesType(Normalize(v), Normalize(names[0])) == MatchesType(v, names[0]);
    }
  }

  lemma CheckTypeNormalizes(v: Json, declared: Option<Json>)
    ensures CheckType(Normalize(v), OptionNormalize(declared)) == CheckType(v, declared)
  {
    hide AnyType;
    if declared.Some? && declared.value.Str? {
      AnyTypeNormalizes(v, [declared.value]);
      assert NormalizeItems([declared.value]) == [declared.value];
    } else if declared.Some? && declared.value.Arr? {
      AnyTypeNormalizes(v, declared.value.items);
    }
  }

  lemma JsonEqualNormalizes(left: Json, right: Json)
    requires WellFormed(left) && WellFormed(right)
    ensures JsonEqual(Normalize(left), Normalize(right)) <==> JsonEqual(left, right)
  {
    hide Render;
    RenderNormalizes(left);
    RenderNormalizes(right);
  }

  /** The schema's equality is the engine's equality. */
  lemma JsonEqualIsEqual(left: Json, right: Json)
    requires WellFormed(left) && WellFormed(right)
    ensures JsonEqual(left, right) <==> Equal(left, right)
  {
    hide Render;
    Reader.RenderIsUnambiguous(left, right);
  }

  lemma CheckEnumNormalizes(v: Json, entries: Option<Json>)
    requires WellFormed(v) && WellFormedOption(entries)
    ensures CheckEnum(Normalize(v), OptionNormalize(entries)) == CheckEnum(v, entries)
  {
    hide JsonEqual, NormalizeItems;
    if entries.Some? && entries.value.Arr? {
      var items := entries.value.items;
      forall i | 0 <= i < |items| ensures JsonEqual(Normalize(v), NormalizeItems(items)[i]) <==> JsonEqual(v, items[i]) {
        NormalizeItemsAt(items, i);
        JsonEqualNormalizes(v, items[i]);
      }
      if Listed(v, items) {
        var i :| 0 <= i < |items| && JsonEqual(v, items[i]);
        assert JsonEqual(Normalize(v), NormalizeItems(items)[i]);
      }
      if Listed(Normalize(v), NormalizeItems(items)) {
        var i :| 0 <= i < |items| && JsonEqual(Normalize(v), NormalizeItems(items)[i]);
        assert JsonEqual(v, items[i]);
      }
    }
  }

  lemma CheckBoundsNormalizes(n: int, low: Option<Json>, high: Option<Json>)
    ensures CheckBounds(n, OptionNormalize(low), OptionNormalize(high)) == CheckBounds(n, low, high)
  {
  }

  lemma {:induction false} EachPresentNormalizes(names: seq<Json>, fields: seq<Field<Json>>)
    requires WellFormed(Obj(fields))
    ensures EachPresent(NormalizeItems(names), SortByKey(NormalizeFields(fields))) == EachPresent(names, fields)
  {
    hide SortByKey, NormalizeFields, WellFormed;
    if names != [] {
      EachPresentNormalizes(names[1..], fields);
      assert NormalizeItems(names)[1..] == NormalizeItems(names[1..]);
      if names[0].Str? {
        KeywordNormalizes(fields, names[0].text);
      }
    }
  }

  lemma CheckRequiredNormalizes(fields: seq<Field<Json>>, required: Option<Json>)
    requires WellFormed(Obj(fields))
    ensures CheckRequired(SortByKey(NormalizeFields(fields)), OptionNormalize(required)) == CheckRequired(fields, required)
  {
    hide SortByKey, NormalizeFields, WellFormed, NormalizeItems;
    if required.Some? && required.value.Arr? {
      EachPresentNormalizes(required.value.items, fields);
    }
  }

  lemma {:induction false} InsertChecks(f: Field<Json>, fields: seq<Field<Json>>, properties: Option<Json>, additional: Option<Json>)
    ensures CheckFields(Insert(f, fields), properties, additional).Passes?
            <==> CheckField(f, properties, additional).Passes? && CheckFields(fields, properties, additional).Passes?
  {
    hide CheckField, Below;
    if fields == [] || Below(f.key, fields[0].key) {
      assert ([f] + fields)[1..] == fields;
    } else {
      InsertChecks(f, fields[1..], properties, additional);
      assert Insert(f, fields)[1..] == Insert(f, fields[1..]);
    }
  }

  lemma {:induction false} SortChecks(fields: seq<Field<Json>>, properties: Option<Json>, additional: Option<Json>)
    ensures CheckFields(SortByKey(fields), properties, additional).Passes? <==> CheckFields(fields, properties, additional).Passes?
  {
    hide CheckField, Insert;
    if fields != [] {
      SortChecks(fields[1..], properties, additional);
      InsertChecks(fields[0], SortByKey(fields[1..]), properties, additional);
    }
  }

  /** A schema admits a value exactly when the sorted schema admits the sorted value. */
  lemma {:induction false} CheckNormalizes(v: Json, s: Json)
    requires WellFormed(v) && WellFormed(s)
    ensures CheckValue(Normalize(v), Normalize(s)).Passes? <==> CheckValue(v, s).Passes?
    decreases v, 2
  {
    hide CheckType, CheckEnum, CheckShape, WellFormed, NormalizeFields, NormalizeItems, SortByKey;
    if s.Obj? {
      KeywordNormalizes(s.fields, TYPE);
      KeywordNormalizes(s.fields, ENUM);
      CheckTypeNormalizes(v, Lookup(s.fields, TYPE));
      CheckEnumNormalizes(v, Lookup(s.fields, ENUM));
      ShapeNormalizes(v, s.fields);
    }
  }

  lemma {:induction false} ShapeNormalizes(v: Json, s: seq<Field<Json>>)
    requires WellFormed(v) && WellFormed(Obj(s))
    ensures CheckShape(Normalize(v), SortByKey(NormalizeFields(s))).Passes? <==> CheckShape(v, s).Passes?
    decreases v, 1
  {
    hide CheckBounds, CheckItems, CheckFields, CheckRequired, WellFormed, NormalizeFields, NormalizeItems, SortByKey, OptionNormalize;
    if v.Arr? {
      ArrayNormalizes(v.items, s);
    } else if v.Obj? {
      ObjectNormalizes(v.fields, s);
    } else if v.Int? {
      BoundsNormalize(v.number, s, MINIMUM, MAXIMUM);
    } else if v.Str? {
      BoundsNormalize(|v.text|, s, MIN_LENGTH, MAX_LENGTH);
    }
  }

  lemma BoundsNormalize(n: int, s: seq<Field<Json>>, low: Text, high: Text)
    requires WellFormed(Obj(s))
    ensures var t := SortByKey(NormalizeFields(s));
            CheckBounds(n, Lookup(t, low), Lookup(t, high)) == CheckBounds(n, Lookup(s, low), Lookup(s, high))
  {
    hide CheckBounds, WellFormed, NormalizeFields, SortByKey;
    KeywordNormalizes(s, low);
    KeywordNormalizes(s, high);
    CheckBoundsNormalizes(n, Lookup(s, low), Lookup(s, high));
  }

  lemma {:induction false} ArrayNormalizes(items: seq<Json>, s: seq<Field<Json>>)
    requires WellFormed(Arr(items)) && WellFormed(Obj(s))
    ensures CheckShape(Arr(NormalizeItems(items)), SortByKey(NormalizeFields(s))).Passes? <==> CheckShape(Arr(items), s).Passes?
    decreases items, 1
  {
    hide CheckBounds, CheckItems, NormalizeFields, NormalizeItems, SortByKey;
    BoundsNormalize(|items|, s, MIN_ITEMS, MAX_ITEMS);
    KeywordNormalizes(s, ITEMS);
    ItemsNormalize(items, Lookup(s, ITEMS));
  }

  lemma {:induction false} ItemsNormalize(items: seq<Json>, s: Option<Json>)
    requires WellFormedAll(items) && WellFormedOption(s)
    ensures CheckItems(NormalizeItems(items), OptionNormalize(s)).Passes? <==> CheckItems(items, s).Passes?
    decreases items, 0
  {
    hide CheckValue, WellFormed, Normalize;
    if items != [] && s.Some? {
      CheckNormalizes(items[0], s.value);
      ItemsNormalize(items[1..], s);
      assert NormalizeItems(items)[1..] == NormalizeItems(items[1..]);
    }
  }

  lemma {:induction false} ObjectNormalizes(fields: seq<Field<Json>>, s: seq<Field<Json>>)
    requires WellFormed(Obj(fields)) && WellFormed(Obj(s))
    ensures CheckShape(Obj(SortByKey(NormalizeFields(fields))), SortByKey(NormalizeFields(s))).Passes?
            <==> CheckShape(Obj(fields), s).Passes?
    decreases fields, 2
  {
    hide CheckBounds, CheckRequired, CheckFields, NormalizeFields, SortByKey, OptionNormalize;
    BoundsNormalize(|fields|, s, MIN_PROPERTIES, MAX_PROPERTIES);
    KeywordNormalizes(s, REQUIRED);
    KeywordNormalizes(s, PROPERTIES);
    KeywordNormalizes(s, ADDITIONAL);
    CheckRequiredNormalizes(fields, Lookup(s, REQUIRED));
    FieldsNormalize(fields, Lookup(s, PROPERTIES), Lookup(s, ADDITIONAL));
    SortChecks(NormalizeFields(fields), OptionNormalize(Lookup(s, PROPERTIES)), OptionNormalize(Lookup(s, ADDITIONAL)));
  }

  ghost predicate WellFormedValues(fields: seq<Field<Json>>) {
    forall i :: 0 <= i < |fields| ==> WellFormed(fields[i].value)
  }

  lemma {:induction false} FieldsNormalize(fields: seq<Field<Json>>, properties: Option<Json>, additional: Option<Json>)
    requires WellFormedValues(fields) && WellFormedOption(properties) && WellFormedOption(additional)
    ensures CheckFields(NormalizeFields(fields), OptionNormalize(properties), OptionNormalize(additional)).Passes?
            <==> CheckFields(fields, properties, additional).Passes?
    decreases fields, 1
  {
    hide CheckField, WellFormed, Normalize, WellFormedOption, OptionNormalize;
    if fields != [] {
      FieldNormalizes(fields[0], properties, additional);
      FieldsNormalize(fields[1..], properties, additional);
      assert NormalizeFields(fields)[1..] == NormalizeFields(fields[1..]);
    }
  }

  lemma {:induction false} FieldNormalizes(f: Field<Json>, properties: Option<Json>, additional: Option<Json>)
    requires WellFormed(f.value) && WellFormedOption(properties) && WellFormedOption(additional)
    ensures CheckField(Field(f.key, Normalize(f.value)), OptionNormalize(properties), OptionNormalize(additional)).Passes?
            <==> CheckField(f, properties, additional).Passes?
    decreases f, 0
  {
    hide CheckValue, WellFormed, NormalizeFields, NormalizeItems, SortByKey, Lookup;
    if properties.Some? && properties.value.Obj? {
      KeywordNormalizes(properties.value.fields, f.key);
      var own := Lookup(properties.value.fields, f.key);
      if own.Some? {
        CheckNormalizes(f.value, own.value);
      }
    }
    if additional.Some? && additional.value.Obj? {
      CheckNormalizes(f.value, additional.value);
    }
  }

  // ----- admitted schemas -----

  lemma {:induction false} NamesNormalize(names: seq<Json>)
    requires forall i :: 0 <= i < |names| ==> names[i].Str? || NormalizeItems(names)[i].Str?
    ensures NormalizeItems(names) == names
  {
    forall i | 0 <= i < |names| ensures NormalizeItems(names)[i] == names[i] {
      NormalizeItemsAt(names, i);
    }
  }

  lemma TypeOkNormalizes(declared: Json)
    ensures TypeOk(Normalize(declared)) <==> TypeOk(declared)
  {
    hide IsType, NormalizeItems;
    if declared.Arr? && (TypeNamesOk(declared.items) || TypeNamesOk(NormalizeItems(declared.items))) {
      NamesNormalize(declared.items);
    }
  }

  lemma RequiredOkNormalizes(names: Json)
    ensures RequiredOk(Normalize(names)) <==> RequiredOk(names)
  {
    hide NormalizeItems;
    if names.Arr? && (RequiredOk(names) || RequiredOk(Normalize(names))) {
      NamesNormalize(names.items);
    }
  }

  lemma {:induction false} NameIn(names: seq<Json>, name: Text)
    ensures Str(name) in NormalizeItems(names) <==> Str(name) in names
  {
    hide NormalizeItems;
    forall i | 0 <= i < |names| ensures NormalizeItems(names)[i] == Str(name) <==> names[i] == Str(name) {
      NormalizeItemsAt(names, i);
    }
    if Str(name) in NormalizeItems(names) {
      var i :| 0 <= i < |names| && NormalizeItems(names)[i] == Str(name);
      assert names[i] == Str(name);
    }
    if Str(name) in names {
      var i :| 0 <= i < |names| && names[i] == Str(name);
      assert NormalizeItems(names)[i] == Str(name);
    }
  }

  lemma DeclaresNormalizes(declared: Option<Json>, name: Text)
    ensures Declares(OptionNormalize(declared), name) <==> Declares(declared, name)
  {
    hide NormalizeItems;
    if declared.Some? && declared.value.Arr? {
      NameIn(declared.value.items, name);
    }
  }

  lemma CompatibleNormalizes(s: Json)
    requires s.Obj? && WellFormed(s)
    ensures Compatible(Normalize(s)) <==> Compatible(s)
  {
    hide Declares, WellFormed, NormalizeFields, SortByKey, Lookup;
    var fs := s.fields;
    KeywordNormalizes(fs, TYPE);
    KeywordNormalizes(fs, PROPERTIES);
    KeywordNormalizes(fs, REQUIRED);
    KeywordNormalizes(fs, ADDITIONAL);
    KeywordNormalizes(fs, MIN_PROPERTIES);
    KeywordNormalizes(fs, MAX_PROPERTIES);
    KeywordNormalizes(fs, ITEMS);
    KeywordNormalizes(fs, MIN_ITEMS);
    KeywordNormalizes(fs, MAX_ITEMS);
    KeywordNormalizes(fs, MIN_LENGTH);
    KeywordNormalizes(fs, MAX_LENGTH);
    KeywordNormalizes(fs, MINIMUM);
    KeywordNormalizes(fs, MAXIMUM);
    DeclaresNormalizes(Lookup(fs, TYPE), OBJECT_TYPE);
    DeclaresNormalizes(Lookup(fs, TYPE), ARRAY_TYPE);
    DeclaresNormalizes(Lookup(fs, TYPE), STRING_TYPE);
    DeclaresNormalizes(Lookup(fs, TYPE), NUMBER_TYPE);
    DeclaresNormalizes(Lookup(fs, TYPE), INTEGER_TYPE);
  }

  /** No surrogate is lost by sorting keys. */
  lemma {:induction false} CleanNormalizes(v: Json)
    requires WellFormed(v)
    ensures Clean(Normalize(v)) <==> Clean(v)
    decreases v, 1
  {
    if v.Arr? {
      forall i | 0 <= i < |v.items| ensures Clean(NormalizeItems(v.items)[i]) <==> Clean(v.items[i]) {
        NormalizeItemsAt(v.items, i);
        CleanNormalizes(v.items[i]);
      }
      assert Clean(Normalize(v)) ==> Clean(v) by {
        if Clean(Normalize(v)) {
          assert forall i :: 0 <= i < |v.items| ==> Clean(NormalizeItems(v.items)[i]);
        }
      }
    } else if v.Obj? {
      if Clean(v) {
        Reader.NormalizeClean(v);
      }
      if Clean(Normalize(v)) {
        CleanFromNormal(v);
      }
    }
  }

  lemma {:induction false} CleanFromNormal(v: Json)
    requires WellFormed(v) && v.Obj? && Clean(Normalize(v))
    ensures Clean(v)
    decreases v, 0
  {
    var fs := v.fields;
    var sorted := SortByKey(NormalizeFields(fs));
    forall i | 0 <= i < |fs| ensures Encodable(fs[i].key) && Clean(fs[i].value) {
      LookupAt(fs, i);
      KeywordNormalizes(fs, fs[i].key);
      LookupFindsKey(sorted, fs[i].key);
      var k :| 0 <= k < |sorted| && sorted[k] == Field(fs[i].key, Normalize(fs[i].value));
      assert Encodable(sorted[k].key) && Clean(sorted[k].value);
      CleanNormalizes(fs[i].value);
    }
  }

  lemma EnumOkNormalizes(entries: Json)
    requires WellFormed(entries)
    ensures EnumOk(Normalize(entries)) <==> EnumOk(entries)
  {
    hide Render, Clean, NormalizeItems, Normalize;
    if entries.Arr? {
      var items := entries.items;
      assert Normalize(entries) == Arr(NormalizeItems(items)) by {
        NormalizeArray(items);
      }
      forall i | 0 <= i < |items|
        ensures Clean(NormalizeItems(items)[i]) <==> Clean(items[i])
        ensures Render(NormalizeItems(items)[i]) == Render(items[i])
      {
        NormalizeItemsAt(items, i);
        CleanNormalizes(items[i]);
        RenderNormalizes(items[i]);
      }
      SpellingsMatch(NormalizeItems(items), items);
      SpellingsMatch(items, NormalizeItems(items));
    } else {
      NormalKind(entries);
    }
  }

  lemma NormalizeArray(items: seq<Json>)
    ensures Normalize(Arr(items)) == Arr(NormalizeItems(items))
  {
  }

  lemma NormalKind(v: Json)
    ensures Normalize(v).Arr? <==> v.Arr?
  {
  }

  lemma SpellingsMatch(a: seq<Json>, b: seq<Json>)
    requires |a| == |b| && forall i :: 0 <= i < |a| ==> (Clean(a[i]) <==> Clean(b[i])) && Render(a[i]) == Render(b[i])
    ensures SpellingsOk(a) ==> SpellingsOk(b)
  {
    hide Render, Clean;
  }

  lemma BoundsOkNormalize(s: Json, low: Text, high: Text, natural: bool)
    requires s.Obj? && WellFormed(s)
    ensures BoundsOk(Lookup(Normalize(s).fields, low), Lookup(Normalize(s).fields, high), natural)
            <==> BoundsOk(Lookup(s.fields, low), Lookup(s.fields, high), natural)
  {
    hide WellFormed, NormalizeFields, SortByKey, Lookup;
    KeywordNormalizes(s.fields, low);
    KeywordNormalizes(s.fields, high);
  }

  lemma {:induction false} InsertKeysKnown(f: Field<Json>, fields: seq<Field<Json>>)
    ensures KeysKnown(Insert(f, fields)) <==> IsKeyword(f.key) && KeysKnown(fields)
  {
    hide IsKeyword, Below;
    if fields == [] || Below(f.key, fields[0].key) {
      assert ([f] + fields)[0] == f && ([f] + fields)[1..] == fields;
      KeysKnownCons([f] + fields);
    } else {
      InsertKeysKnown(f, fields[1..]);
      assert Insert(f, fields)[1..] == Insert(f, fields[1..]);
      KeysKnownCons(Insert(f, fields));
      KeysKnownCons(fields);
    }
  }

  lemma KeysKnownCons(fields: seq<Field<Json>>)
    requires fields != []
    ensures KeysKnown(fields) <==> IsKeyword(fields[0].key) && KeysKnown(fields[1..])
  {
    hide IsKeyword;
    if KeysKnown(fields[1..]) {
      assert forall i :: 0 < i < |fields| ==> fields[i] == fields[1..][i - 1];
    }
  }

  lemma {:induction false} KeysKnownNormalizes(fields: seq<Field<Json>>)
    ensures KeysKnown(SortByKey(NormalizeFields(fields))) <==> KeysKnown(fields)
  {
    hide IsKeyword, Insert, KeysKnown;
    if fields != [] {
      KeysKnownNormalizes(fields[1..]);
      assert NormalizeFields(fields)[1..] == NormalizeFields(fields[1..]);
      KeysKnownCons(fields);
      InsertKeysKnown(NormalizeFields(fields)[0], SortByKey(NormalizeFields(fields[1..])));
    }
  }

  lemma {:induction false} InsertChildren(f: Field<Json>, children: seq<Field<Json>>, depth: nat)
    ensures ChildrenOk(Insert(f, children), depth) <==> SchemaOk(f.value, depth) && ChildrenOk(children, depth)
  {
    hide SchemaOk, Below;
    if children == [] || Below(f.key, children[0].key) {
      assert ([f] + children)[1..] == children;
    } else {
      InsertChildren(f, children[1..], depth);
      assert Insert(f, children)[1..] == Insert(f, children[1..]);
    }
  }

  lemma {:induction false} SortChildren(children: seq<Field<Json>>, depth: nat)
    ensures ChildrenOk(SortByKey(children), depth) <==> ChildrenOk(children, depth)
  {
    hide SchemaOk, Insert;
    if children != [] {
      SortChildren(children[1..], depth);
      InsertChildren(children[0], SortByKey(children[1..]), depth);
    }
  }

  /** A schema is admitted exactly when its sorted form is. */
  lemma {:induction false} SchemaOkNormalizes(s: Json, depth: nat)
    requires WellFormed(s)
    ensures SchemaOk(Normalize(s), depth) <==> SchemaOk(s, depth)
    decreases s, 2
  {
    hide TypeOk, Compatible, RequiredOk, EnumOk, AllBoundsOk, PropertiesOk, NestedOk, KeysKnown, WellFormed, Lookup,
      NormalizeFields, SortByKey, NormalizeItems;
    if s.Obj? {
      KeysKnownNormalizes(s.fields);
      CompatibleNormalizes(s);
      KeywordsNormalize(s);
      PropertiesNormalize(s, depth);
      NestedNormalize(s, depth);
      AllBoundsNormalize(s);
    }
  }

  lemma KeywordsNormalize(s: Json)
    requires s.Obj? && WellFormed(s)
    ensures var a, b := Lookup(s.fields, TYPE), Lookup(Normalize(s).fields, TYPE);
            (a.Some? <==> b.Some?) && (a.Some? ==> (TypeOk(b.value) <==> TypeOk(a.value)))
    ensures var a, b := Lookup(s.fields, REQUIRED), Lookup(Normalize(s).fields, REQUIRED);
            (a.Some? <==> b.Some?) && (a.Some? ==> (RequiredOk(b.value) <==> RequiredOk(a.value)))
    ensures var a, b := Lookup(s.fields, ENUM), Lookup(Normalize(s).fields, ENUM);
            (a.Some? <==> b.Some?) && (a.Some? ==> (EnumOk(b.value) <==> EnumOk(a.value)))
  {
    hide TypeOk, RequiredOk, EnumOk, WellFormed, Lookup, NormalizeFields, SortByKey;
    KeywordNormalizes(s.fields, TYPE);
    KeywordNormalizes(s.fields, REQUIRED);
    KeywordNormalizes(s.fields, ENUM);
    if HasKey(s.fields, TYPE) {
      TypeOkNormalizes(Lookup(s.fields, TYPE).value);
    }
    if HasKey(s.fields, REQUIRED) {
      RequiredOkNormalizes(Lookup(s.fields, REQUIRED).value);
    }
    if HasKey(s.fields, ENUM) {
      EnumOkNormalizes(Lookup(s.fields, ENUM).value);
    }
  }

  lemma AllBoundsNormalize(s: Json)
    requires s.Obj? && WellFormed(s)
    ensures AllBoundsOk(Normalize(s)) <==> AllBoundsOk(s)
  {
    hide BoundsOk, WellFormed, Normalize, Lookup;
    BoundsOkNormalize(s, MINIMUM, MAXIMUM, false);
    BoundsOkNormalize(s, MIN_LENGTH, MAX_LENGTH, true);
    BoundsOkNormalize(s, MIN_ITEMS, MAX_ITEMS, true);
    BoundsOkNormalize(s, MIN_PROPERTIES, MAX_PROPERTIES, true);
  }

  lemma {:induction false} PropertiesNormalize(s: Json, depth: nat)
    requires s.Obj? && WellFormed(s)
    ensures PropertiesOk(Normalize(s), depth) <==> PropertiesOk(s, depth)
    decreases s, 1
  {
    hide ChildrenOk, NormalizeFields, SortByKey, Lookup;
    KeywordNormalizes(s.fields, PROPERTIES);
    var properties := Member(s, PROPERTIES);
    if properties.Some? && properties.value.Obj? {
      ChildrenNormalize(properties.value.fields, depth + 2);
      SortChildren(NormalizeFields(properties.value.fields), depth + 2);
    }
  }

  lemma {:induction false} ChildrenNormalize(children: seq<Field<Json>>, depth: nat)
    requires WellFormedValues(children)
    ensures ChildrenOk(NormalizeFields(children), depth) <==> ChildrenOk(children, depth)
    decreases children, 0
  {
    hide SchemaOk, WellFormed, Normalize;
    if children != [] {
      SchemaOkNormalizes(children[0].value, depth);
      ChildrenNormalize(children[1..], depth);
      assert NormalizeFields(children)[1..] == NormalizeFields(children[1..]);
    }
  }

  lemma {:induction false} NestedNormalize(s: Json, depth: nat)
    requires s.Obj? && WellFormed(s)
    ensures NestedOk(Normalize(s), depth) <==> NestedOk(s, depth)
    decreases s, 1
  {
    hide SchemaOk, WellFormed, NormalizeFields, SortByKey, NormalizeItems, Lookup;
    KeywordNormalizes(s.fields, ADDITIONAL);
    KeywordNormalizes(s.fields, ITEMS);
    var additional, items := Member(s, ADDITIONAL), Member(s, ITEMS);
    if additional.Some? {
      SchemaOkNormalizes(additional.value, depth + 1);
    }
    if items.Some? {
      SchemaOkNormalizes(items.value, depth + 1);
    }
  }

  /** What a schema admits does not depend on any key order. */
  lemma AdmitsNormalizes(s: Json, v: Json)
    requires WellFormed(s) && WellFormed(v)
    ensures Admits(Normalize(s), Normalize(v)) <==> Admits(s, v)
  {
    hide SchemaOk, Clean, CheckValue, WellFormed, Normalize;
    SchemaOkNormalizes(s, 0);
    CleanNormalizes(v);
    CheckNormalizes(v, s);
  }
}
