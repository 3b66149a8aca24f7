/**
 * JSON values as the program holds them after parsing: an object is a Python
 * dictionary, so its insertion order is observable and its keys are unique.
 * Numbers are the float-free ones.
 */
module Json {
  import opened Texts

  /** One `key: value` pair of an ordered dictionary. */
  datatype Field<T> = Field(key: Text, value: T)

  datatype Json =
    | Null
    | Bool(flag: bool)
    | Int(number: int)
    | Str(text: Text)
    | Arr(items: seq<Json>)
    | Obj(fields: seq<Field<Json>>)

  // ----- ordered dictionaries -----

  predicate UniqueKeys<T>(fs: seq<Field<T>>) {
    forall i, j :: 0 <= i < j < |fs| ==> fs[i].key != fs[j].key
  }

  /** `fs.get(key)`: the value stored under `key`, if any. */
  function Lookup<T>(fs: seq<Field<T>>, key: Text): Option<T> {
    if fs == [] then None
    else if fs[0].key == key then Some(fs[0].value)
    else Lookup(fs[1..], key)
  }

  predicate HasKey<T>(fs: seq<Field<T>>, key: Text) {
    Lookup(fs, key).Some?
  }

  /** The dictionary as a finite map, which forgets its order. */
  ghost function FieldMap<T>(fs: seq<Field<T>>): map<Text, T> {
    if fs == [] then map[] else FieldMap(fs[1..])[fs[0].key := fs[0].value]
  }

  lemma {:induction false} LookupIsFieldMap<T>(fs: seq<Field<T>>, key: Text)
    ensures key in FieldMap(fs) <==> HasKey(fs, key)
    ensures HasKey(fs, key) ==> Lookup(fs, key) == Some(FieldMap(fs)[key])
  {
    if fs != [] {
      LookupIsFieldMap(fs[1..], key);
    }
  }

  lemma {:induction false} LookupFindsKey<T>(fs: seq<Field<T>>, key: Text)
    ensures HasKey(fs, key) <==> exists i :: 0 <= i < |fs| && fs[i].key == key
    ensures HasKey(fs, key) ==> exists i :: 0 <= i < |fs| && fs[i] == Field(key, Lookup(fs, key).value)
  {
    if fs != [] {
      LookupFindsKey(fs[1..], key);
      if fs[0].key == key {
        assert fs[0] == Field(key, Lookup(fs, key).value);
      } else if HasKey(fs[1..], key) {
        var i :| 0 <= i < |fs[1..]| && fs[1..][i] == Field(key, Lookup(fs, key).value);
        assert fs[i + 1] == Field(key, Lookup(fs, key).value);
      }
    }
  }

  lemma LookupAt<T>(fs: seq<Field<T>>, i: nat)
    requires UniqueKeys(fs) && i < |fs|
    ensures Lookup(fs, fs[i].key) == Some(fs[i].value)
  {
    if i != 0 {
      LookupAt(fs[1..], i - 1);
    }
  }

  lemma {:induction false} FieldMapSize<T>(fs: seq<Field<T>>)
    requires UniqueKeys(fs)
    ensures |FieldMap(fs)| == |fs|
  {
    if fs != [] {
      FieldMapSize(fs[1..]);
      LookupIsFieldMap(fs[1..], fs[0].key);
      LookupFindsKey(fs[1..], fs[0].key);
      assert forall i :: 0 <= i < |fs[1..]| ==> fs[1..][i] == fs[i + 1];
    }
  }

  // ----- sorting by key -----

  predicate StrictlySorted<T>(fs: seq<Field<T>>) {
    forall i :: 0 < i < |fs| ==> Below(fs[i - 1].key, fs[i].key)
  }

  /** `fs.insert` at the place that keeps a sorted list sorted. */
  function Insert<T>(f: Field<T>, fs: seq<Field<T>>): (r: seq<Field<T>>)
    ensures |r| == |fs| + 1
  {
    if fs == [] || Below(f.key, fs[0].key) then [f] + fs else [fs[0]] + Insert(f, fs[1..])
  }

  /** `items.sort(key=lambda pair: pair[0])`. */
  function SortByKey<T>(fs: seq<Field<T>>): (r: seq<Field<T>>)
    ensures |r| == |fs|
  {
    if fs == [] then [] else Insert(fs[0], SortByKey(fs[1..]))
  }

  lemma {:induction false} InsertProperties<T>(f: Field<T>, fs: seq<Field<T>>)
    requires StrictlySorted(fs) && !HasKey(fs, f.key)
    ensures StrictlySorted(Insert(f, fs))
    ensures FieldMap(Insert(f, fs)) == FieldMap(fs)[f.key := f.value]
  {
    if fs == [] || Below(f.key, fs[0].key) {
      assert ([f] + fs)[1..] == fs;
    } else {
      var rest := Insert(f, fs[1..]);
      InsertProperties(f, fs[1..]);
      BelowTrichotomy(f.key, fs[0].key);
      assert rest[0] == f || rest[0] == fs[1];
      assert ([fs[0]] + rest)[1..] == rest;
      forall i | 0 < i < |rest| + 1 ensures Below(([fs[0]] + rest)[i - 1].key, ([fs[0]] + rest)[i].key) {
        assert i > 1 ==> Below(rest[i - 2].key, rest[i - 1].key);
      }
    }
  }

  /** Sorting a dictionary's pairs orders them and changes no binding. */
  lemma {:induction false} SortByKeyProperties<T>(fs: seq<Field<T>>)
    requires UniqueKeys(fs)
    ensures StrictlySorted(SortByKey(fs))
    ensures FieldMap(SortByKey(fs)) == FieldMap(fs)
  {
    if fs != [] {
      var rest := fs[1..];
      SortByKeyProperties(rest);
      LookupIsFieldMap(rest, fs[0].key);
      LookupIsFieldMap(SortByKey(rest), fs[0].key);
      LookupFindsKey(rest, fs[0].key);
      assert forall i :: 0 <= i < |rest| ==> rest[i] == fs[i + 1];
      InsertProperties(fs[0], SortByKey(rest));
    }
  }

  lemma {:induction false} SortedFirstIsLeast<T>(fs: seq<Field<T>>, key: Text)
    requires fs != [] && StrictlySorted(fs)
    ensures HasKey(fs[1..], key) ==> Below(fs[0].key, key)
  {
    if |fs| > 1 {
      SortedFirstIsLeast(fs[1..], key);
      if HasKey(fs[1..], key) && fs[1].key != key {
        assert Lookup(fs[1..], key) == Lookup(fs[1..][1..], key);
        BelowTransitive(fs[0].key, fs[1].key, key);
      }
    }
  }

  /** Two sorted pair lists with the same bindings are the same list. */
  lemma {:induction false} SortedIsCanonical<T>(fs: seq<Field<T>>, gs: seq<Field<T>>)
    requires StrictlySorted(fs) && StrictlySorted(gs) && FieldMap(fs) == FieldMap(gs)
    ensures fs == gs
  {
    assert fs != [] ==> fs[0].key in FieldMap(fs);
    assert gs != [] ==> gs[0].key in FieldMap(gs);
    if fs != [] && gs != [] {
      var f, g := fs[0], gs[0];
      LookupIsFieldMap(fs, g.key);
      LookupIsFieldMap(gs, f.key);
      LookupIsFieldMap(fs, f.key);
      LookupIsFieldMap(gs, g.key);
      SortedFirstIsLeast(fs, g.key);
      SortedFirstIsLeast(gs, f.key);
      BelowTrichotomy(f.key, g.key);
      assert f == g;
      SortedFirstIsLeast(fs, f.key);
      SortedFirstIsLeast(gs, f.key);
      BelowTrichotomy(f.key, f.key);
      LookupIsFieldMap(fs[1..], f.key);
      LookupIsFieldMap(gs[1..], f.key);
      assert FieldMap(fs[1..]) == FieldMap(fs) - {f.key};
      assert FieldMap(gs[1..]) == FieldMap(gs) - {f.key};
      SortedIsCanonical(fs[1..], gs[1..]);
      assert fs == [f] + fs[1..] && gs == [g] + gs[1..];
    }
  }

  lemma {:induction false} SortedHasUniqueKeys<T>(fs: seq<Field<T>>)
    requires StrictlySorted(fs)
    ensures UniqueKeys(fs)
  {
    if fs != [] {
      SortedHasUniqueKeys(fs[1..]);
      forall j | 0 < j < |fs| ensures fs[0].key != fs[j].key {
        assert fs[1..][j - 1] == fs[j];
        LookupFindsKey(fs[1..], fs[j].key);
        SortedFirstIsLeast(fs, fs[j].key);
        BelowTrichotomy(fs[0].key, fs[j].key);
      }
      forall i, j | 0 < i < j < |fs| ensures fs[i].key != fs[j].key {
        assert fs[1..][i - 1].key != fs[1..][j - 1].key;
      }
    }
  }

  /** `v.get(key)` on an object: what is found is a part of the value. */
  function Member(v: Json, key: Text): (r: Option<Json>)
    requires v.Obj?
    ensures r == Lookup(v.fields, key)
    ensures r.Some? ==> (v decreases to r.value)
  {
    LookupFindsKey(v.fields, key);
    Lookup(v.fields, key)
  }

  // ----- well-formed values, normal form, equality -----

  /** Every object, at every depth, has unique keys: what a Python dictionary guarantees. */
  predicate WellFormed(v: Json) {
    match v
    case Arr(items) => forall i :: 0 <= i < |items| ==> WellFormed(items[i])
    case Obj(fields) => UniqueKeys(fields) && forall i :: 0 <= i < |fields| ==> WellFormed(fields[i].value)
    case _ => true
  }

  /** The value with every object's keys in code-point order. */
  function Normalize(v: Json): Json
    decreases v, 0
  {
    match v
    case Arr(items) => Arr(NormalizeItems(items))
    case Obj(fields) => Obj(SortByKey(NormalizeFields(fields)))
    case _ => v
  }

  function NormalizeItems(items: seq<Json>): (r: seq<Json>)
    ensures |r| == |items|
    decreases items, 1
  {
    if items == [] then [] else [Normalize(items[0])] + NormalizeItems(items[1..])
  }

  function NormalizeFields(fields: seq<Field<Json>>): (r: seq<Field<Json>>)
    ensures |r| == |fields|
    decreases fields, 1
  {
    if fields == [] then []
    else [Field(fields[0].key, Normalize(fields[0].value))] + NormalizeFields(fields[1..])
  }

  lemma {:induction false} NormalizeItemsAt(items: seq<Json>, i: nat)
    requires i < |items|
    ensures NormalizeItems(items)[i] == Normalize(items[i])
  {
    if i > 0 {
      NormalizeItemsAt(items[1..], i - 1);
    }
  }

  lemma {:induction false} NormalizeFieldsAt(fields: seq<Field<Json>>, i: nat)
    requires i < |fields|
    ensures NormalizeFields(fields)[i] == Field(fields[i].key, Normalize(fields[i].value))
  {
    if i > 0 {
      NormalizeFieldsAt(fields[1..], i - 1);
    }
  }

  lemma NormalizeFieldsKeys(fields: seq<Field<Json>>)
    requires UniqueKeys(fields)
    ensures UniqueKeys(NormalizeFields(fields))
  {
    forall i, j | 0 <= i < j < |fields|
      ensures NormalizeFields(fields)[i].key != NormalizeFields(fields)[j].key
    {
      NormalizeFieldsAt(fields, i);
      NormalizeFieldsAt(fields, j);
    }
  }

  function OptionNormalize(o: Option<Json>): Option<Json> {
    match o
    case None => None
    case Some(v) => Some(Normalize(v))
  }

  lemma {:induction false} LookupNormalizeFields(fields: seq<Field<Json>>, key: Text)
    ensures Lookup(NormalizeFields(fields), key) == OptionNormalize(Lookup(fields, key))
  {
    if fields != [] {
      LookupNormalizeFields(fields[1..], key);
      assert NormalizeFields(fields)[1..] == NormalizeFields(fields[1..]);
    }
  }

  lemma LookupSorted<T>(fs: seq<Field<T>>, key: Text)
    requires UniqueKeys(fs)
    ensures Lookup(SortByKey(fs), key) == Lookup(fs, key)
  {
    SortByKeyProperties(fs);
    LookupIsFieldMap(fs, key);
    LookupIsFieldMap(SortByKey(fs), key);
  }

  /** Looking a key up does not see the order of the dictionary. */
  lemma LookupNormalized(fields: seq<Field<Json>>, key: Text)
    requires UniqueKeys(fields)
    ensures Lookup(Normalize(Obj(fields)).fields, key) == OptionNormalize(Lookup(fields, key))
  {
    NormalizeFieldsKeys(fields);
    LookupSorted(NormalizeFields(fields), key);
    LookupNormalizeFields(fields, key);
  }

  lemma {:induction false} SortedMembers<T>(fs: seq<Field<T>>, i: nat) returns (j: nat)
    requires i < |fs|
    ensures j < |fs| && SortByKey(fs)[i] == fs[j]
  {
    j := InsertedMember(fs[0], SortByKey(fs[1..]), i);
    if j > 0 {
      var k := SortedMembers(fs[1..], j - 1);
      j := k + 1;
    }
  }

  lemma {:induction false} InsertedMember<T>(f: Field<T>, fs: seq<Field<T>>, i: nat) returns (j: nat)
    requires i <= |fs|
    ensures j <= |fs| && Insert(f, fs)[i] == if j == 0 then f else fs[j - 1]
  {
    if fs == [] || Below(f.key, fs[0].key) {
      j := i;
    } else if i == 0 {
      j := 1;
    } else {
      j := InsertedMember(f, fs[1..], i - 1);
      if j > 0 {
        j := j + 1;
      }
    }
  }

  lemma {:induction false} NormalizeWellFormed(v: Json)
    requires WellFormed(v)
    ensures WellFormed(Normalize(v))
  {
    match v
    case Arr(items) =>
      forall i | 0 <= i < |items| ensures WellFormed(NormalizeItems(items)[i]) {
        NormalizeWellFormed(items[i]);
        NormalizeItemsAt(items, i);
      }
    case Obj(fields) =>
      var ns := NormalizeFields(fields);
      NormalizeFieldsKeys(fields);
      SortByKeyProperties(ns);
      SortedHasUniqueKeys(SortByKey(ns));
      forall i | 0 <= i < |ns| ensures WellFormed(SortByKey(ns)[i].value) {
        var j := SortedMembers(ns, i);
        NormalizeFieldsAt(fields, j);
        NormalizeWellFormed(fields[j].value);
      }
    case _ =>
  }

  /** The engine's `_equal`: object order is ignored, and a Boolean is never a number. */
  predicate Equal(left: Json, right: Json)
    decreases left, 1
  {
    match (left, right)
    case (Obj(ls), Obj(rs)) => |ls| == |rs| && EachFieldEqual(ls, rs)
    case (Arr(ls), Arr(rs)) => |ls| == |rs| && EachItemEqual(ls, rs)
    case _ => left == right
  }

  predicate EachItemEqual(ls: seq<Json>, rs: seq<Json>)
    requires |ls| == |rs|
    decreases ls, 0
  {
    ls == [] || (Equal(ls[0], rs[0]) && EachItemEqual(ls[1..], rs[1..]))
  }

  predicate EachFieldEqual(ls: seq<Field<Json>>, rs: seq<Field<Json>>)
    decreases ls, 0
  {
    ls == [] ||
    (HasKey(rs, ls[0].key) && Equal(ls[0].value, Lookup(rs, ls[0].key).value) && EachFieldEqual(ls[1..], rs))
  }

  /** `_equal` holds exactly when the two values have the same normal form. */
  lemma {:induction false} EqualIsSameNormalForm(left: Json, right: Json)
    requires WellFormed(left) && WellFormed(right)
    ensures Equal(left, right) <==> Normalize(left) == Normalize(right)
    decreases left, 1
  {
    match (left, right)
    case (Obj(ls), Obj(rs)) =>
      NormalizeFieldsKeys(ls);
      NormalizeFieldsKeys(rs);
      SortByKeyProperties(NormalizeFields(ls));
      SortByKeyProperties(NormalizeFields(rs));
      var lm, rm := FieldMap(NormalizeFields(ls)), FieldMap(NormalizeFields(rs));
      EachFieldEqualIsSubmap(ls, rs);
      FieldMapSize(NormalizeFields(ls));
      FieldMapSize(NormalizeFields(rs));
      if Equal(left, right) {
        SubmapOfSameSize(lm, rm);
        SortedIsCanonical(SortByKey(NormalizeFields(ls)), SortByKey(NormalizeFields(rs)));
      }
    case (Arr(ls), Arr(rs)) =>
      if |ls| == |rs| {
        EachItemEqualIsSameNormalForm(ls, rs);
      }
    case _ =>
  }

  lemma {:induction false} EachItemEqualIsSameNormalForm(ls: seq<Json>, rs: seq<Json>)
    requires |ls| == |rs|
    requires forall i :: 0 <= i < |ls| ==> WellFormed(ls[i]) && WellFormed(rs[i])
    ensures EachItemEqual(ls, rs) <==> NormalizeItems(ls) == NormalizeItems(rs)
    decreases ls, 0
  {
    if ls != [] {
      EqualIsSameNormalForm(ls[0], rs[0]);
      EachItemEqualIsSameNormalForm(ls[1..], rs[1..]);
      assert NormalizeItems(ls)[1..] == NormalizeItems(ls[1..]);
      assert NormalizeItems(rs)[1..] == NormalizeItems(rs[1..]);
    }
  }

  ghost predicate Submap<K, V>(m: map<K, V>, n: map<K, V>) {
    forall k :: k in m ==> k in n && m[k] == n[k]
  }

  lemma SubmapOfSameSize<K, V>(m: map<K, V>, n: map<K, V>)
    requires Submap(m, n) && |m| == |n|
    ensures m == n
  {
    assert m.Keys <= n.Keys;
    SubsetOfSameSize(m.Keys, n.Keys);
  }

  lemma {:induction false} SubsetOfSameSize<K>(s: set<K>, t: set<K>)
    requires s <= t && |s| == |t|
    ensures s == t
  {
    assert |t - s| == |t| - |s|;
  }

  lemma {:induction false} EachFieldEqualIsSubmap(ls: seq<Field<Json>>, rs: seq<Field<Json>>)
    requires UniqueKeys(ls) && UniqueKeys(rs)
    requires forall i :: 0 <= i < |ls| ==> WellFormed(ls[i].value)
    requires forall i :: 0 <= i < |rs| ==> WellFormed(rs[i].value)
    ensures EachFieldEqual(ls, rs) <==> Submap(FieldMap(NormalizeFields(ls)), FieldMap(NormalizeFields(rs)))
    decreases ls, 0
  {
    if ls != [] {
      var key, rest := ls[0].key, ls[1..];
      var lm, rm := FieldMap(NormalizeFields(rest)), FieldMap(NormalizeFields(rs));
      EachFieldEqualIsSubmap(rest, rs);
      assert NormalizeFields(ls)[1..] == NormalizeFields(rest);
      LookupNormalizeFields(rs, key);
      LookupIsFieldMap(NormalizeFields(rs), key);
      LookupNormalizeFields(rest, key);
      LookupIsFieldMap(NormalizeFields(rest), key);
      LookupFindsKey(rest, key);
      assert forall i :: 0 <= i < |rest| ==> rest[i] == ls[i + 1];
      assert key !in lm;
      if HasKey(rs, key) {
        LookupFindsKey(rs, key);
        EqualIsSameNormalForm(ls[0].value, Lookup(rs, key).value);
      }
      var full := lm[key := Normalize(ls[0].value)];
      if Submap(full, rm) {
        forall k | k in lm ensures k in rm && lm[k] == rm[k] {
          assert k in full;
        }
        assert key in full;
      }
    }
  }

  /** `_equal` is an equivalence relation, so comparing and hashing agree on what "same" means. */
  lemma EqualIsEquivalence(a: Json, b: Json, c: Json)
    requires WellFormed(a) && WellFormed(b) && WellFormed(c)
    ensures Equal(a, a)
    ensures Equal(a, b) ==> Equal(b, a)
    ensures Equal(a, b) && Equal(b, c) ==> Equal(a, c)
  {
    EqualIsSameNormalForm(a, a);
    EqualIsSameNormalForm(a, b);
    EqualIsSameNormalForm(b, a);
    EqualIsSameNormalForm(b, c);
    EqualIsSameNormalForm(a, c);
  }

  /** A value with sorted keys throughout. */
  predicate Ordered(v: Json) {
    match v
    case Arr(items) => forall i :: 0 <= i < |items| ==> Ordered(items[i])
    case Obj(fields) => StrictlySorted(fields) && forall i :: 0 <= i < |fields| ==> Ordered(fields[i].value)
    case _ => true
  }

  lemma {:induction false} NormalizeOrders(v: Json)
    requires WellFormed(v)
    ensures Ordered(Normalize(v))
  {
    match v
    case Arr(items) =>
      forall i | 0 <= i < |items| ensures Ordered(NormalizeItems(items)[i]) {
        NormalizeOrders(items[i]);
        NormalizeItemsAt(items, i);
      }
    case Obj(fields) =>
      var ns := NormalizeFields(fields);
      NormalizeFieldsKeys(fields);
      SortByKeyProperties(ns);
      forall i | 0 <= i < |ns| ensures Ordered(SortByKey(ns)[i].value) {
        var j := SortedMembers(ns, i);
        NormalizeFieldsAt(fields, j);
        NormalizeOrders(fields[j].value);
      }
    case _ =>
  }

  lemma {:induction false} NormalizeOrdered(v: Json)
    requires Ordered(v)
    ensures Normalize(v) == v
  {
    match v
    case Arr(items) =>
      forall i | 0 <= i < |items| ensures NormalizeItems(items)[i] == items[i] {
        NormalizeOrdered(items[i]);
        NormalizeItemsAt(items, i);
      }
      assert NormalizeItems(items) == items;
    case Obj(fields) =>
      forall i | 0 <= i < |fields| ensures NormalizeFields(fields)[i] == fields[i] {
        NormalizeOrdered(fields[i].value);
        NormalizeFieldsAt(fields, i);
      }
      assert NormalizeFields(fields) == fields;
      SortedHasUniqueKeys(fields);
      SortByKeyProperties(fields);
      SortedIsCanonical(SortByKey(fields), fields);
    case _ =>
  }

  /** Sorting keys twice is sorting them once. */
  lemma NormalizeIdempotent(v: Json)
    requires WellFormed(v)
    ensures Normalize(Normalize(v)) == Normalize(v)
  {
    NormalizeOrders(v);
    NormalizeOrdered(Normalize(v));
  }
}
