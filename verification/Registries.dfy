/**
 * The registry's state, what a single write may do to it, and why every
 * permitted write keeps it consistent and only ever extends its history.
 */
module Registries {
  import opened Texts
  import opened Json
  import opened Cells

  const MAX_VERSIONS := 1000
  const MAX_COUNTER: int := 0x7FFF_FFFF_FFFF_FFFF
  const MAX_DESCRIPTION_BYTES := 4 * 1024

  /** The cells of one namespace; an absent catalog cell reads as the empty catalog. */
  datatype Store = Store(aliases: map<Text, Alias>, records: map<Text, Record>,
                         telemetry: map<(Text, int), Telemetry>, catalog: Catalog)

  const EMPTY := Store(map[], map[], map[], Catalog(0, []))

  predicate NameStart(c: CodePoint) {
    0x30 <= c <= 0x39 || 0x41 <= c <= 0x5A || 0x61 <= c <= 0x7A
  }

  predicate NamePart(c: CodePoint) {
    NameStart(c) || c == 0x2E || c == 0x5F || c == 0x2D
  }

  /** `validate_name`. */
  predicate NameOk(t: Text) {
    && 1 <= |t| <= 128
    && NameStart(t[0])
    && (forall i :: 0 <= i < |t| ==> NamePart(t[i]))
    && (forall i :: 0 < i < |t| ==> !(t[i - 1] == 0x2E && t[i] == 0x2E))
  }

  // ----- what the alias check accepts -----

  predicate EntryOk(e: Entry, revision: int) {
    e.version >= 1 && 1 <= e.revision <= revision
  }

  predicate Increasing(versions: seq<Entry>) {
    forall i, j :: 0 <= i < j < |versions| ==> versions[i].version < versions[j].version
  }

  /** What the alias calls active is its one active entry, or there is neither. */
  predicate PointerOk(a: Alias) {
    && (forall i :: 0 <= i < |a.versions| && a.versions[i].state.Active? ==> a.active == Some(a.versions[i].version))
    && (a.active.Some? ==> exists i :: 0 <= i < |a.versions| && a.versions[i].state.Active?)
  }

  predicate DescriptionOk(t: Text) {
    Encodable(t) && Utf8Length(t) <= MAX_DESCRIPTION_BYTES
  }

  /** Everything `_validate_alias` checks. */
  predicate AliasOk(a: Alias, name: Text) {
    && a.name == name
    && DescriptionOk(a.description)
    && a.revision >= 1
    && 1 <= |a.versions| <= MAX_VERSIONS
    && (forall i :: 0 <= i < |a.versions| ==> EntryOk(a.versions[i], a.revision))
    && Increasing(a.versions)
    && a.latest == a.versions[|a.versions| - 1].version
    && PointerOk(a)
  }

  /** `_validate_alias`: one pass with counters and a set of the versions seen. */
  method ValidateAlias(a: Alias, name: Text) returns (ok: bool)
    ensures ok <==> AliasOk(a, name)
  {
    hide DescriptionOk, EntryOk, Increasing;
    if a.name != name || !DescriptionOk(a.description) || a.revision < 1 {
      return false;
    }
    if |a.versions| == 0 || |a.versions| > MAX_VERSIONS {
      return false;
    }
    var passed, latest, activeEntries, seen := ValidateEntries(a);
    LatestIsPositive(a);
    if !passed {
      return false;
    }
    ok := a.latest >= 1 && a.latest == latest
      && (a.active.None? ==> activeEntries == 0)
      && (a.active.Some? ==> a.active.value >= 1 && a.active.value in seen && activeEntries == 1);
    if a.active.Some? && activeEntries == 1 {
      ActiveIsSeen(a);
    }
  }

  predicate EntriesOk(a: Alias, n: nat)
    requires n <= |a.versions|
  {
    && (forall i :: 0 <= i < n ==> EntryOk(a.versions[i], a.revision))
    && Increasing(a.versions[..n])
    && (forall i :: 0 <= i < n && a.versions[i].state.Active? ==> a.active == Some(a.versions[i].version))
  }

  /** The loop over the version entries. */
  method ValidateEntries(a: Alias) returns (ok: bool, previous: int, activeEntries: int, seen: set<int>)
    ensures ok <==> EntriesOk(a, |a.versions|)
    ensures ok ==> previous == if a.versions == [] then 0 else a.versions[|a.versions| - 1].version
    ensures ok ==> activeEntries == if exists i :: 0 <= i < |a.versions| && a.versions[i].state.Active? then 1 else 0
    ensures ok ==> forall i :: 0 <= i < |a.versions| ==> a.versions[i].version in seen
  {
    seen, activeEntries, previous := {}, 0, 0;
    ghost var activeAt := 0;
    for i := 0 to |a.versions|
      invariant EntriesOk(a, i)
      invariant previous == if i == 0 then 0 else a.versions[i - 1].version
      invariant forall v :: v in seen ==> v <= previous
      invariant forall j :: 0 <= j < i ==> a.versions[j].version in seen
      invariant activeEntries == 0 || activeEntries == 1
      invariant activeEntries == 0 ==> forall j :: 0 <= j < i ==> !a.versions[j].state.Active?
      invariant activeEntries == 1 ==> 0 <= activeAt < i && a.versions[activeAt].state.Active?
    {
      var e := a.versions[i];
      if e.version < 1 || e.version in seen || e.version <= previous {
        OutOfOrder(a, i);
        ok := false;
        return;
      }
      if e.revision < 1 || e.revision > a.revision {
        ok := false;
        return;
      }
      if e.state.Active? {
        if a.active != Some(e.version) {
          ok := false;
          return;
        }
        activeEntries := activeEntries + 1;
        activeAt := i;
      }
      IncreasingExtends(a.versions, i);
      seen := seen + {e.version};
      previous := e.version;
    }
    ok := true;
  }

  lemma OutOfOrder(a: Alias, i: nat)
    requires i < |a.versions|
    requires a.versions[i].version <= if i == 0 then 0 else a.versions[i - 1].version
    ensures !EntriesOk(a, |a.versions|)
  {
    assert a.versions[..|a.versions|] == a.versions;
    assert i == 0 ==> !EntryOk(a.versions[i], a.revision);
    if i > 0 {
      assert !(a.versions[i - 1].version < a.versions[i].version);
    }
  }

  lemma IncreasingExtends(versions: seq<Entry>, i: nat)
    requires i < |versions| && Increasing(versions[..i])
    requires i > 0 ==> versions[i - 1].version < versions[i].version
    ensures Increasing(versions[..i + 1])
  {
    var before := versions[..i];
    forall j | 0 <= j < i ensures versions[j].version < versions[i].version {
      assert before[j] == versions[j] && before[i - 1] == versions[i - 1];
      assert j < i - 1 ==> before[j].version < before[i - 1].version;
    }
    forall j, k | 0 <= j < k < i + 1 ensures versions[j].version < versions[k].version {
      assert k < i ==> before[j].version < before[k].version;
    }
  }

  lemma ActiveIsSeen(a: Alias)
    requires EntriesOk(a, |a.versions|) && exists i :: 0 <= i < |a.versions| && a.versions[i].state.Active?
    ensures exists i :: 0 <= i < |a.versions| && a.versions[i].version >= 1 && a.active == Some(a.versions[i].version)
  {
    var i :| 0 <= i < |a.versions| && a.versions[i].state.Active?;
    assert EntryOk(a.versions[i], a.revision);
  }

  lemma LatestIsPositive(a: Alias)
    requires a.versions != []
    ensures EntriesOk(a, |a.versions|) ==> a.versions[|a.versions| - 1].version >= 1
    ensures EntriesOk(a, |a.versions|) <==>
              (forall i :: 0 <= i < |a.versions| ==> EntryOk(a.versions[i], a.revision)) && Increasing(a.versions)
              && (forall i :: 0 <= i < |a.versions| && a.versions[i].state.Active? ==> a.active == Some(a.versions[i].version))
  {
    assert a.versions[..|a.versions|] == a.versions;
    assert EntriesOk(a, |a.versions|) ==> EntryOk(a.versions[|a.versions| - 1], a.revision);
  }

  // ----- consistency -----

  /** Versions are exactly 1..n. */
  predicate Dense(versions: seq<Entry>) {
    forall i :: 0 <= i < |versions| ==> versions[i].version == i + 1
  }

  /** The entry points at a present record with its own identity and hashes. */
  predicate Backed(records: map<Text, Record>, name: Text, e: Entry) {
    && e.contentHash in records
    && records[e.contentHash].name == name
    && records[e.contentHash].version == e.version
    && records[e.contentHash].revision == e.revision
    && records[e.contentHash].programHash == e.programHash
  }

  predicate AliasGood(a: Alias, name: Text, records: map<Text, Record>) {
    && NameOk(name)
    && AliasOk(a, name)
    && Dense(a.versions)
    && forall i :: 0 <= i < |a.versions| ==> Backed(records, name, a.versions[i])
  }

  /** A record under its own content hash, holding a program under its own. */
  predicate RecordGood(r: Record, hash: Text) {
    && IsStored(r)
    && ContentHash(RecordJson(r)) == hash
    && ContentHash(r.program) == r.programHash
    && r.program.Obj? && r.metadata.Obj?
  }

  predicate CountersOk(t: Telemetry) {
    0 <= t.runCount <= MAX_COUNTER && 0 <= t.avoided <= MAX_COUNTER && 0 <= t.revision <= MAX_COUNTER
  }

  predicate TelemetryGood(s: Store, name: Text, version: int)
    requires (name, version) in s.telemetry
  {
    && name in s.aliases
    && 1 <= version <= |s.aliases[name].versions|
    && s.telemetry[(name, version)].contentHash == s.aliases[name].versions[version - 1].contentHash
    && CountersOk(s.telemetry[(name, version)])
  }

  predicate NamesSorted(names: seq<Text>) {
    forall i :: 0 < i < |names| ==> Below(names[i - 1], names[i])
  }

  ghost predicate CatalogGood(c: Catalog, aliases: map<Text, Alias>) {
    c.revision >= 0 && NamesSorted(c.names) && forall n :: n in c.names ==> n in aliases
  }

  ghost predicate Consistent(s: Store) {
    && (forall n :: n in s.aliases ==> AliasGood(s.aliases[n], n, s.records))
    && (forall h :: h in s.records ==> RecordGood(s.records[h], h))
    && (forall n, v :: (n, v) in s.telemetry ==> TelemetryGood(s, n, v))
    && CatalogGood(s.catalog, s.aliases)
  }

  // ----- the catalog -----

  /** `names.append(name); names.sort()` on a sorted list. */
  function InsertName(name: Text, names: seq<Text>): seq<Text> {
    if names == [] || Below(name, names[0]) then [name] + names else [names[0]] + InsertName(name, names[1..])
  }

  lemma {:induction false} InsertNameSorts(name: Text, names: seq<Text>)
    requires NamesSorted(names) && name !in names
    ensures NamesSorted(InsertName(name, names))
    ensures forall n :: n in InsertName(name, names) <==> n == name || n in names
  {
    hide Below;
    if names == [] || Below(name, names[0]) {
      assert ([name] + names)[1..] == names;
    } else {
      var rest := InsertName(name, names[1..]);
      InsertNameSorts(name, names[1..]);
      BelowTrichotomy(name, names[0]);
      assert rest[0] == name || rest[0] == names[1];
      assert names == [names[0]] + names[1..];
      var all := [names[0]] + rest;
      forall i | 0 < i < |all| ensures Below(all[i - 1], all[i]) {
        assert i > 1 ==> Below(rest[i - 2], rest[i - 1]);
      }
    }
  }

  // ----- history only grows -----

  /** Nothing about a version changes but its state, which never returns to draft. */
  predicate EntryGrows(e: Entry, f: Entry) {
    && e.version == f.version && e.contentHash == f.contentHash && e.programHash == f.programHash && e.revision == f.revision
    && (f.state.Draft? ==> e.state.Draft?)
  }

  predicate VersionsGrow(es: seq<Entry>, fs: seq<Entry>) {
    |es| <= |fs| && forall i :: 0 <= i < |es| ==> EntryGrows(es[i], fs[i])
  }

  /** Unchanged, or changed under a strictly higher revision. */
  predicate AliasGrows(a: Alias, b: Alias) {
    a == b || (a.revision < b.revision && VersionsGrow(a.versions, b.versions))
  }

  predicate TelemetryGrows(t: Telemetry, u: Telemetry) {
    t.contentHash == u.contentHash && t.runCount <= u.runCount && t.avoided <= u.avoided && t.revision <= u.revision
  }

  ghost predicate Grows(s: Store, t: Store) {
    && (forall n :: n in s.aliases ==> n in t.aliases && AliasGrows(s.aliases[n], t.aliases[n]))
    && (forall h :: h in s.records ==> h in t.records && t.records[h] == s.records[h])
    && (forall k :: k in s.telemetry ==> k in t.telemetry && TelemetryGrows(s.telemetry[k], t.telemetry[k]))
    && (forall n :: n in s.catalog.names ==> n in t.catalog.names)
  }

  lemma AliasGrowsTransitive(a: Alias, b: Alias, c: Alias)
    requires AliasGrows(a, b) && AliasGrows(b, c)
    ensures AliasGrows(a, c)
  {
    if a != b && b != c {
      forall i | 0 <= i < |a.versions| ensures EntryGrows(a.versions[i], c.versions[i]) {
        assert EntryGrows(a.versions[i], b.versions[i]) && EntryGrows(b.versions[i], c.versions[i]);
      }
    }
  }

  lemma GrowsTransitive(s: Store, t: Store, u: Store)
    requires Grows(s, t) && Grows(t, u)
    ensures Grows(s, u)
  {
    hide AliasGrows;
    forall n | n in s.aliases ensures n in u.aliases && AliasGrows(s.aliases[n], u.aliases[n]) {
      AliasGrowsTransitive(s.aliases[n], t.aliases[n], u.aliases[n]);
    }
  }

  lemma GrowsReflexive(s: Store)
    ensures Grows(s, s)
  {
  }

  // ----- single writes -----

  /** What one `set` of the key-value store writes. */
  datatype Write =
    | AliasCell(alias: Alias)
    | RecordCell(hash: Text, record: Record)
    | TelemetryCell(name: Text, version: int, counters: Telemetry)
    | CatalogCell(catalog: Catalog)

  function Apply(s: Store, w: Write): Store {
    match w
    case AliasCell(a) => s.(aliases := s.aliases[a.name := a])
    case RecordCell(h, r) => s.(records := s.records[h := r])
    case TelemetryCell(n, v, t) => s.(telemetry := s.telemetry[(n, v) := t])
    case CatalogCell(c) => s.(catalog := c)
  }

  /** The conditions under which each cell is written. */
  ghost predicate Permitted(s: Store, w: Write) {
    match w
    case AliasCell(a) =>
      AliasGood(a, a.name, s.records) && (a.name in s.aliases ==> AliasGrows(s.aliases[a.name], a))
    case RecordCell(h, r) => h !in s.records && RecordGood(r, h)
    case TelemetryCell(n, v, t) =>
      && n in s.aliases
      && 1 <= v <= |s.aliases[n].versions|
      && t.contentHash == s.aliases[n].versions[v - 1].contentHash
      && CountersOk(t)
      && ((n, v) in s.telemetry ==> TelemetryGrows(s.telemetry[(n, v)], t))
    case CatalogCell(c) =>
      CatalogGood(c, s.aliases) && forall n :: n in s.catalog.names ==> n in c.names
  }

  /** Every permitted write, on its own, keeps the store consistent and extends its history. */
  lemma WriteKeeps(s: Store, w: Write)
    requires Consistent(s) && Permitted(s, w)
    ensures Consistent(Apply(s, w)) && Grows(s, Apply(s, w))
  {
    match w
    case AliasCell(a) => AliasWriteKeeps(s, a);
    case RecordCell(h, r) => RecordWriteKeeps(s, h, r);
    case TelemetryCell(n, v, t) => TelemetryWriteKeeps(s, n, v, t);
    case CatalogCell(c) => CatalogWriteKeeps(s, c);
  }

  lemma AliasWriteKeeps(s: Store, a: Alias)
    requires Consistent(s) && Permitted(s, AliasCell(a))
    ensures Consistent(Apply(s, AliasCell(a))) && Grows(s, Apply(s, AliasCell(a)))
  {
    hide AliasGood, RecordGood, CountersOk, NamesSorted;
    var t := Apply(s, AliasCell(a));
    forall n, v | (n, v) in t.telemetry ensures TelemetryGood(t, n, v) {
      assert TelemetryGood(s, n, v);
      if n == a.name {
        var b := s.aliases[n];
        assert a != b ==> EntryGrows(b.versions[v - 1], a.versions[v - 1]);
      }
    }
    forall n | n in s.aliases ensures AliasGrows(s.aliases[n], t.aliases[n]) {
    }
  }

  lemma RecordWriteKeeps(s: Store, h: Text, r: Record)
    requires Consistent(s) && Permitted(s, RecordCell(h, r))
    ensures Consistent(Apply(s, RecordCell(h, r))) && Grows(s, Apply(s, RecordCell(h, r)))
  {
    hide RecordGood, CountersOk, NamesSorted, AliasOk, NameOk, Dense;
    var t := Apply(s, RecordCell(h, r));
    forall n | n in t.aliases ensures AliasGood(t.aliases[n], n, t.records) {
      var a := s.aliases[n];
      assert AliasGood(a, n, s.records);
      forall i | 0 <= i < |a.versions| ensures Backed(t.records, n, a.versions[i]) {
        assert Backed(s.records, n, a.versions[i]);
      }
    }
    forall n, v | (n, v) in t.telemetry ensures TelemetryGood(t, n, v) {
      assert TelemetryGood(s, n, v);
    }
  }

  lemma TelemetryWriteKeeps(s: Store, n: Text, v: int, c: Telemetry)
    requires Consistent(s) && Permitted(s, TelemetryCell(n, v, c))
    ensures Consistent(Apply(s, TelemetryCell(n, v, c))) && Grows(s, Apply(s, TelemetryCell(n, v, c)))
  {
    hide AliasGood, RecordGood, NamesSorted, CountersOk;
    var t := Apply(s, TelemetryCell(n, v, c));
    forall m, w | (m, w) in t.telemetry ensures TelemetryGood(t, m, w) {
      if (m, w) != (n, v) {
        assert TelemetryGood(s, m, w);
      }
    }
  }

  lemma CatalogWriteKeeps(s: Store, c: Catalog)
    requires Consistent(s) && Permitted(s, CatalogCell(c))
    ensures Consistent(Apply(s, CatalogCell(c))) && Grows(s, Apply(s, CatalogCell(c)))
  {
    hide AliasGood, RecordGood, NamesSorted, CountersOk;
    var t := Apply(s, CatalogCell(c));
    forall m, w | (m, w) in t.telemetry ensures TelemetryGood(t, m, w) {
      assert TelemetryGood(s, m, w);
    }
  }

  // ----- what the alias operations write -----

  function EmptyAlias(name: Text): Alias {
    Alias(name, [], 0, 0, None, [])
  }

  /** The alias with one more draft version. */
  function Appended(a: Alias, r: Record): Alias {
    Alias(a.name, r.description, r.revision, r.version, a.active,
          a.versions + [Entry(r.version, ContentHash(RecordJson(r)), r.programHash, Draft, r.revision)])
  }

  /** The active entry, if any, retired. */
  function Demoted(versions: seq<Entry>): (r: seq<Entry>)
    ensures |r| == |versions|
  {
    seq(|versions|, i requires 0 <= i < |versions| =>
          if versions[i].state.Active? then versions[i].(state := Retired) else versions[i])
  }

  function Activated(a: Alias, version: int): Alias
    requires 1 <= version <= |a.versions|
  {
    if a.active == Some(version) && a.versions[version - 1].state.Active? then a
    else
      var demoted := Demoted(a.versions);
      a.(versions := demoted[version - 1 := demoted[version - 1].(state := Active)],
         active := Some(version), revision := a.revision + 1)
  }

  function Withdrawn(a: Alias, version: int): Alias
    requires 1 <= version <= |a.versions|
  {
    if a.versions[version - 1].state.Retired? then a
    else
      a.(versions := a.versions[version - 1 := a.versions[version - 1].(state := Retired)],
         active := if a.active == Some(version) then None else a.active, revision := a.revision + 1)
  }

  lemma AppendedIsPermitted(s: Store, a: Alias, r: Record)
    requires Consistent(s) && NameOk(a.name) && |a.versions| < MAX_VERSIONS
    requires if a.name in s.aliases then a == s.aliases[a.name] else a == EmptyAlias(a.name)
    requires RecordGood(r, ContentHash(RecordJson(r))) && DescriptionOk(r.description)
    requires r.name == a.name && r.version == a.latest + 1 && r.revision == a.revision + 1
    requires ContentHash(RecordJson(r)) in s.records && s.records[ContentHash(RecordJson(r))] == r
    ensures Permitted(s, AliasCell(Appended(a, r)))
  {
    hide RecordGood, NameOk, DescriptionOk, RecordJson, ContentHash;
    var b := Appended(a, r);
    if a.name in s.aliases {
      assert AliasGood(a, a.name, s.records);
    }
    var n := |a.versions|;
    assert forall i :: 0 <= i < n ==> b.versions[i] == a.versions[i];
    assert b.versions[n].version == n + 1;
    assert PointerOk(b) by {
      if a.active.Some? {
        var i :| 0 <= i < n && a.versions[i].state.Active?;
        assert b.versions[i].state.Active?;
      }
    }
    forall i | 0 <= i < n ensures EntryOk(b.versions[i], b.revision) {
      assert EntryOk(a.versions[i], a.revision);
    }
    forall i | 0 <= i < n + 1 ensures Backed(s.records, b.name, b.versions[i]) {
      assert i < n ==> Backed(s.records, a.name, a.versions[i]);
    }
  }

  /** An alias whose entries only change state keeps its entries good and backed. */
  lemma StatesOnlyChange(s: Store, name: Text, b: Alias)
    requires Consistent(s) && name in s.aliases
    requires var a := s.aliases[name];
             b.name == a.name && b.description == a.description && b.latest == a.latest && b.revision == a.revision + 1
             && |b.versions| == |a.versions| && PointerOk(b)
             && forall i :: 0 <= i < |a.versions| ==>
                  b.versions[i] == a.versions[i].(state := b.versions[i].state)
                  && (b.versions[i].state.Draft? ==> a.versions[i].state.Draft?)
    ensures Permitted(s, AliasCell(b))
  {
    hide NameOk, DescriptionOk, RecordGood, PointerOk;
    var a := s.aliases[name];
    assert AliasGood(a, name, s.records);
    forall i | 0 <= i < |a.versions|
      ensures EntryGrows(a.versions[i], b.versions[i]) && EntryOk(b.versions[i], b.revision) && Backed(s.records, name, b.versions[i])
    {
      assert EntryOk(a.versions[i], a.revision) && Backed(s.records, name, a.versions[i]);
    }
  }

  lemma ActivatedIsPermitted(s: Store, name: Text, version: int)
    requires Consistent(s) && name in s.aliases && 1 <= version <= |s.aliases[name].versions|
    ensures Permitted(s, AliasCell(Activated(s.aliases[name], version)))
  {
    hide Consistent, AliasGood, Permitted;
    var a := s.aliases[name];
    var b := Activated(a, version);
    assert AliasGood(a, name, s.records) by {
      AliasOfConsistent(s, name);
    }
    if a != b {
      GoodAliasShape(a, name, s.records);
      assert b.versions[version - 1].state.Active?;
      StatesOnlyChange(s, name, b);
    } else {
      UnchangedIsPermitted(s, name);
    }
  }

  lemma AliasOfConsistent(s: Store, name: Text)
    requires Consistent(s) && name in s.aliases
    ensures AliasGood(s.aliases[name], name, s.records) && s.aliases[name].name == name
  {
  }

  lemma UnchangedIsPermitted(s: Store, name: Text)
    requires Consistent(s) && name in s.aliases
    ensures Permitted(s, AliasCell(s.aliases[name]))
  {
    AliasOfConsistent(s, name);
  }

  lemma WithdrawnIsPermitted(s: Store, name: Text, version: int)
    requires Consistent(s) && name in s.aliases && 1 <= version <= |s.aliases[name].versions|
    ensures Permitted(s, AliasCell(Withdrawn(s.aliases[name], version)))
  {
    hide Consistent, AliasGood, Permitted;
    var a := s.aliases[name];
    var b := Withdrawn(a, version);
    assert AliasGood(a, name, s.records) by {
      AliasOfConsistent(s, name);
    }
    if a != b {
      GoodAliasShape(a, name, s.records);
      if b.active.Some? {
        var i := b.active.value - 1;
        PointedIsActive(a, name, s.records);
        assert b.versions[i] == a.versions[i];
      }
      StatesOnlyChange(s, name, b);
    } else {
      UnchangedIsPermitted(s, name);
    }
  }

  lemma PointedIsActive(a: Alias, name: Text, records: map<Text, Record>)
    requires AliasGood(a, name, records) && a.active.Some?
    ensures 1 <= a.active.value <= |a.versions| && a.versions[a.active.value - 1].state.Active?
  {
    hide NameOk, DescriptionOk, Increasing, EntryOk, Backed;
    var i :| 0 <= i < |a.versions| && a.versions[i].state.Active?;
  }

  // ----- the writes the operations make -----

  function CountersOf(s: Store, name: Text, e: Entry): Telemetry {
    if (name, e.version) in s.telemetry then s.telemetry[(name, e.version)] else Telemetry(e.contentHash, 0, 0, 0)
  }

  /** The alias of a name, or the empty one a first registration starts from. */
  function BaseOf(s: Store, name: Text): Alias {
    if name in s.aliases then s.aliases[name] else EmptyAlias(name)
  }

  /** The record is stored, and is the next version of its name. */
  ghost predicate NewVersion(s: Store, r: Record) {
    var base, h := BaseOf(s, r.name), ContentHash(RecordJson(r));
    && NameOk(r.name) && DescriptionOk(r.description) && RecordGood(r, h)
    && |base.versions| < MAX_VERSIONS && r.version == base.latest + 1 && r.revision == base.revision + 1
    && h in s.records && s.records[h] == r
  }

  /** The catalog with one more name. */
  function Listing(c: Catalog, name: Text): Catalog {
    Catalog(c.revision + 1, InsertName(name, c.names))
  }

  /** The name is not listed, and a catalog that lists it would be too large to store. */
  predicate CatalogFull(c: Catalog, name: Text) {
    name !in c.names && !CatalogFits(Listing(c, name))
  }

  /** The alias after an activation or a retirement that changed it. */
  predicate Moved(a: Alias, version: int, b: Alias)
    requires 1 <= version <= |a.versions|
  {
    b != a && (b == Activated(a, version) || b == Withdrawn(a, version))
  }

  /**
   * What one write of an operation is: the record of a new version, the alias
   * with that version appended, activated or retired, one more name in the
   * catalog, or raised counters.
   */
  ghost predicate Performs(s: Store, w: Write) {
    match w
    case RecordCell(h, r) => h !in s.records && RecordGood(r, h)
    case AliasCell(b) =>
      || (exists r: Record :: NewVersion(s, r) && b == Appended(BaseOf(s, r.name), r))
      || (b.name in s.aliases
          && exists v: int :: 1 <= v <= |s.aliases[b.name].versions| && Moved(s.aliases[b.name], v, b))
    case CatalogCell(c) =>
      CatalogFits(c) && exists n: Text :: n in s.aliases && n !in s.catalog.names && c == Listing(s.catalog, n)
    case TelemetryCell(n, v, t) =>
      && n in s.aliases && 1 <= v <= |s.aliases[n].versions|
      && var e := s.aliases[n].versions[v - 1];
         var before := CountersOf(s, n, e);
         && t.contentHash == e.contentHash && CountersOk(t)
         && t.runCount > before.runCount && t.avoided >= before.avoided && t.revision == before.revision + 1
  }

  /** On a consistent store, every write of an operation is one that is permitted. */
  lemma PerformedIsPermitted(s: Store, w: Write)
    requires Consistent(s) && Performs(s, w)
    ensures Permitted(s, w)
  {
    hide Consistent, NameOk, DescriptionOk, RecordGood, Appended, Activated, Withdrawn, Permitted, CatalogFits, Listing;
    match w
    case RecordCell(h, r) => RecordIsPermitted(s, h, r);
    case AliasCell(b) =>
      if r: Record :| NewVersion(s, r) && b == Appended(BaseOf(s, r.name), r) {
        AliasNamed(s, r.name);
        AppendedIsPermitted(s, BaseOf(s, r.name), r);
      } else {
        var v: int :| 1 <= v <= |s.aliases[b.name].versions| && Moved(s.aliases[b.name], v, b);
        ActivatedIsPermitted(s, b.name, v);
        WithdrawnIsPermitted(s, b.name, v);
      }
    case CatalogCell(c) =>
      var n: Text :| n in s.aliases && n !in s.catalog.names && c == Listing(s.catalog, n);
      IndexedIsPermitted(s, n);
    case TelemetryCell(n, v, t) => RaisedIsPermitted(s, n, v, t);
  }

  // Each operation's write, as an instance of the above.

  lemma AppendPerforms(s: Store, r: Record)
    requires NewVersion(s, r)
    ensures Performs(s, AliasCell(Appended(BaseOf(s, r.name), r)))
  {
    hide NewVersion, Appended;
  }

  lemma MovePerforms(s: Store, name: Text, version: int, b: Alias)
    requires Consistent(s) && name in s.aliases && 1 <= version <= |s.aliases[name].versions| && Moved(s.aliases[name], version, b)
    ensures b.name == name && Performs(s, AliasCell(b))
  {
    hide Consistent, NewVersion;
    AliasOfConsistent(s, name);
  }

  lemma RecordIsPermitted(s: Store, h: Text, r: Record)
    requires h !in s.records && RecordGood(r, h)
    ensures Permitted(s, RecordCell(h, r))
  {
  }

  lemma AliasNamed(s: Store, name: Text)
    requires Consistent(s)
    ensures BaseOf(s, name).name == name
  {
    if name in s.aliases {
      AliasOfConsistent(s, name);
    }
  }

  lemma IndexedIsPermitted(s: Store, name: Text)
    requires Consistent(s) && name in s.aliases && name !in s.catalog.names
    ensures NamesSorted(s.catalog.names)
    ensures Permitted(s, CatalogCell(Listing(s.catalog, name)))
  {
    hide AliasGood, RecordGood, TelemetryGood, InsertName;
    InsertNameSorts(name, s.catalog.names);
  }

  lemma RaisedIsPermitted(s: Store, n: Text, v: int, t: Telemetry)
    requires Consistent(s) && Performs(s, TelemetryCell(n, v, t))
    ensures Permitted(s, TelemetryCell(n, v, t))
  {
    hide NameOk, AliasOk, RecordGood, CatalogGood;
    assert AliasGood(s.aliases[n], n, s.records);
    assert s.aliases[n].versions[v - 1].version == v;
    assert (n, v) in s.telemetry ==> TelemetryGood(s, n, v);
  }

  // ----- runs -----

  /** A run of the registry: from the empty store, one write of an operation after the other. */
  ghost predicate Run(history: seq<Store>) {
    && history != [] && history[0] == EMPTY
    && forall i :: 0 < i < |history| ==> Advances(history[i - 1], history[i])
  }

  ghost predicate Advances(s: Store, t: Store) {
    exists w: Write :: Performs(s, w) && t == Apply(s, w)
  }

  lemma RunExtends(history: seq<Store>, w: Write)
    requires Run(history) && Performs(history[|history| - 1], w)
    ensures Run(history + [Apply(history[|history| - 1], w)])
  {
    hide Performs, Apply;
    var all := history + [Apply(history[|history| - 1], w)];
    assert Advances(history[|history| - 1], Apply(history[|history| - 1], w));
    forall i | 0 < i < |all| ensures Advances(all[i - 1], all[i]) {
      assert i < |history| ==> Advances(history[i - 1], history[i]);
    }
  }

  lemma AdvanceKeeps(s: Store, t: Store)
    requires Consistent(s) && Advances(s, t)
    ensures Consistent(t) && Grows(s, t)
  {
    hide Consistent, Grows, Performs, Permitted;
    var w: Write :| Performs(s, w) && t == Apply(s, w);
    PerformedIsPermitted(s, w);
    WriteKeeps(s, w);
  }

  /** The registry is consistent after every single write of every run. */
  lemma {:induction false} RunIsConsistent(history: seq<Store>, i: nat)
    requires Run(history) && i < |history|
    ensures Consistent(history[i])
  {
    hide Consistent, Advances;
    if i == 0 {
      EmptyIsConsistent();
    } else {
      RunIsConsistent(history, i - 1);
      assert Advances(history[i - 1], history[i]);
      AdvanceKeeps(history[i - 1], history[i]);
    }
  }

  lemma EmptyIsConsistent()
    ensures Consistent(EMPTY)
  {
  }

  /** Between any two points of a run, the store has only grown. */
  lemma {:induction false} RunOnlyGrows(history: seq<Store>, i: nat, j: nat)
    requires Run(history) && i <= j < |history|
    ensures Grows(history[i], history[j])
    decreases j - i
  {
    hide Consistent, Advances, Grows;
    if i == j {
      GrowsReflexive(history[i]);
    } else {
      RunOnlyGrows(history, i, j - 1);
      RunIsConsistent(history, j - 1);
      assert Advances(history[j - 1], history[j]);
      AdvanceKeeps(history[j - 1], history[j]);
      GrowsTransitive(history[i], history[j - 1], history[j]);
    }
  }

  // ----- what a run of the registry shows -----

  /**
   * History is append-only over every run: versions stay exactly 1..n, an
   * entry's hashes and revision never change, none returns to draft, at most
   * one is active and it is the one pointed to, and every change of an alias
   * strictly raises its revision.
   */
  lemma HistoryIsAppendOnly(history: seq<Store>, i: nat, j: nat, name: Text)
    requires Run(history) && i <= j < |history| && name in history[i].aliases
    ensures name in history[j].aliases
    ensures var a, b := history[i].aliases[name], history[j].aliases[name];
            && VersionsGrow(a.versions, b.versions)
            && (a != b ==> a.revision < b.revision)
            && Dense(b.versions)
            && b.latest == |b.versions|
            && (forall k, m :: 0 <= k < m < |b.versions| ==> !(b.versions[k].state.Active? && b.versions[m].state.Active?))
            && (forall k :: 0 <= k < |b.versions| ==> (b.versions[k].state.Active? <==> b.active == Some(k + 1)))
  {
    hide AliasGood, EntryGrows, Dense, Run;
    RunOnlyGrows(history, i, j);
    RunIsConsistent(history, j);
    GoodAliasShape(history[j].aliases[name], name, history[j].records);
    VersionsGrowReflexive(history[i].aliases[name].versions);
  }

  lemma VersionsGrowReflexive(versions: seq<Entry>)
    ensures VersionsGrow(versions, versions)
  {
  }

  /** In a consistent alias the version numbers are positions, and the one active entry is what the alias calls active. */
  lemma GoodAliasShape(a: Alias, name: Text, records: map<Text, Record>)
    requires AliasGood(a, name, records)
    ensures Dense(a.versions) && a.latest == |a.versions|
    ensures forall k, m :: 0 <= k < m < |a.versions| ==> !(a.versions[k].state.Active? && a.versions[m].state.Active?)
    ensures forall k :: 0 <= k < |a.versions| ==> (a.versions[k].state.Active? <==> a.active == Some(k + 1))
  {
    hide NameOk, DescriptionOk, Increasing, EntryOk, Backed;
    if a.active.Some? {
      var k :| 0 <= k < |a.versions| && a.versions[k].state.Active?;
      assert a.active == Some(k + 1);
    }
  }

  /** The artifact of a version is the same at every later point of a run, under a hash that fits it. */
  lemma ArtifactsAreImmutable(history: seq<Store>, i: nat, j: nat, name: Text, version: int)
    requires Run(history) && i <= j < |history|
    requires name in history[i].aliases && 1 <= version <= |history[i].aliases[name].versions|
    ensures name in history[j].aliases && version <= |history[j].aliases[name].versions|
    ensures var e := history[i].aliases[name].versions[version - 1];
            && e.contentHash in history[i].records && e.contentHash in history[j].records
            && history[j].records[e.contentHash] == history[i].records[e.contentHash]
            && history[j].aliases[name].versions[version - 1].contentHash == e.contentHash
            && ContentHash(RecordJson(history[j].records[e.contentHash])) == e.contentHash
            && ContentHash(history[j].records[e.contentHash].program) == e.programHash
  {
    hide NameOk, DescriptionOk, AliasOk, ContentHash, RecordJson, IsStored, Run;
    var s, t := history[i], history[j];
    RunOnlyGrows(history, i, j);
    RunIsConsistent(history, i);
    RunIsConsistent(history, j);
    HistoryIsAppendOnly(history, i, j, name);
    var e := s.aliases[name].versions[version - 1];
    assert AliasGood(s.aliases[name], name, s.records);
    assert Backed(s.records, name, e);
    assert RecordGood(t.records[e.contentHash], e.contentHash);
    assert EntryGrows(e, t.aliases[name].versions[version - 1]);
  }
}
