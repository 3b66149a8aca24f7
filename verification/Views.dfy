/** The versions of one crystal as programs with states, and what the registry's operations do to them. */
module Views {
  import opened Texts
  import opened Json
  import opened Cells
  import opened Registries
  import opened RegistryRuns

  datatype Seen = Seen(program: Json, state: Lifecycle)

  function ProgramOf(records: map<Text, Record>, e: Entry): Json {
    if e.contentHash in records then records[e.contentHash].program else Null
  }

  /** The versions of one name, in order. */
  function View(s: Store, name: Text): (r: seq<Seen>)
    ensures |r| == if name in s.aliases then |s.aliases[name].versions| else 0
  {
    if name !in s.aliases then []
    else
      seq(|s.aliases[name].versions|, i requires 0 <= i < |s.aliases[name].versions| =>
            Seen(ProgramOf(s.records, s.aliases[name].versions[i]), s.aliases[name].versions[i].state))
  }

  /** Some version is not retired. */
  predicate HasCandidate(view: seq<Seen>) {
    exists i :: 0 <= i < |view| && !view[i].state.Retired?
  }

  lemma EntriesBacked(s: Store, name: Text)
    requires Consistent(s) && name in s.aliases
    ensures forall i :: 0 <= i < |s.aliases[name].versions| ==> s.aliases[name].versions[i].contentHash in s.records
  {
    hide RecordGood, AliasOk, NameOk, CatalogGood, TelemetryGood;
    var a := s.aliases[name];
    assert AliasGood(a, name, s.records);
    forall i | 0 <= i < |a.versions| ensures a.versions[i].contentHash in s.records {
      assert Backed(s.records, name, a.versions[i]);
    }
  }

  /** Where everything is retired there is nothing to reuse. */
  lemma NothingReusable(s: Store, name: Text, hash: Text)
    requires !HasCandidate(View(s, name))
    ensures var base := if name in s.aliases then s.aliases[name] else EmptyAlias(name);
            FirstReusable(base.versions, hash).None?
  {
    hide FirstReusable;
    var base := if name in s.aliases then s.aliases[name] else EmptyAlias(name);
    FirstReusableIsIn(base.versions, hash);
    forall e | e in base.versions ensures !Reusable(e, hash) {
      var i :| 0 <= i < |base.versions| && base.versions[i] == e;
      assert View(s, name)[i].state == e.state;
    }
  }

  /** A name whose cells did not change, beside records that only grew. */
  lemma SameView(s: Store, t: Store, name: Text)
    requires Consistent(s) && Grows(s, t)
    requires name in s.aliases <==> name in t.aliases
    requires name in s.aliases ==> t.aliases[name] == s.aliases[name]
    ensures View(t, name) == View(s, name)
  {
    hide Consistent, AliasGrows, TelemetryGrows;
    if name in s.aliases {
      EntriesBacked(s, name);
    }
  }

  /** One more draft. */
  lemma AppendedView(s: Store, t: Store, name: Text, r: Record)
    requires Consistent(s) && Grows(s, t)
    requires var base := if name in s.aliases then s.aliases[name] else EmptyAlias(name);
             name in t.aliases && t.aliases[name] == Appended(base, r)
    requires ContentHash(RecordJson(r)) in t.records && t.records[ContentHash(RecordJson(r))] == r
    ensures View(t, name) == View(s, name) + [Seen(r.program, Draft)]
  {
    hide Consistent, AliasGrows, TelemetryGrows, ContentHash, RecordJson;
    if name in s.aliases {
      EntriesBacked(s, name);
    }
  }

  /** The given version active, and whatever was active retired. */
  function Promoted(view: seq<Seen>, v: nat): (r: seq<Seen>)
    requires v < |view|
    ensures |r| == |view|
  {
    seq(|view|, i requires 0 <= i < |view| =>
          if i == v then view[i].(state := Active) else if view[i].state.Active? then view[i].(state := Retired) else view[i])
  }

  lemma ActivatedView(s: Store, t: Store, name: Text, version: int)
    requires Consistent(s) && t.records == s.records
    requires name in s.aliases && 1 <= version <= |s.aliases[name].versions|
    requires name in t.aliases && t.aliases[name] == Activated(s.aliases[name], version)
    ensures View(t, name) == Promoted(View(s, name), version - 1)
  {
    hide Consistent, AliasGood;
    var a := s.aliases[name];
    AliasOfConsistent(s, name);
    GoodAliasShape(a, name, s.records);
    forall i | 0 <= i < |a.versions| ensures View(t, name)[i] == Promoted(View(s, name), version - 1)[i] {
    }
  }

  lemma WithdrawnView(s: Store, t: Store, name: Text, version: int)
    requires t.records == s.records
    requires name in s.aliases && 1 <= version <= |s.aliases[name].versions|
    requires name in t.aliases && t.aliases[name] == Withdrawn(s.aliases[name], version)
    ensures var view := View(s, name);
            View(t, name) == view[version - 1 := view[version - 1].(state := Retired)]
  {
  }

  lemma OtherView(s: Store, t: Store, name: Text, other: Text)
    requires Consistent(s) && Grows(s, t) && other != name
    requires t.aliases == s.aliases || (name in t.aliases && t.aliases == s.aliases[name := t.aliases[name]])
    ensures View(t, other) == View(s, other)
  {
    SameView(s, t, other);
  }

  /** What a created draft adds. */
  lemma DraftAdded(s: Store, t: Store, c: Crystal, base: Alias, submission: Submission)
    requires Consistent(s) && Consistent(t) && Grows(s, t) && Holds(t, c)
    requires base == if c.name in s.aliases then s.aliases[c.name] else EmptyAlias(c.name)
    requires c.record == NewRecord(base, submission) && t.aliases[c.name] == Appended(base, c.record)
    ensures View(t, c.name) == View(s, c.name) + [Seen(c.record.program, Draft)]
    ensures c.entry.version == |View(t, c.name)|
  {
    hide Consistent, Grows, ContentHash, RecordJson, View;
    HeldIsGood(t, c);
    if c.name in s.aliases {
      AliasOfConsistent(s, c.name);
      GoodAliasShape(base, c.name, s.records);
    }
    AppendedView(s, t, c.name, c.record);
  }

  lemma HeldIsGood(t: Store, c: Crystal)
    requires Consistent(t) && Holds(t, c)
    ensures c.entry.contentHash in t.records && t.records[c.entry.contentHash] == c.record
    ensures ContentHash(RecordJson(c.record)) == c.entry.contentHash
    ensures c.record.version == c.entry.version && c.record.programHash == c.entry.programHash
    ensures Backed(t.records, c.name, c.entry) && RecordGood(c.record, c.entry.contentHash)
  {
    hide AliasOk, NameOk, CatalogGood, TelemetryGood, ContentHash, RecordJson, IsStored;
    assert AliasGood(t.aliases[c.name], c.name, t.records);
    assert Backed(t.records, c.name, t.aliases[c.name].versions[c.entry.version - 1]);
    assert RecordGood(t.records[c.entry.contentHash], c.entry.contentHash);
  }

  /** `_candidate_exists`: a walk from the latest version down. */
  method CandidateExists(registry: Registry, name: Text) returns (found: bool)
    requires registry.Valid()
    ensures found == HasCandidate(View(registry.store, name))
  {
    hide registry.Valid, Holds, Selected, View, ToGet, NameOk, DescriptionOk, AliasOk;
    ViewShape(registry.store, name);
    var latest := registry.Latest(name);
    if latest.Failed? {
      return false;
    }
    var version := |registry.store.aliases[name].versions|;
    var current := latest.value;
    HeldState(registry.store, current);
    while version > 0
      invariant 0 <= version <= |View(registry.store, name)|
      invariant version > 0 ==> current.entry.state == View(registry.store, name)[version - 1].state
      invariant forall i :: version <= i < |View(registry.store, name)| ==> View(registry.store, name)[i].state.Retired?
    {
      if !current.entry.state.Retired? {
        return true;
      }
      version := version - 1;
      if version > 0 {
        registry.ShapeNow(name);
        ExplicitGet(registry.store, name, version);
        var candidate := registry.Get(name, Some(version));
        if candidate.Failed? {
          return false;
        }
        current := candidate.value;
        HeldState(registry.store, current);
      }
    }
    found := false;
  }

  lemma ViewShape(s: Store, name: Text)
    ensures name !in s.aliases ==> View(s, name) == []
    ensures name in s.aliases ==> |View(s, name)| == |s.aliases[name].versions|
  {
  }

  lemma HeldState(s: Store, c: Crystal)
    requires Holds(s, c)
    ensures 1 <= c.entry.version <= |View(s, c.name)| && View(s, c.name)[c.entry.version - 1].state == c.entry.state
  {
  }

  /** Asking for a version that exists selects it. */
  lemma ExplicitVersion(a: Alias, version: int)
    requires 1 <= version <= |a.versions|
    ensures Selected(a, Some(version), false) == Done(a.versions[version - 1])
  {
  }

  lemma ExplicitGet(s: Store, name: Text, version: int)
    requires name in s.aliases && 1 <= version <= |s.aliases[name].versions| && AliasGood(s.aliases[name], name, s.records)
    ensures ToGet(s, name, Some(version)) == Done(s.aliases[name].versions[version - 1])
  {
    hide NameOk, DescriptionOk, Backed;
  }
}
