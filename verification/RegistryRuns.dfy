/**
 * The registry as it runs over a key-value store: each operation loads cells,
 * checks them, changes them and writes them back one at a time, and any write
 * may fail.  A ghost history holds the store after every single write.
 */
module RegistryRuns {
  import opened Texts
  import opened Json
  import opened Cells
  import opened Registries

  const MAX_PROGRAM_BYTES := 256 * 1024
  const MAX_TESTS_BYTES := 256 * 1024
  const MAX_METADATA_BYTES := 64 * 1024

  datatype Error = InvalidRequest | NotFound | Conflict | NotTested | Corrupt | StorageFailed

  datatype Reply<+T> = Done(value: T) | Failed(error: Error) {
    predicate IsFailure() { Failed? }

    function PropagateFailure<U>(): Reply<U>
      requires Failed?
    {
      Failed(error)
    }

    function Extract(): T
      requires Done?
    {
      value
    }
  }

  /** A version as callers see it. */
  datatype Crystal = Crystal(name: Text, entry: Entry, record: Record, counters: Telemetry, aliasRevision: int, created: bool)

  /** Which version a caller of `activate` expects to be active. */
  datatype Expectation = Anything | Exactly(active: Option<int>)

  // ----- what the operations select and prepare -----

  /** The validated arguments of `register`. */
  datatype Submission = Submission(program: Json, tests: Json, metadata: Json, programHash: Text, description: Option<Text>)

  const TESTS_PASSED := Ascii("tests_passed")

  function Prepare(name: Text, program: Json, programHash: Option<Text>, tests: Option<Json>, metadata: Option<Json>,
                   description: Option<Text>): Reply<Submission> {
    var p := Snapshot(program, MAX_PROGRAM_BYTES);
    var t := Snapshot(if tests.None? then Arr([]) else tests.value, MAX_TESTS_BYTES);
    var m := Snapshot(if metadata.None? then Obj([]) else metadata.value, MAX_METADATA_BYTES);
    if !NameOk(name) then Failed(InvalidRequest)
    else if description.Some? && !DescriptionOk(description.value) then Failed(InvalidRequest)
    else if p.None? || !p.value.Obj? || t.None? || m.None? || !m.value.Obj? then Failed(InvalidRequest)
    else if HasKey(m.value.fields, TESTS_PASSED) && !Lookup(m.value.fields, TESTS_PASSED).value.Bool? then Failed(InvalidRequest)
    else if programHash.Some? && programHash.value != ContentHash(p.value) then Failed(InvalidRequest)
    else Done(Submission(p.value, t.value, m.value, ContentHash(p.value), description))
  }

  predicate Reusable(e: Entry, programHash: Text) {
    e.programHash == programHash && !e.state.Retired?
  }

  /** `_entry` on a consistent alias: an explicit version, else the active one, else the latest. */
  function Selected(a: Alias, version: Option<int>, requireActive: bool): Reply<Entry> {
    if version.None? && a.active.None? && requireActive then Failed(NotFound)
    else
      var v := if version.Some? then version.value else if a.active.Some? then a.active.value else a.latest;
      if v < 1 then Failed(InvalidRequest)
      else if v > |a.versions| then Failed(NotFound)
      else Done(a.versions[v - 1])
  }

  /** The record of the version a registration adds. */
  function NewRecord(a: Alias, s: Submission): Record {
    Record(a.name, a.latest + 1, a.revision + 1, if s.description.Some? then s.description.value else a.description,
           s.programHash, s.program, s.tests, s.metadata)
  }

  /** The crystal is what the store holds under that name and version. */
  ghost predicate Holds(s: Store, c: Crystal) {
    && c.name in s.aliases
    && 1 <= c.entry.version <= |s.aliases[c.name].versions|
    && c.entry == s.aliases[c.name].versions[c.entry.version - 1]
    && c.entry.contentHash in s.records
    && c.record == s.records[c.entry.contentHash]
    && c.counters == CountersOf(s, c.name, c.entry)
    && c.aliasRevision == s.aliases[c.name].revision
  }

  /** A registration is refused when its arguments are, or when a new version would be one too many. */
  predicate RegistrationRefused(s: Store, name: Text, prepared: Reply<Submission>) {
    || prepared.Failed?
    || (name in s.aliases && |s.aliases[name].versions| >= MAX_VERSIONS
        && FirstReusable(s.aliases[name].versions, prepared.value.programHash).None?)
  }

  /** The alias has the prepared version appended, and its record is stored. */
  predicate Appends(s: Store, t: Store, name: Text, prepared: Reply<Submission>) {
    prepared.Done? &&
    var r := NewRecord(BaseOf(s, name), prepared.value);
    && t.aliases == s.aliases[name := Appended(BaseOf(s, name), r)]
    && ContentHash(RecordJson(r)) in t.records && t.records[ContentHash(RecordJson(r))] == r
  }

  /** The version `activate` points at, or why it does not. */
  function ToActivate(s: Store, name: Text, version: int, expectedHash: Option<Text>, expectation: Expectation,
                      allowUntested: bool): Reply<Entry> {
    if !NameOk(name) || version < 1 then Failed(InvalidRequest)
    else if expectation.Exactly? && expectation.active.Some? && expectation.active.value < 1 then Failed(InvalidRequest)
    else if name !in s.aliases then Failed(NotFound)
    else
      var a := s.aliases[name];
      if expectation.Exactly? && a.active != expectation.active then Failed(Conflict)
      else if version > |a.versions| then Failed(NotFound)
      else
        var e := a.versions[version - 1];
        if expectedHash.Some? && e.programHash != expectedHash.value then Failed(Conflict)
        else if !allowUntested && e.contentHash in s.records && !TestsPassed(s.records[e.contentHash].metadata) then Failed(NotTested)
        else Done(e)
  }

  /** The version `get` returns, or why it does not. */
  function ToGet(s: Store, name: Text, version: Option<int>): Reply<Entry> {
    if !NameOk(name) then Failed(InvalidRequest)
    else if name !in s.aliases then Failed(NotFound)
    else Selected(s.aliases[name], version, version.None?)
  }

  /** The version `retire` withdraws, or why it does not. */
  function ToRetire(s: Store, name: Text, version: Option<int>): Reply<Entry> {
    if !NameOk(name) || (version.Some? && version.value < 1) then Failed(InvalidRequest)
    else if name !in s.aliases then Failed(NotFound)
    else Selected(s.aliases[name], version, false)
  }

  /** The version whose counters `record_run` raises, or why it does not: no counter may overflow. */
  function ToCount(s: Store, name: Text, version: Option<int>, avoided: int, count: int): Reply<Entry> {
    if !NameOk(name) || !(0 <= avoided <= MAX_COUNTER) || !(1 <= count <= MAX_COUNTER) || (version.Some? && version.value < 1)
    then Failed(InvalidRequest)
    else if name !in s.aliases then Failed(NotFound)
    else
      var e :- Selected(s.aliases[name], version, version.None?);
      var t := CountersOf(s, name, e);
      if t.runCount > MAX_COUNTER - count || t.avoided > MAX_COUNTER - avoided || t.revision == MAX_COUNTER
      then Failed(InvalidRequest) else Done(e)
  }

  predicate TestsPassed(metadata: Json) {
    metadata.Obj? && Lookup(metadata.fields, TESTS_PASSED) == Some(Bool(true))
  }

  lemma PreparedIsStored(name: Text, program: Json, programHash: Option<Text>, tests: Option<Json>, metadata: Option<Json>,
                         description: Option<Text>)
    requires WellFormed(program) && (tests.Some? ==> WellFormed(tests.value)) && (metadata.Some? ==> WellFormed(metadata.value))
    ensures var r := Prepare(name, program, programHash, tests, metadata, description);
            r.Done? ==>
              && IsSnapshot(r.value.program) && IsSnapshot(r.value.tests) && IsSnapshot(r.value.metadata)
              && r.value.program == Normalize(program) && r.value.programHash == ContentHash(program)
              && (tests.Some? ==> r.value.tests == Normalize(tests.value))
              && (metadata.Some? ==> r.value.metadata == Normalize(metadata.value))
              && Encodable(r.value.programHash)
  {
    hide Snapshot, WellFormed, Normalize, ContentHash, NameOk, DescriptionOk, Lookup;
    EmptyWellFormed();
    SnapshotSorts(program, MAX_PROGRAM_BYTES);
    SnapshotSorts(if tests.None? then Arr([]) else tests.value, MAX_TESTS_BYTES);
    SnapshotSorts(if metadata.None? then Obj([]) else metadata.value, MAX_METADATA_BYTES);
    if Snapshot(program, MAX_PROGRAM_BYTES).Some? {
      HashEncodable(program);
    }
  }

  lemma EmptyWellFormed()
    ensures WellFormed(Arr([])) && WellFormed(Obj([]))
  {
  }

  class Registry {
    var store: Store
    ghost var history: seq<Store>

    /** How many writes the storage refused. */
    ghost var failures: nat

    /** The history is a run, one store after each single write, and ends in the current store. */
    ghost predicate Valid()
      reads this
    {
      Run(history) && history[|history| - 1] == store
    }

    constructor ()
      ensures Valid() && store == EMPTY && history == [EMPTY]
    {
      store := EMPTY;
      history := [EMPTY];
      failures := 0;
    }

    /** `storage.set`: one cell changes, or the call fails and none does. */
    method Set(w: Write) returns (ok: bool)
      requires Valid() && Performs(store, w)
      modifies this
      ensures Valid() && old(history) <= history
      ensures store == if ok then Apply(old(store), w) else old(store)
      ensures failures == if ok then old(failures) else old(failures) + 1
    {
      hide Performs, Advances;
      ok := *;
      if ok {
        RunExtends(history, w);
        store := Apply(store, w);
        history := history + [store];
      } else {
        failures := failures + 1;
      }
    }

    lemma ConsistentNow()
      requires Valid()
      ensures Consistent(store) && history != [] && history[|history| - 1] == store
    {
      hide Advances, Consistent;
      RunIsConsistent(history, |history| - 1);
    }

    /** The store has grown since any earlier point of the run. */
    lemma GrownSince(earlier: seq<Store>)
      requires Valid() && earlier != [] && earlier <= history
      ensures Grows(earlier[|earlier| - 1], store) && Consistent(earlier[|earlier| - 1])
    {
      hide Advances, Consistent, Grows;
      RunOnlyGrows(history, |earlier| - 1, |history| - 1);
      RunIsConsistent(history, |earlier| - 1);
    }

    /** `_load_alias`: absent, or present and passing every check. */
    method LoadAlias(name: Text) returns (r: Reply<Option<Alias>>)
      requires Valid()
      ensures r == Done(if name in store.aliases then Some(store.aliases[name]) else None)
    {
      hide AliasOk;
      if name !in store.aliases {
        return Done(None);
      }
      var ok := ValidateAlias(store.aliases[name], name);
      if !ok {
        assert false by {
          ConsistentNow();
        }
        return Failed(Corrupt);
      }
      r := Done(Some(store.aliases[name]));
    }

    // ----- loading -----

    lemma EntryIsGood(name: Text, e: Entry)
      requires Valid() && name in store.aliases && e in store.aliases[name].versions
      ensures Backed(store.records, name, e) && RecordGood(store.records[e.contentHash], e.contentHash)
      ensures 1 <= e.version <= |store.aliases[name].versions| && store.aliases[name].versions[e.version - 1] == e
      ensures (name, e.version) in store.telemetry ==>
                store.telemetry[(name, e.version)].contentHash == e.contentHash && CountersOk(store.telemetry[(name, e.version)])
    {
      hide NameOk, AliasOk, RecordGood, CountersOk, Run;
      assert Consistent(store) by {
        ConsistentNow();
      }
      assert AliasGood(store.aliases[name], name, store.records);
      var i :| 0 <= i < |store.aliases[name].versions| && store.aliases[name].versions[i] == e;
      assert Backed(store.records, name, store.aliases[name].versions[i]);
    }

    /** `_load_record`, which checks the hash, the identity and the program of what it read. */
    method LoadRecord(name: Text, e: Entry) returns (r: Reply<Record>)
      requires Valid() && name in store.aliases && e in store.aliases[name].versions
      ensures e.contentHash in store.records && r == Done(store.records[e.contentHash])
    {
      hide Valid, ContentHash, RecordJson, IsStored;
      EntryIsGood(name, e);
      if e.contentHash !in store.records {
        return Failed(Corrupt);
      }
      var record := store.records[e.contentHash];
      if ContentHash(RecordJson(record)) != e.contentHash {
        return Failed(Corrupt);
      }
      if record.name != name || record.version != e.version || record.revision != e.revision {
        return Failed(Corrupt);
      }
      if record.programHash != e.programHash || !record.program.Obj? || !record.metadata.Obj? {
        return Failed(Corrupt);
      }
      if ContentHash(record.program) != e.programHash {
        return Failed(Corrupt);
      }
      r := Done(record);
    }

    /** `_load_telemetry`: no cell reads as zero counters. */
    method LoadTelemetry(name: Text, e: Entry) returns (r: Reply<Telemetry>)
      requires Valid() && name in store.aliases && e in store.aliases[name].versions
      ensures r == Done(CountersOf(store, name, e))
    {
      hide Valid, RecordGood;
      EntryIsGood(name, e);
      if (name, e.version) !in store.telemetry {
        return Done(Telemetry(e.contentHash, 0, 0, 0));
      }
      var t := store.telemetry[(name, e.version)];
      if t.contentHash != e.contentHash || !CountersOk(t) {
        return Failed(Corrupt);
      }
      r := Done(t);
    }

    method Materialize(name: Text, e: Entry, created: bool) returns (r: Reply<Crystal>)
      requires Valid() && name in store.aliases && e in store.aliases[name].versions
      ensures r.Done? && Holds(store, r.value) && r.value.name == name && r.value.entry == e && r.value.created == created
    {
      hide Valid, RecordGood, Backed;
      EntryIsGood(name, e);
      var record := LoadRecord(name, e);
      var counters := LoadTelemetry(name, e);
      if record.Failed? || counters.Failed? {
        return Failed(Corrupt);
      }
      r := Done(Crystal(name, e, record.value, counters.value, store.aliases[name].revision, created));
    }

    /** `_entry`: a search through the version list. */
    method Find(name: Text, version: Option<int>, requireActive: bool) returns (r: Reply<Entry>)
      requires Valid() && name in store.aliases
      ensures r == Selected(store.aliases[name], version, requireActive)
      ensures r.Done? ==> r.value in store.aliases[name].versions
    {
      hide Valid;
      var a := store.aliases[name];
      ShapeNow(name);
      var v := version;
      if v.None? {
        v := a.active;
        if v.None? {
          if requireActive {
            return Failed(NotFound);
          }
          v := Some(a.latest);
        }
      }
      if v.value < 1 {
        return Failed(InvalidRequest);
      }
      for i := 0 to |a.versions|
        invariant v.value > i
      {
        if a.versions[i].version == v.value {
          return Done(a.versions[i]);
        }
      }
      r := Failed(NotFound);
    }

    lemma ShapeNow(name: Text)
      requires Valid() && name in store.aliases
      ensures AliasGood(store.aliases[name], name, store.records)
      ensures Dense(store.aliases[name].versions) && store.aliases[name].latest == |store.aliases[name].versions|
    {
      hide Run, AliasGood;
      assert Consistent(store) by {
        ConsistentNow();
      }
      GoodAliasShape(store.aliases[name], name, store.records);
    }

    // ----- queries -----

    /** `get`: never corruption, and what it returns is what the store holds. */
    method Get(name: Text, version: Option<int>) returns (r: Reply<Crystal>)
      requires Valid()
      ensures r.Done? ==> Holds(store, r.value) && r.value.name == name
      ensures var choice := ToGet(store, name, version);
              if choice.Done? then r.Done? && r.value.entry == choice.value else r == Failed(choice.error)
    {
      hide Valid, Holds;
      if !NameOk(name) {
        if name in store.aliases {
          ShapeNow(name);
        }
        return Failed(InvalidRequest);
      }
      var loaded := LoadAlias(name);
      if loaded.Failed? {
        return Failed(Corrupt);
      }
      if loaded.value.None? {
        return Failed(NotFound);
      }
      var e :- Find(name, version, version.None?);
      r := Materialize(name, e, false);
    }

    /** `latest`, whatever its state. */
    method Latest(name: Text) returns (r: Reply<Crystal>)
      requires Valid()
      ensures r.Done? <==> name in store.aliases
      ensures r.Done? ==> Holds(store, r.value) && r.value.name == name && r.value.entry.version == |store.aliases[name].versions|
      ensures r.Failed? ==> r.error == if NameOk(name) then NotFound else InvalidRequest
    {
      hide Valid, Holds;
      if name in store.aliases {
        ShapeNow(name);
      }
      if !NameOk(name) {
        return Failed(InvalidRequest);
      }
      var loaded := LoadAlias(name);
      if loaded.Failed? {
        return Failed(Corrupt);
      }
      if loaded.value.None? {
        return Failed(NotFound);
      }
      var e := Find(name, Some(loaded.value.value.latest), false);
      if e.Failed? {
        return Failed(NotFound);
      }
      r := Materialize(name, e.value, false);
    }

    // ----- registration -----

    /**
     * `_ensure_indexed`: a refused write is swallowed, but a catalog that would be
     * too large to store is reported.
     */
    method EnsureIndexed(name: Text) returns (raised: bool)
      requires Valid() && name in store.aliases
      modifies this
      ensures Valid() && old(history) <= history
      ensures store == old(store).(catalog := store.catalog)
      ensures raised <==> CatalogFull(old(store).catalog, name)
      ensures !raised && failures == old(failures) ==> name in store.catalog.names
      ensures store.catalog == old(store.catalog) || store.catalog == Listing(old(store).catalog, name)
      ensures failures >= old(failures)
    {
      hide Valid, Below, Consistent, InsertName, NamesSorted, CatalogFits;
      assert Consistent(store) by {
        ConsistentNow();
      }
      var c := store.catalog;
      raised := false;
      if name in c.names {
        return;
      }
      var next := Catalog(c.revision + 1, InsertName(name, c.names));
      if !CatalogFits(next) {
        raised := true;
        return;
      }
      assert next == Listing(c, name);
      var ok := Set(CatalogCell(next));
      assert NamesSorted(c.names) by {
        IndexedIsPermitted(old(store), name);
      }
      InsertNameSorts(name, c.names);
    }

    /** `_write_immutable_record`: an existing cell must already hold these bytes. */
    method WriteRecord(record: Record) returns (written: bool)
      requires Valid() && RecordGood(record, ContentHash(RecordJson(record)))
      modifies this
      ensures Valid() && old(history) <= history
      ensures store == old(store).(records := store.records)
      ensures written ==> var h := ContentHash(RecordJson(record)); h in store.records && store.records[h] == record
      ensures !written ==> store == old(store)
      ensures written <==> failures == old(failures)
      ensures failures >= old(failures)
      ensures Recorded(old(store).records, store.records, record)
    {
      hide Valid, ContentHash, RecordJson, IsStored;
      var h := ContentHash(RecordJson(record));
      if h in store.records {
        assert RecordGood(store.records[h], h) by {
          ConsistentNow();
          RecordNow(h);
        }
        RecordHashDetermines(store.records[h], record);
        written := ContentHash(RecordJson(store.records[h])) == h;
      } else {
        written := Set(RecordCell(h, record));
      }
    }

    lemma RecordNow(h: Text)
      requires Consistent(store) && h in store.records
      ensures RecordGood(store.records[h], h)
    {
    }

    /** The search for a non-retired version of the same program. */
    method FindReusable(versions: seq<Entry>, programHash: Text) returns (r: Option<Entry>)
      ensures r == FirstReusable(versions, programHash)
    {
      for i := 0 to |versions|
        invariant FirstReusable(versions, programHash) == FirstReusable(versions[i..], programHash)
      {
        assert versions[i..][0] == versions[i] && versions[i..][1..] == versions[i + 1..];
        if Reusable(versions[i], programHash) {
          return Some(versions[i]);
        }
      }
      r := None;
    }

    /** The writes of a new version: its record, then the alias, then the catalog. */
    method Append(base: Alias, s: Submission) returns (r: Reply<Crystal>)
      requires Valid() && NameOk(base.name) && |base.versions| < MAX_VERSIONS && Prepared(s)
      requires base == if base.name in store.aliases then store.aliases[base.name] else EmptyAlias(base.name)
      modifies this
      ensures Valid() && old(history) <= history
      ensures failures >= old(failures)
      ensures r.Failed? ==>
                || (r.error.StorageFailed? && failures > old(failures) && store.aliases == old(store.aliases))
                || (r.error.InvalidRequest? && CatalogFull(old(store).catalog, base.name)
                    && ContentHash(RecordJson(NewRecord(base, s))) in store.records
                    && store.records[ContentHash(RecordJson(NewRecord(base, s)))] == NewRecord(base, s)
                    && store.aliases == old(store.aliases)[base.name := Appended(base, NewRecord(base, s))])
      ensures CatalogFull(old(store).catalog, base.name) ==> r.Failed?
      ensures Recorded(old(store).records, store.records, NewRecord(base, s))
      ensures store.telemetry == old(store).telemetry
      ensures r.Done? && failures == old(failures) ==> base.name in store.catalog.names
      ensures r.Done? ==>
                && Holds(store, r.value) && r.value.created && r.value.name == base.name
                && r.value.record == NewRecord(base, s)
                && store.aliases == old(store.aliases)[base.name := Appended(base, NewRecord(base, s))]
    {
      hide Valid, ContentHash, RecordJson, Prepared, RecordGood, NewRecord, Holds, NewVersion, Performs, CatalogFull, Listing;
      var record := NewRecord(base, s);
      assert Consistent(store) by {
        ConsistentNow();
      }
      NewRecordIsGood(store, base, s);
      var written := WriteRecord(record);
      if !written {
        return Failed(StorageFailed);
      }
      assert Consistent(store) by {
        ConsistentNow();
      }
      NewVersionIsNext(store, base, s);
      AppendPerforms(store, record);
      var moved := Set(AliasCell(Appended(base, record)));
      if !moved {
        return Failed(StorageFailed);
      }
      var raised := EnsureIndexed(base.name);
      if raised {
        return Failed(InvalidRequest);
      }
      var e := store.aliases[base.name].versions[|base.versions|];
      r := Materialize(base.name, e, true);
      HeldRecord(store, r.value, record);
    }

    /**
     * `register`: reuse a non-retired version of the same program, or append a
     * draft.  Whatever fails, the alias is either untouched or fully updated: the
     * latter where the catalog has no room for the name.
     */
    method Register(name: Text, program: Json, programHash: Option<Text>, tests: Option<Json>, metadata: Option<Json>,
                    description: Option<Text>) returns (r: Reply<Crystal>)
      requires Valid() && WellFormed(program)
      requires (tests.Some? ==> WellFormed(tests.value)) && (metadata.Some? ==> WellFormed(metadata.value))
      modifies this
      ensures Valid() && old(history) <= history
      ensures r.Failed? ==>
                || store.aliases == old(store.aliases)
                || (r.error.InvalidRequest? && CatalogFull(old(store).catalog, name)
                    && Appends(old(store), store, name, Prepare(name, program, programHash, tests, metadata, description)))
      ensures failures >= old(failures) && store.telemetry == old(store).telemetry
      ensures r.Done? && failures == old(failures) ==> name in store.catalog.names
      ensures if RegistrationRefused(old(store), name, Prepare(name, program, programHash, tests, metadata, description))
              then r == Failed(InvalidRequest)
              else if CatalogFull(old(store).catalog, name) then r == Failed(InvalidRequest) || (r == Failed(StorageFailed) && failures > old(failures))
              else r.Done? || (r.error.StorageFailed? && failures > old(failures))
      ensures r.Done? ==>
                && Holds(store, r.value) && r.value.name == name
                && r.value.entry.programHash == ContentHash(program) && r.value.record.program == Normalize(program)
                && !r.value.entry.state.Retired?
      ensures var prepared := Prepare(name, program, programHash, tests, metadata, description);
              var base := if name in old(store.aliases) then old(store.aliases)[name] else EmptyAlias(name);
              if prepared.Done? then Recorded(old(store).records, store.records, NewRecord(base, prepared.value))
              else store == old(store)
      ensures r.Done? && r.value.created ==>
                var prepared := Prepare(name, program, programHash, tests, metadata, description);
                var base := if name in old(store.aliases) then old(store.aliases)[name] else EmptyAlias(name);
                && prepared.Done?
                && FirstReusable(base.versions, ContentHash(program)).None?
                && r.value.record == NewRecord(base, prepared.value)
                && store.aliases == old(store.aliases)[name := Appended(base, NewRecord(base, prepared.value))]
      ensures r.Done? && !r.value.created ==>
                && store.aliases == old(store.aliases) && name in store.aliases
                && FirstReusable(store.aliases[name].versions, ContentHash(program)) == Some(r.value.entry)
    {
      hide Valid, ContentHash, RecordGood, Holds, NewRecord, Prepare, Prepared, WellFormed, Normalize, NameOk;
      PrepareGives(name, program, programHash, tests, metadata, description);
      var s :- Prepare(name, program, programHash, tests, metadata, description);
      var loaded := LoadAlias(name);
      if loaded.Failed? {
        return Failed(InvalidRequest);
      }
      if loaded.value.Some? {
        var reuse := FindReusable(loaded.value.value.versions, s.programHash);
        if reuse.Some? {
          FirstReusableIsIn(loaded.value.value.versions, s.programHash);
          var raised := EnsureIndexed(name);
          if raised {
            return Failed(InvalidRequest);
          }
          r := Materialize(name, reuse.value, false);
          EntryIsGood(name, reuse.value);
          HeldRecord(store, r.value, store.records[reuse.value.contentHash]);
          ReusedProgram(store, r.value, program);
          return;
        }
        if |loaded.value.value.versions| >= MAX_VERSIONS {
          return Failed(InvalidRequest);
        }
      }
      var base := if loaded.value.Some? then loaded.value.value else EmptyAlias(name);
      assert base.name == name && base.latest == |base.versions| by {
        if name in store.aliases {
          ShapeNow(name);
        }
      }
      r := Append(base, s);
      NewRecordFields(base, s);
      if r.Done? {
        ShapeNow(name);
        AppendedEntry(store, r.value, base, s);
      }
    }

    // ----- lifecycle -----

    /** The loop that retires whatever is active. */
    method DemoteActive(versions: seq<Entry>) returns (r: seq<Entry>)
      ensures r == Demoted(versions)
    {
      r := versions;
      for i := 0 to |versions|
        invariant |r| == |versions|
        invariant forall j :: 0 <= j < i ==> r[j] == Demoted(versions)[j]
        invariant forall j :: i <= j < |r| ==> r[j] == versions[j]
      {
        if r[i].state.Active? {
          r := r[i := r[i].(state := Retired)];
        }
      }
    }

    /** `activate`: a version whose tests passed becomes the active one, or nothing changes. */
    method Activate(name: Text, version: int, expectedHash: Option<Text>, expectation: Expectation, allowUntested: bool)
      returns (r: Reply<Crystal>)
      requires Valid()
      modifies this
      ensures Valid() && old(history) <= history
      ensures store == old(store).(aliases := store.aliases)
      ensures failures >= old(failures)
      ensures r.Failed? ==> store == old(store)
      ensures var choice := ToActivate(old(store), name, version, expectedHash, expectation, allowUntested);
              if choice.Failed? then r == Failed(choice.error)
              else r.Done? || (r.error.StorageFailed? && failures > old(failures))
      ensures r.Done? ==>
                && name in old(store.aliases) && 1 <= version <= |old(store.aliases)[name].versions|
                && store.aliases == old(store.aliases)[name := Activated(old(store.aliases)[name], version)]
                && Holds(store, r.value) && r.value.name == name && r.value.entry.version == version
                && r.value.entry.state.Active?
                && (allowUntested || TestsPassed(r.value.record.metadata))
                && (expectedHash.Some? ==> r.value.entry.programHash == expectedHash.value)
                && (expectation.Exactly? ==> old(store.aliases)[name].active == expectation.active)
    {
      hide Valid, RecordGood, Holds, TestsPassed;
      if !NameOk(name) || version < 1 {
        return Failed(InvalidRequest);
      }
      if expectation.Exactly? && expectation.active.Some? && expectation.active.value < 1 {
        return Failed(InvalidRequest);
      }
      var loaded := LoadAlias(name);
      if loaded.Failed? {
        return Failed(InvalidRequest);
      }
      if loaded.value.None? {
        return Failed(NotFound);
      }
      var a := loaded.value.value;
      if expectation.Exactly? && a.active != expectation.active {
        return Failed(Conflict);
      }
      var target :- Find(name, Some(version), false);
      ShapeNow(name);
      if expectedHash.Some? && target.programHash != expectedHash.value {
        return Failed(Conflict);
      }
      var record := LoadRecord(name, target);
      if record.Failed? {
        return Failed(InvalidRequest);
      }
      if !allowUntested && !TestsPassed(record.value.metadata) {
        return Failed(NotTested);
      }
      r := Point(name, version);
      if r.Done? {
        HeldRecord(store, r.value, record.value);
      }
    }

    /** The last part of `activate`: whatever was active retires, and one write makes the version active. */
    method Point(name: Text, version: int) returns (r: Reply<Crystal>)
      requires Valid() && name in store.aliases && 1 <= version <= |store.aliases[name].versions|
      modifies this
      ensures Valid() && old(history) <= history
      ensures store == old(store).(aliases := store.aliases)
      ensures failures >= old(failures)
      ensures r.Failed? ==> store == old(store) && r.error.StorageFailed? && failures > old(failures)
      ensures r.Done? ==>
                && store.aliases == old(store.aliases)[name := Activated(old(store.aliases)[name], version)]
                && Holds(store, r.value) && r.value.name == name && r.value.entry.state.Active?
                && var target := old(store.aliases)[name].versions[version - 1];
                   && r.value.entry.version == target.version == version && r.value.entry.programHash == target.programHash
                   && r.value.entry.contentHash == target.contentHash
    {
      hide Valid, RecordGood, Holds, Backed;
      var a := store.aliases[name];
      var target := a.versions[version - 1];
      ShapeNow(name);
      assert target.version == version;
      if a.active == Some(version) && target.state.Active? {
        r := Materialize(name, target, false);
        SameAlias(store, name);
        return;
      }
      var demoted := DemoteActive(a.versions);
      var b := a.(versions := demoted[version - 1 := demoted[version - 1].(state := Active)],
                  active := Some(version), revision := a.revision + 1);
      r := Move(name, version, b, Activated(a, version));
      if r.Done? {
        MovedEntry(store, r.value, a, b, version);
      }
    }

    /** The alias write that ends `activate` and `retire`. */
    method Move(name: Text, version: int, b: Alias, ghost planned: Alias) returns (r: Reply<Crystal>)
      requires Valid() && name in store.aliases && 1 <= version <= |store.aliases[name].versions|
      requires planned == Activated(store.aliases[name], version) || planned == Withdrawn(store.aliases[name], version)
      requires b == planned && b != store.aliases[name] && |b.versions| == |store.aliases[name].versions|
      modifies this
      ensures Valid() && old(history) <= history
      ensures store == old(store).(aliases := store.aliases)
      ensures failures >= old(failures)
      ensures r.Failed? ==> store == old(store) && r.error.StorageFailed? && failures > old(failures)
      ensures r.Done? ==>
                && store.aliases == old(store.aliases)[name := b]
                && Holds(store, r.value) && r.value.name == name && r.value.entry == b.versions[version - 1]
    {
      hide Valid, Holds, Performs, Activated, Withdrawn, Consistent;
      assert Consistent(store) by {
        ConsistentNow();
      }
      MovePerforms(store, name, version, b);
      var moved := Set(AliasCell(b));
      if !moved {
        return Failed(StorageFailed);
      }
      r := Materialize(name, b.versions[version - 1], false);
    }

    /** `retire`: an explicit version, else the active one, else the latest. */
    method Retire(name: Text, version: Option<int>) returns (r: Reply<Crystal>)
      requires Valid()
      modifies this
      ensures Valid() && old(history) <= history
      ensures store == old(store).(aliases := store.aliases)
      ensures failures >= old(failures)
      ensures r.Failed? ==> store == old(store)
      ensures var choice := ToRetire(old(store), name, version);
              if choice.Failed? then r == Failed(choice.error)
              else r.Done? || (r.error.StorageFailed? && failures > old(failures))
      ensures r.Done? ==>
                && name in old(store.aliases)
                && Selected(old(store.aliases)[name], version, false).Done?
                && r.value.entry.version == Selected(old(store.aliases)[name], version, false).value.version
                && 1 <= r.value.entry.version <= |old(store.aliases)[name].versions|
                && store.aliases == old(store.aliases)[name := Withdrawn(old(store.aliases)[name], r.value.entry.version)]
                && Holds(store, r.value) && r.value.name == name && r.value.entry.state.Retired?
    {
      hide Valid, RecordGood, Holds;
      if !NameOk(name) || (version.Some? && version.value < 1) {
        return Failed(InvalidRequest);
      }
      var loaded := LoadAlias(name);
      if loaded.Failed? {
        return Failed(InvalidRequest);
      }
      if loaded.value.None? {
        return Failed(NotFound);
      }
      var a := loaded.value.value;
      var target :- Find(name, version, false);
      EntryIsGood(name, target);
      var v := target.version;
      if target.state.Retired? {
        r := Materialize(name, target, false);
        SameAlias(store, name);
        return;
      }
      var b := a.(versions := a.versions[v - 1 := target.(state := Retired)],
                  active := if a.active == Some(v) then None else a.active, revision := a.revision + 1);
      r := Move(name, v, b, Withdrawn(a, v));
    }

    // ----- telemetry -----

    /** `record_run`: one cell, whose counters only rise. */
    method RecordRun(name: Text, version: Option<int>, avoided: int, count: int) returns (r: Reply<Telemetry>)
      requires Valid()
      modifies this
      ensures Valid() && old(history) <= history
      ensures store == old(store).(telemetry := store.telemetry)
      ensures failures >= old(failures)
      ensures r.Failed? ==> store == old(store)
      ensures var choice := ToCount(old(store), name, version, avoided, count);
              if choice.Failed? then r == Failed(choice.error)
              else r.Done? || (r.error.StorageFailed? && failures > old(failures))
      ensures r.Done? ==>
                && name in store.aliases && Selected(store.aliases[name], version, version.None?).Done?
                && var e := Selected(store.aliases[name], version, version.None?).value;
                   var before := CountersOf(old(store), name, e);
                   && r.value == Telemetry(e.contentHash, before.runCount + count, before.avoided + avoided, before.revision + 1)
                   && store.telemetry == old(store.telemetry)[(name, e.version) := r.value]
    {
      hide Valid, RecordGood;
      if !NameOk(name) || avoided < 0 || avoided > MAX_COUNTER || count < 1 || count > MAX_COUNTER
         || (version.Some? && version.value < 1) {
        return Failed(InvalidRequest);
      }
      var loaded := LoadAlias(name);
      if loaded.Failed? {
        return Failed(InvalidRequest);
      }
      if loaded.value.None? {
        return Failed(NotFound);
      }
      var e :- Find(name, version, version.None?);
      EntryIsGood(name, e);
      var previous := LoadTelemetry(name, e);
      if previous.Failed? {
        return Failed(InvalidRequest);
      }
      var p := previous.value;
      if p.runCount > MAX_COUNTER - count || p.avoided > MAX_COUNTER - avoided || p.revision == MAX_COUNTER {
        return Failed(InvalidRequest);
      }
      var next := Telemetry(e.contentHash, p.runCount + count, p.avoided + avoided, p.revision + 1);
      var ok := Set(TelemetryCell(name, e.version, next));
      r := if ok then Done(next) else Failed(StorageFailed);
    }

    /** `_aggregate_telemetry`: running sums, refused as soon as one overflows. */
    method AggregateTelemetry(name: Text) returns (r: Reply<Telemetry>)
      requires Valid() && name in store.aliases
      ensures var total := Total(store, name, store.aliases[name].versions);
              r == if TotalFits(total) then Done(total) else Failed(Corrupt)
    {
      hide Valid, Consistent, RecordGood, Backed, CountersOf, Total, Plus;
      var versions := store.aliases[name].versions;
      var sum := Telemetry([], 0, 0, 0);
      assert Consistent(store) by {
        ConsistentNow();
      }
      TotalStarts(store, name, versions);
      for i := 0 to |versions|
        invariant TotalFits(sum) && CountersOk(sum) && sum.contentHash == []
        invariant Total(store, name, versions) == Plus(sum, Total(store, name, versions[i..]))
      {
        TotalStep(store, name, versions, i, sum);
        var item := LoadTelemetry(name, versions[i]);
        if item.Failed? {
          return Failed(Corrupt);
        }
        sum := Plus(sum, item.value);
        if !TotalFits(sum) {
          return Failed(Corrupt);
        }
      }
      TotalEnds(store, name, versions, sum);
      r := Done(sum);
    }

    /** `list`, as far as its callers here need it: the names, each with counters that were summed. */
    method List() returns (r: Reply<seq<Text>>)
      requires Valid()
      ensures r == if SumsFit(store) then Done(store.catalog.names) else Failed(Corrupt)
    {
      hide Valid, Consistent, Total, TotalFits;
      var names := store.catalog.names;
      assert CatalogGood(store.catalog, store.aliases) by {
        ConsistentNow();
        CatalogOf(store);
      }
      for i := 0 to |names|
        invariant forall j :: 0 <= j < i ==> TotalFits(Total(store, names[j], store.aliases[names[j]].versions))
      {
        assert names[i] in store.catalog.names;
        var sum := AggregateTelemetry(names[i]);
        if sum.Failed? {
          return Failed(Corrupt);
        }
      }
      r := Done(names);
    }

    /**
     * The summary that a retirement reports: the listed crystal, listing it first
     * if it is missing.  Whatever keeps the summary from being made is raised.
     */
    method SummaryFor(name: Text) returns (r: Reply<Option<int>>)
      requires Valid() && name in store.aliases
      modifies this
      ensures Valid() && old(history) <= history
      ensures store == old(store).(catalog := store.catalog)
      ensures failures >= old(failures)
      ensures r.Done? ==> r.value == store.aliases[name].active && name in store.catalog.names
      ensures r.Failed? ==>
                || (r.error.StorageFailed? && failures > old(failures))
                || (r.error.InvalidRequest? && CatalogFull(old(store).catalog, name))
                || (r.error.Corrupt? && !SumsFit(store))
    {
      hide Valid, SumsFit, CatalogFull;
      var listed := List();
      if listed.Failed? {
        return Failed(Corrupt);
      }
      if name !in listed.value {
        var raised := EnsureIndexed(name);
        if raised {
          return Failed(InvalidRequest);
        }
        if name !in store.catalog.names {
          return Failed(StorageFailed);
        }
        listed := List();
        if listed.Failed? {
          return Failed(Corrupt);
        }
      }
      r := Done(store.aliases[name].active);
    }
  }

  /** The summed counters of every listed name are within their bound. */
  ghost predicate SumsFit(s: Store) {
    forall n: Text :: n in s.catalog.names && n in s.aliases ==> TotalFits(Total(s, n, s.aliases[n].versions))
  }

  lemma CatalogOf(s: Store)
    requires Consistent(s)
    ensures CatalogGood(s.catalog, s.aliases)
  {
  }

  /** At most one record was added, and it is the given one. */
  predicate Recorded(before: map<Text, Record>, after: map<Text, Record>, record: Record) {
    after == before || after == before[ContentHash(RecordJson(record)) := record]
  }

  function FirstReusable(versions: seq<Entry>, programHash: Text): Option<Entry> {
    if versions == [] then None
    else if Reusable(versions[0], programHash) then Some(versions[0])
    else FirstReusable(versions[1..], programHash)
  }

  lemma {:induction false} FirstReusableIsIn(versions: seq<Entry>, programHash: Text)
    ensures var r := FirstReusable(versions, programHash);
            if r.Some? then r.value in versions && Reusable(r.value, programHash)
            else forall e :: e in versions ==> !Reusable(e, programHash)
  {
    if versions != [] {
      FirstReusableIsIn(versions[1..], programHash);
      assert versions == [versions[0]] + versions[1..];
    }
  }

  predicate Prepared(s: Submission) {
    && IsSnapshot(s.program) && IsSnapshot(s.tests) && IsSnapshot(s.metadata)
    && s.program.Obj? && s.metadata.Obj?
    && s.programHash == ContentHash(s.program) && Encodable(s.programHash)
    && (s.description.Some? ==> DescriptionOk(s.description.value))
  }

  lemma PrepareGives(name: Text, program: Json, programHash: Option<Text>, tests: Option<Json>, metadata: Option<Json>,
                     description: Option<Text>)
    requires WellFormed(program) && (tests.Some? ==> WellFormed(tests.value)) && (metadata.Some? ==> WellFormed(metadata.value))
    ensures var r := Prepare(name, program, programHash, tests, metadata, description);
            if r.Failed? then r.error.InvalidRequest?
            else NameOk(name) && Prepared(r.value) && r.value.program == Normalize(program)
                 && r.value.programHash == ContentHash(program)
  {
    hide Snapshot, WellFormed, Normalize, ContentHash, NameOk, DescriptionOk, Lookup, IsSnapshot;
    PreparedIsStored(name, program, programHash, tests, metadata, description);
  }

  lemma NameIsEncodable(name: Text)
    requires NameOk(name)
    ensures Encodable(name)
  {
  }

  lemma NewRecordFields(a: Alias, s: Submission)
    ensures var r := NewRecord(a, s);
            r.program == s.program && r.tests == s.tests && r.metadata == s.metadata && r.programHash == s.programHash
  {
  }

  lemma NewRecordIsGood(store: Store, base: Alias, s: Submission)
    requires Consistent(store) && NameOk(base.name) && Prepared(s)
    requires base == if base.name in store.aliases then store.aliases[base.name] else EmptyAlias(base.name)
    ensures RecordGood(NewRecord(base, s), ContentHash(RecordJson(NewRecord(base, s))))
    ensures DescriptionOk(NewRecord(base, s).description)
  {
    hide IsSnapshot, ContentHash, RecordJson, NameOk;
    NameIsEncodable(base.name);
    if base.name in store.aliases {
      assert AliasGood(base, base.name, store.records);
    }
  }

  lemma NewVersionIsNext(store: Store, base: Alias, s: Submission)
    requires Consistent(store) && NameOk(base.name) && Prepared(s) && |base.versions| < MAX_VERSIONS
    requires base == BaseOf(store, base.name)
    requires var r := NewRecord(base, s);
             ContentHash(RecordJson(r)) in store.records && store.records[ContentHash(RecordJson(r))] == r
    ensures NewVersion(store, NewRecord(base, s)) && NewRecord(base, s).name == base.name
  {
    hide RecordGood, ContentHash, RecordJson, NameOk, DescriptionOk, Prepared, Consistent;
    NewRecordIsGood(store, base, s);
  }

  lemma HeldRecord(store: Store, c: Crystal, record: Record)
    requires Holds(store, c)
    requires c.entry.contentHash in store.records && store.records[c.entry.contentHash] == record
    ensures c.record == record
  {
  }

  /** A reused version holds the submitted program, up to key order. */
  lemma ReusedProgram(store: Store, c: Crystal, program: Json)
    requires Holds(store, c) && WellFormed(program) && c.entry.programHash == ContentHash(program)
    requires Backed(store.records, c.name, c.entry) && RecordGood(c.record, c.entry.contentHash)
    ensures c.record.program == Normalize(program)
  {
    hide WellFormed, Normalize, ContentHash, RecordJson;
    HashIsInjective(c.record.program, program);
  }

  /** The entry of a version just appended is a draft of the submitted program. */
  lemma AppendedEntry(store: Store, c: Crystal, base: Alias, s: Submission)
    requires Holds(store, c) && c.record == NewRecord(base, s) && c.name == base.name
    requires c.name in store.aliases && store.aliases[c.name] == Appended(base, NewRecord(base, s))
    requires AliasGood(store.aliases[c.name], c.name, store.records)
    requires base.latest == |base.versions|
    ensures c.entry.programHash == s.programHash && c.entry.state.Draft?
  {
    hide RecordGood, ContentHash, RecordJson, NameOk, DescriptionOk;
    assert Backed(store.records, c.name, c.entry);
    assert c.entry.version == base.latest + 1;
  }
  function Plus(a: Telemetry, b: Telemetry): Telemetry {
    Telemetry([], a.runCount + b.runCount, a.avoided + b.avoided, a.revision + b.revision)
  }

  function Total(s: Store, name: Text, versions: seq<Entry>): Telemetry {
    if versions == [] then Telemetry([], 0, 0, 0) else Plus(CountersOf(s, name, versions[0]), Total(s, name, versions[1..]))
  }

  predicate TotalFits(t: Telemetry) {
    t.runCount <= MAX_COUNTER && t.avoided <= MAX_COUNTER && t.revision <= MAX_COUNTER
  }

  lemma {:induction false} TotalNonNegative(s: Store, name: Text, versions: seq<Entry>)
    requires Consistent(s)
    ensures Total(s, name, versions).runCount >= 0 && Total(s, name, versions).avoided >= 0 && Total(s, name, versions).revision >= 0
  {
    hide AliasGood, RecordGood, CatalogGood;
    if versions != [] {
      TotalNonNegative(s, name, versions[1..]);
      var v := versions[0].version;
      assert (name, v) in s.telemetry ==> TelemetryGood(s, name, v);
    }
  }

  lemma TotalStarts(s: Store, name: Text, versions: seq<Entry>)
    ensures Total(s, name, versions) == Plus(Telemetry([], 0, 0, 0), Total(s, name, versions[0..]))
  {
    assert versions[0..] == versions;
  }

  lemma TotalEnds(s: Store, name: Text, versions: seq<Entry>, sum: Telemetry)
    requires sum.contentHash == [] && Total(s, name, versions) == Plus(sum, Total(s, name, versions[|versions|..]))
    ensures Total(s, name, versions) == sum
  {
  }

  /** One more entry: the sum so far grows, and an overflow now is an overflow of the whole. */
  lemma TotalStep(s: Store, name: Text, versions: seq<Entry>, i: nat, sum: Telemetry)
    requires Consistent(s) && name in s.aliases && versions == s.aliases[name].versions && i < |versions|
    requires CountersOk(sum) && Total(s, name, versions) == Plus(sum, Total(s, name, versions[i..]))
    ensures var next := Plus(sum, CountersOf(s, name, versions[i]));
            && Total(s, name, versions) == Plus(next, Total(s, name, versions[i + 1..]))
            && next.contentHash == []
            && (TotalFits(next) ==> CountersOk(next))
            && (!TotalFits(next) ==> !TotalFits(Total(s, name, versions)))
  {
    hide AliasGood, RecordGood, CatalogGood;
    assert versions[i..][0] == versions[i] && versions[i..][1..] == versions[i + 1..];
    TotalNonNegative(s, name, versions[i + 1..]);
    var v := versions[i].version;
    assert (name, v) in s.telemetry ==> TelemetryGood(s, name, v);
  }

  lemma SameAlias(s: Store, name: Text)
    requires name in s.aliases
    ensures s.aliases[name := s.aliases[name]] == s.aliases
  {
  }

  /** A version just activated keeps its record and its hash. */
  lemma MovedEntry(s: Store, c: Crystal, a: Alias, b: Alias, version: int)
    requires Holds(s, c) && 1 <= version <= |a.versions| && b == Activated(a, version) && c.entry == b.versions[version - 1]
    ensures c.entry.contentHash == a.versions[version - 1].contentHash && c.entry.programHash == a.versions[version - 1].programHash
    ensures c.entry.version == a.versions[version - 1].version && c.entry.state.Active?
  {
  }
}
