/**
 * The service over one registry: crystallize, execute, activate and retire.
 * Every record in the registry passes its own stored tests, at every point of
 * every sequence of calls.
 */
module ServiceRuns {
  import opened Texts
  import opened Json
  import opened Limits
  import opened Operators
  import opened Canonical
  import opened Cells
  import opened Registries
  import opened RegistryRuns
  import opened Services
  import opened Views
  import StoredPrograms
  import P = Programs

  const ENGINE_KEY := Ascii("engine_version")
  const IR_KEY := Ascii("ir_version")
  const COUNT_KEY := Ascii("test_count")
  const ESTIMATE_KEY := Ascii("estimated_tokens_per_run")

  function MetadataFields(count: nat, estimate: nat): seq<Field<Json>> {
    [Field(ENGINE_KEY, Str(ENGINE_VERSION)), Field(IR_KEY, Int(IR_VERSION)), Field(TESTS_PASSED, Bool(true)),
     Field(COUNT_KEY, Int(count)), Field(ESTIMATE_KEY, Int(estimate))]
  }

  function Metadata(count: nat, estimate: nat): Json {
    Obj(MetadataFields(count, estimate))
  }

  predicate EngineMatches(metadata: Json) {
    metadata.Obj? && Lookup(metadata.fields, ENGINE_KEY) == Some(Str(ENGINE_VERSION))
  }

  /** The stored estimate, zero when absent. */
  function EstimateOf(metadata: Json): Option<int> {
    if !metadata.Obj? then None
    else
      match Lookup(metadata.fields, ESTIMATE_KEY)
      case None => Some(0)
      case Some(v) => if v.Int? && v.number >= 0 then Some(v.number) else None
  }

  /** A record as the service makes them: admitted, tested on its own tests, and marked so. */
  predicate Trusted(r: Record, l: Limits, strings: Strings) {
    && P.Admit(r.program, l).Ok?
    && PassesTests(r.program, r.tests, l, strings)
    && TestsPassed(r.metadata) && EngineMatches(r.metadata)
    && EstimateOf(r.metadata).Some? && EstimateOf(r.metadata).value <= MAX_TOKEN_ESTIMATE
  }

  ghost predicate AllTrusted(records: map<Text, Record>, l: Limits, strings: Strings) {
    forall h :: h in records ==> Trusted(records[h], l, strings)
  }

  lemma MetadataKeys(count: nat, estimate: nat)
    ensures UniqueKeys(MetadataFields(count, estimate)) && WellFormed(Metadata(count, estimate))
  {
    assert |ENGINE_KEY| == 14 && |IR_KEY| == 10 && |TESTS_PASSED| == 12 && |COUNT_KEY| == 10 && |ESTIMATE_KEY| == 24;
    assert IR_KEY[0] == 'i' as int && COUNT_KEY[0] == 't' as int;
  }

  lemma StoredMetadata(count: nat, estimate: nat)
    requires estimate <= MAX_TOKEN_ESTIMATE
    ensures var m := Normalize(Metadata(count, estimate));
            TestsPassed(m) && EngineMatches(m) && EstimateOf(m) == Some(estimate)
  {
    hide Lookup, NormalizeFields, SortByKey, WellFormed;
    MetadataKeys(count, estimate);
    var fields := MetadataFields(count, estimate);
    LookupAt(fields, 0);
    LookupAt(fields, 2);
    LookupAt(fields, 4);
    LookupNormalized(fields, ENGINE_KEY);
    LookupNormalized(fields, TESTS_PASSED);
    LookupNormalized(fields, ESTIMATE_KEY);
  }

  /** What is stored for a submission that passed its tests is trusted. */
  lemma {:induction false} SubmissionIsTrusted(program: Json, cases: seq<Case>, estimate: nat, r: Record, l: Limits, strings: Strings)
    requires WellFormed(program) && WellFormed(CasesJson(cases)) && estimate <= MAX_TOKEN_ESTIMATE
    requires P.Admit(program, l).Ok? && PassesTests(program, CasesJson(cases), l, strings)
    requires r.program == Normalize(program) && r.tests == Normalize(CasesJson(cases))
             && r.metadata == Normalize(Metadata(|cases|, estimate))
    ensures Trusted(r, l, strings)
  {
    hide P.Admit, PassesTests, WellFormed, Normalize, TestsPassed, EngineMatches, EstimateOf;
    StoredPrograms.AdmitStored(program, l);
    TestsStored(program, CasesJson(cases), l, strings);
    StoredMetadata(|cases|, estimate);
  }

  predicate PassesCases(program: Json, cases: seq<Case>, l: Limits, strings: Strings) {
    forall i :: 0 <= i < |cases| ==> PassesCase(program, cases[i].input, cases[i].expected, l, strings)
  }

  /** Running the cases is running the test array they are stored as. */
  lemma {:induction false} CasesPass(program: Json, cases: seq<Case>, l: Limits, strings: Strings)
    requires PassesCases(program, cases, l, strings) && cases != []
    ensures PassesTests(program, CasesJson(cases), l, strings)
  {
    hide PassesCase;
    forall i | 0 <= i < |cases| ensures PassesTest(program, CasesJson(cases).items[i], l, strings) {
      CaseAt(cases, i);
      CaseFields(cases[i]);
      assert PassesCase(program, cases[i].input, cases[i].expected, l, strings);
    }
  }

  lemma {:induction false} CaseAt(cases: seq<Case>, i: nat)
    requires i < |cases|
    ensures CasesJson(cases).items[i] == CaseJson(cases[i])
  {
    if i > 0 {
      CaseAt(cases[1..], i - 1);
    }
  }

  /** The case's run ends in an exception that is not one of CrystalFlow's own. */
  predicate BreaksCase(program: Json, input: Json, l: Limits, strings: Strings) {
    P.Run(program, input, l, strings) == Err(Crash)
  }

  /** The first case that does not pass breaks. */
  predicate BreaksCases(program: Json, cases: seq<Case>, l: Limits, strings: Strings) {
    exists i :: 0 <= i < |cases| && BreaksCase(program, cases[i].input, l, strings)
                && forall j :: 0 <= j < i ==> PassesCase(program, cases[j].input, cases[j].expected, l, strings)
  }

  lemma BreakingIsNotPassing(program: Json, cases: seq<Case>, l: Limits, strings: Strings)
    ensures BreaksCases(program, cases, l, strings) ==> !PassesCases(program, cases, l, strings)
  {
    hide P.Run, Render, Clean;
    if BreaksCases(program, cases, l, strings) {
      var i :| 0 <= i < |cases| && BreaksCase(program, cases[i].input, l, strings);
      assert !PassesCase(program, cases[i].input, cases[i].expected, l, strings);
    }
  }

  datatype Trial = AllPassed | OneFailed | OneBroke

  /** How crystallizing ended; `TestBroke` is an exception that leaves the call. */
  datatype Outcome =
    | Crystallized(crystal: Crystal)
    | Rejected
    | TestFailed
    | TestBroke
    | Raised(error: Error)

  /** Why `execute` sends the caller to its fallback. */
  datatype Reason = CrystalNotFound | NoActiveVersion | VersionRetired | UntestedVersion | EngineMismatch
                  | RunFailed(code: Code) | InvalidStoredMetadata

  /** What executing answered; `RunBroke` is an exception that leaves the call. */
  datatype Execution =
    | Hit(crystal: Crystal, output: Json, text: Text, receipt: Text, avoided: int, recorded: bool)
    | Fallback(reason: Reason, version: int)
    | Refused(error: Error)
    | RunBroke

  const CRYSTAL_KEY := Ascii("crystal_name")
  const HASH_KEY := Ascii("program_hash")
  const INPUT_KEY := Ascii("input")
  const OUTPUT_KEY := Ascii("output")

  function ReceiptFields(name: Text, e: Entry, inputs: Json, output: Json): seq<Field<Json>> {
    [Field(ENGINE_KEY, Str(ENGINE_VERSION)), Field(HASH_KEY, Str(e.programHash)), Field(CRYSTAL_KEY, Str(name)),
     Field(VERSION, Int(e.version)), Field(INPUT_KEY, inputs), Field(OUTPUT_KEY, output)]
  }

  function Receipt(name: Text, e: Entry, inputs: Json, output: Json): Text {
    ContentHash(Obj(ReceiptFields(name, e, inputs, output)))
  }

  lemma ReceiptKeys(name: Text, e: Entry, inputs: Json, output: Json)
    requires WellFormed(inputs) && WellFormed(output)
    ensures UniqueKeys(ReceiptFields(name, e, inputs, output)) && WellFormed(Obj(ReceiptFields(name, e, inputs, output)))
  {
    assert |ENGINE_KEY| == 14 && |HASH_KEY| == 12 && |CRYSTAL_KEY| == 12 && |VERSION| == 7 && |INPUT_KEY| == 5 && |OUTPUT_KEY| == 6;
    assert HASH_KEY[0] == 'p' as int && CRYSTAL_KEY[0] == 'c' as int;
    assert WellFormed(Str(name)) && WellFormed(Str(e.programHash)) && WellFormed(Str(ENGINE_VERSION)) && WellFormed(Int(e.version));
  }

  /** Objects with the same keys and the same normal form hold, under each key, values of the same normal form. */
  lemma SameField(a: seq<Field<Json>>, b: seq<Field<Json>>, k: nat)
    requires UniqueKeys(a) && UniqueKeys(b) && k < |a| == |b| && a[k].key == b[k].key
    requires Normalize(Obj(a)) == Normalize(Obj(b))
    ensures Normalize(a[k].value) == Normalize(b[k].value)
  {
    hide Lookup, NormalizeFields, SortByKey, UniqueKeys;
    LookupAt(a, k);
    LookupAt(b, k);
    LookupNormalized(a, a[k].key);
    LookupNormalized(b, a[k].key);
  }

  /** A receipt identifies the run: equal receipts mean the same version, program, input and output. */
  lemma ReceiptIdentifiesRun(n: Text, e: Entry, i: Json, o: Json, m: Text, f: Entry, j: Json, p: Json)
    requires WellFormed(i) && WellFormed(o) && WellFormed(j) && WellFormed(p)
    requires Receipt(n, e, i, o) == Receipt(m, f, j, p)
    ensures n == m && e.programHash == f.programHash && e.version == f.version && Equal(i, j) && Equal(o, p)
  {
    hide Lookup, NormalizeFields, SortByKey, WellFormed, Equal, Render, UniqueKeys, ContentHash;
    ReceiptKeys(n, e, i, o);
    ReceiptKeys(m, f, j, p);
    var a, b := ReceiptFields(n, e, i, o), ReceiptFields(m, f, j, p);
    HashIsInjective(Obj(a), Obj(b));
    SameField(a, b, 1);
    SameField(a, b, 2);
    SameField(a, b, 3);
    SameField(a, b, 4);
    SameField(a, b, 5);
    EqualIsSameNormalForm(i, j);
    EqualIsSameNormalForm(o, p);
  }

  lemma CasesOfWellFormed(tests: Json)
    requires WellFormed(tests) && CasesOf(tests).Some?
    ensures WellFormed(CasesJson(CasesOf(tests).value)) && CasesOf(tests).value != []
  {
    hide CasesFrom, CasesJson;
    CasesFromWellFormed(tests.items, 0);
  }

  /** A registration made after the tests passed adds trusted records only. */
  lemma {:induction false} RegisteredIsTrusted(before: Store, after: Store, name: Text, description: Text, program: Json,
                                               cases: seq<Case>, estimate: nat, l: Limits, strings: Strings)
    requires AllTrusted(before.records, l, strings)
    requires WellFormed(program) && WellFormed(CasesJson(cases)) && cases != [] && estimate <= MAX_TOKEN_ESTIMATE
    requires P.Admit(program, l).Ok? && PassesCases(program, cases, l, strings)
    requires var prepared := Prepare(name, program, Some(ContentHash(program)), Some(CasesJson(cases)),
                                     Some(Metadata(|cases|, estimate)), Some(description));
             var base := if name in before.aliases then before.aliases[name] else EmptyAlias(name);
             if prepared.Done? then Recorded(before.records, after.records, NewRecord(base, prepared.value))
             else after == before
    ensures AllTrusted(after.records, l, strings)
  {
    hide P.Admit, WellFormed, Normalize, Prepare, NewRecord, Trusted, ContentHash, RecordJson, PassesCases, PassesTests, Metadata, CasesJson;
    var casesJson, metadata := CasesJson(cases), Metadata(|cases|, estimate);
    MetadataKeys(|cases|, estimate);
    PreparedIsStored(name, program, Some(ContentHash(program)), Some(casesJson), Some(metadata), Some(description));
    var prepared := Prepare(name, program, Some(ContentHash(program)), Some(casesJson), Some(metadata), Some(description));
    if prepared.Done? {
      var base := if name in before.aliases then before.aliases[name] else EmptyAlias(name);
      NewRecordFields(base, prepared.value);
      CasesPass(program, cases, l, strings);
      SubmissionIsTrusted(program, cases, estimate, NewRecord(base, prepared.value), l, strings);
    }
  }

  lemma HeldIsTrusted(store: Store, c: Crystal, l: Limits, strings: Strings)
    requires AllTrusted(store.records, l, strings) && Holds(store, c)
    ensures Trusted(c.record, l, strings)
  {
    hide Trusted;
  }

  lemma HeldEntry(store: Store, c: Crystal)
    requires Holds(store, c)
    ensures c.name in store.aliases && c.entry in store.aliases[c.name].versions
  {
  }

  /** Records never change, so what is trusted now was trusted at every earlier point of the run. */
  lemma TrustedThroughout(history: seq<Store>, i: nat, l: Limits, strings: Strings)
    requires Registries.Run(history) && i < |history| && AllTrusted(history[|history| - 1].records, l, strings)
    ensures AllTrusted(history[i].records, l, strings)
  {
    hide Trusted, Registries.Run, AliasGrows, TelemetryGrows;
    RunOnlyGrows(history, i, |history| - 1);
  }

  /** No other name's alias changed. */
  predicate OnlyName(before: map<Text, Alias>, after: map<Text, Alias>, name: Text) {
    after == before || (name in after && after == before[name := after[name]])
  }

  /**
   * What crystallizing adds where every version was retired: the program as draft,
   * or as active, or nothing.  Where the call fails after the registration, the
   * draft is there: its activation was refused, or the catalog had no room.
   */
  predicate Added(before: seq<Seen>, after: seq<Seen>, program: Json, activate: bool, full: bool, r: Outcome) {
    match r
    case Crystallized(_) => after == before + [Seen(Normalize(program), if activate then Active else Draft)]
    case Raised(_) => after == before || ((activate || full) && after == before + [Seen(Normalize(program), Draft)])
    case _ => after == before
  }

  lemma NewestPromoted(before: seq<Seen>, program: Json)
    ensures !HasCandidate(before) ==>
              Promoted(before + [Seen(program, Draft)], |before|) == before + [Seen(program, Active)]
  {
    if !HasCandidate(before) {
      assert forall i :: 0 <= i < |before| ==> before[i].state.Retired?;
    }
  }

  /** What `crystallize` demands before it runs a test. */
  predicate Acceptable(description: Text, program: Json, tests: Json, estimate: int, l: Limits, strings: Strings) {
    strings.strip(description) != [] && 0 <= estimate <= MAX_TOKEN_ESTIMATE && CasesOf(tests).Some? && P.Admit(program, l).Ok?
  }

  /** Why a program that passed its tests may still not be stored: the registry refuses its arguments, or one version more. */
  predicate Unregistrable(s: Store, name: Text, description: Text, program: Json, cases: seq<Case>, estimate: nat) {
    RegistrationRefused(s, name, Prepare(name, program, Some(ContentHash(program)), Some(CasesJson(cases)),
                                         Some(Metadata(|cases|, estimate)), Some(description)))
  }

  /** The registry refuses the program, or its catalog has no room for the name. */
  predicate Unstorable(s: Store, name: Text, description: Text, program: Json, cases: seq<Case>, estimate: nat) {
    Unregistrable(s, name, description, program, cases, estimate) || CatalogFull(s.catalog, name)
  }

  /** The versions `execute` and `retire` speak of; zero means the active one. */
  function Asked(version: int): Option<int> {
    if version == 0 then None else Some(version)
  }

  /** What `execute` must answer, apart from what a hit carries. */
  datatype Verdict = MustRefuse | MustBreak | MustFallBack(reason: Reason) | MustHit

  function VerdictOn(s: Store, name: Text, inputs: Json, version: int, l: Limits, strings: Strings): Verdict {
    if version < 0 || version > MAX_VERSIONS then MustRefuse
    else
      match ToGet(s, name, Asked(version))
      case Failed(e) =>
        if !e.NotFound? then MustRefuse
        else MustFallBack(if name in s.aliases then NoActiveVersion else CrystalNotFound)
      case Done(e) =>
        if e.state.Retired? then MustFallBack(VersionRetired)
        else
          var run := P.Run(ProgramOf(s.records, e), inputs, l, strings);
          if run == Err(Crash) then MustBreak else if run.Err? then MustFallBack(RunFailed(run.code)) else MustHit
  }

  predicate Answers(r: Execution, v: Verdict) {
    match v
    case MustRefuse => r.Refused?
    case MustBreak => r.RunBroke?
    case MustFallBack(reason) => r.Fallback? && r.reason == reason
    case MustHit => r.Hit?
  }

  /** A trusted version, named by its number and its hash, is one `activate` points at. */
  lemma TrustedActivates(s: Store, c: Crystal, l: Limits, strings: Strings)
    requires Consistent(s) && Holds(s, c) && Trusted(c.record, l, strings)
    ensures ToActivate(s, c.name, c.entry.version, Some(c.entry.programHash), Anything, false) == Done(c.entry)
  {
    hide P.Admit, PassesTests, TestsPassed, EngineMatches, EstimateOf, NameOk, DescriptionOk, AliasOk, Backed, RecordGood, CatalogGood, TelemetryGood;
    assert AliasGood(s.aliases[c.name], c.name, s.records);
    GoodAliasShape(s.aliases[c.name], c.name, s.records);
  }

  class CrystalService {
    const registry: Registry
    const limits: Limits
    const strings: Strings

    /** The registry is consistent, and every record in it is trusted. */
    ghost predicate Valid()
      reads registry
    {
      registry.Valid() && AllTrusted(registry.store.records, limits, strings)
    }

    constructor (limits: Limits, strings: Strings)
      ensures Valid() && fresh(registry) && registry.store == EMPTY
      ensures this.limits == limits && this.strings == strings
    {
      this.registry := new Registry();
      this.limits := limits;
      this.strings := strings;
    }

    /** The test loop of `crystallize`, on the program as submitted. */
    method RunTests(program: Json, cases: seq<Case>) returns (trial: Trial)
      ensures trial.AllPassed? <==> PassesCases(program, cases, limits, strings)
      ensures trial.OneBroke? <==> BreaksCases(program, cases, limits, strings)
    {
      hide P.Run, Render, Clean;
      for i := 0 to |cases|
        invariant forall j :: 0 <= j < i ==> PassesCase(program, cases[j].input, cases[j].expected, limits, strings)
      {
        var actual := P.Execute(program, cases[i].input, limits, strings);
        if actual == Err(Crash) {
          assert BreaksCase(program, cases[i].input, limits, strings);
          assert !PassesCase(program, cases[i].input, cases[i].expected, limits, strings);
          return OneBroke;
        }
        if actual.Err? || !Clean(cases[i].expected) || Render(actual.value) != Render(cases[i].expected) {
          assert !PassesCase(program, cases[i].input, cases[i].expected, limits, strings);
          return OneFailed;
        }
      }
      trial := AllPassed;
    }

    /** `crystallize`: nothing is written unless every test passes. */
    method Crystallize(name: Text, description: Text, program: Json, tests: Json, activate: bool, estimate: int)
      returns (r: Outcome)
      requires Valid() && WellFormed(program) && WellFormed(tests)
      modifies registry
      ensures Valid() && old(registry.history) <= registry.history
      ensures r.TestFailed? || r.TestBroke? || r.Rejected? ==> registry.store == old(registry.store)
      ensures r.Rejected? <==> !Acceptable(description, program, tests, estimate, limits, strings)
      ensures r.TestFailed? <==>
                && Acceptable(description, program, tests, estimate, limits, strings)
                && !PassesCases(program, CasesOf(tests).value, limits, strings)
                && !BreaksCases(program, CasesOf(tests).value, limits, strings)
      ensures r.TestBroke? <==>
                && Acceptable(description, program, tests, estimate, limits, strings)
                && BreaksCases(program, CasesOf(tests).value, limits, strings)
      ensures r.Raised? ==>
                || (r.error.StorageFailed? && registry.failures > old(registry.failures))
                || (r.error.InvalidRequest?
                    && Unstorable(old(registry.store), name, strings.strip(description), program, CasesOf(tests).value, estimate))
      ensures r.Crystallized? ==>
                && Holds(registry.store, r.crystal) && r.crystal.name == name
                && r.crystal.record.program == Normalize(program)
                && Trusted(r.crystal.record, limits, strings)
                && !r.crystal.entry.state.Retired?
                && (activate ==> r.crystal.entry.state.Active?)
      ensures r.Crystallized? || registry.store != old(registry.store) ==>
                CasesOf(tests).Some? && PassesCases(program, CasesOf(tests).value, limits, strings)
      ensures OnlyName(old(registry.store).aliases, registry.store.aliases, name)
      ensures !HasCandidate(View(old(registry.store), name)) ==>
                Added(View(old(registry.store), name), View(registry.store, name), program, activate,
                      CatalogFull(old(registry.store).catalog, name), r)
    {
      hide P.Admit, P.Run, AllTrusted, Trusted, Holds, WellFormed, Normalize, CasesOf, PassesCases, BreaksCases, ContentHash, Metadata, Unstorable;
      var stripped := strings.strip(description);
      if stripped == [] || estimate < 0 || estimate > MAX_TOKEN_ESTIMATE {
        return Rejected;
      }
      var cases := ValidatedTests(tests);
      if cases.None? {
        return Rejected;
      }
      var admitted := P.ValidateProgram(program, limits);
      if admitted.Err? {
        return Rejected;
      }
      var trial := RunTests(program, cases.value);
      if !trial.AllPassed? {
        return if trial.OneBroke? then TestBroke else TestFailed;
      }
      r := Store(name, stripped, program, tests, cases.value, activate, estimate);
    }

    /** What follows the tests: registration, then activation if it was asked for. */
    method Store(name: Text, description: Text, program: Json, tests: Json, cases: seq<Case>, activate: bool, estimate: nat)
      returns (r: Outcome)
      requires Valid() && WellFormed(program) && WellFormed(tests) && estimate <= MAX_TOKEN_ESTIMATE
      requires CasesOf(tests) == Some(cases) && PassesCases(program, cases, limits, strings) && P.Admit(program, limits).Ok?
      modifies registry
      ensures Valid() && old(registry.history) <= registry.history
      ensures r.Crystallized? || r.Raised?
      ensures r.Raised? ==>
                || (r.error.StorageFailed? && registry.failures > old(registry.failures))
                || (r.error.InvalidRequest? && Unstorable(old(registry.store), name, description, program, cases, estimate))
      ensures r.Crystallized? ==>
                && Holds(registry.store, r.crystal) && r.crystal.name == name
                && r.crystal.record.program == Normalize(program)
                && Trusted(r.crystal.record, limits, strings)
                && !r.crystal.entry.state.Retired?
                && (activate ==> r.crystal.entry.state.Active?)
      ensures OnlyName(old(registry.store).aliases, registry.store.aliases, name)
      ensures !HasCandidate(View(old(registry.store), name)) ==>
                Added(View(old(registry.store), name), View(registry.store, name), program, activate,
                      CatalogFull(old(registry.store).catalog, name), r)
    {
      hide P.Admit, P.Run, Trusted, Holds, WellFormed, Normalize, CasesOf, PassesCases, ContentHash, View, HasCandidate, Promoted,
        AllTrusted, Registries.Run, Unstorable, CatalogFull;
      CasesOfWellFormed(tests);
      var version := RegisterTested(name, description, program, cases, estimate);
      if version.Failed? {
        return Raised(version.error);
      }
      if !activate {
        return Crystallized(version.value);
      }
      r := ActivateTested(name, program, version.value);
      NewestPromoted(View(old(registry.store), name), Normalize(program));
    }

    /** Activation of what was just registered. */
    method ActivateTested(name: Text, program: Json, draft: Crystal) returns (r: Outcome)
      requires Valid() && WellFormed(program)
      requires Holds(registry.store, draft) && draft.name == name && draft.entry.programHash == ContentHash(program)
      requires Trusted(draft.record, limits, strings)
      modifies registry
      ensures Valid() && old(registry.history) <= registry.history
      ensures r.Crystallized? || r.Raised?
      ensures r.Raised? ==> registry.store == old(registry.store) && r.error.StorageFailed? && registry.failures > old(registry.failures)
      ensures OnlyName(old(registry.store).aliases, registry.store.aliases, name)
      ensures r.Crystallized? ==>
                && Holds(registry.store, r.crystal) && r.crystal.name == name
                && r.crystal.record.program == Normalize(program)
                && Trusted(r.crystal.record, limits, strings)
                && r.crystal.entry.state.Active?
                && 1 <= draft.entry.version <= |View(old(registry.store), name)|
                && View(registry.store, name) == Promoted(View(old(registry.store), name), draft.entry.version - 1)
    {
      hide P.Admit, P.Run, Trusted, Holds, WellFormed, Normalize, ContentHash, Activated, TestsPassed, Promoted, Consistent, Grows,
        AllTrusted, Registries.Run, ToActivate;
      ghost var before := registry.store;
      assert Consistent(before) by {
        registry.ConsistentNow();
      }
      TrustedActivates(before, draft, limits, strings);
      var active := registry.Activate(name, draft.entry.version, Some(ContentHash(program)), Anything, false);
      if active.Failed? {
        return Raised(active.error);
      }
      assert Consistent(registry.store) by {
        registry.ConsistentNow();
      }
      ActivatedView(before, registry.store, name, draft.entry.version);
      HeldIsTrusted(registry.store, active.value, limits, strings);
      HeldIsGood(registry.store, active.value);
      ReusedProgram(registry.store, active.value, program);
      r := Crystallized(active.value);
    }

    /** Registration of a program that passed its tests. */
    method RegisterTested(name: Text, description: Text, program: Json, cases: seq<Case>, estimate: nat)
      returns (r: Reply<Crystal>)
      requires Valid() && WellFormed(program) && estimate <= MAX_TOKEN_ESTIMATE && cases != [] && WellFormed(CasesJson(cases))
      requires PassesCases(program, cases, limits, strings) && P.Admit(program, limits).Ok?
      modifies registry
      ensures Valid() && old(registry.history) <= registry.history
      ensures OnlyName(old(registry.store).aliases, registry.store.aliases, name)
      ensures r.Failed? ==>
                || (r.error.StorageFailed? && registry.failures > old(registry.failures))
                || (r.error.InvalidRequest? && Unstorable(old(registry.store), name, description, program, cases, estimate))
      ensures registry.failures >= old(registry.failures)
      ensures r.Failed? ==>
                || View(registry.store, name) == View(old(registry.store), name)
                || (CatalogFull(old(registry.store).catalog, name)
                    && View(registry.store, name) == View(old(registry.store), name) + [Seen(Normalize(program), Draft)])
      ensures r.Done? ==>
                && Holds(registry.store, r.value) && r.value.name == name
                && r.value.record.program == Normalize(program) && r.value.entry.programHash == ContentHash(program)
                && Trusted(r.value.record, limits, strings)
                && !r.value.entry.state.Retired?
      ensures r.Done? && !HasCandidate(View(old(registry.store), name)) ==>
                && View(registry.store, name) == View(old(registry.store), name) + [Seen(Normalize(program), Draft)]
                && r.value.entry.version == |View(registry.store, name)|
    {
      hide P.Admit, P.Run, Trusted, Holds, WellFormed, Normalize, PassesCases, ContentHash, Metadata, Prepare, NewRecord,
        FirstReusable, Recorded, View, HasCandidate, RecordJson, CasesJson, Consistent, Grows, AllTrusted, Appended, Registries.Run,
        CatalogFull, Appends;
      var hash, casesJson, metadata := ContentHash(program), CasesJson(cases), Metadata(|cases|, estimate);
      MetadataKeys(|cases|, estimate);
      PreparedIsStored(name, program, Some(hash), Some(casesJson), Some(metadata), Some(description));
      ghost var before := registry.store;
      registry.ConsistentNow();
      r := registry.Register(name, program, Some(hash), Some(casesJson), Some(metadata), Some(description));
      RegisteredIsTrusted(before, registry.store, name, description, program, cases, estimate, limits, strings);
      registry.GrownSince(old(registry.history));
      assert Consistent(registry.store) by {
        registry.ConsistentNow();
      }
      if r.Failed? {
        FailedView(before, registry.store, name, program, Prepare(name, program, Some(hash), Some(casesJson), Some(metadata), Some(description)));
        return;
      }
      HeldIsTrusted(registry.store, r.value, limits, strings);
      if !HasCandidate(View(before, name)) {
        NothingReusable(before, name, hash);
        ghost var base := if name in before.aliases then before.aliases[name] else EmptyAlias(name);
        ghost var prepared := Prepare(name, program, Some(hash), Some(casesJson), Some(metadata), Some(description));
        HeldEntry(registry.store, r.value);
        DraftAdded(before, registry.store, r.value, base, prepared.value);
      }
    }

    /**
     * `execute`: a hit comes from a stored, tested, non-retired version, and is
     * what that version's stored program returns.
     */
    method Execute(name: Text, inputs: Json, version: int) returns (r: Execution)
      requires Valid() && WellFormed(inputs)
      modifies registry
      ensures Valid() && old(registry.history) <= registry.history
      ensures registry.store == old(registry.store).(telemetry := registry.store.telemetry)
      ensures Answers(r, VerdictOn(old(registry.store), name, inputs, version, limits, strings))
      ensures !r.Hit? ==> registry.store == old(registry.store)
      ensures r.Hit? ==>
                var e := r.crystal.entry;
                var before := CountersOf(old(registry.store), name, e);
                if r.recorded then
                  registry.store.telemetry == old(registry.store).telemetry
                    [(name, e.version) := Telemetry(e.contentHash, before.runCount + 1, before.avoided + r.avoided, before.revision + 1)]
                else
                  registry.store == old(registry.store)
      ensures r.Hit? ==>
                && Holds(old(registry.store), r.crystal) && r.crystal.name == name
                && (version == 0 ==> r.crystal.entry.state.Active?)
                && (version != 0 ==> r.crystal.entry.version == version && !r.crystal.entry.state.Retired?)
                && Trusted(r.crystal.record, limits, strings)
                && P.Run(r.crystal.record.program, inputs, limits, strings) == Ok(r.output)
                && r.text == Render(r.output)
                && r.receipt == Receipt(name, r.crystal.entry, inputs, r.output)
                && EstimateOf(r.crystal.record.metadata) == Some(r.avoided)
    {
      hide P.Admit, P.Run, PassesTests, Holds, WellFormed, Render, Receipt, AllTrusted, TestsPassed, EngineMatches, EstimateOf, Selected,
        ToGet, ToCount, CountersOf, NameOk, Registries.Run;
      if version < 0 || version > MAX_VERSIONS {
        return Refused(InvalidRequest);
      }
      var found := registry.Get(name, Asked(version));
      ToGetFacts(registry.store, name, Asked(version));
      if found.Failed? {
        if !found.error.NotFound? {
          return Refused(found.error);
        }
        r := MissingExecution(name);
        return;
      }
      var crystal := found.value;
      HeldIsTrusted(registry.store, crystal, limits, strings);
      HeldEntry(registry.store, crystal);
      registry.ShapeNow(name);
      SelectedState(registry.store.aliases[name], Asked(version), crystal.entry, registry.store.records);
      HeldProgram(registry.store, crystal);
      if crystal.entry.state.Retired? {
        return Fallback(VersionRetired, crystal.entry.version);
      }
      if !TestsPassed(crystal.record.metadata) {
        return Fallback(UntestedVersion, crystal.entry.version);
      }
      if !EngineMatches(crystal.record.metadata) {
        return Fallback(EngineMismatch, crystal.entry.version);
      }
      var output := P.Execute(crystal.record.program, inputs, limits, strings);
      if output == Err(Crash) {
        return RunBroke;
      }
      if output.Err? {
        return Fallback(RunFailed(output.code), crystal.entry.version);
      }
      var estimate := EstimateOf(crystal.record.metadata);
      if estimate.None? {
        return Fallback(InvalidStoredMetadata, crystal.entry.version);
      }
      assert Selected(registry.store.aliases[name], Some(crystal.entry.version), false) == Done(crystal.entry) by {
        ExplicitVersion(registry.store.aliases[name], crystal.entry.version);
      }
      var counted := registry.RecordRun(name, Some(crystal.entry.version), estimate.value, 1);
      r := Hit(crystal, output.value, Render(output.value), Receipt(name, crystal.entry, inputs, output.value), estimate.value, counted.Done?);
    }

    method MissingExecution(name: Text) returns (r: Execution)
      requires Valid()
      ensures if NameOk(name) then Answers(r, MustFallBack(if name in registry.store.aliases then NoActiveVersion else CrystalNotFound))
              else r.Refused?
    {
      hide AllTrusted, Holds, NameOk, Registries.Run, AliasGood;
      if name in registry.store.aliases {
        registry.ShapeNow(name);
        StoredName(registry.store.aliases[name], name, registry.store.records);
      }
      var latest := registry.Latest(name);
      if latest.Failed? {
        return if latest.error.NotFound? then Fallback(CrystalNotFound, 0) else Refused(latest.error);
      }
      r := Fallback(NoActiveVersion, latest.value.entry.version);
    }

    /** `activate`, after its confirmation and its hash have been checked. */
    method Activate(name: Text, version: int, programHash: Text, confirmation: Text) returns (r: Reply<Crystal>)
      requires Valid()
      modifies registry
      ensures Valid() && old(registry.history) <= registry.history
      ensures registry.store == old(registry.store).(aliases := registry.store.aliases)
      ensures r.Failed? ==> registry.store == old(registry.store)
      ensures var choice := ToGet(old(registry.store), name, Some(version));
              if 1 <= version <= MAX_VERSIONS && confirmation == Ascii("ACTIVATE ") + name && choice.Done? && choice.value.programHash == programHash
              then r.Done? || (r.error.StorageFailed? && registry.failures > old(registry.failures))
              else r.Failed?
      ensures r.Done? ==>
                && confirmation == Ascii("ACTIVATE ") + name
                && Holds(registry.store, r.value) && r.value.name == name && r.value.entry.version == version
                && r.value.entry.state.Active? && r.value.entry.programHash == programHash
                && Trusted(r.value.record, limits, strings)
                && name in old(registry.store).aliases && 1 <= version <= |old(registry.store).aliases[name].versions|
                && registry.store.aliases == old(registry.store).aliases[name := Activated(old(registry.store).aliases[name], version)]
    {
      hide P.Admit, PassesTests, Holds, AllTrusted, TestsPassed, EngineMatches, EstimateOf, Selected, Activated, Trusted, ToGet, ToActivate,
        Registries.Run, NameOk;
      if version < 1 || version > MAX_VERSIONS || confirmation != Ascii("ACTIVATE ") + name {
        return Failed(InvalidRequest);
      }
      var candidate :- registry.Get(name, Some(version));
      CandidateActivates(candidate, version);
      if candidate.entry.programHash != programHash {
        return Failed(InvalidRequest);
      }
      var admitted := P.ValidateProgram(candidate.record.program, limits);
      if admitted.Err? || !EngineMatches(candidate.record.metadata) {
        return Failed(InvalidRequest);
      }
      r := registry.Activate(name, version, Some(programHash), Anything, false);
      if r.Done? {
        HeldIsTrusted(registry.store, r.value, limits, strings);
      }
    }

    /** Nothing stands in the way of activating a version the registry returned. */
    lemma CandidateActivates(c: Crystal, version: int)
      requires Valid() && Holds(registry.store, c) && ToGet(registry.store, c.name, Some(version)) == Done(c.entry)
      ensures ToActivate(registry.store, c.name, version, Some(c.entry.programHash), Anything, false) == Done(c.entry)
      ensures P.Admit(c.record.program, limits).Ok? && EngineMatches(c.record.metadata)
    {
      hide P.Admit, PassesTests, TestsPassed, EngineMatches, EstimateOf, Holds, AllTrusted, NameOk, ToActivate, Selected, ToGet, Registries.Run,
        Consistent;
      assert Consistent(registry.store) by {
        registry.ConsistentNow();
      }
      ToGetFacts(registry.store, c.name, Some(version));
      registry.ShapeNow(c.name);
      SelectedState(registry.store.aliases[c.name], Some(version), c.entry, registry.store.records);
      HeldIsTrusted(registry.store, c, limits, strings);
      TrustedActivates(registry.store, c, limits, strings);
    }

    /**
     * `retire`: version 0 means the active one.  The call may fail after the
     * retirement, when no summary can be made.
     */
    method Retire(name: Text, version: int, confirmation: Text) returns (r: Reply<Crystal>)
      requires Valid()
      modifies registry
      ensures Valid() && old(registry.history) <= registry.history
      ensures registry.store == old(registry.store).(aliases := registry.store.aliases, catalog := registry.store.catalog)
      ensures if 0 <= version <= MAX_VERSIONS && confirmation == name && ToWithdraw(old(registry.store), name, version).Done? then
                || (r == Failed(StorageFailed) && registry.failures > old(registry.failures) && registry.store == old(registry.store))
                || (Withdrew(old(registry.store), registry.store, name, version)
                    && (r.Failed? ==>
                          || (r.error.StorageFailed? && registry.failures > old(registry.failures))
                          || (r.error.InvalidRequest? && CatalogFull(old(registry.store).catalog, name))
                          || (r.error.Corrupt? && !SumsFit(registry.store))))
              else r.Failed? && registry.store == old(registry.store)
      ensures r.Done? ==>
                && Holds(registry.store, r.value) && r.value.name == name && r.value.entry.state.Retired?
                && ToWithdraw(old(registry.store), name, version).Done?
                && r.value.entry.version == ToWithdraw(old(registry.store), name, version).value.version
    {
      hide Holds, AllTrusted, Withdrawn, Registries.Run, NameOk, P.Admit, AliasGood, ToGet, ToRetire, Selected, CatalogFull, SumsFit;
      if version < 0 || version > MAX_VERSIONS || confirmation != name {
        return Failed(InvalidRequest);
      }
      var selected := version;
      if selected == 0 {
        var target :- registry.Get(name, None);
        selected := target.entry.version;
        WithdrawsActive(target);
      }
      r := Withdraw(name, version, selected);
    }

    /** The retirement and its summary. */
    method Withdraw(name: Text, version: int, selected: int) returns (r: Reply<Crystal>)
      requires Valid() && 0 <= version
      requires ToRetire(registry.store, name, Some(selected)) == ToWithdraw(registry.store, name, version)
      modifies registry
      ensures Valid() && old(registry.history) <= registry.history
      ensures registry.store == old(registry.store).(aliases := registry.store.aliases, catalog := registry.store.catalog)
      ensures if ToWithdraw(old(registry.store), name, version).Done? then
                || (r == Failed(StorageFailed) && registry.failures > old(registry.failures) && registry.store == old(registry.store))
                || (Withdrew(old(registry.store), registry.store, name, version)
                    && (r.Failed? ==>
                          || (r.error.StorageFailed? && registry.failures > old(registry.failures))
                          || (r.error.InvalidRequest? && CatalogFull(old(registry.store).catalog, name))
                          || (r.error.Corrupt? && !SumsFit(registry.store))))
              else r.Failed? && registry.store == old(registry.store)
      ensures r.Done? ==>
                && Holds(registry.store, r.value) && r.value.name == name && r.value.entry.state.Retired?
                && ToWithdraw(old(registry.store), name, version).Done?
                && r.value.entry.version == ToWithdraw(old(registry.store), name, version).value.version
    {
      hide AllTrusted, Withdrawn, Registries.Run, NameOk, P.Admit, AliasGood, CatalogFull, SumsFit;
      r := registry.Retire(name, Some(selected));
      if r.Done? {
        var summary := registry.SummaryFor(name);
        if summary.Failed? {
          r := Failed(summary.error);
        }
      }
    }

    /** The active version, named by its number, is the one retired. */
    lemma WithdrawsActive(c: Crystal)
      requires Valid() && ToGet(registry.store, c.name, None) == Done(c.entry)
      ensures ToRetire(registry.store, c.name, Some(c.entry.version)) == Done(c.entry)
    {
      hide AllTrusted, Registries.Run, NameOk, P.Admit, AliasGood;
      registry.ShapeNow(c.name);
    }
  }

  /** The version `retire` withdraws, or why it does not. */
  function ToWithdraw(s: Store, name: Text, version: int): Reply<Entry> {
    if version == 0 then ToGet(s, name, None) else ToRetire(s, name, Some(version))
  }

  /** The alias has that version retired. */
  predicate Withdrew(s: Store, t: Store, name: Text, version: int) {
    ToWithdraw(s, name, version).Done? &&
    var v := ToWithdraw(s, name, version).value.version;
    name in s.aliases && 1 <= v <= |s.aliases[name].versions| && t.aliases == s.aliases[name := Withdrawn(s.aliases[name], v)]
  }

  /** A registration that failed left the versions as they were, or added the draft. */
  lemma FailedView(s: Store, t: Store, name: Text, program: Json, prepared: Reply<Submission>)
    requires Consistent(s) && Grows(s, t)
    requires t.aliases == s.aliases || Appends(s, t, name, prepared)
    requires prepared.Done? ==> prepared.value.program == Normalize(program)
    ensures OnlyName(s.aliases, t.aliases, name)
    ensures t.aliases == s.aliases ==> View(t, name) == View(s, name)
    ensures Appends(s, t, name, prepared) ==> View(t, name) == View(s, name) + [Seen(Normalize(program), Draft)]
  {
    hide Consistent, Grows, View, NewRecord, Appended, Normalize, RecordJson, ContentHash;
    if t.aliases == s.aliases {
      SameView(s, t, name);
    }
    if Appends(s, t, name, prepared) {
      NewRecordFields(BaseOf(s, name), prepared.value);
      AppendedView(s, t, name, NewRecord(BaseOf(s, name), prepared.value));
    }
  }

  lemma ToGetFacts(s: Store, name: Text, version: Option<int>)
    ensures ToGet(s, name, version).Done? ==>
              NameOk(name) && name in s.aliases && Selected(s.aliases[name], version, version.None?) == ToGet(s, name, version)
    ensures ToGet(s, name, version) == Failed(NotFound) ==> NameOk(name)
  {
    hide NameOk;
  }

  lemma StoredName(a: Alias, name: Text, records: map<Text, Record>)
    requires AliasGood(a, name, records)
    ensures NameOk(name)
  {
    hide NameOk, DescriptionOk, Backed;
  }

  lemma HeldProgram(s: Store, c: Crystal)
    requires Holds(s, c)
    ensures ProgramOf(s.records, c.entry) == c.record.program
  {
  }

  /** What an explicit or an absent version selects, and in which state. */
  lemma SelectedState(a: Alias, version: Option<int>, e: Entry, records: map<Text, Record>)
    requires AliasGood(a, a.name, records) && Selected(a, version, version.None?) == Done(e)
    ensures version.None? ==> e.state.Active?
    ensures version.Some? ==> e.version == version.value
  {
    hide NameOk, DescriptionOk, Backed;
    GoodAliasShape(a, a.name, records);
  }
}
