/**
 * The progressive service over its storage: every method is one critical
 * section or one administrative call, and moves the protocol of its task by the
 * steps it takes.
 */
module Progressive {
  import opened Texts
  import opened Json
  import opened Limits
  import opened Cells
  import opened Registries
  import opened RegistryRuns
  import opened Services
  import opened ServiceRuns
  import opened Views
  import opened LearnerRuns
  import Operators
  import Learning
  import LP = LearnerProtocol
  import Canonical
  import P = Programs

  /** How one observation ended. */
  datatype Lesson = CandidatePresent | StorageError | Learned(status: Learning.Status)

  /** How one build ended. */
  datatype Build = BuilderFailed | Blocked | ValidationFailed | Created(crystal: Crystal)

  /** What a call answers. */
  datatype Response =
    | Invalid
    | WarmHit(execution: Execution)
    | ColdFailed
    | Cold(output: Json, lesson: Option<Lesson>, build: Option<Build>)

  function TaskDescription(name: Text): Text {
    Ascii("Progressively learned deterministic task ") + name + Ascii(".")
  }

  class ProgressiveService {
    const service: CrystalService
    const settings: Learning.Settings
    const maxInputBytes: nat
    const maxOutputBytes: nat
    const estimate: nat

    /** The learning records, and the tasks with a build reserved in this process. */
    var memories: map<Text, Learning.Memory>
    var building: set<Text>

    /** How many writes of learning records the storage refused. */
    ghost var failures: nat

    /** Where the protocol of each task stands. */
    ghost var tasks: map<Text, LP.Sys>

    function MemoryAt(name: Text): Learning.Memory
      reads this
    {
      if name in memories then memories[name] else Learning.EMPTY
    }

    ghost function TaskAt(name: Text): LP.Sys
      reads this
    {
      if name in tasks then tasks[name] else LP.START
    }

    ghost function World(): LP.World {
      WorldOf(service.limits, service.strings, settings)
    }

    ghost predicate Linked(name: Text)
      reads this, service.registry
    {
      Link(TaskAt(name), MemoryAt(name), name in building, View(service.registry.store, name), World())
    }

    ghost predicate Valid()
      reads this, service.registry
    {
      && Learning.SettingsOk(settings)
      && maxInputBytes <= MAX_STORED_BYTES && maxOutputBytes <= MAX_STORED_BYTES
      && service.Valid()
      && forall name: Text :: Linked(name)
    }

    constructor (limits: Limits, strings: Operators.Strings, settings: Learning.Settings, maxInputBytes: nat, maxOutputBytes: nat,
                 estimate: nat)
      requires Learning.SettingsOk(settings) && maxInputBytes <= MAX_STORED_BYTES && maxOutputBytes <= MAX_STORED_BYTES
      ensures Valid() && fresh(service) && fresh(service.registry)
      ensures memories == map[] && building == {} && service.registry.store == EMPTY
    {
      this.service := new CrystalService(limits, strings);
      this.settings := settings;
      this.maxInputBytes, this.maxOutputBytes := maxInputBytes, maxOutputBytes;
      this.estimate := estimate;
      memories, building, tasks, failures := map[], {}, map[], 0;
      new;
      hide Link;
      StartLinks(World());
      assert forall name: Text :: View(EMPTY, name) == [];
    }

    // ----- reading -----

    /** `_load_state`: no cell reads as the empty record. */
    method LoadMemory(name: Text) returns (r: Option<Learning.Memory>)
      requires Linked(name)
      ensures r == Some(MemoryAt(name))
    {
      hide Learning.MemoryOk, LP.LocksOk, LP.PhasesOk, LP.VersionOk;
      if name !in memories {
        return Some(Learning.EMPTY);
      }
      var ok := Learning.ValidateMemory(memories[name]);
      if !ok {
        return None;
      }
      r := Some(memories[name]);
    }

    /** `_write_state`: validated first, and the store may still refuse. */
    method WriteMemory(name: Text, m: Learning.Memory) returns (written: bool)
      modifies this`memories, this`failures
      ensures written <==> Learning.MemoryOk(m) && failures == old(failures)
      ensures failures >= old(failures)
      ensures memories == if written then old(memories)[name := m] else old(memories)
    {
      hide Learning.MemoryOk;
      written := Learning.ValidateMemory(m);
      if written {
        written := *;
        if written {
          memories := memories[name := m];
        } else {
          failures := failures + 1;
        }
      }
    }

    // ----- critical sections -----

    /** `_quarantine`: the in-place change and its write. */
    method Quarantine(name: Text, m: Learning.Memory, cause: Learning.Cause) returns (written: bool, next: Learning.Memory)
      modifies this`memories, this`failures
      ensures next == Learning.Quarantine(m, cause)
      ensures written <==> Learning.MemoryOk(next) && failures == old(failures)
      ensures failures >= old(failures)
      ensures memories == if written then old(memories)[name := next] else old(memories)
    {
      next := m.(quarantined := true, cause := cause);
      next := next.(conflicts := next.conflicts + 1);
      next := next.(revision := next.revision + 1);
      written := WriteMemory(name, next);
    }

    /** The body of `_learn` under the lock, once no candidate exists. */
    method LearnLocked(name: Text, m: Learning.Memory, input: Json, output: Json) returns (lesson: Lesson, written: bool)
      modifies this`memories, this`building, this`failures
      ensures failures >= old(failures)
      ensures var p := Learning.Decide(m, input, output, name in old(building), settings);
              && (written <==> p.Write? && Learning.MemoryOk(p.memory) && failures == old(failures))
              && memories == (if written then old(memories)[name := p.memory] else old(memories))
              && building == (if written && p.status.BuildReserved? then old(building) + {name} else old(building))
              && lesson == (if p.Write? && !written then StorageError else Learned(p.status))
    {
      hide Learning.MemoryOk, Canonical.Render, ContentHash, Learning.FindExample;
      written := false;
      if m.quarantined {
        return Learned(Learning.Quarantined), false;
      }
      var made := Learning.MakeExample(input, output, settings);
      if made.None? {
        return Learned(Learning.ExampleTooLarge), false;
      }
      var example := made.value;
      var existing := Learning.FindExample(m.examples, example.inputHash);
      if existing.Some? {
        var e := existing.value;
        if Canonical.Render(e.input) != Canonical.Render(example.input) {
          var next;
          written, next := Quarantine(name, m, Learning.InputHashCollision);
          return if written then Learned(Learning.Quarantined) else StorageError, written;
        }
        if e.outputHash != example.outputHash || Canonical.Render(e.output) != Canonical.Render(example.output) {
          var next;
          written, next := Quarantine(name, m, Learning.OutputConflict);
          return if written then Learned(Learning.Quarantined) else StorageError, written;
        }
        return Learned(Learning.Duplicate), false;
      }
      if |m.examples| >= settings.maxExamples {
        return Learned(Learning.CapacityReached), false;
      }
      var next := m.(examples := m.examples + [example], revision := m.revision + 1);
      var count, status := |next.examples|, Learning.BuildReserved;
      if count < settings.minExamples {
        status := Learning.Observed;
      } else if !settings.hasBuilder {
        status := Learning.BuilderUnavailable;
      } else if name in building {
        status := Learning.BuildInProgress;
      } else if next.lastBuild >= count {
        status := Learning.BuildDeferred;
      } else {
        next := next.(lastBuild := count, attempts := next.attempts + 1);
      }
      written := WriteMemory(name, next);
      if !written {
        return StorageError, false;
      }
      if status.BuildReserved? {
        building := building + {name};
      }
      lesson := Learned(status);
    }

    /**
     * The first critical section: nothing is learned beside a candidate, and a
     * build is reserved for at most one thread.
     */
    method Observe(t: LP.Thread, name: Text, input: Json, output: Json) returns (lesson: Lesson, tests: Option<seq<Case>>)
      requires Valid() && LP.PhaseOf(TaskAt(name), t).Idle? && IsSnapshot(input) && IsSnapshot(output)
      modifies this
      ensures Valid()
      ensures lesson.CandidatePresent? <==> HasCandidate(View(service.registry.store, name))
      ensures lesson.CandidatePresent? ==> memories == old(memories) && building == old(building)
      ensures lesson.Learned? ==>
                var p := Learning.Decide(old(MemoryAt(name)), input, output, name in old(building), settings);
                && lesson.status == p.status && !p.status.BuildDeferred?
                && memories == (if p.Write? then old(memories)[name := p.memory] else old(memories))
      ensures lesson.StorageError? ==> memories == old(memories) && building == old(building)
      ensures lesson.StorageError? ==> failures > old(failures) || Learning.CountersFull(old(MemoryAt(name)))
      ensures tests.Some? <==> lesson == Learned(Learning.BuildReserved)
      ensures building == if tests.Some? then old(building) + {name} else old(building)
      ensures tests.Some? ==> name !in old(building) && tests.value == TestsFrom(MemoryAt(name).examples)
      ensures LP.PhaseOf(TaskAt(name), t) == if tests.Some? then LP.Building else LP.Idle
    {
      hide Link, HasCandidate, View, Learning.Decide, IsSnapshot, LP.Inv, Learning.MemoryOk, AllTrusted, WorldOf, Run;
      var found := CandidateExists(service.registry, name);
      if found {
        return CandidatePresent, None;
      }
      lesson := Learn(t, name, input, output);
      tests := if lesson == Learned(Learning.BuildReserved) then Some(TestsFrom(MemoryAt(name).examples)) else None;
    }

    /** Learning where no candidate exists, with the protocol's two steps. */
    method Learn(t: LP.Thread, name: Text, input: Json, output: Json) returns (lesson: Lesson)
      requires Valid() && LP.PhaseOf(TaskAt(name), t).Idle? && IsSnapshot(input) && IsSnapshot(output)
      requires !HasCandidate(View(service.registry.store, name))
      modifies this
      ensures Valid()
      ensures lesson.Learned? ==>
                var p := Learning.Decide(old(MemoryAt(name)), input, output, name in old(building), settings);
                && lesson.status == p.status && !p.status.BuildDeferred?
                && memories == (if p.Write? then old(memories)[name := p.memory] else old(memories))
      ensures lesson.StorageError? ==> memories == old(memories) && building == old(building)
      ensures lesson.StorageError? ==> failures > old(failures) || Learning.CountersFull(old(MemoryAt(name)))
      ensures !lesson.CandidatePresent?
      ensures building == if lesson == Learned(Learning.BuildReserved) then old(building) + {name} else old(building)
      ensures lesson == Learned(Learning.BuildReserved) ==> name !in old(building)
      ensures LP.PhaseOf(TaskAt(name), t) == if lesson == Learned(Learning.BuildReserved) then LP.Building else LP.Idle
    {
      hide Link, HasCandidate, View, Learning.Decide, IsSnapshot, LP.Inv, Observed, Learning.MemoryOk, AllTrusted, WorldOf, Run,
        Learning.CursorsOk;
      assert Linked(name);
      ghost var task, m, view, w := TaskAt(name), MemoryAt(name), View(service.registry.store, name), World();
      WorldSettings(service.limits, service.strings, settings);
      var loaded := LoadMemory(name);
      if loaded.None? {
        return StorageError;
      }
      LinkFacts(task, m, name in building, view, w);
      Learning.DecideExtends(m, input, output, name in building, settings);
      if !Learning.CountersFull(m) {
        Learning.DecideIsStorable(m, input, output, name in building, settings);
      }
      var written;
      lesson, written := LearnLocked(name, loaded.value, input, output);
      ObservedLinks(task, m, name in old(building), view, w, t, input, output, written);
      tasks := tasks[name := Observed(task, t, input, output, written, w)];
      Relink(name);
    }

    /**
     * The section after the builder returned: the checks are made again, and a
     * program is registered only against everything retained by then.
     */
    method Settle(t: LP.Thread, name: Text, program: Option<Json>) returns (r: Build)
      requires Valid() && LP.PhaseOf(TaskAt(name), t).Building? && (program.Some? ==> IsSnapshot(program.value))
      modifies this`tasks, service.registry
      ensures Valid()
      ensures LP.PhaseOf(TaskAt(name), t).Releasing?
      ensures r.BuilderFailed? <==> program.None?
      ensures r.Blocked? <==> program.Some? && (HasCandidate(View(old(service.registry.store), name)) || MemoryAt(name).quarantined)
      ensures View(service.registry.store, name) != View(old(service.registry.store), name) ==>
                && program.Some? && !HasCandidate(View(old(service.registry.store), name)) && !MemoryAt(name).quarantined
                && LP.Reproduces(World(), program.value, MemoryAt(name).examples)
      ensures r.ValidationFailed? ==>
                program.Some? && Unfit(old(service.registry.store), name, program.value, old(service.registry.failures))
      ensures r.Created? ==>
                && View(service.registry.store, name)
                   == View(old(service.registry.store), name) + [Seen(program.value, if settings.autoActivate then Active else Draft)]
                && Holds(service.registry.store, r.crystal) && r.crystal.record.program == program.value
    {
      hide Link, HasCandidate, View, IsSnapshot, LP.Inv, Rechecked, Learning.MemoryOk, AllTrusted, WorldOf, Run, Holds, LP.Reproduces,
        Learning.CursorsOk, Snapshots, Shows;
      assert Linked(name);
      ghost var task, m, view, w := TaskAt(name), MemoryAt(name), View(service.registry.store, name), World();
      WorldSettings(service.limits, service.strings, settings);
      LinkFacts(task, m, name in building, view, w);
      RecheckedLinks(task, m, name in building, view, w, t, program);
      ghost var checked := Rechecked(task, t, program, w);
      LinkSnapshots(task, m, name in building, view, w);
      if program.None? {
        tasks := tasks[name := checked];
        StoppedLinks(checked, m, name in building, view, w);
        Relink(name);
        return BuilderFailed;
      }
      var found := CandidateExists(service.registry, name);
      var loaded := LoadMemory(name);
      if found || loaded.None? || loaded.value.quarantined {
        tasks := tasks[name := checked];
        StoppedLinks(checked, m, name in building, view, w);
        Relink(name);
        return Blocked;
      }
      r := RegisterChecked(t, name, program.value, loaded.value, checked);
    }

    /**
     * Why a proposed program was not stored: it is not a well-formed program, it
     * contradicts a retained example, the registry takes no more versions, or a
     * write failed.
     */
    ghost predicate Unfit(before: Store, name: Text, program: Json, failed: nat)
      reads this, service.registry
    {
      var cases, about := TestsFrom(MemoryAt(name).examples), TaskDescription(name);
      || !Acceptable(about, program, CasesJson(cases), estimate, service.limits, service.strings)
      || !LP.Reproduces(World(), program, MemoryAt(name).examples)
      || Unstorable(before, name, service.strings.strip(about), program, cases, estimate)
      || service.registry.failures > failed
    }

    /** The crystallization under the lock, and the protocol's registration. */
    method RegisterChecked(t: LP.Thread, name: Text, program: Json, m: Learning.Memory, ghost checked: LP.Sys) returns (r: Build)
      requires Valid() && m == MemoryAt(name) && !m.quarantined && Snapshots(m.examples) && IsSnapshot(program)
      requires !HasCandidate(View(service.registry.store, name))
      requires LP.Inv(checked, World()) && checked.memory == m && checked.building == (name in building)
      requires LP.PhaseOf(checked, t) == LP.Checking(program) && !LP.CandidateExists(checked.versions)
      requires Shows(checked.versions, View(service.registry.store, name))
      modifies this`tasks, service.registry
      ensures Valid()
      ensures LP.PhaseOf(TaskAt(name), t).Releasing?
      ensures r.Created? || r.ValidationFailed?
      ensures r.ValidationFailed? ==> Unfit(old(service.registry.store), name, program, old(service.registry.failures))
      ensures View(service.registry.store, name) != View(old(service.registry.store), name) ==>
                LP.Reproduces(World(), program, m.examples)
      ensures r.Created? ==>
                && View(service.registry.store, name)
                   == View(old(service.registry.store), name) + [Seen(program, if settings.autoActivate then Active else Draft)]
                && Holds(service.registry.store, r.crystal) && r.crystal.record.program == program
    {
      hide Link, HasCandidate, View, LP.Inv, Learning.MemoryOk, AllTrusted, Trusted, WorldOf, Run, Holds, LP.Reproduces, Snapshots, Shows,
        Settled, CasesOf, PassesCases, BreaksCases, Consistent, Grows, Acceptable, Unstorable, CatalogFull,
        TaskDescription;
      ghost var view, w := View(service.registry.store, name), World();
      WorldSettings(service.limits, service.strings, settings);
      ghost var before := service.registry.store;
      service.registry.ConsistentNow();
      TestsWellFormed(m.examples);
      var tests := CasesJson(TestsFrom(m.examples));
      var created := service.Crystallize(name, TaskDescription(name), program, tests,
                                         settings.autoActivate, estimate);
      service.registry.GrownSince(old(service.registry.history));
      ghost var after := View(service.registry.store, name);
      AddedCases(view, after, program, settings.autoActivate, CatalogFull(before.catalog, name), created);
      PassingIsReproducing(program, m.examples, service.limits, service.strings, settings);
      if CasesOf(tests).Some? {
        TestsGiven(m.examples);
        BreakingIsNotPassing(program, TestsFrom(m.examples), service.limits, service.strings);
      }
      AcceptableCases(TaskDescription(name), program, tests, estimate, service.limits, service.strings);
      SettledLinks(checked, t, view, after, w);
      tasks := tasks[name := Settled(checked, t, after != view, after != view && after[|view|].state.Active?, w)];
      OtherViews(before, service.registry.store, name);
      Relink(name);
      r := if created.Crystallized? then Created(created.crystal) else ValidationFailed;
    }

    /** The `finally` that gives the reservation back. */
    method Release(t: LP.Thread, name: Text)
      requires Valid() && LP.PhaseOf(TaskAt(name), t).Releasing?
      modifies this`tasks, this`building
      ensures Valid()
      ensures building == old(building) - {name}
      ensures LP.PhaseOf(TaskAt(name), t).Idle?
    {
      hide Link, View, LP.Inv, AllTrusted, WorldOf, Run, Learning.MemoryOk, Learning.CursorsOk;
      assert Linked(name);
      ghost var task, m, view, w := TaskAt(name), MemoryAt(name), View(service.registry.store, name), World();
      WorldSettings(service.limits, service.strings, settings);
      LinkFacts(task, m, name in building, view, w);
      ReleasedLinks(task, m, name in building, view, w, t);
      building := building - {name};
      tasks := tasks[name := LP.After(task, LP.Release(t), w)];
      Relink(name);
    }

    // ----- administration -----

    /** Retiring a version, at any time; the call may fail after the version was retired. */
    method Retire(name: Text, version: int, confirmation: Text) returns (r: Reply<Crystal>)
      requires Valid()
      modifies this`tasks, service.registry
      ensures Valid()
      ensures View(service.registry.store, name) == View(old(service.registry.store), name)
              || (ToWithdraw(old(service.registry.store), name, version).Done?
                  && WithdrawnFrom(View(old(service.registry.store), name), View(service.registry.store, name),
                                   ToWithdraw(old(service.registry.store), name, version).value.version))
      ensures r.Done? ==>
                WithdrawnFrom(View(old(service.registry.store), name), View(service.registry.store, name), r.value.entry.version)
      ensures if 0 <= version <= MAX_VERSIONS && confirmation == name && ToWithdraw(old(service.registry.store), name, version).Done?
              then r.Failed? ==> service.registry.failures > old(service.registry.failures)
                                 || CatalogFull(old(service.registry.store).catalog, name) || !SumsFit(service.registry.store)
              else r.Failed?
    {
      hide Link, LP.Inv, AllTrusted, WorldOf, Run, Learning.MemoryOk, Learning.CursorsOk, Holds, Withdrawn, Consistent, Grows, Shows,
        CatalogFull, SumsFit, ToWithdraw, View, Withdrew, WithdrawnFrom, LP.After;
      assert Linked(name);
      ghost var task, m, view, w := TaskAt(name), MemoryAt(name), View(service.registry.store, name), World();
      WorldSettings(service.limits, service.strings, settings);
      ghost var before := service.registry.store;
      service.registry.ConsistentNow();
      r := service.Retire(name, version, confirmation);
      service.registry.GrownSince(old(service.registry.history));
      if Withdrew(before, service.registry.store, name, version) {
        WithdrawalLinks(task, m, name in building, before, service.registry.store, name, version, w);
        tasks := tasks[name := WithdrawnTask(task, before, name, version, w)];
        OtherViews(before, service.registry.store, name);
      } else {
        SameViews(before, service.registry.store);
      }
      Relink(name);
    }

    /** Whether activating this version keeps the task's evidence safe: it is not retired, or nothing was learned since it was registered. */
    ghost predicate Activatable(name: Text, version: int)
      reads this
    {
      1 <= version <= |TaskAt(name).versions| && TaskAt(name).versions[version - 1].state.Retired? ==>
        TaskAt(name).versions[version - 1].evidence == MemoryAt(name).examples && !MemoryAt(name).quarantined
    }

    /** Activating any version, at any time; the learner's invariant survives exactly what the protocol can follow. */
    method Activate(name: Text, version: int, programHash: Text, confirmation: Text) returns (r: Reply<Crystal>)
      requires Valid()
      modifies this`tasks, service.registry
      ensures service.Valid()
      ensures r.Failed? || old(Activatable(name, version)) ==> Valid()
      ensures r.Done? ==>
                && 1 <= version <= |View(old(service.registry.store), name)|
                && View(service.registry.store, name) == Promoted(View(old(service.registry.store), name), version - 1)
      ensures r.Failed? ==> service.registry.store == old(service.registry.store)
      ensures var choice := ToGet(old(service.registry.store), name, Some(version));
              if 1 <= version <= MAX_VERSIONS && confirmation == Ascii("ACTIVATE ") + name && choice.Done? && choice.value.programHash == programHash
              then r.Done? || service.registry.failures > old(service.registry.failures) else r.Failed?
    {
      hide Link, LP.Inv, AllTrusted, WorldOf, Run, Learning.MemoryOk, Learning.CursorsOk, Holds, Activated, Consistent, Grows, Shows,
        Promoted, Trusted;
      assert Linked(name);
      ghost var task, m, view, w := TaskAt(name), MemoryAt(name), View(service.registry.store, name), World();
      WorldSettings(service.limits, service.strings, settings);
      ghost var before := service.registry.store;
      service.registry.ConsistentNow();
      r := service.Activate(name, version, programHash, confirmation);
      service.registry.GrownSince(old(service.registry.history));
      if r.Done? {
        ActivatedView(before, service.registry.store, name, version);
        LinkLength(task, m, name in building, view, w);
        OtherViews(before, service.registry.store, name);
        if old(Activatable(name, version)) {
          LinkRevivable(task, m, name in building, view, w, version - 1);
          ActivatedLinks(task, m, name in building, view, w, version - 1);
          tasks := tasks[name := LP.After(task, LP.ActivateVersion(version - 1), w)];
          Relink(name);
        }
      } else {
        Relink(name);
      }
    }

    // ----- a call -----

    /** The warm attempt: learning is untouched, and a hit comes from an active version that answers as all examples say. */
    method Attempt(name: Text, inputs: Json) returns (r: Execution)
      requires Valid() && WellFormed(inputs)
      modifies service.registry
      ensures Valid()
      ensures Answers(r, VerdictOn(old(service.registry.store), name, inputs, 0, service.limits, service.strings))
      ensures View(service.registry.store, name) == View(old(service.registry.store), name)
      ensures r.Hit? ==>
                && r.crystal.entry.state.Active?
                && P.Run(r.crystal.record.program, inputs, service.limits, service.strings) == Ok(r.output)
                && LP.Reproduces(World(), r.crystal.record.program, MemoryAt(name).examples)
                && !MemoryAt(name).quarantined
    {
      hide Link, LP.Inv, AllTrusted, WorldOf, Run, Learning.MemoryOk, Learning.CursorsOk, Holds, Consistent, Grows, P.Run, Trusted,
        LP.Reproduces, WellFormed, View, Canonical.Render, Receipt;
      assert Linked(name);
      ghost var task, m, view, w := TaskAt(name), MemoryAt(name), View(service.registry.store, name), World();
      ghost var before := service.registry.store;
      r := service.Execute(name, inputs, 0);
      SameViews(before, service.registry.store);
      Relink(name);
      if r.Hit? {
        HeldSeen(before, r.crystal);
        LinkedVersionsReproduce(task, m, name in building, view, w, r.crystal.entry.version - 1);
      }
    }

    /**
     * `run`, for one thread with nothing in between: the crystal first, then the
     * fallback's answer, then learning if the caller asked for it.
     */
    method Serve(t: LP.Thread, name: Text, inputs: Json, learn: bool, fallback: Option<Json>, proposal: Option<Json>)
      returns (r: Response)
      requires Valid() && LP.PhaseOf(TaskAt(name), t).Idle?
      requires WellFormed(inputs) && (fallback.Some? ==> WellFormed(fallback.value)) && (proposal.Some? ==> IsSnapshot(proposal.value))
      modifies this, service.registry
      ensures Valid() && LP.PhaseOf(TaskAt(name), t).Idle?
      ensures building == old(building)
      ensures !learn || !r.Cold? ==> memories == old(memories)
      ensures r.WarmHit? ==> r.execution.Hit? && LP.Reproduces(World(), r.execution.crystal.record.program, MemoryAt(name).examples)
      ensures var given := Snapshot(if inputs.Null? then Obj([]) else inputs, maxInputBytes);
              if !NameOk(name) || given.None? then r == Invalid
              else
                var verdict := VerdictOn(old(service.registry.store), name, given.value, 0, service.limits, service.strings);
                if verdict.MustHit? then r.WarmHit?
                else if fallback.None? || Snapshot(fallback.value, maxOutputBytes).None? then r == ColdFailed
                else
                  && r.Cold? && r.output == Normalize(fallback.value)
                  && (r.lesson.Some? <==> learn && !verdict.MustRefuse? && !verdict.MustBreak?)
    {
      hide Valid, LP.Reproduces, WellFormed, Normalize, Snapshot, IsSnapshot, Linked, World, TaskAt, Holds, Trusted, P.Run, View, VerdictOn, NameOk;
      SizesOk();
      var given := Snapshot(if inputs.Null? then Obj([]) else inputs, maxInputBytes);
      RegistryRuns.EmptyWellFormed();
      SnapshotIs(if inputs.Null? then Obj([]) else inputs, maxInputBytes);
      if !NameOk(name) || given.None? {
        return Invalid;
      }
      var attempt := Attempt(name, given.value);
      if attempt.Hit? {
        return WarmHit(attempt);
      }
      if fallback.None? {
        return ColdFailed;
      }
      var output := Snapshot(fallback.value, maxOutputBytes);
      SnapshotIs(fallback.value, maxOutputBytes);
      if output.None? {
        return ColdFailed;
      }
      if !learn || attempt.Refused? || attempt.RunBroke? {
        return Cold(output.value, None, None);
      }
      r := LearnFrom(t, name, given.value, output.value, proposal);
    }

    /** The learning path of one thread: observe, build if reserved, and give the reservation back. */
    method LearnFrom(t: LP.Thread, name: Text, input: Json, output: Json, proposal: Option<Json>) returns (r: Response)
      requires Valid() && LP.PhaseOf(TaskAt(name), t).Idle?
      requires IsSnapshot(input) && IsSnapshot(output) && (proposal.Some? ==> IsSnapshot(proposal.value))
      modifies this, service.registry
      ensures Valid() && LP.PhaseOf(TaskAt(name), t).Idle?
      ensures building == old(building)
      ensures r.Cold? && r.output == output && r.lesson.Some?
    {
      hide Valid, LP.Reproduces, IsSnapshot, Linked, World, Holds, View, HasCandidate, Learning.Decide, TestsFrom;
      var lesson, tests := Observe(t, name, input, output);
      if tests.None? {
        return Cold(output, Some(lesson), None);
      }
      var build := Settle(t, name, proposal);
      Release(t, name);
      r := Cold(output, Some(lesson), Some(build));
    }

    lemma SizesOk()
      requires Valid()
      ensures maxInputBytes <= MAX_STORED_BYTES && maxOutputBytes <= MAX_STORED_BYTES
    {
      hide Linked, AllTrusted, Run;
    }

    /** Only the given task moved, so every other one is linked as before. */
    twostate lemma Relink(name: Text)
      requires Learning.SettingsOk(settings) && service.Valid()
      requires maxInputBytes <= MAX_STORED_BYTES && maxOutputBytes <= MAX_STORED_BYTES
      requires old(Valid())
      requires Linked(name)
      requires forall other: Text :: other != name ==>
                 TaskAt(other) == old(TaskAt(other)) && MemoryAt(other) == old(MemoryAt(other)) && (other in building <==> other in old(building))
                 && View(service.registry.store, other) == old(View(service.registry.store, other))
      ensures Valid()
    {
      hide Link, View, AllTrusted, Run, WorldOf;
      forall other: Text ensures Linked(other) {
        assert old(Linked(other));
      }
    }
  }

  /** The versions with that one retired. */
  predicate WithdrawnFrom(before: seq<Seen>, after: seq<Seen>, version: int) {
    1 <= version <= |before| && after == before[version - 1 := before[version - 1].(state := Retired)]
  }

  /** The protocol's step for a version that was withdrawn. */
  ghost function WithdrawnTask(s: LP.Sys, before: Store, name: Text, version: int, w: LP.World): LP.Sys {
    var choice := ToWithdraw(before, name, version);
    if choice.Done? && 1 <= choice.value.version <= |s.versions| then LP.After(s, LP.RetireVersion(choice.value.version - 1), w) else s
  }

  lemma WithdrawalLinks(s: LP.Sys, m: Learning.Memory, building: bool, before: Store, after: Store, name: Text, version: int,
                        w: LP.World)
    requires Link(s, m, building, View(before, name), w) && Learning.SettingsOk(w.settings)
    requires Withdrew(before, after, name, version) && after.records == before.records
    ensures Link(WithdrawnTask(s, before, name, version, w), m, building, View(after, name), w)
    ensures ToWithdraw(before, name, version).Done?
            && WithdrawnFrom(View(before, name), View(after, name), ToWithdraw(before, name, version).value.version)
    ensures OnlyName(before.aliases, after.aliases, name)
  {
    hide Link, LP.After, ToWithdraw, Withdrawn;
    var v := ToWithdraw(before, name, version).value.version - 1;
    WithdrawnView(before, after, name, v + 1);
    LinkLength(s, m, building, View(before, name), w);
    RetiredLinks(s, m, building, View(before, name), w, v);
  }

  lemma WorldSettings(l: Limits, strings: Operators.Strings, c: Learning.Settings)
    ensures WorldOf(l, strings, c).settings == c
  {
    hide Answer;
  }

  lemma LinkFacts(s: LP.Sys, m: Learning.Memory, building: bool, view: seq<Seen>, w: LP.World)
    requires Link(s, m, building, view, w)
    ensures Learning.MemoryOk(m) && Learning.CursorsOk(m) && s.lock.None?
  {
  }

  lemma LinkSnapshots(s: LP.Sys, m: Learning.Memory, building: bool, view: seq<Seen>, w: LP.World)
    requires Link(s, m, building, view, w)
    ensures Snapshots(m.examples)
  {
  }

  lemma StoppedLinks(s: LP.Sys, m: Learning.Memory, building: bool, view: seq<Seen>, w: LP.World)
    requires LP.Inv(s, w) && s.lock.None? && s.memory == m && s.building == building && Snapshots(m.examples)
    requires Shows(s.versions, view)
    ensures Link(s, m, building, view, w)
  {
  }

  /** The tests made of snapshots are well-formed JSON. */
  lemma TestsWellFormed(examples: seq<Learning.Example>)
    requires Snapshots(examples)
    ensures WellFormed(CasesJson(TestsFrom(examples)))
  {
    hide WellFormed, CaseJson, IsSnapshot;
    var cases := TestsFrom(examples);
    forall i | 0 <= i < |cases| ensures WellFormed(CasesJson(cases).items[i]) {
      CaseAt(cases, i);
      assert IsSnapshot(examples[i].input) && IsSnapshot(examples[i].output);
      SnapshotCase(cases[i]);
    }
    ArrayWellFormed(CasesJson(cases).items);
    assert CasesJson(cases) == Arr(CasesJson(cases).items);
  }

  lemma SnapshotCase(c: Case)
    requires IsSnapshot(c.input) && IsSnapshot(c.expected)
    ensures WellFormed(CaseJson(c))
  {
    CaseKeysDiffer();
    assert WellFormed(Str(c.name));
  }

  lemma ArrayWellFormed(items: seq<Json>)
    requires forall i :: 0 <= i < |items| ==> WellFormed(items[i])
    ensures WellFormed(Arr(items))
  {
  }

  lemma AcceptableCases(about: Text, program: Json, tests: Json, estimate: int, l: Limits, strings: Operators.Strings)
    ensures Acceptable(about, program, tests, estimate, l, strings) ==> CasesOf(tests).Some?
  {
    hide CasesOf, P.Admit;
  }

  /** Tests that were accepted are the examples, and there is at least one. */
  lemma TestsGiven(examples: seq<Learning.Example>)
    requires CasesOf(CasesJson(TestsFrom(examples))).Some?
    ensures examples != [] && CasesOf(CasesJson(TestsFrom(examples))).value == TestsFrom(examples)
  {
    hide CasesFrom;
    TestsReadBack(examples);
  }

  lemma AddedCases(before: seq<Seen>, after: seq<Seen>, program: Json, activate: bool, full: bool, r: Outcome)
    requires Added(before, after, program, activate, full, r) && Normalize(program) == program
    ensures after == before || after == before + [Seen(program, Draft)] || (activate && after == before + [Seen(program, Active)])
    ensures r.Crystallized? ==> after == before + [Seen(program, if activate then Active else Draft)] && after != before
  {
    hide Normalize;
  }

  lemma OtherViews(s: Store, t: Store, name: Text)
    requires Consistent(s) && Grows(s, t) && OnlyName(s.aliases, t.aliases, name)
    ensures forall other: Text :: other != name ==> View(t, other) == View(s, other)
  {
    hide Consistent, Grows, View;
    forall other: Text | other != name ensures View(t, other) == View(s, other) {
      OtherView(s, t, name, other);
    }
  }

  lemma LinkLength(s: LP.Sys, m: Learning.Memory, building: bool, view: seq<Seen>, w: LP.World)
    requires Link(s, m, building, view, w)
    ensures |s.versions| == |view| && forall v :: 0 <= v < |view| ==> s.versions[v].state == view[v].state
  {
  }

  lemma LinkRevivable(s: LP.Sys, m: Learning.Memory, building: bool, view: seq<Seen>, w: LP.World, v: nat)
    requires Link(s, m, building, view, w) && v < |s.versions|
    ensures LP.Revivable(s, v) <==> s.versions[v].evidence == m.examples && !m.quarantined
  {
  }

  lemma SameViews(s: Store, t: Store)
    requires t == s.(telemetry := t.telemetry, catalog := t.catalog)
    ensures forall name: Text :: View(t, name) == View(s, name)
  {
  }

  lemma HeldSeen(s: Store, c: Crystal)
    requires Holds(s, c)
    ensures 1 <= c.entry.version <= |View(s, c.name)|
    ensures View(s, c.name)[c.entry.version - 1] == Seen(c.record.program, c.entry.state)
  {
  }

  lemma SnapshotIs(v: Json, maxBytes: nat)
    requires WellFormed(v) && maxBytes <= MAX_STORED_BYTES
    ensures Snapshot(v, maxBytes).Some? ==> Snapshot(v, maxBytes).value == Normalize(v) && IsSnapshot(Snapshot(v, maxBytes).value)
    ensures Snapshot(v, maxBytes).Some? ==> WellFormed(Snapshot(v, maxBytes).value)
  {
    hide Snapshot, WellFormed, Normalize, ContentHash, Canonical.Clean;
    SnapshotSorts(v, maxBytes);
  }
}
