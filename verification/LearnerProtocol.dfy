/**
 * Progressive learning of one task as a protocol of many threads: a learner
 * observes under the process lock, builds outside it, and checks again and
 * registers under it, while administrators retire and activate versions at any
 * time.  Each storage write is a step of its own and may fail.
 */
module LearnerProtocol {
  import opened Texts
  import opened Json
  import opened Cells
  import opened Learning

  type Thread = nat

  /** Where a learner thread stands between its atomic steps. */
  datatype Phase =
    | Idle
    | Observing
    | Building
    | Proposed(program: Json)
    | Checking(candidate: Json)
    | Registered(version: nat)
    | Releasing

  /** A registered program, and the examples it was checked against. */
  datatype Version = Version(program: Json, state: Lifecycle, evidence: seq<Example>)

  datatype Sys = Sys(memory: Memory, versions: seq<Version>, building: bool, lock: Option<Thread>, phases: map<Thread, Phase>)

  /** The learner's settings, and what a program's canonical output on an input is, if it runs. */
  datatype World = World(settings: Settings, run: (Json, Json) -> Option<Text>)

  const START := Sys(Learning.EMPTY, [], false, None, map[])

  function PhaseOf(s: Sys, t: Thread): Phase {
    if t in s.phases then s.phases[t] else Idle
  }

  predicate CandidateExists(versions: seq<Version>) {
    exists v :: 0 <= v < |versions| && !versions[v].state.Retired?
  }

  /** The program maps every example's input to its output. */
  predicate Reproduces(w: World, program: Json, examples: seq<Example>) {
    forall i :: 0 <= i < |examples| ==> w.run(program, examples[i].input) == Some(ContentHash(examples[i].output))
  }

  // ----- steps -----

  datatype Step =
    | BeginObservation(t: Thread)
    | EndObservation(t: Thread, input: Json, output: Json, written: bool)
    | BuilderReturns(t: Thread, program: Option<Json>)
    | BeginCheck(t: Thread, readable: bool)
    | Register(t: Thread, written: bool)
    | ActivateNew(t: Thread, written: bool)
    | Release(t: Thread)
    | RetireVersion(version: nat)
    | ActivateVersion(version: nat)

  /** Nothing has been learned since the retired version was registered, and no learner is in a critical section. */
  predicate Revivable(s: Sys, v: nat)
    requires v < |s.versions|
  {
    s.versions[v].evidence == s.memory.examples && !s.memory.quarantined && s.lock.None?
  }

  predicate Enabled(s: Sys, a: Step) {
    match a
    case BeginObservation(t) => PhaseOf(s, t).Idle? && s.lock.None?
    case EndObservation(t, _, _, _) => PhaseOf(s, t).Observing?
    case BuilderReturns(t, _) => PhaseOf(s, t).Building?
    case BeginCheck(t, _) => PhaseOf(s, t).Proposed? && s.lock.None?
    case Register(t, _) => PhaseOf(s, t).Checking?
    case ActivateNew(t, _) => PhaseOf(s, t).Registered?
    case Release(t) => PhaseOf(s, t).Releasing? && s.lock.None?
    case RetireVersion(v) => v < |s.versions|
    case ActivateVersion(v) => v < |s.versions| && (s.versions[v].state.Retired? ==> Revivable(s, v))
  }

  function Move(s: Sys, t: Thread, p: Phase, lock: Option<Thread>): Sys {
    s.(phases := s.phases[t := p], lock := lock)
  }

  /** The version made active, and whatever was active retired. */
  function Promote(versions: seq<Version>, v: nat): (r: seq<Version>)
    requires v < |versions|
    ensures |r| == |versions|
  {
    seq(|versions|, i requires 0 <= i < |versions| =>
          if i == v then versions[i].(state := Active)
          else if versions[i].state.Active? then versions[i].(state := Retired)
          else versions[i])
  }

  function After(s: Sys, a: Step, w: World): Sys
    requires Enabled(s, a)
  {
    match a
    case BeginObservation(t) => if CandidateExists(s.versions) then s else Move(s, t, Observing, Some(t))
    case EndObservation(t, input, output, written) =>
      var p := Decide(s.memory, input, output, s.building, w.settings);
      if p.Keep? || !written || !MemoryOk(p.memory) then Move(s, t, Idle, None)
      else if p.status.BuildReserved? then Move(s, t, Building, None).(memory := p.memory, building := true)
      else Move(s, t, Idle, None).(memory := p.memory)
    case BuilderReturns(t, program) => Move(s, t, if program.Some? then Proposed(program.value) else Releasing, s.lock)
    case BeginCheck(t, readable) =>
      if !readable || CandidateExists(s.versions) || s.memory.quarantined then Move(s, t, Releasing, None)
      else Move(s, t, Checking(PhaseOf(s, t).program), Some(t))
    case Register(t, written) =>
      var program := PhaseOf(s, t).candidate;
      if !written || s.memory.examples == [] || !Reproduces(w, program, s.memory.examples) then Move(s, t, Releasing, None)
      else
        var next := s.(versions := s.versions + [Version(program, Draft, s.memory.examples)]);
        if w.settings.autoActivate then Move(next, t, Registered(|s.versions|), Some(t)) else Move(next, t, Releasing, None)
    case ActivateNew(t, written) =>
      var v := PhaseOf(s, t).version;
      if written && v < |s.versions| then Move(s, t, Releasing, None).(versions := Promote(s.versions, v))
      else Move(s, t, Releasing, None)
    case Release(t) => Move(s, t, Idle, None).(building := false)
    case RetireVersion(v) => s.(versions := s.versions[v := s.versions[v].(state := Retired)])
    case ActivateVersion(v) => s.(versions := Promote(s.versions, v))
  }

  // ----- the invariant -----

  predicate HoldsLock(p: Phase) {
    p.Observing? || p.Checking? || p.Registered?
  }

  /** From the reservation of a build to its release. */
  predicate InFlight(p: Phase) {
    p.Building? || p.Proposed? || p.Checking? || p.Registered? || p.Releasing?
  }

  /** One thread at a time holds the lock, and one at a time has a build in flight. */
  ghost predicate LocksOk(s: Sys) {
    && (forall t: Thread :: HoldsLock(PhaseOf(s, t)) <==> s.lock == Some(t))
    && (forall t: Thread :: InFlight(PhaseOf(s, t)) ==> s.building)
    && (s.building ==> exists t: Thread :: InFlight(PhaseOf(s, t)))
    && (forall t: Thread, u: Thread :: InFlight(PhaseOf(s, t)) && InFlight(PhaseOf(s, u)) ==> t == u)
  }

  /** What a thread learned under the lock is still true when it acts on it. */
  ghost predicate PhasesOk(s: Sys) {
    forall t: Thread ::
      match PhaseOf(s, t)
      case Observing => !CandidateExists(s.versions)
      case Checking(_) => !CandidateExists(s.versions) && !s.memory.quarantined
      case Registered(v) =>
        && v < |s.versions| && s.versions[v].evidence == s.memory.examples && !s.memory.quarantined
        && forall u :: 0 <= u < |s.versions| && u != v ==> s.versions[u].state.Retired?
      case _ => true
  }

  /** A version reproduces its evidence, and while it is not retired its evidence is all there is. */
  predicate VersionOk(s: Sys, v: nat, w: World)
    requires v < |s.versions|
  {
    var version := s.versions[v];
    && version.evidence != []
    && Reproduces(w, version.program, version.evidence)
    && version.evidence <= s.memory.examples
    && (!version.state.Retired? ==> version.evidence == s.memory.examples && !s.memory.quarantined)
  }

  ghost predicate Inv(s: Sys, w: World) {
    && MemoryOk(s.memory) && CursorsOk(s.memory)
    && LocksOk(s)
    && PhasesOk(s)
    && forall v :: 0 <= v < |s.versions| ==> VersionOk(s, v, w)
  }

  lemma StartInv(w: World)
    ensures Inv(START, w)
  {
  }

  lemma MovePhases(s: Sys, t: Thread, p: Phase, lock: Option<Thread>)
    ensures forall u: Thread :: PhaseOf(Move(s, t, p, lock), u) == if u == t then p else PhaseOf(s, u)
  {
  }

  /** A thread that takes or gives up the lock, or moves on outside it, keeps the locks in order. */
  lemma MoveKeepsLocks(s: Sys, t: Thread, p: Phase, lock: Option<Thread>, building: bool)
    requires LocksOk(s)
    requires HoldsLock(p) ==> lock == Some(t) && (s.lock.None? || s.lock == Some(t))
    requires !HoldsLock(p) ==> lock == if s.lock == Some(t) then None else s.lock
    requires InFlight(PhaseOf(s, t)) ==> building == InFlight(p)
    requires !InFlight(PhaseOf(s, t)) ==> building == (s.building || InFlight(p)) && (InFlight(p) ==> !s.building)
    ensures LocksOk(Move(s, t, p, lock).(building := building))
  {
    var next := Move(s, t, p, lock).(building := building);
    MovePhases(s, t, p, lock);
    assert forall u: Thread :: PhaseOf(next, u) == if u == t then p else PhaseOf(s, u);
    if building {
      if InFlight(p) {
        assert InFlight(PhaseOf(next, t));
      } else {
        var u: Thread :| InFlight(PhaseOf(s, u));
        assert InFlight(PhaseOf(next, u));
      }
    }
  }

  // ----- every step keeps the invariant -----

  /** Moving a thread leaves record and versions alone, so only its own phase has to be right. */
  lemma MoveKeepsInv(s: Sys, t: Thread, p: Phase, lock: Option<Thread>, building: bool, w: World)
    requires Inv(s, w)
    requires HoldsLock(p) ==> lock == Some(t) && (s.lock.None? || s.lock == Some(t))
    requires !HoldsLock(p) ==> lock == if s.lock == Some(t) then None else s.lock
    requires InFlight(PhaseOf(s, t)) ==> building == InFlight(p)
    requires !InFlight(PhaseOf(s, t)) ==> building == (s.building || InFlight(p)) && (InFlight(p) ==> !s.building)
    requires !p.Registered?
    requires p.Observing? || p.Checking? ==> !CandidateExists(s.versions)
    requires p.Checking? ==> !s.memory.quarantined
    ensures Inv(Move(s, t, p, lock).(building := building), w)
  {
    hide LocksOk, MemoryOk, CursorsOk, Reproduces, CandidateExists;
    MoveKeepsLocks(s, t, p, lock, building);
    MovePhases(s, t, p, lock);
    var next := Move(s, t, p, lock).(building := building);
    assert forall u: Thread :: PhaseOf(next, u) == if u == t then p else PhaseOf(s, u);
    forall v | 0 <= v < |next.versions| ensures VersionOk(next, v, w) {
      assert VersionOk(s, v, w);
    }
  }

  /** While no candidate exists the record may grow: every version is retired, so its evidence need only stay a prefix. */
  lemma GrowthKeepsInv(s: Sys, m: Memory, t: Thread, w: World)
    requires Inv(s, w) && s.lock == Some(t) && PhaseOf(s, t).Observing?
    requires MemoryOk(m) && CursorsOk(m) && MemoryGrows(s.memory, m)
    ensures Inv(s.(memory := m), w)
  {
    hide MemoryOk, CursorsOk, Reproduces;
    var next := s.(memory := m);
    assert forall u: Thread :: PhaseOf(next, u) == PhaseOf(s, u);
    assert !CandidateExists(s.versions);
    assert LocksOk(next) by {
      SameLocks(s, next);
    }
    forall u: Thread ensures u != t ==> !HoldsLock(PhaseOf(s, u)) {
      assert HoldsLock(PhaseOf(s, u)) <==> s.lock == Some(u);
    }
    forall v | 0 <= v < |next.versions| ensures VersionOk(next, v, w) {
      assert VersionOk(s, v, w);
      assert s.memory.examples <= m.examples;
    }
  }

  lemma SameLocks(s: Sys, next: Sys)
    requires LocksOk(s) && next.phases == s.phases && next.lock == s.lock && next.building == s.building
    ensures LocksOk(next)
  {
    assert forall u: Thread :: PhaseOf(next, u) == PhaseOf(s, u);
    if s.building {
      var u: Thread :| InFlight(PhaseOf(s, u));
      assert InFlight(PhaseOf(next, u));
    }
  }

  lemma EndObservationKeeps(s: Sys, t: Thread, input: Json, output: Json, written: bool, w: World)
    requires Inv(s, w) && SettingsOk(w.settings) && PhaseOf(s, t).Observing?
    ensures Inv(After(s, EndObservation(t, input, output, written), w), w)
  {
    hide Inv, Decide, CursorsOk, MemoryOk;
    InvParts(s, w);
    assert s.lock == Some(t) && !InFlight(PhaseOf(s, t));
    var p := Decide(s.memory, input, output, s.building, w.settings);
    DecideExtends(s.memory, input, output, s.building, w.settings);
    if p.Keep? || !written || !MemoryOk(p.memory) {
      MoveKeepsInv(s, t, Idle, None, s.building, w);
    } else {
      GrowthKeepsInv(s, p.memory, t, w);
      var grown := s.(memory := p.memory);
      if p.status.BuildReserved? {
        MoveKeepsInv(grown, t, Building, None, true, w);
      } else {
        MoveKeepsInv(grown, t, Idle, None, s.building, w);
      }
    }
  }

  lemma InvParts(s: Sys, w: World)
    requires Inv(s, w)
    ensures MemoryOk(s.memory) && CursorsOk(s.memory) && LocksOk(s) && PhasesOk(s)
    ensures forall v :: 0 <= v < |s.versions| ==> VersionOk(s, v, w)
  {
  }

  lemma BeginCheckKeeps(s: Sys, t: Thread, readable: bool, w: World)
    requires Inv(s, w) && PhaseOf(s, t).Proposed? && s.lock.None?
    ensures Inv(After(s, BeginCheck(t, readable), w), w)
  {
    hide Inv, CandidateExists;
    InvParts(s, w);
    if !readable || CandidateExists(s.versions) || s.memory.quarantined {
      MoveKeepsInv(s, t, Releasing, None, s.building, w);
    } else {
      MoveKeepsInv(s, t, Checking(PhaseOf(s, t).program), Some(t), s.building, w);
    }
  }

  /** A draft checked against everything retained, with every other version retired. */
  lemma RegisterKeeps(s: Sys, t: Thread, written: bool, w: World)
    requires Inv(s, w) && PhaseOf(s, t).Checking?
    ensures Inv(After(s, Register(t, written), w), w)
  {
    hide MemoryOk, CursorsOk, Reproduces;
    var program := PhaseOf(s, t).candidate;
    var next := After(s, Register(t, written), w);
    if !written || s.memory.examples == [] || !Reproduces(w, program, s.memory.examples) {
      MoveKeepsInv(s, t, Releasing, None, s.building, w);
    } else {
      var n := |s.versions|;
      var p := if w.settings.autoActivate then Registered(n) else Releasing;
      var lock := if w.settings.autoActivate then Some(t) else None;
      assert forall u :: 0 <= u < n ==> next.versions[u] == s.versions[u] && s.versions[u].state.Retired?;
      MoveKeepsLocks(s, t, p, lock, s.building);
      SameLocks(Move(s, t, p, lock), next);
      MovePhases(s, t, p, lock);
      assert forall u: Thread :: PhaseOf(next, u) == if u == t then p else PhaseOf(s, u);
      forall u: Thread | u != t ensures !HoldsLock(PhaseOf(s, u)) {
        assert HoldsLock(PhaseOf(s, u)) <==> s.lock == Some(u);
      }
      forall v | 0 <= v < |next.versions| ensures VersionOk(next, v, w) {
        assert v < n ==> VersionOk(s, v, w);
      }
    }
  }

  /** Changing only which of the non-retired versions is active, or retiring some. */
  lemma StatesKeepInv(s: Sys, versions: seq<Version>, w: World)
    requires Inv(s, w) && |versions| == |s.versions|
    requires forall v :: 0 <= v < |versions| ==> versions[v] == s.versions[v].(state := versions[v].state)
    requires forall v :: 0 <= v < |versions| && s.versions[v].state.Retired? ==> versions[v].state.Retired?
    ensures Inv(s.(versions := versions), w)
  {
    hide MemoryOk, CursorsOk, Reproduces;
    var next := s.(versions := versions);
    assert forall u: Thread :: PhaseOf(next, u) == PhaseOf(s, u);
    SameLocks(s, next);
    assert CandidateExists(versions) ==> CandidateExists(s.versions) by {
      if CandidateExists(versions) {
        var v :| 0 <= v < |versions| && !versions[v].state.Retired?;
        assert !s.versions[v].state.Retired?;
      }
    }
    forall v | 0 <= v < |versions| ensures VersionOk(next, v, w) {
      assert VersionOk(s, v, w);
    }
  }

  /**
   * Exactly when activating a retired version between critical sections keeps the
   * invariant: nothing was learned since it was registered, and the task is not
   * quarantined.
   */
  lemma RevivalIsExact(s: Sys, v: nat, w: World)
    requires Inv(s, w) && v < |s.versions| && s.versions[v].state.Retired? && s.lock.None?
    ensures Inv(s.(versions := Promote(s.versions, v)), w) <==> Revivable(s, v)
  {
    hide MemoryOk, CursorsOk, Reproduces;
    var next := s.(versions := Promote(s.versions, v));
    assert VersionOk(s, v, w);
    if Revivable(s, v) {
      assert forall u: Thread :: PhaseOf(next, u) == PhaseOf(s, u);
      SameLocks(s, next);
      forall u: Thread ensures !HoldsLock(PhaseOf(next, u)) {
        assert HoldsLock(PhaseOf(s, u)) <==> s.lock == Some(u);
      }
      forall u | 0 <= u < |next.versions| ensures VersionOk(next, u, w) {
        assert VersionOk(s, u, w);
      }
    } else {
      assert !VersionOk(next, v, w);
    }
  }

  /** The builder's own activation, even of a version retired a moment ago, finds the evidence unchanged. */
  lemma ActivateNewKeeps(s: Sys, t: Thread, written: bool, w: World)
    requires Inv(s, w) && PhaseOf(s, t).Registered?
    ensures Inv(After(s, ActivateNew(t, written), w), w)
  {
    hide MemoryOk, CursorsOk, Reproduces;
    var v, next := PhaseOf(s, t).version, After(s, ActivateNew(t, written), w);
    MoveKeepsInv(s, t, Releasing, None, s.building, w);
    if written {
      var moved := Move(s, t, Releasing, None);
      SameLocks(moved, next);
      MovePhases(s, t, Releasing, None);
      assert forall u: Thread :: PhaseOf(next, u) == if u == t then Releasing else PhaseOf(s, u);
      forall u: Thread | u != t ensures !HoldsLock(PhaseOf(s, u)) {
        assert HoldsLock(PhaseOf(s, u)) <==> s.lock == Some(u);
      }
      forall u | 0 <= u < |next.versions| ensures VersionOk(next, u, w) {
        assert VersionOk(s, u, w);
      }
    }
  }

  /** The invariant holds after every step. */
  lemma StepKeeps(s: Sys, a: Step, w: World)
    requires Inv(s, w) && SettingsOk(w.settings) && Enabled(s, a)
    ensures Inv(After(s, a, w), w)
  {
    hide Inv, CandidateExists, Decide, Reproduces;
    InvParts(s, w);
    match a
    case BeginObservation(t) =>
      if !CandidateExists(s.versions) {
        MoveKeepsInv(s, t, Observing, Some(t), s.building, w);
      }
    case EndObservation(t, input, output, written) => EndObservationKeeps(s, t, input, output, written, w);
    case BuilderReturns(t, program) =>
      MoveKeepsInv(s, t, if program.Some? then Proposed(program.value) else Releasing, s.lock, s.building, w);
    case BeginCheck(t, readable) => BeginCheckKeeps(s, t, readable, w);
    case Register(t, written) => RegisterKeeps(s, t, written, w);
    case ActivateNew(t, written) => ActivateNewKeeps(s, t, written, w);
    case Release(t) => MoveKeepsInv(s, t, Idle, None, false, w);
    case RetireVersion(v) => StatesKeepInv(s, s.versions[v := s.versions[v].(state := Retired)], w);
    case ActivateVersion(v) =>
      if s.versions[v].state.Retired? {
        RevivalIsExact(s, v, w);
      } else {
        StatesKeepInv(s, Promote(s.versions, v), w);
      }
  }

  // ----- whole runs -----

  /** Any interleaving of steps from the start. */
  ghost predicate IsRun(states: seq<Sys>, steps: seq<Step>, w: World) {
    && SettingsOk(w.settings)
    && |states| == |steps| + 1
    && states[0] == START
    && forall i :: 0 <= i < |steps| ==> Enabled(states[i], steps[i]) && states[i + 1] == After(states[i], steps[i], w)
  }

  lemma {:induction false} RunKeepsInv(states: seq<Sys>, steps: seq<Step>, w: World, i: nat)
    requires IsRun(states, steps, w) && i < |states|
    ensures Inv(states[i], w)
  {
    hide Inv;
    if i == 0 {
      StartInv(w);
    } else {
      RunKeepsInv(states, steps, w, i - 1);
      assert Enabled(states[i - 1], steps[i - 1]);
      StepKeeps(states[i - 1], steps[i - 1], w);
    }
  }

  predicate VersionGrows(v: Version, u: Version) {
    v.program == u.program && v.evidence == u.evidence && (u.state.Draft? ==> v.state.Draft?)
  }

  /** Examples and versions only accumulate, and after quarantine nothing is learned or registered. */
  predicate SysGrows(s: Sys, t: Sys) {
    && MemoryGrows(s.memory, t.memory)
    && |s.versions| <= |t.versions|
    && (forall v :: 0 <= v < |s.versions| ==> VersionGrows(s.versions[v], t.versions[v]))
    && (s.memory.quarantined ==> t.memory == s.memory && |t.versions| == |s.versions|)
  }

  lemma SysGrowsTransitive(s: Sys, t: Sys, u: Sys)
    requires SysGrows(s, t) && SysGrows(t, u)
    ensures SysGrows(s, u)
  {
    MemoryGrowsTransitive(s.memory, t.memory, u.memory);
    forall v | 0 <= v < |s.versions| ensures VersionGrows(s.versions[v], u.versions[v]) {
      assert VersionGrows(s.versions[v], t.versions[v]) && VersionGrows(t.versions[v], u.versions[v]);
    }
  }

  lemma StepGrows(s: Sys, a: Step, w: World)
    requires Inv(s, w) && SettingsOk(w.settings) && Enabled(s, a)
    ensures SysGrows(s, After(s, a, w))
  {
    hide MemoryOk, CursorsOk, Reproduces, Decide, LocksOk, VersionOk;
    if a.EndObservation? {
      DecideExtends(s.memory, a.input, a.output, s.building, w.settings);
    } else if a.Register? {
      assert !s.memory.quarantined;
    }
  }

  lemma {:induction false} RunGrows(states: seq<Sys>, steps: seq<Step>, w: World, i: nat, j: nat)
    requires IsRun(states, steps, w) && i <= j < |states|
    ensures SysGrows(states[i], states[j])
    decreases j - i
  {
    hide SysGrows, Inv, Enabled, After;
    if i == j {
      GrowsIntoItself(states[i]);
    } else {
      RunGrows(states, steps, w, i, j - 1);
      RunKeepsInv(states, steps, w, j - 1);
      assert Enabled(states[j - 1], steps[j - 1]) && states[j - 1 + 1] == After(states[j - 1], steps[j - 1], w);
      StepGrows(states[j - 1], steps[j - 1], w);
      SysGrowsTransitive(states[i], states[j - 1], states[j]);
    }
  }

  lemma GrowsIntoItself(s: Sys)
    ensures SysGrows(s, s)
  {
  }

  /**
   * Evidence safety: at every point of every interleaving, a version that is not
   * retired reproduces every example retained at that point, and the task is not
   * quarantined.
   */
  lemma LiveVersionsReproduceEverything(states: seq<Sys>, steps: seq<Step>, w: World, i: nat, v: nat)
    requires IsRun(states, steps, w) && i < |states| && v < |states[i].versions| && !states[i].versions[v].state.Retired?
    ensures Reproduces(w, states[i].versions[v].program, states[i].memory.examples) && !states[i].memory.quarantined
  {
    hide MemoryOk, CursorsOk, LocksOk, PhasesOk, Reproduces;
    RunKeepsInv(states, steps, w, i);
    assert VersionOk(states[i], v, w);
  }

  /** A version appears only through a build's registration, and then reproduces all that is retained. */
  lemma RegistrationIsJustified(states: seq<Sys>, steps: seq<Step>, w: World, i: nat)
    requires IsRun(states, steps, w) && i < |steps| && |states[i + 1].versions| != |states[i].versions|
    ensures steps[i].Register? && |states[i + 1].versions| == |states[i].versions| + 1
    ensures var v := states[i + 1].versions[|states[i].versions|];
            && Reproduces(w, v.program, states[i].memory.examples)
            && v.evidence == states[i].memory.examples == states[i + 1].memory.examples != []
            && !states[i].memory.quarantined
            && forall u :: 0 <= u < |states[i].versions| ==> states[i].versions[u].state.Retired?
  {
    hide MemoryOk, CursorsOk, LocksOk, VersionOk, Reproduces, Decide;
    RunKeepsInv(states, steps, w, i);
    assert Enabled(states[i], steps[i]) && states[i + 1] == After(states[i], steps[i], w);
  }

  /** While a version stays live, no example is added or changed. */
  lemma NothingIsLearnedBesideALiveVersion(states: seq<Sys>, steps: seq<Step>, w: World, i: nat, j: nat, v: nat)
    requires IsRun(states, steps, w) && i <= j < |states| && v < |states[i].versions|
    requires !states[i].versions[v].state.Retired?
    ensures v < |states[j].versions|
    ensures !states[j].versions[v].state.Retired? ==> states[j].memory.examples == states[i].memory.examples
  {
    hide MemoryOk, CursorsOk, LocksOk, PhasesOk, Reproduces;
    RunKeepsInv(states, steps, w, i);
    RunKeepsInv(states, steps, w, j);
    RunGrows(states, steps, w, i, j);
    assert VersionOk(states[i], v, w) && VersionGrows(states[i].versions[v], states[j].versions[v]) && VersionOk(states[j], v, w);
  }

  /** At most one build is in flight, and builds never outnumber the examples they were started on. */
  lemma OneBuildAtATime(states: seq<Sys>, steps: seq<Step>, w: World, i: nat, t: Thread, u: Thread)
    requires IsRun(states, steps, w) && i < |states|
    requires InFlight(PhaseOf(states[i], t)) && InFlight(PhaseOf(states[i], u))
    ensures t == u && states[i].building
  {
    hide MemoryOk, CursorsOk, PhasesOk, VersionOk;
    RunKeepsInv(states, steps, w, i);
  }

  lemma CursorsStayOrdered(states: seq<Sys>, steps: seq<Step>, w: World, i: nat)
    requires IsRun(states, steps, w) && i < |states|
    ensures var m := states[i].memory;
            0 <= m.attempts <= m.lastBuild <= |m.examples| <= MAX_EXAMPLES && DistinctInputs(m.examples)
  {
    hide LocksOk, PhasesOk, VersionOk;
    RunKeepsInv(states, steps, w, i);
  }

  /** Quarantine is absorbing: the record never changes again and no version is registered. */
  lemma QuarantineIsAbsorbing(states: seq<Sys>, steps: seq<Step>, w: World, i: nat, j: nat)
    requires IsRun(states, steps, w) && i <= j < |states| && states[i].memory.quarantined
    ensures states[j].memory == states[i].memory && |states[j].versions| == |states[i].versions|
    ensures forall v :: 0 <= v < |states[j].versions| ==> states[j].versions[v].state.Retired?
  {
    hide MemoryOk, CursorsOk, LocksOk, PhasesOk, Reproduces;
    RunGrows(states, steps, w, i, j);
    RunKeepsInv(states, steps, w, j);
    forall v | 0 <= v < |states[j].versions| ensures states[j].versions[v].state.Retired? {
      assert VersionOk(states[j], v, w);
    }
  }

  /** How many builds the first n steps reserved. */
  ghost function Reservations(states: seq<Sys>, n: nat): nat
    requires n < |states|
  {
    if n == 0 then 0
    else Reservations(states, n - 1) + (if states[n].memory.attempts != states[n - 1].memory.attempts then 1 else 0)
  }

  /** The attempt counter counts the reservations, so a task is never built more often than it has examples. */
  lemma {:induction false} BuildsAreCounted(states: seq<Sys>, steps: seq<Step>, w: World, n: nat)
    requires IsRun(states, steps, w) && n < |states|
    ensures Reservations(states, n) == states[n].memory.attempts <= |states[n].memory.examples|
  {
    hide Inv, After, Enabled, MemoryOk;
    CursorsStayOrdered(states, steps, w, n);
    if n > 0 {
      BuildsAreCounted(states, steps, w, n - 1);
      RunKeepsInv(states, steps, w, n - 1);
      assert Enabled(states[n - 1], steps[n - 1]) && states[n - 1 + 1] == After(states[n - 1], steps[n - 1], w);
      AttemptsRiseByOne(states[n - 1], steps[n - 1], w);
    }
  }

  lemma AttemptsRiseByOne(s: Sys, a: Step, w: World)
    requires Inv(s, w) && SettingsOk(w.settings) && Enabled(s, a)
    ensures var n := After(s, a, w).memory.attempts; n == s.memory.attempts || n == s.memory.attempts + 1
  {
    hide MemoryOk, CursorsOk, Reproduces, LocksOk, VersionOk, PhasesOk;
  }
}
