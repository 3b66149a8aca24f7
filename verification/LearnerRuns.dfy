/**
 * The progressive service as it runs: each method is one critical section of
 * the learning path, over the learning records and the crystal service.
 */
module LearnerRuns {
  import opened Texts
  import opened Json
  import opened Limits
  import Operators
  import opened Cells
  import opened Registries
  import opened RegistryRuns
  import opened Services
  import opened ServiceRuns
  import opened Views
  import Learning
  import LP = LearnerProtocol
  import Canonical
  import P = Programs

  // ----- tests from examples -----

  function Digit(n: nat): CodePoint {
    0x30 + n % 10
  }

  /** `observed_{index + 1:03d}`. */
  function TestName(i: nat): Text {
    Ascii("observed_") + [Digit((i + 1) / 100), Digit((i + 1) / 10), Digit(i + 1)]
  }

  function CaseFor(e: Learning.Example, i: nat): Case {
    Case(TestName(i), e.input, e.output)
  }

  /** `_tests_from_examples`. */
  function TestsFrom(examples: seq<Learning.Example>): (r: seq<Case>)
    ensures |r| == |examples|
    ensures forall i :: 0 <= i < |r| ==> r[i] == CaseFor(examples[i], i)
  {
    seq(|examples|, i requires 0 <= i < |examples| => CaseFor(examples[i], i))
  }

  /** The examples hold snapshots. */
  ghost predicate Snapshots(examples: seq<Learning.Example>) {
    forall i :: 0 <= i < |examples| ==> IsSnapshot(examples[i].input) && IsSnapshot(examples[i].output)
  }

  lemma CaseReadBack(c: Case, i: nat)
    requires c.name != [] && |c.name| <= MAX_TEST_NAME
    ensures CaseOf(CaseJson(c), i) == Some(c)
  {
    CaseFields(c);
    CaseKeysDiffer();
    var fields := CaseJson(c).fields;
    assert fields[0].key == CASE_NAME && fields[1].key == CASE_INPUT && fields[2].key == CASE_EXPECTED;
    LookupAt(fields, 0);
  }

  lemma {:induction false} CasesReadBack(cases: seq<Case>, i: nat)
    requires i <= |cases| && forall k :: 0 <= k < |cases| ==> cases[k].name != [] && |cases[k].name| <= MAX_TEST_NAME
    ensures CasesFrom(CasesJson(cases).items, i) == Some(cases[i..])
    decreases |cases| - i
  {
    hide CaseOf;
    if i < |cases| {
      CasesReadBack(cases, i + 1);
      CaseAt(cases, i);
      CaseReadBack(cases[i], i);
      assert cases[i..] == [cases[i]] + cases[i + 1..];
    }
  }

  /** The tests handed to the crystal service are the examples. */
  lemma TestsReadBack(examples: seq<Learning.Example>)
    requires 1 <= |examples| <= MAX_TEST_CASES
    ensures CasesOf(CasesJson(TestsFrom(examples))) == Some(TestsFrom(examples))
  {
    hide CasesFrom;
    var cases := TestsFrom(examples);
    CasesReadBack(cases, 0);
    assert cases[0..] == cases;
  }

  // ----- the protocol's view -----

  /** What a program answers on an input, as canonical text. */
  function Answer(l: Limits, strings: Operators.Strings, program: Json, input: Json): Option<Text> {
    var r := P.Run(program, input, l, strings);
    if r.Ok? then Some(Canonical.Render(r.value)) else None
  }

  function WorldOf(l: Limits, strings: Operators.Strings, c: Learning.Settings): LP.World {
    LP.World(c, (program, input) => Answer(l, strings, program, input))
  }

  /** Passing the observed tests is reproducing the examples. */
  lemma PassingIsReproducing(program: Json, examples: seq<Learning.Example>, l: Limits, strings: Operators.Strings, c: Learning.Settings)
    requires Snapshots(examples)
    ensures PassesCases(program, TestsFrom(examples), l, strings)
            <==> LP.Reproduces(WorldOf(l, strings, c), program, examples)
  {
    hide P.Run, Canonical.Render;
    var cases, w := TestsFrom(examples), WorldOf(l, strings, c);
    forall i | 0 <= i < |examples|
      ensures PassesCase(program, cases[i].input, cases[i].expected, l, strings)
              <==> w.run(program, examples[i].input) == Some(ContentHash(examples[i].output))
    {
      assert IsSnapshot(examples[i].output);
    }
    if PassesCases(program, cases, l, strings) {
      forall i | 0 <= i < |examples| ensures w.run(program, examples[i].input) == Some(ContentHash(examples[i].output)) {
        assert PassesCase(program, cases[i].input, cases[i].expected, l, strings);
      }
    }
    if LP.Reproduces(w, program, examples) {
      forall i | 0 <= i < |cases| ensures PassesCase(program, cases[i].input, cases[i].expected, l, strings) {
        assert w.run(program, examples[i].input) == Some(ContentHash(examples[i].output));
      }
    }
  }

  // ----- the link to the protocol -----

  predicate Shows(versions: seq<LP.Version>, view: seq<Seen>) {
    |versions| == |view| && forall v :: 0 <= v < |view| ==> versions[v].program == view[v].program && versions[v].state == view[v].state
  }

  /** The protocol state of a task is what the stored cells show, between critical sections. */
  ghost predicate Link(s: LP.Sys, m: Learning.Memory, building: bool, view: seq<Seen>, w: LP.World) {
    && LP.Inv(s, w) && s.lock.None?
    && s.memory == m && s.building == building
    && Snapshots(m.examples)
    && Shows(s.versions, view)
  }

  lemma StartLinks(w: LP.World)
    ensures Link(LP.START, Learning.EMPTY, false, [], w)
  {
    LP.StartInv(w);
  }

  lemma ShowsCandidate(versions: seq<LP.Version>, view: seq<Seen>)
    requires Shows(versions, view)
    ensures LP.CandidateExists(versions) <==> HasCandidate(view)
  {
    if HasCandidate(view) {
      var i :| 0 <= i < |view| && !view[i].state.Retired?;
      assert !versions[i].state.Retired?;
    }
  }

  /** The two protocol steps of an observation that finds no candidate. */
  function Observed(s: LP.Sys, t: LP.Thread, input: Json, output: Json, written: bool, w: LP.World): LP.Sys
    requires LP.PhaseOf(s, t).Idle? && s.lock.None? && !LP.CandidateExists(s.versions)
  {
    LP.After(LP.After(s, LP.BeginObservation(t), w), LP.EndObservation(t, input, output, written), w)
  }

  lemma ObservedLinks(s: LP.Sys, m: Learning.Memory, building: bool, view: seq<Seen>, w: LP.World, t: LP.Thread,
                      input: Json, output: Json, written: bool)
    requires Link(s, m, building, view, w) && Learning.SettingsOk(w.settings)
    requires LP.PhaseOf(s, t).Idle? && !HasCandidate(view) && IsSnapshot(input) && IsSnapshot(output)
    ensures !LP.CandidateExists(s.versions)
    ensures var p := Learning.Decide(m, input, output, building, w.settings);
            var next := Observed(s, t, input, output, written, w);
            var stored := written && p.Write? && Learning.MemoryOk(p.memory);
            && Link(next, if stored then p.memory else m, building || (stored && p.status.BuildReserved?), view, w)
            && LP.PhaseOf(next, t) == (if stored && p.status.BuildReserved? then LP.Building else LP.Idle)
  {
    hide LP.Inv, Learning.MemoryOk, Learning.Decide, IsSnapshot;
    ShowsCandidate(s.versions, view);
    LP.StepKeeps(s, LP.BeginObservation(t), w);
    var begun := LP.After(s, LP.BeginObservation(t), w);
    LP.StepKeeps(begun, LP.EndObservation(t, input, output, written), w);
    DecideKeepsSnapshots(m, input, output, building, w.settings);
  }

  lemma DecideKeepsSnapshots(m: Learning.Memory, input: Json, output: Json, building: bool, c: Learning.Settings)
    requires Snapshots(m.examples) && IsSnapshot(input) && IsSnapshot(output)
    ensures var p := Learning.Decide(m, input, output, building, c); p.Write? ==> Snapshots(p.memory.examples)
  {
    hide IsSnapshot, ContentHash, Canonical.Render, Learning.FindExample;
  }

  /** The builder came back, and the second check under the lock. */
  function Rechecked(s: LP.Sys, t: LP.Thread, program: Option<Json>, w: LP.World): LP.Sys
    requires LP.PhaseOf(s, t).Building? && s.lock.None?
  {
    var returned := LP.After(s, LP.BuilderReturns(t, program), w);
    if program.None? then returned else LP.After(returned, LP.BeginCheck(t, true), w)
  }

  lemma RecheckedLinks(s: LP.Sys, m: Learning.Memory, building: bool, view: seq<Seen>, w: LP.World, t: LP.Thread,
                       program: Option<Json>)
    requires Link(s, m, building, view, w) && Learning.SettingsOk(w.settings) && LP.PhaseOf(s, t).Building?
    ensures var next := Rechecked(s, t, program, w);
            var stopped := program.None? || HasCandidate(view) || m.quarantined;
            && LP.Inv(next, w) && next.memory == m && next.building == building && Shows(next.versions, view)
            && (if stopped then next.lock.None? && LP.PhaseOf(next, t).Releasing?
                else LP.PhaseOf(next, t) == LP.Checking(program.value) && !LP.CandidateExists(next.versions))
  {
    hide LP.Inv, Snapshots;
    ShowsCandidate(s.versions, view);
    LP.StepKeeps(s, LP.BuilderReturns(t, program), w);
    var returned := LP.After(s, LP.BuilderReturns(t, program), w);
    if program.Some? {
      assert LP.PhaseOf(returned, t) == LP.Proposed(program.value);
      LP.StepKeeps(returned, LP.BeginCheck(t, true), w);
    }
  }

  /** Registration, and the builder's own activation when that is configured. */
  function Settled(s: LP.Sys, t: LP.Thread, appended: bool, activated: bool, w: LP.World): LP.Sys
    requires LP.PhaseOf(s, t).Checking?
  {
    var registered := LP.After(s, LP.Register(t, appended), w);
    if LP.PhaseOf(registered, t).Registered? then LP.After(registered, LP.ActivateNew(t, activated), w) else registered
  }

  lemma SettledLinks(s: LP.Sys, t: LP.Thread, view: seq<Seen>, after: seq<Seen>, w: LP.World)
    requires LP.Inv(s, w) && LP.PhaseOf(s, t).Checking? && !LP.CandidateExists(s.versions) && Shows(s.versions, view)
    requires Learning.SettingsOk(w.settings) && Snapshots(s.memory.examples)
    requires var program := LP.PhaseOf(s, t).candidate;
             after == view
             || (s.memory.examples != [] && LP.Reproduces(w, program, s.memory.examples)
                 && (after == view + [Seen(program, Draft)]
                     || (w.settings.autoActivate && after == view + [Seen(program, Active)])))
    ensures var next := Settled(s, t, after != view, after != view && after[|view|].state.Active?, w);
            Link(next, s.memory, s.building, after, w) && LP.PhaseOf(next, t).Releasing?
  {
    hide LP.Inv, LP.Reproduces, Snapshots;
    var appended := after != view;
    LP.StepKeeps(s, LP.Register(t, appended), w);
    var registered := LP.After(s, LP.Register(t, appended), w);
    if LP.PhaseOf(registered, t).Registered? {
      LP.StepKeeps(registered, LP.ActivateNew(t, after[|view|].state.Active?), w);
      assert forall v :: 0 <= v < |view| ==> registered.versions[v] == s.versions[v] && s.versions[v].state.Retired?;
    }
  }

  lemma ReleasedLinks(s: LP.Sys, m: Learning.Memory, building: bool, view: seq<Seen>, w: LP.World, t: LP.Thread)
    requires Link(s, m, building, view, w) && Learning.SettingsOk(w.settings) && LP.PhaseOf(s, t).Releasing?
    ensures Link(LP.After(s, LP.Release(t), w), m, false, view, w)
    ensures LP.PhaseOf(LP.After(s, LP.Release(t), w), t).Idle?
  {
    hide LP.Inv, Snapshots;
    LP.StepKeeps(s, LP.Release(t), w);
  }

  lemma RetiredLinks(s: LP.Sys, m: Learning.Memory, building: bool, view: seq<Seen>, w: LP.World, v: nat)
    requires Link(s, m, building, view, w) && Learning.SettingsOk(w.settings) && v < |view|
    ensures Link(LP.After(s, LP.RetireVersion(v), w), m, building, view[v := view[v].(state := Retired)], w)
  {
    hide LP.Inv, Snapshots;
    LP.StepKeeps(s, LP.RetireVersion(v), w);
  }

  lemma ActivatedLinks(s: LP.Sys, m: Learning.Memory, building: bool, view: seq<Seen>, w: LP.World, v: nat)
    requires Link(s, m, building, view, w) && Learning.SettingsOk(w.settings) && v < |view|
    requires view[v].state.Retired? ==> LP.Revivable(s, v)
    ensures Link(LP.After(s, LP.ActivateVersion(v), w), m, building, Promoted(view, v), w)
  {
    hide LP.Inv, Snapshots;
    LP.StepKeeps(s, LP.ActivateVersion(v), w);
  }

  /** What the link means for the stored cells: live versions answer as everything retained says. */
  lemma LinkedVersionsReproduce(s: LP.Sys, m: Learning.Memory, building: bool, view: seq<Seen>, w: LP.World, v: nat)
    requires Link(s, m, building, view, w) && v < |view| && !view[v].state.Retired?
    ensures LP.Reproduces(w, view[v].program, m.examples) && !m.quarantined && m.examples != []
  {
    hide Learning.MemoryOk, Learning.CursorsOk, LP.LocksOk, LP.PhasesOk, LP.Reproduces;
    assert LP.VersionOk(s, v, w);
  }
}
