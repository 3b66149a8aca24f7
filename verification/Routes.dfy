/**
 * The adaptive route store: a four-state learner per route, whose hits are
 * justified by the history of what was observed.
 */
module Routes {
  import opened Texts
  import opened Json
  import Cells
  import opened Schemas
  import opened Contracts

  const MAX_THRESHOLD := 100
  const MAX_ARGUMENT_BYTES := 64 * 1024
  const MAX_TOKEN_ESTIMATE := 1_000_000
  const MAX_COUNTER: int := 0x7FFF_FFFF_FFFF_FFFF

  datatype Status = Learning | Active | Quarantined | Invalidated

  datatype Reason = NoReason | ActionConflict | NotAllowlisted | NotReadOnly | ContractChanged | ArgumentsInvalid | Manual

  /** The stored record of one route. */
  datatype Route = Route(revision: int, status: Status, reason: Reason, observations: int, conflicts: int, invalidations: int,
                         hits: int, avoided: int, actionHash: Text, contractHash: Text, action: Option<Action>)

  // ----- what a stored record must satisfy -----

  predicate CounterOk(n: int) {
    0 <= n <= MAX_COUNTER
  }

  predicate InvalidationReason(r: Reason) {
    r.NotAllowlisted? || r.NotReadOnly? || r.ContractChanged? || r.ArgumentsInvalid? || r.Manual?
  }

  predicate ArgumentsOk(v: Json) {
    v.Obj? && Cells.Snapshot(v, MAX_ARGUMENT_BYTES).Some?
  }

  /** `_validate_state`. */
  predicate RouteOk(r: Route) {
    && CounterOk(r.revision) && CounterOk(r.observations) && CounterOk(r.conflicts) && CounterOk(r.invalidations)
    && CounterOk(r.hits) && CounterOk(r.avoided)
    && if r.status.Invalidated? then
         InvalidationReason(r.reason) && r.observations == 0 && r.action.None? && r.actionHash == [] && r.contractHash == []
       else
         && r.action.Some?
         && r.observations >= 1
         && ArgumentsOk(r.action.value.arguments)
         && r.action.value.contractHash == r.contractHash
         && ActionHash(r.action.value) == r.actionHash
         && r.reason == (if r.status.Quarantined? then ActionConflict else NoReason)
  }

  // ----- the history of a route -----

  /** What happened to a route, in the order in which it was stored. */
  datatype Event = Observed(action: Action) | Conflicted | Cleared | HitCounted | Restated

  /** How many of the latest observations, uninterrupted, were exactly this action. */
  function Streak(log: seq<Event>, a: Action): nat {
    if log == [] then 0
    else
      var before, last := log[..|log| - 1], log[|log| - 1];
      match last
      case Observed(b) => if b == a then Streak(before, a) + 1 else 0
      case Conflicted => 0
      case Cleared => 0
      case HitCounted => Streak(before, a)
      case Restated => Streak(before, a)
  }

  /** An event that leaves the streak of an action as it is, or lengthens it. */
  predicate Continues(e: Event, a: Action) {
    e == Observed(a) || e.HitCounted? || e.Restated?
  }

  function CountObserved(log: seq<Event>, a: Action): nat {
    if log == [] then 0 else CountObserved(log[..|log| - 1], a) + (if log[|log| - 1] == Observed(a) then 1 else 0)
  }

  /**
   * What a streak is: from some point on every observation was this action and
   * nothing interrupted it, and that point is the beginning or an event that
   * did interrupt it.
   */
  lemma {:induction false} StreakIsUninterrupted(log: seq<Event>, a: Action) returns (start: nat)
    ensures start <= |log|
    ensures forall i :: start <= i < |log| ==> Continues(log[i], a)
    ensures start > 0 ==> !Continues(log[start - 1], a)
    ensures CountObserved(log[start..], a) == Streak(log, a)
  {
    if log == [] {
      start := 0;
    } else {
      var before, last := log[..|log| - 1], log[|log| - 1];
      start := StreakIsUninterrupted(before, a);
      if Continues(last, a) {
        assert log[start..][..|log[start..]| - 1] == before[start..];
        assert forall i :: start <= i < |before| ==> log[i] == before[i];
      } else {
        start := |log|;
      }
    }
  }

  /** The last event that is not a hit being counted or a state being restated. */
  function LastChange(log: seq<Event>): Option<Event> {
    if log == [] then None
    else
      var last := log[|log| - 1];
      if last.HitCounted? || last.Restated? then LastChange(log[..|log| - 1]) else Some(last)
  }

  // ----- what the store keeps true -----

  /** Some contract under the action's hash admitted its arguments. */
  ghost predicate Certified(a: Action) {
    Cells.IsSnapshot(a.arguments) &&
    exists c: Contract :: ContractOk(c) && c.identity == a.identity && ContractHash(c) == a.contractHash && Admits(c.arguments, a.arguments)
  }

  /** The stored record is what its history says. */
  ghost predicate Explained(r: Route, log: seq<Event>) {
    && RouteOk(r)
    && match r.status
       case Learning => Certified(r.action.value) && r.observations == Streak(log, r.action.value)
       case Active => Certified(r.action.value) && r.observations == Streak(log, r.action.value)
       case Quarantined => Certified(r.action.value) && LastChange(log) == Some(Conflicted)
       case Invalidated => !r.reason.ArgumentsInvalid? && LastChange(log) == Some(Cleared)
  }

  /** Under a threshold, a record that is learning or active is active exactly when it has been seen often enough. */
  predicate Aligned(r: Route, threshold: nat) {
    (r.status.Active? ==> r.observations >= threshold) && (r.status.Learning? ==> r.observations < threshold)
  }

  // ----- the changes of a record -----

  function NewRoute(a: Action): Route {
    Route(1, Learning, NoReason, 1, 0, 0, 0, 0, ActionHash(a), a.contractHash, Some(a))
  }

  function Restarted(r: Route, a: Action): Route {
    r.(revision := r.revision + 1, status := Learning, reason := NoReason, observations := 1, actionHash := ActionHash(a),
       contractHash := a.contractHash, action := Some(a))
  }

  function Repeated(r: Route): Route {
    r.(observations := r.observations + 1, revision := r.revision + 1)
  }

  /** Active from the threshold on. */
  function Graded(r: Route, threshold: nat): Route {
    r.(status := if r.observations >= threshold then Active else Learning, reason := NoReason)
  }

  function QuarantinedRoute(r: Route): Route {
    r.(status := Quarantined, reason := ActionConflict, conflicts := r.conflicts + 1, revision := r.revision + 1)
  }

  function InvalidatedRoute(r: Route, reason: Reason): Route {
    r.(status := Invalidated, reason := reason, observations := 0, actionHash := [], contractHash := [], action := None,
       invalidations := r.invalidations + 1, revision := r.revision + 1)
  }

  function CountedRoute(r: Route, avoided: int): Route {
    r.(hits := r.hits + 1, avoided := r.avoided + avoided, revision := r.revision + 1)
  }

  // ----- what each operation does to a record -----

  datatype Error = InvalidRequest | StorageFailed

  /** The store's answer: its status, why, and the plan of a hit. */
  datatype Decision =
    | Miss(cause: Reason)
    | Rejected
    | StillLearning(observations: int)
    | Hit(plan: Action, observations: int)
    | Stopped(cause: Reason)
    | Failed(error: Error)

  /** An answer alone, or one write of a changed record and then the answer. */
  datatype Effect = Answer(decision: Decision) | Change(next: Route, event: Event, decision: Decision)

  type Toolbox = map<Identity, Contract>

  ghost predicate ToolboxOk(tools: Toolbox) {
    forall i :: i in tools ==> tools[i].identity == i && ContractOk(tools[i])
  }

  /** `_invalidate_state`. */
  function OnStop(r: Route, reason: Reason): Effect {
    if r.status.Invalidated? && r.reason == reason then Answer(Stopped(reason))
    else if r.invalidations == MAX_COUNTER then Answer(Failed(InvalidRequest))
    else Change(InvalidatedRoute(r, reason), Cleared, Stopped(reason))
  }

  /** `_quarantine_state`. */
  function OnConflict(r: Route): Effect {
    if r.conflicts == MAX_COUNTER then Answer(Failed(InvalidRequest))
    else Change(QuarantinedRoute(r), Conflicted, Stopped(ActionConflict))
  }

  /** The status the threshold asks for, restated if it is not the stored one. */
  function OnThreshold(r: Route, threshold: nat): Effect
    requires r.action.Some?
  {
    var wanted := if r.observations < threshold then Learning else Active;
    var answer := if wanted.Active? then Hit(r.action.value, r.observations) else StillLearning(r.observations);
    if r.status == wanted then Answer(answer)
    else Change(r.(status := wanted, revision := r.revision + 1), Restated, answer)
  }

  /** `lookup`. */
  function OnLookup(known: Option<Route>, tools: Toolbox, threshold: nat): Effect {
    if known.None? then Answer(Miss(NoReason))
    else
      var r := known.value;
      if r.status.Quarantined? || r.status.Invalidated? || r.action.None? then Answer(Stopped(r.reason))
      else
        var a := r.action.value;
        if a.identity !in tools then OnStop(r, NotAllowlisted)
        else
          var c := tools[a.identity];
          if !c.readOnly then OnStop(r, NotReadOnly)
          else if ContractHash(c) != r.contractHash then OnStop(r, ContractChanged)
          else if !Admits(c.arguments, a.arguments) then OnStop(r, ArgumentsInvalid)
          else OnThreshold(r, threshold)
  }

  /** A graded record, and the answer its grade gives. */
  function Counted(r: Route, a: Action, threshold: nat): Effect {
    var next := Graded(r, threshold);
    Change(next, Observed(a), if next.status.Active? then Hit(a, r.observations) else StillLearning(r.observations))
  }

  /** The observation of an action under its current contract. */
  function OnAction(known: Option<Route>, a: Action, threshold: nat): Effect {
    if known.None? then Counted(NewRoute(a), a, threshold)
    else
      var r := known.value;
      if r.status.Quarantined? then Answer(Stopped(ActionConflict))
      else if r.status.Invalidated? || r.action.None? then Counted(Restarted(r, a), a, threshold)
      else if r.action.value.identity != a.identity then OnConflict(r)
      else if r.contractHash != a.contractHash then
        Counted(Restarted(r.(invalidations := r.invalidations + 1), a), a, threshold)
      else if r.actionHash != ActionHash(a) then OnConflict(r)
      else if r.observations == MAX_COUNTER then Answer(Failed(InvalidRequest))
      else Counted(Repeated(r), a, threshold)
  }

  /** `observe_success`. */
  function OnObserve(known: Option<Route>, identity: Identity, arguments: Json, tools: Toolbox, threshold: nat): Effect {
    if identity !in tools then Answer(Miss(NotAllowlisted))
    else
      var c := tools[identity];
      if !c.readOnly then Answer(Miss(NotReadOnly))
      else if !Admits(c.arguments, arguments) then Answer(Rejected)
      else OnAction(known, Action(identity, arguments, ContractHash(c)), threshold)
  }

  /** `record_hit`. */
  function OnHit(known: Option<Route>, avoided: int): Effect {
    if !(0 <= avoided <= MAX_TOKEN_ESTIMATE) || known.None? || !known.value.status.Active? || known.value.action.None? then
      Answer(Failed(InvalidRequest))
    else
      var r := known.value;
      if r.hits == MAX_COUNTER || r.avoided > MAX_COUNTER - avoided then Answer(Failed(InvalidRequest))
      else Change(CountedRoute(r, avoided), HitCounted, Hit(r.action.value, r.observations))
  }

  /** `invalidate`, by hand. */
  function OnInvalidate(known: Option<Route>): Effect {
    if known.None? then Answer(Miss(NoReason)) else OnStop(known.value, Manual)
  }

  // ----- each change is explained -----

  lemma StreakOfNew(log: seq<Event>, a: Action, b: Action)
    requires LastChange(log).None? || LastChange(log) == Some(Cleared) || LastChange(log) == Some(Observed(b))
    ensures Streak(log + [Observed(a)], a) == Streak(log, a) + 1
    ensures a != b || LastChange(log).None? || LastChange(log) == Some(Cleared) ==> Streak(log, a) == 0
  {
    assert (log + [Observed(a)])[..|log|] == log;
    StreakAfterChange(log, a);
  }

  /** A streak is broken by whatever last changed the route, unless that was the same action. */
  lemma {:induction false} StreakAfterChange(log: seq<Event>, a: Action)
    ensures LastChange(log) != Some(Observed(a)) ==> Streak(log, a) == 0
    ensures LastChange(log) == Some(Observed(a)) ==> Streak(log, a) > 0
  {
    if log != [] {
      StreakAfterChange(log[..|log| - 1], a);
    }
  }

  lemma Appended(log: seq<Event>, e: Event)
    ensures (log + [e])[..|log|] == log
    ensures LastChange(log + [e]) == if e.HitCounted? || e.Restated? then LastChange(log) else Some(e)
    ensures forall a :: e.HitCounted? || e.Restated? ==> Streak(log + [e], a) == Streak(log, a)
  {
    assert (log + [e])[..|log|] == log;
  }

  lemma NewIsExplained(a: Action, threshold: nat)
    requires Certified(a) && ArgumentsOk(a.arguments) && threshold >= 1
    ensures Explained(Graded(NewRoute(a), threshold), [Observed(a)]) && Aligned(Graded(NewRoute(a), threshold), threshold)
  {
    hide ArgumentsOk, ActionHash, Certified;
    StreakOfNew([], a, a);
    assert [] + [Observed(a)] == [Observed(a)];
  }

  /** After an invalidation, or under another contract, counting starts again at one. */
  lemma RestartIsExplained(r: Route, log: seq<Event>, a: Action, threshold: nat)
    requires Explained(r, log) && Certified(a) && ArgumentsOk(a.arguments) && threshold >= 1
    requires r.status.Invalidated? || ((r.status.Learning? || r.status.Active?) && r.contractHash != a.contractHash)
    requires RouteOk(Graded(Restarted(r, a), threshold))
    ensures Explained(Graded(Restarted(r, a), threshold), log + [Observed(a)])
    ensures Aligned(Graded(Restarted(r, a), threshold), threshold)
  {
    hide ArgumentsOk, ActionHash, Certified, RouteOk;
    StreakAfterChange(log, a);
    Appended(log, Observed(a));
    if !r.status.Invalidated? {
      StoredHash(r);
      StreakAfterChange(log, r.action.value);
    }
  }

  lemma StoredHash(r: Route)
    requires RouteOk(r) && !r.status.Invalidated?
    ensures r.action.Some? && r.action.value.contractHash == r.contractHash && r.observations >= 1
    ensures ActionHash(r.action.value) == r.actionHash
  {
  }

  /** The same action once more. */
  lemma RepeatIsExplained(r: Route, log: seq<Event>, threshold: nat)
    requires Explained(r, log) && (r.status.Learning? || r.status.Active?) && RouteOk(Graded(Repeated(r), threshold))
    ensures Explained(Graded(Repeated(r), threshold), log + [Observed(r.action.value)])
    ensures Aligned(Graded(Repeated(r), threshold), threshold)
  {
    hide ArgumentsOk, ActionHash, Certified;
    Appended(log, Observed(r.action.value));
  }

  lemma QuarantineIsExplained(r: Route, log: seq<Event>)
    requires Explained(r, log) && (r.status.Learning? || r.status.Active?) && RouteOk(QuarantinedRoute(r))
    ensures Explained(QuarantinedRoute(r), log + [Conflicted])
  {
    hide ArgumentsOk, ActionHash, Certified;
    Appended(log, Conflicted);
  }

  lemma InvalidationIsExplained(r: Route, log: seq<Event>, reason: Reason)
    requires RouteOk(InvalidatedRoute(r, reason)) && !reason.ArgumentsInvalid?
    ensures Explained(InvalidatedRoute(r, reason), log + [Cleared])
  {
    hide ArgumentsOk, ActionHash, Certified;
    Appended(log, Cleared);
  }

  /** Counting a hit, or restating the status under another threshold, changes no evidence. */
  lemma RestatementIsExplained(r: Route, next: Route, log: seq<Event>, e: Event)
    requires Explained(r, log) && RouteOk(next) && (e.HitCounted? || e.Restated?)
    requires (r.status.Learning? || r.status.Active?) && (next.status.Learning? || next.status.Active?)
    requires next.action == r.action && next.observations == r.observations
    ensures Explained(next, log + [e])
  {
    hide ArgumentsOk, ActionHash, Certified, RouteOk;
    Appended(log, e);
  }

  /**
   * Once the stored and the current contract hashes agree, validating the stored
   * arguments again always succeeds.
   */
  lemma AgreedContractAdmits(r: Route, log: seq<Event>, c: Contract)
    requires Explained(r, log) && !r.status.Invalidated? && ContractOk(c) && ContractHash(c) == r.contractHash
    ensures r.action.Some? && Admits(c.arguments, r.action.value.arguments)
  {
    hide ArgumentsOk, ActionHash, ContractHash, Admits, SchemaOk, WellFormed;
    StoredHash(r);
    var a := r.action.value;
    assert Certified(a);
    var d: Contract :| ContractOk(d) && d.identity == a.identity && ContractHash(d) == a.contractHash && Admits(d.arguments, a.arguments);
    SameHashSameAdmission(c, d, a.arguments);
  }

  /** Equal action hashes under equal contracts mean the same stored action. */
  lemma SameActionHash(a: Action, b: Action)
    requires Cells.IsSnapshot(a.arguments) && Cells.IsSnapshot(b.arguments) && ActionHash(a) == ActionHash(b)
    ensures a == b
  {
    hide ActionHash;
    ActionHashDetermines(a, b);
  }

  // ----- what every operation keeps -----

  /** A route and its history, before anything was observed or after. */
  ghost predicate KnownAs(known: Option<Route>, log: seq<Event>) {
    if known.Some? then Explained(known.value, log) else log == []
  }

  ghost predicate AlignedTo(known: Option<Route>, threshold: nat) {
    known.Some? ==> Aligned(known.value, threshold)
  }

  /**
   * If the changed record is one the store accepts, it is what its longer history
   * says; and a record that was aligned with the threshold stays so.
   */
  ghost predicate Justified(known: Option<Route>, log: seq<Event>, e: Effect, threshold: nat) {
    e.Change? ==>
      && (RouteOk(e.next) ==> Explained(e.next, log + [e.event]))
      && (AlignedTo(known, threshold) ==> Aligned(e.next, threshold))
  }

  lemma ExplainedParts(r: Route, log: seq<Event>)
    requires Explained(r, log)
    ensures RouteOk(r)
    ensures !r.status.Invalidated? ==> r.action.Some? && Certified(r.action.value) && r.action.value.contractHash == r.contractHash
                                       && ActionHash(r.action.value) == r.actionHash && r.observations >= 1
                                       && Cells.IsSnapshot(r.action.value.arguments)
    ensures r.status.Quarantined? ==> r.reason.ActionConflict?
    ensures r.status.Learning? || r.status.Active? ==> r.observations == Streak(log, r.action.value) && r.reason.NoReason?
    ensures r.status.Invalidated? ==> InvalidationReason(r.reason) && !r.reason.ArgumentsInvalid?
  {
    hide ArgumentsOk, ActionHash, ContractOk, ContractHash, Admits, Cells.IsSnapshot;
  }

  lemma CertifiedNow(a: Action, c: Contract)
    requires Cells.IsSnapshot(a.arguments) && ContractOk(c) && c.identity == a.identity && ContractHash(c) == a.contractHash
    requires Admits(c.arguments, a.arguments)
    ensures Certified(a)
  {
    hide ContractHash, Admits, ContractOk;
  }

  lemma StopJustified(r: Route, log: seq<Event>, reason: Reason, threshold: nat)
    requires !reason.ArgumentsInvalid?
    ensures Justified(Some(r), log, OnStop(r, reason), threshold)
  {
    hide RouteOk, Explained;
    if RouteOk(InvalidatedRoute(r, reason)) {
      InvalidationIsExplained(r, log, reason);
    }
  }

  /** A lookup never finds its stored arguments invalid, and what it restates is explained. */
  lemma LookupJustified(known: Option<Route>, log: seq<Event>, tools: Toolbox, threshold: nat)
    requires KnownAs(known, log) && ToolboxOk(tools)
    ensures Justified(known, log, OnLookup(known, tools, threshold), threshold)
    ensures OnLookup(known, tools, threshold).decision != Stopped(ArgumentsInvalid)
  {
    hide Explained, RouteOk, ContractHash, Admits, ContractOk, ActionHash, Certified, Justified, OnStop;
    if known.Some? {
      var r := known.value;
      ExplainedParts(r, log);
      if r.status.Learning? || r.status.Active? {
        var a := r.action.value;
        StopJustified(r, log, NotAllowlisted, threshold);
        StopJustified(r, log, NotReadOnly, threshold);
        StopJustified(r, log, ContractChanged, threshold);
        StopAnswers(r);
        if a.identity in tools && ContractHash(tools[a.identity]) == r.contractHash {
          AgreedContractAdmits(r, log, tools[a.identity]);
          ThresholdJustified(r, log, threshold);
        } else {
          assert Justified(known, log, OnLookup(known, tools, threshold), threshold);
        }
      } else {
        AnswerJustified(known, log, OnLookup(known, tools, threshold), threshold);
      }
    } else {
      AnswerJustified(known, log, OnLookup(known, tools, threshold), threshold);
    }
  }

  lemma StopAnswers(r: Route)
    ensures forall reason: Reason ::
              OnStop(r, reason).decision == Stopped(reason) || OnStop(r, reason).decision == Failed(InvalidRequest)
  {
  }

  lemma AnswerJustified(known: Option<Route>, log: seq<Event>, e: Effect, threshold: nat)
    requires e.Answer?
    ensures Justified(known, log, e, threshold)
  {
  }

  lemma ThresholdJustified(r: Route, log: seq<Event>, threshold: nat)
    requires Explained(r, log) && (r.status.Learning? || r.status.Active?) && r.action.Some?
    ensures Justified(Some(r), log, OnThreshold(r, threshold), threshold)
    ensures !OnThreshold(r, threshold).decision.Stopped?
  {
    hide Explained, RouteOk;
    var e := OnThreshold(r, threshold);
    if e.Change? && RouteOk(e.next) {
      RestatementIsExplained(r, e.next, log, Restated);
    }
  }

  lemma ObserveJustified(known: Option<Route>, log: seq<Event>, identity: Identity, arguments: Json, tools: Toolbox, threshold: nat)
    requires KnownAs(known, log) && ToolboxOk(tools) && threshold >= 1
    requires Cells.IsSnapshot(arguments) && ArgumentsOk(arguments)
    ensures Justified(known, log, OnObserve(known, identity, arguments, tools, threshold), threshold)
  {
    hide Explained, RouteOk, ContractHash, Admits, ContractOk, ActionHash, Certified, Justified, OnAction, ArgumentsOk;
    if identity in tools && tools[identity].readOnly && Admits(tools[identity].arguments, arguments) {
      var a := Action(identity, arguments, ContractHash(tools[identity]));
      CertifiedNow(a, tools[identity]);
      ActionJustified(known, log, a, threshold);
    } else {
      AnswerJustified(known, log, OnObserve(known, identity, arguments, tools, threshold), threshold);
    }
  }

  lemma ActionJustified(known: Option<Route>, log: seq<Event>, a: Action, threshold: nat)
    requires KnownAs(known, log) && threshold >= 1 && Certified(a) && ArgumentsOk(a.arguments) && Cells.IsSnapshot(a.arguments)
    ensures Justified(known, log, OnAction(known, a, threshold), threshold)
  {
    hide Explained, RouteOk, ActionHash, Certified, ArgumentsOk;
    if known.None? {
      NewIsExplained(a, threshold);
      assert log + [Observed(a)] == [Observed(a)];
    } else {
      var r := known.value;
      ExplainedParts(r, log);
      if r.status.Invalidated? {
        if RouteOk(Graded(Restarted(r, a), threshold)) {
          RestartIsExplained(r, log, a, threshold);
        }
      } else if !r.status.Quarantined? {
        KnownActionJustified(r, log, a, threshold);
      }
    }
  }

  lemma KnownActionJustified(r: Route, log: seq<Event>, a: Action, threshold: nat)
    requires Explained(r, log) && (r.status.Learning? || r.status.Active?)
    requires threshold >= 1 && Certified(a) && ArgumentsOk(a.arguments) && Cells.IsSnapshot(a.arguments)
    ensures Justified(Some(r), log, OnAction(Some(r), a, threshold), threshold)
  {
    hide Explained, RouteOk, ActionHash, Certified, ArgumentsOk;
    ExplainedParts(r, log);
    if RouteOk(QuarantinedRoute(r)) {
      QuarantineIsExplained(r, log);
    }
    var marked := r.(invalidations := r.invalidations + 1);
    if r.contractHash != a.contractHash && RouteOk(Graded(Restarted(marked, a), threshold)) {
      MarkedIsExplained(r, log, a, threshold);
    }
    if r.actionHash == ActionHash(a) {
      SameActionHash(r.action.value, a);
      if RouteOk(Graded(Repeated(r), threshold)) {
        RepeatIsExplained(r, log, threshold);
      }
    }
  }

  /** A restart under another contract also counts an invalidation. */
  lemma MarkedIsExplained(r: Route, log: seq<Event>, a: Action, threshold: nat)
    requires Explained(r, log) && Certified(a) && ArgumentsOk(a.arguments) && threshold >= 1
    requires (r.status.Learning? || r.status.Active?) && r.contractHash != a.contractHash
    requires RouteOk(Graded(Restarted(r.(invalidations := r.invalidations + 1), a), threshold))
    ensures Explained(Graded(Restarted(r.(invalidations := r.invalidations + 1), a), threshold), log + [Observed(a)])
  {
    hide ArgumentsOk, ActionHash, Certified;
    RestartIsExplained(r, log, a, threshold);
  }

  lemma HitJustified(known: Option<Route>, log: seq<Event>, avoided: int, threshold: nat)
    requires KnownAs(known, log)
    ensures Justified(known, log, OnHit(known, avoided), threshold)
  {
    hide Explained, RouteOk;
    var e := OnHit(known, avoided);
    if e.Change? && RouteOk(e.next) {
      RestatementIsExplained(known.value, e.next, log, HitCounted);
    }
  }

  lemma InvalidateJustified(known: Option<Route>, log: seq<Event>, threshold: nat)
    ensures Justified(known, log, OnInvalidate(known), threshold)
  {
    hide Justified, OnStop;
    if known.Some? {
      StopJustified(known.value, log, Manual, threshold);
    } else {
      AnswerJustified(known, log, OnInvalidate(known), threshold);
    }
  }

  // ----- every run -----

  /** One call on a route: by whom, with which tools and threshold, and whether the storage takes the write. */
  datatype Call =
    | Look(tools: Toolbox, threshold: nat)
    | See(identity: Identity, arguments: Json, tools: Toolbox, threshold: nat)
    | Record(avoided: int)
    | Invalidate

  ghost predicate CallOk(c: Call) {
    match c
    case Look(tools, threshold) => ToolboxOk(tools) && threshold >= 1
    case See(_, arguments, tools, threshold) =>
      ToolboxOk(tools) && threshold >= 1 && Cells.IsSnapshot(arguments) && ArgumentsOk(arguments)
    case Record(_) => true
    case Invalidate => true
  }

  function EffectOf(known: Option<Route>, c: Call): Effect {
    match c
    case Look(tools, threshold) => OnLookup(known, tools, threshold)
    case See(identity, arguments, tools, threshold) => OnObserve(known, identity, arguments, tools, threshold)
    case Record(avoided) => OnHit(known, avoided)
    case Invalidate => OnInvalidate(known)
  }

  /** A route between two calls. */
  datatype Life = Life(known: Option<Route>, log: seq<Event>)

  /** The write of a changed record is validated, and the storage may refuse it. */
  function AfterCall(s: Life, c: Call, stored: bool): Life {
    var e := EffectOf(s.known, c);
    if e.Change? && stored && RouteOk(e.next) then Life(Some(e.next), s.log + [e.event]) else s
  }

  /** What a call answers. */
  function AnswerTo(s: Life, c: Call, stored: bool): Decision {
    var e := EffectOf(s.known, c);
    if e.Change? && !(stored && RouteOk(e.next)) then Failed(StorageFailed) else e.decision
  }

  function Lived(calls: seq<(Call, bool)>): Life {
    if calls == [] then Life(None, [])
    else AfterCall(Lived(calls[..|calls| - 1]), calls[|calls| - 1].0, calls[|calls| - 1].1)
  }

  lemma CallKeeps(s: Life, c: Call, stored: bool)
    requires KnownAs(s.known, s.log) && CallOk(c)
    ensures KnownAs(AfterCall(s, c, stored).known, AfterCall(s, c, stored).log)
  {
    hide Explained, RouteOk, OnLookup, OnObserve, OnHit, OnInvalidate, ToolboxOk, ArgumentsOk;
    match c
    case Look(tools, threshold) => LookupJustified(s.known, s.log, tools, threshold);
    case See(identity, arguments, tools, threshold) => ObserveJustified(s.known, s.log, identity, arguments, tools, threshold);
    case Record(avoided) => HitJustified(s.known, s.log, avoided, 1);
    case Invalidate => InvalidateJustified(s.known, s.log, 1);
  }

  /** On every run, under any thresholds and toolboxes and with any writes refused, the record is what its history says. */
  lemma {:induction false} LivedIsExplained(calls: seq<(Call, bool)>)
    requires forall i :: 0 <= i < |calls| ==> CallOk(calls[i].0)
    ensures KnownAs(Lived(calls).known, Lived(calls).log)
  {
    hide KnownAs, CallOk, AfterCall;
    if calls == [] {
      assert KnownAs(None, []) by {
        NothingKnown();
      }
    } else {
      LivedIsExplained(calls[..|calls| - 1]);
      CallKeeps(Lived(calls[..|calls| - 1]), calls[|calls| - 1].0, calls[|calls| - 1].1);
    }
  }

  /** Where every call grades by the same threshold, a record is active exactly when it has been observed often enough. */
  lemma {:induction false} LivedIsAligned(calls: seq<(Call, bool)>, threshold: nat)
    requires forall i :: 0 <= i < |calls| ==> CallOk(calls[i].0)
    requires forall i :: 0 <= i < |calls| ==> calls[i].0.Look? || calls[i].0.See? ==> calls[i].0.threshold == threshold
    ensures AlignedTo(Lived(calls).known, threshold)
    ensures var known := Lived(calls).known;
            known.Some? && (known.value.status.Learning? || known.value.status.Active?) ==>
              (known.value.status.Active? <==> known.value.observations >= threshold)
  {
    hide KnownAs, Explained, RouteOk, OnLookup, OnObserve, OnHit, OnInvalidate, ToolboxOk, ArgumentsOk;
    if calls != [] {
      var before, c := calls[..|calls| - 1], calls[|calls| - 1].0;
      LivedIsAligned(before, threshold);
      LivedIsExplained(before);
      var s := Lived(before);
      match c
      case Look(tools, t) => LookupJustified(s.known, s.log, tools, threshold);
      case See(identity, arguments, tools, t) => ObserveJustified(s.known, s.log, identity, arguments, tools, threshold);
      case Record(avoided) => HitJustified(s.known, s.log, avoided, threshold);
      case Invalidate => InvalidateJustified(s.known, s.log, threshold);
    }
  }

  lemma NothingKnown()
    ensures KnownAs(None, [])
  {
  }

  /**
   * A hit is justified by history: on every run, when a lookup answers with a
   * plan, the effective observations since the route's last start or restart
   * were all exactly that plan, uninterrupted and at least the threshold in
   * number; and the tool's current contract is the one they were made under,
   * allows the call and admits its arguments.
   */
  lemma {:induction false} HitIsJustified(calls: seq<(Call, bool)>, tools: Toolbox, threshold: nat, stored: bool)
    requires (forall i :: 0 <= i < |calls| ==> CallOk(calls[i].0)) && CallOk(Look(tools, threshold))
    ensures var s := Lived(calls);
            var d := AnswerTo(s, Look(tools, threshold), stored);
            d.Hit? ==>
              && Streak(s.log, d.plan) == d.observations >= threshold
              && d.plan.identity in tools
              && tools[d.plan.identity].readOnly
              && ContractHash(tools[d.plan.identity]) == d.plan.contractHash
              && Admits(tools[d.plan.identity].arguments, d.plan.arguments)
  {
    hide Explained, RouteOk, ContractHash, Admits, ContractOk, ActionHash, Certified, Lived;
    LivedIsExplained(calls);
    var s := Lived(calls);
    if s.known.Some? {
      ExplainedParts(s.known.value, s.log);
    }
  }

  /**
   * The same holds of the plan an observation hands out: on every run it is the
   * action just observed, which with this observation has been seen uninterrupted
   * at least threshold many times, under the tool's current contract.
   */
  lemma {:induction false} ActivationIsJustified(calls: seq<(Call, bool)>, identity: Identity, arguments: Json, tools: Toolbox, threshold: nat, stored: bool)
    requires (forall i :: 0 <= i < |calls| ==> CallOk(calls[i].0)) && CallOk(See(identity, arguments, tools, threshold))
    ensures var c := See(identity, arguments, tools, threshold);
            var s, d := Lived(calls), AnswerTo(Lived(calls), See(identity, arguments, tools, threshold), stored);
            d.Hit? ==>
              && AfterCall(s, c, stored).log == s.log + [Observed(d.plan)]
              && Streak(s.log + [Observed(d.plan)], d.plan) == d.observations >= threshold
              && identity in tools && d.plan == Action(identity, arguments, ContractHash(tools[identity]))
              && tools[identity].readOnly && Admits(tools[identity].arguments, arguments)
  {
    hide Explained, RouteOk, ContractHash, Admits, ContractOk, ActionHash, Certified, Lived, ArgumentsOk;
    LivedIsExplained(calls);
    var s, c := Lived(calls), See(identity, arguments, tools, threshold);
    var d := AnswerTo(s, c, stored);
    if d.Hit? {
      CallKeeps(s, c, stored);
      var next := AfterCall(s, c, stored);
      assert next.known.Some? && next.log == s.log + [Observed(d.plan)];
      ExplainedParts(next.known.value, next.log);
    }
  }

  /** Without a hand-made invalidation, a quarantine lasts: nothing is learned, and no plan is given. */
  lemma {:induction false} QuarantineLasts(s: Life, calls: seq<(Call, bool)>)
    requires s.known.Some? && s.known.value.status.Quarantined?
    requires forall i :: 0 <= i < |calls| ==> !calls[i].0.Invalidate?
    ensures LivedFrom(s, calls) == s
  {
    hide ContractHash, Admits, ActionHash, RouteOk;
    if calls != [] {
      QuarantineLasts(s, calls[..|calls| - 1]);
    }
  }

  function LivedFrom(s: Life, calls: seq<(Call, bool)>): Life {
    if calls == [] then s
    else AfterCall(LivedFrom(s, calls[..|calls| - 1]), calls[|calls| - 1].0, calls[|calls| - 1].1)
  }

  /** Two observations of different tools quarantine a new route, whatever the toolbox and the threshold. */
  lemma {:induction false} ConflictQuarantines(i: Identity, j: Identity, x: Json, y: Json, tools: Toolbox, threshold: nat)
    requires CallOk(See(i, x, tools, threshold)) && CallOk(See(j, y, tools, threshold)) && i != j
    requires i in tools && tools[i].readOnly && Admits(tools[i].arguments, x)
    requires j in tools && tools[j].readOnly && Admits(tools[j].arguments, y)
    ensures var s := Lived([(See(i, x, tools, threshold), true), (See(j, y, tools, threshold), true)]);
            s.known.Some? && s.known.value.status.Quarantined?
  {
    hide ContractHash, Admits, ActionHash, ContractOk, ArgumentsOk, ToolboxOk, Cells.IsSnapshot;
    var first, both := [(See(i, x, tools, threshold), true)], [(See(i, x, tools, threshold), true), (See(j, y, tools, threshold), true)];
    assert first[..0] == [] && both[..1] == first;
    var s := Lived(first);
    assert Lived(first[..0]) == Life(None, []);
    var a := Action(i, x, ContractHash(tools[i]));
    assert RouteOk(Graded(NewRoute(a), threshold));
    assert s == Life(Some(Graded(NewRoute(a), threshold)), [Observed(a)]);
  }

  /** The store accepts an invalidation, and then a new start, as long as the counters have room. */
  lemma RestartIsAccepted(r: Route, a: Action, threshold: nat)
    requires RouteOk(r) && r.invalidations < MAX_COUNTER && r.revision < MAX_COUNTER - 1 && ArgumentsOk(a.arguments)
    ensures RouteOk(InvalidatedRoute(r, Manual)) && RouteOk(Graded(Restarted(InvalidatedRoute(r, Manual), a), threshold))
  {
    hide ArgumentsOk, ActionHash;
  }

  /**
   * Quarantine is not permanent: on every run, a quarantined route that is
   * invalidated by hand, and then sees an action its tool admits, counts that
   * action from one again, as long as the writes are taken and the counters have
   * room.
   */
  lemma {:induction false} InvalidationEndsQuarantine(calls: seq<(Call, bool)>, identity: Identity, arguments: Json, tools: Toolbox, threshold: nat)
    requires (forall i :: 0 <= i < |calls| ==> CallOk(calls[i].0)) && CallOk(See(identity, arguments, tools, threshold))
    requires identity in tools && tools[identity].readOnly && Admits(tools[identity].arguments, arguments)
    requires Lived(calls).known.Some? && Lived(calls).known.value.status.Quarantined?
    requires Lived(calls).known.value.invalidations < MAX_COUNTER && Lived(calls).known.value.revision < MAX_COUNTER - 1
    ensures var cleared := AfterCall(Lived(calls), Invalidate, true);
            var again := AfterCall(cleared, See(identity, arguments, tools, threshold), true);
            && cleared.known.Some? && cleared.known.value.status.Invalidated? && cleared.known.value.reason.Manual?
            && again.known.Some? && again.known.value.observations == 1
            && again.known.value.action == Some(Action(identity, arguments, ContractHash(tools[identity])))
            && again.known.value.status == if threshold <= 1 then Active else Learning
  {
    hide ContractHash, Admits, ActionHash, ContractOk, ArgumentsOk, ToolboxOk, Cells.IsSnapshot, Lived, RouteOk, Explained;
    LivedIsExplained(calls);
    var r := Lived(calls).known.value;
    ExplainedParts(r, Lived(calls).log);
    RestartIsAccepted(r, Action(identity, arguments, ContractHash(tools[identity])), threshold);
  }
}
