/**
 * The adaptive route store as it runs: the loaded record is changed in place
 * and written back, and any write may fail.  Each method has exactly the effect
 * its operation is specified by.
 */
module RouteStores {
  import opened Texts
  import opened Json
  import opened Schemas
  import opened Contracts
  import opened Routes
  import Cells
  import Canonical

  /** `_contracts`: a duplicate identity is refused. */
  method ContractsOf(tools: seq<Contract>) returns (r: Option<Toolbox>)
    requires forall i :: 0 <= i < |tools| ==> ContractOk(tools[i])
    ensures r.Some? <==> forall i, j :: 0 <= i < j < |tools| ==> tools[i].identity != tools[j].identity
    ensures r.Some? ==> ToolboxOk(r.value)
    ensures r.Some? ==> forall i :: 0 <= i < |tools| ==> tools[i].identity in r.value && r.value[tools[i].identity] == tools[i]
    ensures r.Some? ==> forall k :: k in r.value ==> r.value[k] in tools
  {
    hide ContractOk;
    var result: Toolbox := map[];
    for i := 0 to |tools|
      invariant forall j :: 0 <= j < i ==> tools[j].identity in result && result[tools[j].identity] == tools[j]
      invariant forall k :: k in result ==> exists j :: 0 <= j < i && tools[j].identity == k && result[k] == tools[j]
      invariant forall j, k :: 0 <= j < k < i ==> tools[j].identity != tools[k].identity
    {
      if tools[i].identity in result {
        return None;
      }
      result := result[tools[i].identity := tools[i]];
    }
    r := Some(result);
  }

  class AdaptiveRouteStore {
    const threshold: nat
    var routes: map<Text, Route>

    /** Every stored change of every route, and how many writes the storage refused. */
    ghost var logs: map<Text, seq<Event>>
    ghost var failures: nat

    function RouteAt(key: Text): Option<Route>
      reads this
    {
      if key in routes then Some(routes[key]) else None
    }

    ghost function LogAt(key: Text): seq<Event>
      reads this
    {
      if key in logs then logs[key] else []
    }

    ghost predicate Valid()
      reads this
    {
      1 <= threshold <= MAX_THRESHOLD && forall key: Text :: KnownAs(RouteAt(key), LogAt(key))
    }

    /** Every record was graded under this store's threshold. */
    ghost predicate AllAligned()
      reads this
    {
      forall key: Text :: AlignedTo(RouteAt(key), threshold)
    }

    /** The operation had this effect on this route, unless the storage refused its write. */
    twostate predicate Took(key: Text, e: Effect, d: Decision)
      reads this
    {
      match e
      case Answer(decision) => d == decision && routes == old(routes) && logs == old(logs) && failures == old(failures)
      case Change(next, event, decision) =>
        || (RouteOk(next) && d == decision && failures == old(failures)
            && routes == old(routes)[key := next] && logs == old(logs)[key := old(LogAt(key)) + [event]])
        || (d == Failed(StorageFailed) && routes == old(routes) && logs == old(logs)
            && (if RouteOk(next) then failures > old(failures) else failures == old(failures)))
    }

    constructor (threshold: nat)
      requires 1 <= threshold <= MAX_THRESHOLD
      ensures Valid() && AllAligned() && routes == map[] && this.threshold == threshold
    {
      this.threshold := threshold;
      routes, logs, failures := map[], map[], 0;
    }

    /** `_validate_state`, check by check. */
    method Validate(r: Route) returns (ok: bool)
      ensures ok <==> RouteOk(r)
    {
      hide ActionHash, ArgumentsOk;
      if !CounterOk(r.revision) || !CounterOk(r.observations) || !CounterOk(r.conflicts) || !CounterOk(r.invalidations)
         || !CounterOk(r.hits) || !CounterOk(r.avoided) {
        return false;
      }
      if r.status.Invalidated? {
        return InvalidationReason(r.reason) && r.observations == 0 && r.action.None? && r.actionHash == [] && r.contractHash == [];
      }
      if r.action.None? || r.observations < 1 || !ArgumentsOk(r.action.value.arguments) {
        return false;
      }
      var a := r.action.value;
      if a.contractHash != r.contractHash || ActionHash(a) != r.actionHash {
        return false;
      }
      ok := r.reason == if r.status.Quarantined? then ActionConflict else NoReason;
    }

    /** `_load_state`. */
    method Load(key: Text) returns (r: Option<Route>)
      requires Valid()
      ensures r == RouteAt(key)
    {
      hide RouteOk, Explained;
      if key !in routes {
        return None;
      }
      assert KnownAs(RouteAt(key), LogAt(key));
      ExplainedParts(routes[key], LogAt(key));
      var ok := Validate(routes[key]);
      if !ok {
        return None;
      }
      r := Some(routes[key]);
    }

    /** `_write_state`: validated first, and the storage may still refuse.  The answer is given only after the write. */
    method Write(key: Text, next: Route, ghost event: Event, answer: Decision) returns (d: Decision)
      requires Valid() && Justified(RouteAt(key), LogAt(key), Change(next, event, answer), threshold)
      modifies this
      ensures Valid() && (old(AllAligned()) ==> AllAligned())
      ensures Took(key, Change(next, event, answer), d)
    {
      hide Explained, RouteOk, Aligned;
      assert old(AllAligned()) ==> AlignedTo(RouteAt(key), threshold);
      var ok := Validate(next);
      if !ok {
        return Failed(StorageFailed);
      }
      var written := *;
      if !written {
        failures := failures + 1;
        Unmoved();
        return Failed(StorageFailed);
      }
      routes := routes[key := next];
      logs := logs[key := LogAt(key) + [event]];
      forall other: Text ensures KnownAs(RouteAt(other), LogAt(other)) {
        assert other != key ==> old(KnownAs(RouteAt(other), LogAt(other)));
      }
      if old(AllAligned()) {
        forall other: Text ensures AlignedTo(RouteAt(other), threshold) {
          assert other != key ==> old(AlignedTo(RouteAt(other), threshold));
        }
      }
      d := answer;
    }

    /** `_invalidate_state`. */
    method Stop(key: Text, r: Route, reason: Reason) returns (d: Decision)
      requires Valid() && RouteAt(key) == Some(r) && !reason.ArgumentsInvalid?
      modifies this
      ensures Valid() && (old(AllAligned()) ==> AllAligned())
      ensures Took(key, OnStop(r, reason), d)
    {
      hide Valid, AllAligned, Justified, RouteOk;
      if r.status.Invalidated? && r.reason == reason {
        return Stopped(reason);
      }
      if r.invalidations == MAX_COUNTER {
        return Failed(InvalidRequest);
      }
      var next := r.(status := Invalidated, reason := reason);
      next := next.(observations := 0, actionHash := [], contractHash := [], action := None);
      next := next.(invalidations := next.invalidations + 1, revision := next.revision + 1);
      StopJustified(r, LogAt(key), reason, threshold);
      d := Write(key, next, Cleared, Stopped(reason));
    }

    /** `_quarantine_state`. */
    method Quarantine(key: Text, r: Route) returns (d: Decision)
      requires Valid() && RouteAt(key) == Some(r)
      requires Justified(RouteAt(key), LogAt(key), OnConflict(r), threshold)
      modifies this
      ensures Valid() && (old(AllAligned()) ==> AllAligned())
      ensures Took(key, OnConflict(r), d)
    {
      hide Valid, AllAligned, Justified, RouteOk;
      if r.conflicts == MAX_COUNTER {
        return Failed(InvalidRequest);
      }
      var next := r.(status := Quarantined, reason := ActionConflict);
      next := next.(conflicts := next.conflicts + 1, revision := next.revision + 1);
      d := Write(key, next, Conflicted, Stopped(ActionConflict));
    }

    // ----- operations -----

    /** `lookup`. */
    method Lookup(key: Text, tools: Toolbox) returns (d: Decision)
      requires Valid() && ToolboxOk(tools)
      modifies this
      ensures Valid() && (old(AllAligned()) ==> AllAligned())
      ensures Took(key, OnLookup(old(RouteAt(key)), tools, threshold), d)
    {
      hide Valid, AllAligned, Justified, RouteOk, ContractHash, Admits, ToolboxOk, Explained, OnStop, OnThreshold, Streak, Certified,
        ActionHash, ContractOk;
      var loaded := Load(key);
      if loaded.None? {
        return Miss(NoReason);
      }
      var r := loaded.value;
      assert Explained(r, LogAt(key)) by {
        KnownNow(key);
      }
      ExplainedParts(r, LogAt(key));
      if r.status.Quarantined? || r.status.Invalidated? {
        return Stopped(r.reason);
      }
      var action := r.action.value;
      if action.identity !in tools {
        d := Stop(key, r, NotAllowlisted);
        return;
      }
      var contract := tools[action.identity];
      if !contract.readOnly {
        d := Stop(key, r, NotReadOnly);
        return;
      }
      if ContractHash(contract) != r.contractHash {
        d := Stop(key, r, ContractChanged);
        return;
      }
      ToolIsOk(tools, action.identity);
      AgreedContractAdmits(r, LogAt(key), contract);
      if !Admits(contract.arguments, action.arguments) {
        return Stopped(ArgumentsInvalid);
      }
      ThresholdJustified(r, LogAt(key), threshold);
      d := Settle(key, r);
    }

    /** The end of `lookup`: the threshold decides, and the status is restated if it says otherwise. */
    method Settle(key: Text, r: Route) returns (d: Decision)
      requires Valid() && RouteAt(key) == Some(r) && r.action.Some? && (r.status.Learning? || r.status.Active?)
      requires Justified(RouteAt(key), LogAt(key), OnThreshold(r, threshold), threshold)
      modifies this
      ensures Valid() && (old(AllAligned()) ==> AllAligned())
      ensures Took(key, OnThreshold(r, threshold), d)
    {
      hide Valid, AllAligned, Justified, RouteOk;
      if r.observations < threshold {
        d := StillLearning(r.observations);
        if r.status.Active? {
          d := Write(key, r.(status := Learning, revision := r.revision + 1), Restated, d);
        }
        return;
      }
      d := Hit(r.action.value, r.observations);
      if r.status.Learning? {
        d := Write(key, r.(status := Active, revision := r.revision + 1), Restated, d);
      }
    }

    /** `observe_success`. */
    method ObserveSuccess(key: Text, identity: Identity, arguments: Json, tools: Toolbox) returns (d: Decision)
      requires Valid() && ToolboxOk(tools) && Cells.IsSnapshot(arguments) && ArgumentsOk(arguments)
      modifies this
      ensures Valid() && (old(AllAligned()) ==> AllAligned())
      ensures Took(key, OnObserve(old(RouteAt(key)), identity, arguments, tools, threshold), d)
    {
      hide Valid, AllAligned, Justified, RouteOk, ContractHash, Admits, ToolboxOk, Explained, ArgumentsOk, OnAction, Certified, ContractOk;
      if identity !in tools {
        return Miss(NotAllowlisted);
      }
      var contract := tools[identity];
      if !contract.readOnly {
        return Miss(NotReadOnly);
      }
      if !Admits(contract.arguments, arguments) {
        return Rejected;
      }
      var action := Action(identity, arguments, ContractHash(contract));
      ToolIsOk(tools, identity);
      CertifiedNow(action, contract);
      d := Observe(key, action);
    }

    /** The part of `observe_success` under the lock. */
    method Observe(key: Text, action: Action) returns (d: Decision)
      requires Valid() && Certified(action) && ArgumentsOk(action.arguments) && Cells.IsSnapshot(action.arguments)
      modifies this
      ensures Valid() && (old(AllAligned()) ==> AllAligned())
      ensures Took(key, OnAction(old(RouteAt(key)), action, threshold), d)
    {
      hide Valid, AllAligned, Justified, RouteOk, Explained, ArgumentsOk, Certified, ActionHash;
      assert KnownAs(RouteAt(key), LogAt(key)) && threshold >= 1 by {
        KnownNow(key);
      }
      ActionJustified(RouteAt(key), LogAt(key), action, threshold);
      var loaded := Load(key);
      var next: Route;
      if loaded.None? {
        next := NewRoute(action);
      } else if loaded.value.status.Quarantined? {
        return Stopped(ActionConflict);
      } else if loaded.value.status.Invalidated? {
        next := Restarted(loaded.value, action);
      } else {
        var r := loaded.value;
        ExplainedParts(r, LogAt(key));
        if r.action.value.identity != action.identity {
          d := Quarantine(key, r);
          return;
        }
        if r.contractHash != action.contractHash {
          next := Restarted(r.(invalidations := r.invalidations + 1), action);
        } else if r.actionHash != ActionHash(action) {
          d := Quarantine(key, r);
          return;
        } else {
          if r.observations == MAX_COUNTER {
            return Failed(InvalidRequest);
          }
          next := r.(observations := r.observations + 1, revision := r.revision + 1);
        }
      }
      next := next.(status := if next.observations >= threshold then Active else Learning, reason := NoReason);
      d := Write(key, next, Observed(action),
                 if next.status.Active? then Hit(action, next.observations) else StillLearning(next.observations));
    }

    /** `record_hit`: only an active route counts hits. */
    method RecordHit(key: Text, avoided: int) returns (d: Decision)
      requires Valid()
      modifies this
      ensures Valid() && (old(AllAligned()) ==> AllAligned())
      ensures Took(key, OnHit(old(RouteAt(key)), avoided), d)
    {
      hide Valid, AllAligned, Justified, RouteOk, Explained, Streak, Certified, ActionHash;
      if avoided < 0 || avoided > MAX_TOKEN_ESTIMATE {
        return Failed(InvalidRequest);
      }
      var loaded := Load(key);
      if loaded.None? || !loaded.value.status.Active? {
        return Failed(InvalidRequest);
      }
      var r := loaded.value;
      assert Explained(r, LogAt(key)) by {
        KnownNow(key);
      }
      ExplainedParts(r, LogAt(key));
      if r.hits == MAX_COUNTER || r.avoided > MAX_COUNTER - avoided {
        return Failed(InvalidRequest);
      }
      HitJustified(RouteAt(key), LogAt(key), avoided, threshold);
      var next := r.(hits := r.hits + 1, avoided := r.avoided + avoided, revision := r.revision + 1);
      d := Write(key, next, HitCounted, Hit(r.action.value, r.observations));
    }

    /** `invalidate`, by hand; it also ends a quarantine. */
    method Invalidate(key: Text) returns (d: Decision)
      requires Valid()
      modifies this
      ensures Valid() && (old(AllAligned()) ==> AllAligned())
      ensures Took(key, OnInvalidate(old(RouteAt(key))), d)
    {
      hide Valid, AllAligned, RouteOk, OnStop;
      var loaded := Load(key);
      if loaded.None? {
        return Miss(NoReason);
      }
      d := Stop(key, loaded.value, Manual);
    }

    /** A refused write changes nothing that validity speaks of. */
    twostate lemma Unmoved()
      requires old(Valid()) && routes == old(routes) && logs == old(logs)
      ensures Valid() && (old(AllAligned()) ==> AllAligned())
    {
      hide KnownAs, AlignedTo;
      forall key: Text ensures KnownAs(RouteAt(key), LogAt(key)) {
        assert old(KnownAs(RouteAt(key), LogAt(key)));
      }
      if old(AllAligned()) {
        forall key: Text ensures AlignedTo(RouteAt(key), threshold) {
          assert old(AlignedTo(RouteAt(key), threshold));
        }
      }
    }

    lemma KnownNow(key: Text)
      requires Valid()
      ensures KnownAs(RouteAt(key), LogAt(key)) && 1 <= threshold <= MAX_THRESHOLD
    {
      hide Explained;
    }
  }

  lemma ToolIsOk(tools: Toolbox, i: Identity)
    requires ToolboxOk(tools) && i in tools
    ensures tools[i].identity == i && ContractOk(tools[i])
  {
    hide ContractOk;
  }
}
