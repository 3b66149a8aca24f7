/**
 * Reassembling streamed tool calls: fragments of several calls arrive
 * interleaved, and two slot tables say which call each one continues.
 */
module Streaming {
  import opened Texts

  /** A fragment of a tool call, and also a call assembled so far.  An empty id means none was given. */
  datatype Call = Call(id: Text, kind: Text, name: Text, arguments: Text)

  /** The calls so far, the slot last used at each position, and the slot of each id. */
  datatype Table = Table(calls: seq<Call>, positions: map<nat, nat>, ids: map<Text, nat>)

  const EMPTY := Table([], map[], map[])

  // ----- one fragment -----

  /** `new.startswith(old)`. */
  predicate StartsWith(new_: Text, old_: Text) {
    |old_| <= |new_| && new_[..|old_|] == old_
  }

  /** A text that repeats and extends what is there replaces it; any other is appended. */
  function MergeText(old_: Text, new_: Text): Text {
    if StartsWith(new_, old_) then new_ else old_ + new_
  }

  function Either(a: Text, b: Text): Text {
    if a != [] then a else b
  }

  /** `_merge_streamed_call`. */
  function Merge(previous: Option<Call>, current: Call): Call {
    match previous
    case None => current
    case Some(p) =>
      Call(Either(current.id, p.id), Either(current.kind, p.kind), MergeText(p.name, current.name),
           MergeText(p.arguments, current.arguments))
  }

  /** Both tables point inside the call list. */
  predicate InRange(t: Table) {
    && (forall p :: p in t.positions ==> t.positions[p] < |t.calls|)
    && (forall i :: i in t.ids ==> t.ids[i] < |t.calls|)
  }

  /** `_streamed_call_slot`. */
  function SlotOf(t: Table, call: Call, position: nat): (slot: nat)
    requires InRange(t)
    ensures slot <= |t.calls|
  {
    if call.id != [] && call.id in t.ids then t.ids[call.id]
    else if position in t.positions
            && (call.id == [] || t.calls[t.positions[position]].id == [] || t.calls[t.positions[position]].id == call.id)
    then t.positions[position]
    else if call.id == [] && |t.calls| == 1 then 0
    else |t.calls|
  }

  /** The tables after one fragment. */
  function Accept(t: Table, call: Call, position: nat): (r: Table)
    requires InRange(t)
    ensures InRange(r) && |t.calls| <= |r.calls| <= |t.calls| + 1
  {
    var slot := SlotOf(t, call, position);
    var merged := Merge(if slot < |t.calls| then Some(t.calls[slot]) else None, call);
    Table(if slot < |t.calls| then t.calls[slot := merged] else t.calls + [merged],
          t.positions[position := slot],
          if merged.id != [] then t.ids[merged.id := slot] else t.ids)
  }

  /** The fragments of one chunk from a given position on. */
  function AcceptFrom(t: Table, chunk: seq<Call>, position: nat): (r: Table)
    requires InRange(t) && position <= |chunk|
    ensures InRange(r)
    decreases |chunk| - position
  {
    if position == |chunk| then t else AcceptFrom(Accept(t, chunk[position], position), chunk, position + 1)
  }

  function AcceptAll(t: Table, chunks: seq<seq<Call>>): (r: Table)
    requires InRange(t)
    ensures InRange(r)
    decreases |chunks|
  {
    if chunks == [] then t else AcceptAll(AcceptFrom(t, chunks[0], 0), chunks[1..])
  }

  /** The chunk loop: one list and two tables, updated in place. */
  method Assemble(chunks: seq<seq<Call>>) returns (calls: seq<Call>)
    ensures calls == AcceptAll(EMPTY, chunks).calls
  {
    hide Accept, AcceptFrom;
    var positions: map<nat, nat>, ids: map<Text, nat> := map[], map[];
    calls := [];
    for i := 0 to |chunks|
      invariant InRange(Table(calls, positions, ids))
      invariant AcceptAll(EMPTY, chunks) == AcceptAll(Table(calls, positions, ids), chunks[i..])
    {
      assert chunks[i..][0] == chunks[i] && chunks[i..][1..] == chunks[i + 1..];
      calls, positions, ids := AssembleChunk(calls, positions, ids, chunks[i]);
    }
  }

  /** The fragments of one chunk, by position. */
  method AssembleChunk(calls0: seq<Call>, positions0: map<nat, nat>, ids0: map<Text, nat>, chunk: seq<Call>)
    returns (calls: seq<Call>, positions: map<nat, nat>, ids: map<Text, nat>)
    requires InRange(Table(calls0, positions0, ids0))
    ensures Table(calls, positions, ids) == AcceptFrom(Table(calls0, positions0, ids0), chunk, 0)
  {
    hide SlotOf, Merge, InRange;
    calls, positions, ids := calls0, positions0, ids0;
    ghost var start := Table(calls0, positions0, ids0);
    for position := 0 to |chunk|
      invariant InRange(Table(calls, positions, ids))
      invariant AcceptFrom(start, chunk, 0) == AcceptFrom(Table(calls, positions, ids), chunk, position)
    {
      ghost var before := Table(calls, positions, ids);
      var call := chunk[position];
      var slot := FindSlot(calls, positions, ids, call, position);
      var merged := Merge(if slot < |calls| then Some(calls[slot]) else None, call);
      if slot < |calls| {
        calls := calls[slot := merged];
      } else {
        calls := calls + [merged];
      }
      positions := positions[position := slot];
      if merged.id != [] {
        ids := ids[merged.id := slot];
      }
      assert Table(calls, positions, ids) == Accept(before, call, position);
    }
  }

  method FindSlot(calls: seq<Call>, positions: map<nat, nat>, ids: map<Text, nat>, call: Call, position: nat) returns (slot: nat)
    requires InRange(Table(calls, positions, ids))
    ensures slot == SlotOf(Table(calls, positions, ids), call, position)
  {
    if call.id != [] && call.id in ids {
      return ids[call.id];
    }
    if position in positions {
      var previous := calls[positions[position]];
      if call.id == [] || previous.id == [] || previous.id == call.id {
        return positions[position];
      }
    }
    if call.id == [] && |calls| == 1 {
      return 0;
    }
    slot := |calls|;
  }

  // ----- every stream: ids stay apart -----

  /** The id table is exactly the calls that have an id, so no id is assembled twice. */
  predicate IdsApart(t: Table) {
    && InRange(t)
    && (forall i :: i in t.ids ==> i != [] && t.calls[t.ids[i]].id == i)
    && (forall k :: 0 <= k < |t.calls| && t.calls[k].id != [] ==> t.calls[k].id in t.ids && t.ids[t.calls[k].id] == k)
  }

  lemma AcceptKeepsIdsApart(t: Table, call: Call, position: nat)
    requires IdsApart(t)
    ensures IdsApart(Accept(t, call, position))
  {
  }

  lemma ApartInRange(t: Table)
    ensures IdsApart(t) ==> InRange(t)
  {
  }

  lemma {:induction false} StreamKeepsIdsApart(t: Table, chunks: seq<seq<Call>>)
    requires IdsApart(t)
    ensures IdsApart(AcceptAll(t, chunks))
    decreases |chunks|
  {
    hide IdsApart, Accept;
    assert IdsApart(t) ==> InRange(t) by {
      ApartInRange(t);
    }
    if chunks != [] {
      ChunkKeepsIdsApart(t, chunks[0], 0);
      StreamKeepsIdsApart(AcceptFrom(t, chunks[0], 0), chunks[1..]);
    }
  }

  lemma {:induction false} ChunkKeepsIdsApart(t: Table, chunk: seq<Call>, position: nat)
    requires IdsApart(t) && position <= |chunk|
    ensures IdsApart(AcceptFrom(t, chunk, position))
    decreases |chunk| - position
  {
    if position < |chunk| {
      AcceptKeepsIdsApart(t, chunk[position], position);
      ChunkKeepsIdsApart(Accept(t, chunk[position], position), chunk, position + 1);
    }
  }

  /** For every stream, no two assembled calls carry the same id. */
  lemma IdsAreDistinct(chunks: seq<seq<Call>>, i: nat, j: nat)
    requires i < j < |AcceptAll(EMPTY, chunks).calls|
    ensures var calls := AcceptAll(EMPTY, chunks).calls; calls[i].id != [] ==> calls[i].id != calls[j].id
  {
    StreamKeepsIdsApart(EMPTY, chunks);
  }

  // ----- streams whose fragments all carry an id -----

  predicate AllIdentified(fragments: seq<Call>) {
    forall k :: 0 <= k < |fragments| ==> fragments[k].id != []
  }

  function Flatten(chunks: seq<seq<Call>>): seq<Call> {
    if chunks == [] then [] else chunks[0] + Flatten(chunks[1..])
  }

  /** The fragments of one id, in order of arrival. */
  function Of(fragments: seq<Call>, id: Text): seq<Call> {
    if fragments == [] then []
    else
      var before, last := Of(fragments[..|fragments| - 1], id), fragments[|fragments| - 1];
      if last.id == id then before + [last] else before
  }

  /** The ids in order of first appearance. */
  function Order(fragments: seq<Call>): seq<Text> {
    if fragments == [] then []
    else
      var before, last := Order(fragments[..|fragments| - 1]), fragments[|fragments| - 1];
      if last.id in before then before else before + [last.id]
  }

  /** A call as the fold of its own fragments. */
  function Fold(fragments: seq<Call>): Option<Call> {
    if fragments == [] then None
    else Some(Merge(Fold(fragments[..|fragments| - 1]), fragments[|fragments| - 1]))
  }

  /** One call per id, in order of first appearance, each the fold of that id's fragments. */
  predicate Demultiplexed(calls: seq<Call>, fragments: seq<Call>) {
    && |calls| == |Order(fragments)|
    && forall k :: 0 <= k < |calls| ==> Fold(Of(fragments, Order(fragments)[k])) == Some(calls[k])
  }

  lemma {:induction false} FoldKeepsId(fragments: seq<Call>, id: Text)
    requires id != []
    ensures Fold(Of(fragments, id)).Some? ==> Fold(Of(fragments, id)).value.id == id
    ensures Fold(Of(fragments, id)).Some? <==> id in Order(fragments)
  {
    if fragments != [] {
      var before, last := fragments[..|fragments| - 1], fragments[|fragments| - 1];
      FoldKeepsId(before, id);
      if last.id == id {
        assert (Of(before, id) + [last])[..|Of(before, id)|] == Of(before, id);
      }
    }
  }

  lemma {:induction false} OrderIsDistinct(fragments: seq<Call>)
    ensures forall i, j :: 0 <= i < j < |Order(fragments)| ==> Order(fragments)[i] != Order(fragments)[j]
  {
    if fragments != [] {
      OrderIsDistinct(fragments[..|fragments| - 1]);
    }
  }

  /** In a demultiplexed list each call carries the id it stands for. */
  lemma CallIds(calls: seq<Call>, fragments: seq<Call>)
    requires Demultiplexed(calls, fragments) && AllIdentified(fragments)
    ensures forall k :: 0 <= k < |calls| ==> calls[k].id == Order(fragments)[k] != []
  {
    forall k | 0 <= k < |calls| ensures calls[k].id == Order(fragments)[k] != [] {
      IdsIdentified(fragments, k);
      FoldKeepsId(fragments, Order(fragments)[k]);
    }
  }

  /** A fragment of an id not seen before opens a new call. */
  lemma NewIdOpens(t: Table, fragments: seq<Call>, call: Call, position: nat)
    requires IdsApart(t) && Demultiplexed(t.calls, fragments) && AllIdentified(fragments) && call.id != []
    requires call.id !in Order(fragments)
    ensures Accept(t, call, position).calls == t.calls + [call]
  {
    CallIds(t.calls, fragments);
    assert forall k :: 0 <= k < |t.calls| ==> t.calls[k].id in Order(fragments);
  }

  /** A fragment of a known id continues that id's call, wherever it arrives. */
  lemma KnownIdContinues(t: Table, fragments: seq<Call>, call: Call, position: nat, k: nat)
    requires IdsApart(t) && Demultiplexed(t.calls, fragments) && AllIdentified(fragments) && call.id != []
    requires k < |t.calls| && Order(fragments)[k] == call.id
    ensures Accept(t, call, position).calls == t.calls[k := Merge(Some(t.calls[k]), call)]
  {
    hide Merge, Demultiplexed;
    CallIds(t.calls, fragments);
  }

  lemma OfAppended(fragments: seq<Call>, call: Call, id: Text)
    ensures Of(fragments + [call], id) == if call.id == id then Of(fragments, id) + [call] else Of(fragments, id)
    ensures Order(fragments + [call]) == if call.id in Order(fragments) then Order(fragments) else Order(fragments) + [call.id]
  {
    assert (fragments + [call])[..|fragments|] == fragments;
  }

  lemma FoldAppended(fragments: seq<Call>, call: Call)
    ensures Fold(fragments + [call]) == Some(Merge(Fold(fragments), call))
  {
    assert (fragments + [call])[..|fragments|] == fragments;
  }

  lemma AcceptDemultiplexes(t: Table, fragments: seq<Call>, call: Call, position: nat)
    requires IdsApart(t) && Demultiplexed(t.calls, fragments) && AllIdentified(fragments) && call.id != []
    ensures Demultiplexed(Accept(t, call, position).calls, fragments + [call])
  {
    hide Accept, Merge, Of, Order, Fold, IdsApart;
    var all, order := fragments + [call], Order(fragments);
    OrderIsDistinct(fragments);
    OfAppended(fragments, call, call.id);
    FoldAppended(Of(fragments, call.id), call);
    FoldKeepsId(fragments, call.id);
    ApartInRange(t);
    if call.id in order {
      var k :| 0 <= k < |order| && order[k] == call.id;
      KnownIdContinues(t, fragments, call, position, k);
      forall j | 0 <= j < |order| ensures Fold(Of(all, order[j])) == Some(Accept(t, call, position).calls[j]) {
        OfAppended(fragments, call, order[j]);
      }
    } else {
      NewIdOpens(t, fragments, call, position);
      OpensFold(fragments, call);
      forall j | 0 <= j < |order| ensures Fold(Of(all, order[j])) == Some(Accept(t, call, position).calls[j]) {
        OfAppended(fragments, call, order[j]);
      }
    }
  }

  lemma OpensFold(fragments: seq<Call>, call: Call)
    requires Fold(Of(fragments, call.id)).None?
    ensures Merge(Fold(Of(fragments, call.id)), call) == call
  {
  }

  lemma {:induction false} IdsIdentified(fragments: seq<Call>, k: nat)
    requires AllIdentified(fragments) && k < |Order(fragments)|
    ensures Order(fragments)[k] != []
  {
    var before := fragments[..|fragments| - 1];
    if k < |Order(before)| {
      IdsIdentified(before, k);
    }
  }

  lemma {:induction false} ChunkDemultiplexes(t: Table, fragments: seq<Call>, chunk: seq<Call>, position: nat)
    requires IdsApart(t) && Demultiplexed(t.calls, fragments) && AllIdentified(fragments) && AllIdentified(chunk)
    requires position <= |chunk|
    ensures Demultiplexed(AcceptFrom(t, chunk, position).calls, fragments + chunk[position..])
    ensures IdsApart(AcceptFrom(t, chunk, position))
    decreases |chunk| - position
  {
    hide Accept, Demultiplexed, IdsApart;
    ApartInRange(t);
    if position == |chunk| {
      assert fragments + chunk[position..] == fragments;
    } else {
      var call := chunk[position];
      AcceptKeepsIdsApart(t, call, position);
      AcceptDemultiplexes(t, fragments, call, position);
      ChunkDemultiplexes(Accept(t, call, position), fragments + [call], chunk, position + 1);
      assert (fragments + [call]) + chunk[position + 1..] == fragments + chunk[position..];
    }
  }

  lemma {:induction false} FlattenIdentified(chunks: seq<seq<Call>>)
    requires AllIdentified(Flatten(chunks)) && chunks != []
    ensures AllIdentified(chunks[0]) && AllIdentified(Flatten(chunks[1..]))
  {
    var all := Flatten(chunks);
    assert forall k :: 0 <= k < |chunks[0]| ==> all[k] == chunks[0][k];
    assert forall k :: 0 <= k < |Flatten(chunks[1..])| ==> all[|chunks[0]| + k] == Flatten(chunks[1..])[k];
  }

  lemma {:induction false} StreamFrom(t: Table, fragments: seq<Call>, chunks: seq<seq<Call>>)
    requires IdsApart(t) && Demultiplexed(t.calls, fragments) && AllIdentified(fragments) && AllIdentified(Flatten(chunks))
    ensures Demultiplexed(AcceptAll(t, chunks).calls, fragments + Flatten(chunks))
    decreases |chunks|
  {
    hide AcceptFrom, Demultiplexed, IdsApart;
    ApartInRange(t);
    if chunks == [] {
      assert fragments + Flatten(chunks) == fragments;
    } else {
      FlattenIdentified(chunks);
      ChunkDemultiplexes(t, fragments, chunks[0], 0);
      assert chunks[0][0..] == chunks[0];
      StreamFrom(AcceptFrom(t, chunks[0], 0), fragments + chunks[0], chunks[1..]);
      assert (fragments + chunks[0]) + Flatten(chunks[1..]) == fragments + Flatten(chunks);
    }
  }

  /**
   * For every interleaving of fragments that all carry ids, the assembled calls
   * are one per id in order of first appearance, each the fold of that id's own
   * fragments: neither positions nor chunk boundaries matter.
   */
  lemma StreamDemultiplexes(chunks: seq<seq<Call>>)
    requires AllIdentified(Flatten(chunks))
    ensures Demultiplexed(AcceptAll(EMPTY, chunks).calls, Flatten(chunks))
  {
    StreamFrom(EMPTY, [], chunks);
    assert [] + Flatten(chunks) == Flatten(chunks);
  }

  // ----- whole texts and deltas -----

  /** Streams of growing texts: where each one repeats what came before, the last one is the result. */
  lemma {:induction false} GrowingTextsKeepTheLast(texts: seq<Text>)
    requires texts != [] && forall k :: 0 < k < |texts| ==> StartsWith(texts[k], texts[k - 1])
    ensures Joined(texts) == texts[|texts| - 1]
  {
    if |texts| > 1 {
      GrowingTextsKeepTheLast(texts[..|texts| - 1]);
    }
  }

  /** The text merged from the fragments of one call. */
  function Joined(texts: seq<Text>): Text {
    if texts == [] then [] else MergeText(Joined(texts[..|texts| - 1]), texts[|texts| - 1])
  }

  function Concatenated(texts: seq<Text>): Text {
    if texts == [] then [] else Concatenated(texts[..|texts| - 1]) + texts[|texts| - 1]
  }

  /**
   * A delta is appended exactly when it does not happen to start with
   * everything merged so far.
   */
  lemma DeltaIsAppended(old_: Text, delta: Text)
    ensures MergeText(old_, delta) == old_ + delta <==> old_ == [] || !StartsWith(delta, old_)
  {
    if old_ == [] {
      assert old_ + delta == delta;
    } else if StartsWith(delta, old_) {
      assert |old_ + delta| > |delta|;
    }
  }

  /** No delta starts with all the deltas before it, unless those are empty. */
  predicate Unambiguous(texts: seq<Text>) {
    forall k :: 0 <= k < |texts| ==> Concatenated(texts[..k]) == [] || !StartsWith(texts[k], Concatenated(texts[..k]))
  }

  lemma {:induction false} JoinedIsNoLonger(texts: seq<Text>)
    ensures |Joined(texts)| <= |Concatenated(texts)|
  {
    if texts != [] {
      JoinedIsNoLonger(texts[..|texts| - 1]);
    }
  }

  lemma UnambiguousSplit(texts: seq<Text>)
    requires texts != []
    ensures var before, last := texts[..|texts| - 1], texts[|texts| - 1];
            Unambiguous(texts) <==> Unambiguous(before) && (Concatenated(before) == [] || !StartsWith(last, Concatenated(before)))
  {
    var before := texts[..|texts| - 1];
    assert forall k :: 0 <= k < |before| ==> before[..k] == texts[..k] && before[k] == texts[k];
  }

  /** Deltas are joined to their concatenation exactly when none of them starts with all that came before it. */
  lemma {:induction false} DeltasConcatenate(texts: seq<Text>)
    ensures Joined(texts) == Concatenated(texts) <==> Unambiguous(texts)
  {
    if texts != [] {
      var before, last := texts[..|texts| - 1], texts[|texts| - 1];
      DeltasConcatenate(before);
      UnambiguousSplit(texts);
      JoinedIsNoLonger(before);
      DeltaIsAppended(Joined(before), last);
      if Joined(texts) == Concatenated(texts) {
        SameTail(Joined(before), Concatenated(before), last);
      }
    }
  }

  /** If merging gives the concatenation, what was merged before was the concatenation too. */
  lemma SameTail(a: Text, b: Text, last: Text)
    requires |a| <= |b| && MergeText(a, last) == b + last
    ensures a == b
  {
    assert |MergeText(a, last)| <= |a| + |last|;
    assert |a| == |b|;
    if StartsWith(last, a) {
      assert b == [] && a == [];
    } else {
      assert (a + last)[..|a|] == a && (b + last)[..|b|] == b;
    }
  }

  /** Deltas that repeat themselves are lost: "1" and then "11" merge to "11". */
  lemma RepeatingDeltaIsLost()
    ensures MergeText(Ascii("1"), Ascii("11")) != Ascii("1") + Ascii("11")
  {
    assert Ascii("11")[..1] == Ascii("1");
    DeltaIsAppended(Ascii("1"), Ascii("11"));
  }
}
