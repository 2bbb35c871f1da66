/**
 The in-process owner of one run (`withRunOwner`, src/runTask.ts): a chain of promises in a map
 whose last link deletes the map entry again.

 Calls are numbered in the order they arrive.  A call waits for the promise that was in the map
 when it arrived; the promise of a call resolves when the one it waited for has and the call has
 released.  Arrival, entry and release are single segments of JavaScript, so they are the steps.
 */
module OwnerChain {
  import opened Outcomes

  datatype Phase = Waiting | Running | Released

  datatype Call = Call(previous: Option<nat>, phase: Phase)

  /** The promise `queued` of call `k`. */
  predicate Resolved(calls: seq<Call>, k: nat)
    requires k < |calls|
  {
    && calls[k].phase == Released
    && (calls[k].previous.Some? ==> calls[k].previous.value < k && Resolved(calls, calls[k].previous.value))
  }

  predicate MayEnter(calls: seq<Call>, k: nat)
    requires k < |calls|
  {
    && calls[k].phase == Waiting
    && (calls[k].previous.Some? ==> calls[k].previous.value < k && Resolved(calls, calls[k].previous.value))
  }

  predicate AllReleased(calls: seq<Call>, n: nat)
    requires n <= |calls|
  {
    forall k :: 0 <= k < n ==> calls[k].phase == Released
  }

  predicate Linked(calls: seq<Call>) {
    forall k :: 0 <= k < |calls| ==>
      if calls[k].previous.Some? then calls[k].previous.value == k - 1 else AllReleased(calls, k)
  }

  predicate InOrder(calls: seq<Call>) {
    forall k :: 0 <= k < |calls| && calls[k].phase != Waiting ==> AllReleased(calls, k)
  }

  predicate EntryFits(calls: seq<Call>, entry: Option<nat>) {
    if entry.Some? then calls != [] && entry.value == |calls| - 1 && calls[entry.value].phase != Released
    else AllReleased(calls, |calls|)
  }

  predicate Fits(calls: seq<Call>, entry: Option<nat>) {
    Linked(calls) && InOrder(calls) && EntryFits(calls, entry)
  }

  /** A promise of the chain resolves exactly when its call and all earlier ones have released. */
  lemma {:induction false} ResolvedExactly(calls: seq<Call>, k: nat)
    requires Linked(calls) && k < |calls|
    ensures Resolved(calls, k) <==> AllReleased(calls, k + 1)
  {
    if calls[k].previous.Some? {
      ResolvedExactly(calls, k - 1);
      if Resolved(calls, k) { assert AllReleased(calls, k); }
    }
  }

  lemma EntersExactly(calls: seq<Call>, k: nat)
    requires Linked(calls) && k < |calls|
    ensures MayEnter(calls, k) <==> calls[k].phase == Waiting && AllReleased(calls, k)
  {
    if calls[k].previous.Some? { ResolvedExactly(calls, k - 1); }
  }

  /** At most one call runs, and it is the first that has not released. */
  lemma MutualExclusion(calls: seq<Call>, entry: Option<nat>, a: nat, b: nat)
    requires Fits(calls, entry) && a < |calls| && b < |calls|
    requires calls[a].phase == Running && calls[b].phase != Released
    ensures a <= b && (calls[b].phase == Running ==> a == b)
  {
    assert AllReleased(calls, a);
    assert calls[b].phase != Waiting ==> AllReleased(calls, b);
  }

  /** The chain never stalls: the first call that has not released runs or may enter. */
  lemma {:induction false} NeverStalls(calls: seq<Call>, entry: Option<nat>, k: nat)
    requires Fits(calls, entry) && k < |calls| && calls[k].phase != Released && AllReleased(calls, k)
    ensures calls[k].phase == Running || MayEnter(calls, k)
  {
    EntersExactly(calls, k);
  }

  class RunOwner {
    var calls: seq<Call>
    var entry: Option<nat>

    constructor ()
      ensures Valid() && calls == [] && entry == None
    {
      calls, entry := [], None;
    }

    predicate Valid()
      reads this
    {
      Fits(calls, entry)
    }

    method Arrive() returns (k: nat)
      requires Valid()
      modifies this
      ensures Valid() && k == |old(calls)| && entry == Some(k)
      ensures calls == old(calls) + [Call(old(entry), Waiting)]
    {
      k := |calls|;
      ghost var before := calls;
      calls := calls + [Call(entry, Waiting)];
      entry := Some(k);
      ArrivalFits(before, old(entry));
    }

    method Enter(k: nat)
      requires Valid() && k < |calls| && MayEnter(calls, k)
      modifies this`calls
      ensures Valid() && calls == old(calls)[k := old(calls)[k].(phase := Running)]
      ensures AllReleased(old(calls), k)
    {
      EntersExactly(calls, k);
      EntryFitsEnter(calls, entry, k);
      calls := calls[k := calls[k].(phase := Running)];
    }

    /** The `finally`: release, and drop the map entry if nobody queued behind. */
    method Leave(k: nat)
      requires Valid() && k < |calls| && calls[k].phase == Running
      modifies this
      ensures Valid() && calls == old(calls)[k := old(calls)[k].(phase := Released)]
      ensures entry == if k == |calls| - 1 then None else old(entry)
    {
      LeaveFits(calls, entry, k);
      calls := calls[k := calls[k].(phase := Released)];
      if entry == Some(k) {
        entry := None;
      }
    }
  }

  lemma ArrivalFits(calls: seq<Call>, entry: Option<nat>)
    requires Fits(calls, entry)
    ensures Fits(calls + [Call(entry, Waiting)], Some(|calls|))
  {
    var after := calls + [Call(entry, Waiting)];
    forall k | 0 <= k < |after|
      ensures if after[k].previous.Some? then after[k].previous.value == k - 1 else AllReleased(after, k)
      ensures after[k].phase != Waiting ==> AllReleased(after, k)
    {
      if k < |calls| {
        assert after[k] == calls[k];
        assert AllReleased(calls, k) ==> AllReleased(after, k);
      }
    }
  }

  lemma EntryFitsEnter(calls: seq<Call>, entry: Option<nat>, k: nat)
    requires Fits(calls, entry) && k < |calls| && calls[k].phase == Waiting && AllReleased(calls, k)
    ensures Fits(calls[k := calls[k].(phase := Running)], entry)
  {
    var after := calls[k := calls[k].(phase := Running)];
    forall j | 0 <= j < |after|
      ensures if after[j].previous.Some? then after[j].previous.value == j - 1 else AllReleased(after, j)
      ensures after[j].phase != Waiting ==> AllReleased(after, j)
    {
      if j > k {
        assert !AllReleased(calls, j);
      }
    }
  }

  lemma LeaveFits(calls: seq<Call>, entry: Option<nat>, k: nat)
    requires Fits(calls, entry) && k < |calls| && calls[k].phase == Running
    ensures Fits(calls[k := calls[k].(phase := Released)], if entry == Some(k) then None else entry)
  {
    var after := calls[k := calls[k].(phase := Released)];
    assert AllReleased(calls, k);
    forall j | 0 <= j < |after|
      ensures if after[j].previous.Some? then after[j].previous.value == j - 1 else AllReleased(after, j)
      ensures after[j].phase != Waiting ==> AllReleased(after, j)
    {
      if j > k { assert !AllReleased(calls, j); }
      assert AllReleased(calls, j) ==> AllReleased(after, j);
    }
  }
}
