/**
 The queue of one owner and the pump that promotes its head (src/activeChildLease.ts).

 JavaScript runs a segment of the pump to its next await without interruption, so each method
 below is one such segment, and any segment may follow any other that is enabled.  A release that
 has been entered and not yet returned is counted in `releases`; without an I/O failure it ends by
 waking the pump.  A ticket is released from outside only while nobody waits on it.
 */
module QueuePump {
  import opened Outcomes

  type RunId = string

  datatype Local = Local(sequence: nat, ready: bool, cancelled: bool)

  type Queue = map<RunId, Local>

  /** Where the running pump stands: awaiting a promotion or a ticket release, or about to end. */
  datatype Pump = Idle | Promoting(run: RunId) | Releasing | Returning

  predicate Distinct(queued: Queue) {
    forall a, b :: a in queued && b in queued && queued[a].sequence == queued[b].sequence ==> a == b
  }

  predicate IsHead(queued: Queue, run: RunId) {
    run in queued && forall other :: other in queued ==> queued[run].sequence <= queued[other].sequence
  }

  lemma {:induction false} HeadExists(queued: Queue, keys: set<RunId>) returns (run: RunId)
    requires keys <= queued.Keys && keys != {}
    ensures run in keys && forall other :: other in keys ==> queued[run].sequence <= queued[other].sequence
    decreases |keys|
  {
    run :| run in keys;
    if keys != {run} {
      var other := HeadExists(queued, keys - {run});
      if queued[other].sequence < queued[run].sequence { run := other; }
    }
  }

  /** `localQueueHead`. */
  function Head(queued: Queue): (head: Option<RunId>)
    requires Distinct(queued)
    ensures head.None? <==> queued == map[]
    ensures head.Some? ==> IsHead(queued, head.value)
  {
    if queued == map[] then None
    else
      assert exists run :: IsHead(queued, run) by {
        assert queued.Keys != {};
        var run := HeadExists(queued, queued.Keys);
        assert IsHead(queued, run);
      }
      var run :| IsHead(queued, run);
      Some(run)
  }

  predicate HeadReady(queued: Queue)
    requires Distinct(queued)
  {
    Head(queued).Some? && queued[Head(queued).value].ready
  }

  /** Every wait that has been answered, and whether with a lease. */
  type Answers = map<RunId, bool>

  /**
   What a segment of the pump makes of a queue: it goes for the promotion of a live ready head,
   takes out and rejects a cancelled one, and ends where no head is ready.
   */
  ghost predicate Pumped(before: Queue, was: Answers, pump: Pump, after: Queue, answered: Answers)
    requires Distinct(before)
  {
    && (!HeadReady(before) ==> pump == Returning && after == before && answered == was)
    && (forall run :: IsHead(before, run) && before[run].ready ==>
          if before[run].cancelled
          then pump == Releasing && after == before - {run} && answered == was[run := false]
          else pump == Promoting(run) && after == before && answered == was)
  }

  /** A segment answers nobody but a head. */
  lemma AnswerStays(before: Queue, was: Answers, pump: Pump, after: Queue, answered: Answers, run: RunId)
    requires Distinct(before) && Pumped(before, was, pump, after, answered) && run !in before && run in was
    ensures run in answered && answered[run] == was[run]
  {
    if HeadReady(before) { assert IsHead(before, Head(before).value); }
  }

  /** The queue once the run's owner waits for its lease, or no longer wants it. */
  function Waiting(queued: Queue, run: RunId): Queue
    requires run in queued
  {
    queued[run := queued[run].(ready := true)]
  }

  function Cancelled(queued: Queue, run: RunId): Queue
    requires run in queued
  {
    queued[run := queued[run].(cancelled := true)]
  }

  class OwnerQueue {
    var queued: Queue
    var nextSequence: nat
    var pump: Pump
    var running: bool
    var wakePending: bool
    var timer: bool
    var releases: nat
    /** The sequence numbers of the leases handed to waiters, in order. */
    var granted: seq<nat>
    /** Every wait that has been answered: with a lease, or rejected. */
    var answered: Answers

    constructor ()
      ensures Valid() && queued == map[] && granted == [] && answered == map[]
    {
      queued, nextSequence, pump, running, wakePending, timer := map[], 0, Idle, false, false, false;
      releases, granted, answered := 0, [], map[];
    }

    ghost predicate QueueOk()
      reads this
    {
      && Distinct(queued)
      && (forall run :: run in queued ==> queued[run].sequence < nextSequence && run !in answered)
      && (forall a, b :: 0 <= a < b < |granted| ==> granted[a] < granted[b])
      && (forall a, run :: 0 <= a < |granted| && run in queued ==> granted[a] < queued[run].sequence)
      && (forall a :: 0 <= a < |granted| ==> granted[a] < nextSequence)
    }

    /** A ready head has a running pump, a set timer or a release that will wake it. */
    ghost predicate HeadIsServed()
      reads this
      requires Distinct(queued)
    {
      HeadReady(queued) ==> running || timer || releases > 0
    }

    ghost predicate PumpOk()
      reads this
    {
      && (running <==> !pump.Idle?)
      && (wakePending ==> running)
      && (pump.Promoting? ==> IsHead(queued, pump.run) && queued[pump.run].ready)
    }

    /** A pump about to end does not leave a ready head behind. */
    ghost predicate EndIsSafe()
      reads this
      requires Distinct(queued)
    {
      pump.Returning? && HeadReady(queued) ==> timer || wakePending || releases > 0
    }

    ghost predicate Valid()
      reads this
    {
      QueueOk() && PumpOk() && HeadIsServed() && EndIsSafe()
    }

    /** The pump from the top of its loop to its next await. */
    method PumpSegment()
      requires QueueOk() && running && !pump.Promoting?
      modifies this`pump, this`queued, this`answered
      ensures Valid() && !pump.Idle?
      ensures granted == old(granted) && queued.Keys <= old(queued).Keys
      ensures Pumped(old(queued), old(answered), pump, queued, answered)
    {
      var head := Head(queued);
      if head.None? || !queued[head.value].ready {
        pump := Returning;
        return;
      }
      if queued[head.value].cancelled {
        Forget(head.value, false);
        pump := Releasing;
        return;
      }
      pump := Promoting(head.value);
    }

    /** Takes a run out of the queue and answers its waiter. */
    method Forget(run: RunId, lease: bool)
      requires QueueOk() && run in queued
      modifies this`queued, this`answered
      ensures QueueOk()
      ensures queued == old(queued) - {run} && answered == old(answered)[run := lease]
    {
      answered := answered[run := lease];
      queued := queued - {run};
    }

    method WakeOwnerPump()
      requires QueueOk() && PumpOk()
      modifies this`pump, this`queued, this`answered, this`running, this`wakePending, this`timer
      ensures Valid() && running && granted == old(granted)
      ensures if old(running)
              then wakePending && pump == old(pump) && queued == old(queued) && answered == old(answered) && timer == old(timer)
              else !timer && wakePending == old(wakePending) && Pumped(old(queued), old(answered), pump, queued, answered)
    {
      if running {
        wakePending := true;
        return;
      }
      timer := false;
      running := true;
      PumpSegment();
    }

    method ScheduleOwnerPump()
      modifies this`timer
      ensures timer == (old(timer) || queued != map[])
    {
      if timer || queued == map[] { return; }
      timer := true;
    }

    /** The `finally` of the pump's promise. */
    method PumpEnds()
      requires Valid() && pump.Returning?
      modifies this
      ensures Valid() && granted == old(granted) && !wakePending && releases == old(releases)
      ensures if old(wakePending)
              then running && Pumped(old(queued), old(answered), pump, queued, answered)
              else pump == Idle && queued == old(queued) && answered == old(answered) && timer == old(timer)
    {
      hide Pumped, Head, IsHead, HeadReady;
      running, pump := false, Idle;
      if wakePending {
        wakePending := false;
        WakeOwnerPump();
      }
    }

    method TimerFires()
      requires Valid() && timer
      modifies this
      ensures Valid() && granted == old(granted) && running && !timer && releases == old(releases)
      ensures if old(running)
              then wakePending && pump == old(pump) && queued == old(queued) && answered == old(answered)
              else Pumped(old(queued), old(answered), pump, queued, answered)
    {
      timer := false;
      WakeOwnerPump();
    }

    /** Admission queues the run: last, and not ready. */
    method Enqueue(run: RunId)
      requires Valid() && run !in queued && run !in answered
      modifies this`queued, this`nextSequence
      ensures Valid()
      ensures queued == old(queued)[run := Local(old(nextSequence), false, false)] && nextSequence == old(nextSequence) + 1
    {
      ghost var before := queued;
      queued := queued[run := Local(nextSequence, false, false)];
      nextSequence := nextSequence + 1;
      AppendKeepsHead(before, queued, run);
    }

    method WaitForLease(run: RunId) returns (rejected: bool)
      requires Valid()
      modifies this
      ensures Valid() && granted == old(granted)
      ensures rejected <==> !(run in old(queued) && !old(queued)[run].ready)
      ensures rejected ==> queued == old(queued) && answered == old(answered) && pump == old(pump) && timer == old(timer)
      ensures !rejected ==> running && Distinct(Waiting(old(queued), run))
      ensures !rejected ==>
                if old(running)
                then wakePending && pump == old(pump) && queued == Waiting(old(queued), run) && answered == old(answered)
                else Pumped(Waiting(old(queued), run), old(answered), pump, queued, answered)
    {
      if run !in queued || queued[run].ready { return true; }
      ghost var before := queued;
      queued := Waiting(queued, run);
      SameOrder(before, queued);
      WakeOwnerPump();
      return false;
    }

    method Cancel(run: RunId)
      requires Valid() && run in queued && queued[run].ready
      modifies this
      ensures Valid() && granted == old(granted) && running && Distinct(Cancelled(old(queued), run))
      ensures if old(running)
              then wakePending && pump == old(pump) && queued == Cancelled(old(queued), run) && answered == old(answered)
              else Pumped(Cancelled(old(queued), run), old(answered), pump, queued, answered)
    {
      ghost var before := queued;
      queued := Cancelled(queued, run);
      SameOrder(before, queued);
      WakeOwnerPump();
    }

    /** A ticket released before anyone waits on it, up to its first await. */
    method BeginTicketRelease(run: RunId)
      requires Valid() && (run in queued ==> !queued[run].ready)
      modifies this`queued, this`answered, this`releases
      ensures Valid() && releases == old(releases) + 1 && queued == old(queued) - {run}
      ensures answered == if run in old(queued) then old(answered)[run := false] else old(answered)
    {
      if run in queued {
        assert pump.Promoting? ==> pump.run != run;
        Forget(run, false);
      }
      releases := releases + 1;
    }

    /** The release of an active lease, up to its first await. */
    method BeginLeaseRelease()
      requires Valid()
      modifies this`releases
      ensures Valid() && releases == old(releases) + 1
    {
      releases := releases + 1;
    }

    /** Either release ends by waking the pump. */
    method EndRelease()
      requires Valid() && releases > 0
      modifies this
      ensures Valid() && granted == old(granted) && running && releases == old(releases) - 1
      ensures if old(running)
              then wakePending && pump == old(pump) && queued == old(queued) && answered == old(answered)
              else Pumped(old(queued), old(answered), pump, queued, answered)
    {
      releases := releases - 1;
      WakeOwnerPump();
    }

    /** The pump's own release of a cancelled ticket is over; it wakes itself and goes on. */
    method ReleasingDone()
      requires Valid() && pump.Releasing?
      modifies this
      ensures Valid() && granted == old(granted) && running && wakePending && timer == old(timer)
      ensures Pumped(old(queued), old(answered), pump, queued, answered)
    {
      WakeOwnerPump();
      PumpSegment();
    }

    /** The promotion of the head is over: its lease goes to the waiter. */
    method PromotionGranted()
      requires Valid() && pump.Promoting?
      modifies this`queued, this`answered, this`granted, this`pump
      ensures Valid()
      ensures granted == old(granted) + [old(queued)[old(pump.run)].sequence]
      ensures forall other :: other in old(queued) && other != old(pump.run) ==>
                old(queued)[old(pump.run)].sequence < old(queued)[other].sequence
      // The waiter has its lease, and the pump goes on with the rest.
      ensures Pumped(old(queued) - {old(pump.run)}, old(answered)[old(pump.run) := true], pump, queued, answered)
      ensures old(pump.run) in answered && answered[old(pump.run)]
    {
      hide Pumped, Head, HeadReady;
      var run := pump.run;
      var sequence := queued[run].sequence;
      pump := Releasing;
      Forget(run, true);
      granted := granted + [sequence];
      ghost var rest, answers := queued, answered;
      PumpSegment();
      AnswerStays(rest, answers, pump, queued, answered, run);
    }

    /** Nothing was free, or the capacity lock stayed busy, or the run was cancelled meanwhile. */
    method PromotionPostponed(lockBusy: bool)
      requires Valid() && pump.Promoting?
      modifies this`queued, this`answered, this`timer, this`pump
      ensures Valid()
      ensures !lockBusy && old(queued)[old(pump.run)].cancelled ==>
                && queued == old(queued) - {old(pump.run)} && pump.Releasing?
                && answered == old(answered)[old(pump.run) := false] && timer == old(timer)
      ensures lockBusy || !old(queued)[old(pump.run)].cancelled ==>
                timer && queued == old(queued) && pump.Returning? && answered == old(answered)
    {
      if !lockBusy && queued[pump.run].cancelled {
        var run := pump.run;
        pump := Releasing;
        Forget(run, false);
        return;
      }
      ScheduleOwnerPump();
      pump := Returning;
    }

    /** The ticket is no longer this owner's: the waiter is rejected and the next head is tried. */
    method PromotionBroken()
      requires Valid() && pump.Promoting?
      modifies this`queued, this`answered, this`pump
      ensures Valid()
      ensures old(pump.run) !in queued && old(pump.run) in answered && !answered[old(pump.run)]
      ensures Pumped(old(queued) - {old(pump.run)}, old(answered)[old(pump.run) := false], pump, queued, answered)
    {
      hide Pumped, Head, HeadReady;
      var run := pump.run;
      pump := Releasing;
      Forget(run, false);
      ghost var rest, answers := queued, answered;
      PumpSegment();
      AnswerStays(rest, answers, pump, queued, answered, run);
    }
  }

  /** A newcomer is never the head of a queue that was not empty. */
  lemma AppendKeepsHead(before: Queue, after: Queue, run: RunId)
    requires Distinct(before) && Distinct(after) && run !in before && run in after && after == before[run := after[run]]
    requires forall other :: other in before ==> before[other].sequence < after[run].sequence
    ensures Head(after) == if before == map[] then Some(run) else Head(before)
  {
    if before != map[] {
      var head := Head(before).value;
      assert head in after;
      assert IsHead(after, head);
    }
  }

  lemma SameOrder(before: Queue, after: Queue)
    requires Distinct(before) && Distinct(after) && before.Keys == after.Keys
    requires forall run :: run in before ==> after[run].sequence == before[run].sequence
    ensures Head(after) == Head(before)
    ensures forall run :: IsHead(before, run) ==> IsHead(after, run)
  {
    if before != map[] {
      assert IsHead(after, Head(before).value);
      assert before[Head(after).value].sequence == before[Head(before).value].sequence;
    } else {
      assert after.Keys == {};
    }
  }
}
