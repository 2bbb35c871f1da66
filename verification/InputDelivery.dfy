/**
 Answers to a running child's questions: the owner's deliveries (src/runTask.ts), the mailbox of
 settlements (src/inputMailbox.ts) and the child's end of the channel (src/piChildControl.ts).

 The owner's operations hold the run's owner chain (module OwnerChain), so each is one step, in
 any order; the close after an accepted cancellation is a step of its own, outside the chain.  A
 settlement file is created exclusively.  The mailbox also takes `timed_out`, which no step of the
 program writes; the owner's invariant is stated so that it holds beside such a settlement.  I/O
 does not fail, but for the send to the child, which may.  SHA-256 of an answer is the answer itself.
 */
module InputDelivery {
  import opened Outcomes

  type RequestId = string
  type ResponseId = string

  datatype Status = Pending | Answered | TimedOut | Closed

  /** A settlement file, with its time. */
  datatype Settlement =
    | AnsweredBy(responseId: ResponseId, receipt: string, at: string)
    | TimedOutAt(at: string)
    | ClosedFor(reason: string, at: string)

  datatype Delivery = Delivery(responseId: ResponseId, answer: string, receipt: string)

  /** A response frame on the channel to the child. */
  datatype Frame = Frame(request: RequestId, responseId: ResponseId, answer: string)

  function Count(frames: seq<Frame>, request: RequestId): nat {
    if frames == [] then 0
    else Count(frames[..|frames| - 1], request) + if frames[|frames| - 1].request == request then 1 else 0
  }

  lemma CountNext(frames: seq<Frame>, frame: Frame, request: RequestId)
    ensures Count(frames + [frame], request) == Count(frames, request) + if frame.request == request then 1 else 0
  {
    assert (frames + [frame])[..|frames|] == frames;
  }

  lemma {:induction false} CountPrefix(frames: seq<Frame>, n: nat, request: RequestId)
    requires n <= |frames|
    ensures Count(frames[..n], request) <= Count(frames, request)
  {
    if n < |frames| {
      CountPrefix(frames[..|frames| - 1], n, request);
      assert frames[..|frames| - 1][..n] == frames[..n];
    } else {
      assert frames[..n] == frames;
    }
  }

  lemma {:induction false} CountFinds(frames: seq<Frame>, frame: Frame)
    requires frame in frames
    ensures Count(frames, frame.request) > 0
  {
    if frames[|frames| - 1] != frame { CountFinds(frames[..|frames| - 1], frame); }
  }

  datatype InputError =
    | AlreadyAnswered
    | ResponseConflict
    | NotPartOfRun
    | AlreadyClosed
    | AlreadyTimedOut
    | NotAccepting
    | InvalidAnswer

  datatype Answer = Replayed(receipt: string) | Awaiting(receipt: string) | Declined(error: InputError)

  // ---------------------------------------------------------------- the mailbox

  /** One attempt to settle a request, by the owner, a reconciliation or the child. */
  datatype Attempt = Attempt(request: RequestId, settlement: Settlement)

  function AfterOne(settled: map<RequestId, Settlement>, attempt: Attempt): map<RequestId, Settlement> {
    if attempt.request in settled then settled else settled[attempt.request := attempt.settlement]
  }

  function AfterAll(settled: map<RequestId, Settlement>, attempts: seq<Attempt>): map<RequestId, Settlement>
    decreases |attempts|
  {
    if attempts == [] then settled else AfterAll(AfterOne(settled, attempts[0]), attempts[1..])
  }

  predicate FirstFor(attempts: seq<Attempt>, k: nat, request: RequestId) {
    k < |attempts| && attempts[k].request == request && forall j :: 0 <= j < k ==> attempts[j].request != request
  }

  /** Whoever makes the attempts and in whatever order: a request is settled by the first one, for good. */
  lemma {:induction false} FirstSettlementWins(settled: map<RequestId, Settlement>, attempts: seq<Attempt>, request: RequestId)
    ensures var last := AfterAll(settled, attempts);
            && (request in settled ==> request in last && last[request] == settled[request])
            && (request !in settled ==>
                  (request in last <==> exists k: nat :: FirstFor(attempts, k, request))
                  && forall k: nat :: FirstFor(attempts, k, request) ==> last[request] == attempts[k].settlement)
    decreases |attempts|
  {
    if attempts != [] {
      var next, rest := AfterOne(settled, attempts[0]), attempts[1..];
      FirstSettlementWins(next, rest, request);
      if request !in settled {
        if attempts[0].request == request {
          assert FirstFor(attempts, 0, request);
          forall k: nat | FirstFor(attempts, k, request) ensures k == 0 {}
        } else {
          forall k: nat ensures FirstFor(rest, k, request) <==> FirstFor(attempts, k + 1, request) {
            FirstShifts(attempts, k, request);
          }
          if k: nat :| FirstFor(rest, k, request) { assert FirstFor(attempts, k + 1, request); }
          forall k: nat | FirstFor(attempts, k, request) ensures k > 0 && FirstFor(rest, k - 1, request) {
            FirstShifts(attempts, k - 1, request);
          }
        }
      }
    }
  }

  lemma FirstShifts(attempts: seq<Attempt>, k: nat, request: RequestId)
    requires attempts != [] && attempts[0].request != request
    ensures FirstFor(attempts[1..], k, request) <==> FirstFor(attempts, k + 1, request)
  {
    if FirstFor(attempts[1..], k, request) {
      forall j | 0 <= j < k + 1 ensures attempts[j].request != request {
        if j > 0 { assert attempts[1..][j - 1] == attempts[j]; }
      }
    }
    if FirstFor(attempts, k + 1, request) {
      forall j | 0 <= j < k ensures attempts[1..][j].request != request { assert attempts[1..][j] == attempts[j + 1]; }
    }
  }

  predicate TimedOutOnDisk(settled: map<RequestId, Settlement>, request: RequestId) {
    request in settled && settled[request].TimedOutAt?
  }

  ghost predicate NoneTimedOut(settled: map<RequestId, Settlement>) {
    forall request :: !TimedOutOnDisk(settled, request)
  }

  /** What closing leaves: the settlements there were, and a closed one for every other request. */
  ghost predicate ClosesPending(
    requests: set<RequestId>, before: map<RequestId, Settlement>, after: map<RequestId, Settlement>, settlement: Settlement)
  {
    && after.Keys == before.Keys + requests
    && (forall request :: request in before ==> after[request] == before[request])
    && (forall request :: request in requests && request !in before ==> after[request] == settlement)
  }

  /** The settlement files of one run's requests. */
  class Mailbox {
    var requests: set<RequestId>
    var settled: map<RequestId, Settlement>

    constructor ()
      ensures requests == {} && settled == map[]
    {
      requests, settled := {}, map[];
    }

    method Create(request: RequestId)
      modifies this`requests
      ensures requests == old(requests) + {request}
    {
      requests := requests + {request};
    }

    /** `settleInputRequestAtPath`: the file is created exclusively. */
    method Settle(request: RequestId, settlement: Settlement) returns (won: bool)
      modifies this`settled
      ensures settled == AfterOne(old(settled), Attempt(request, settlement))
      ensures won <==> request !in old(settled)
    {
      won := request !in settled;
      if won {
        settled := settled[request := settlement];
      }
    }

    /** Settles what is still pending, whatever order the requests are listed in. */
    method ClosePending(reason: string, at: string)
      modifies this`settled
      ensures ClosesPending(requests, old(settled), settled, ClosedFor(reason, at))
    {
      var todo := requests - settled.Keys;
      while todo != {}
        invariant todo <= requests && todo !! settled.Keys
        invariant old(settled).Keys <= settled.Keys <= old(settled).Keys + requests
        invariant requests - todo <= settled.Keys
        invariant forall request :: request in old(settled) ==> settled[request] == old(settled)[request]
        invariant forall request :: request in settled && request !in old(settled) ==> settled[request] == ClosedFor(reason, at)
        decreases |todo|
      {
        var request :| request in todo;
        var won := Settle(request, ClosedFor(reason, at));
        todo := todo - {request};
      }
    }
  }

  /** The owner's side of one run. */
  class InputDesk {
    const mailbox: Mailbox
    var status: map<RequestId, Status>
    var deliveries: map<RequestId, Delivery>
    var accepted: map<RequestId, Delivery>
    var cancelRequested: bool
    var terminalizing: bool
    /** Everything ever sent to the child. */
    var frames: seq<Frame>
    /** The requests whose acceptance lost against another settlement. */
    ghost var lost: set<RequestId>

    constructor (mailbox: Mailbox)
      requires mailbox.settled == map[]
      ensures Valid() && this.mailbox == mailbox && frames == [] && lost == {} && !cancelRequested && !terminalizing
      ensures deliveries == map[] && accepted == map[]
    {
      this.mailbox := mailbox;
      status, deliveries, accepted := map[], map[], map[];
      cancelRequested, terminalizing, frames, lost := false, false, [], {};
    }

    ghost predicate Sent(request: RequestId, delivery: Delivery)
      reads this`frames
    {
      Frame(request, delivery.responseId, delivery.answer) in frames
    }

    ghost predicate Valid()
      reads this, mailbox
    {
      forall request :: Fits(request)
    }

    /** What holds of each request, known or not. */
    ghost predicate Fits(request: RequestId)
      reads this, mailbox
    {
      // At most one frame, unless its acceptance has lost, which only a timed-out settlement can do.
      && (request !in lost ==> Count(frames, request) <= 1)
      && (request in lost ==>
            Count(frames, request) > 0 && request in mailbox.settled && mailbox.settled[request].TimedOutAt?)
      && (request in deliveries ==> request !in accepted && Sent(request, deliveries[request]))
      // While the run accepts input, every frame is awaited or accepted, or its acceptance has lost.
      && (!cancelRequested && !terminalizing && Count(frames, request) > 0 ==>
            request in deliveries || request in accepted || request in lost)
      // Acceptance in memory is the answered settlement on disk, and nothing else is.
      && (request in accepted ==>
            && Sent(request, accepted[request])
            && request in mailbox.settled && mailbox.settled[request].AnsweredBy?
            && mailbox.settled[request].responseId == accepted[request].responseId
            && mailbox.settled[request].receipt == accepted[request].receipt)
      && (request in mailbox.settled && mailbox.settled[request].AnsweredBy? ==> request in accepted)
      && (request in mailbox.settled && mailbox.settled[request].ClosedFor? ==> cancelRequested || terminalizing)
    }

    /** `listInputRequests`, when the child reports an input event. */
    method Refresh()
      requires Valid()
      modifies this`status
      ensures Valid()
      ensures status.Keys == mailbox.requests
      ensures forall request :: request in status ==> (status[request] == Pending <==> request !in mailbox.settled)
      ensures forall request :: request in status ==>
                (status[request] == Answered <==> request in accepted)
                && (status[request] == TimedOut <==> TimedOutOnDisk(mailbox.settled, request))
                && (status[request] == Closed <==> request in mailbox.settled && mailbox.settled[request].ClosedFor?)
                && (status[request] == Closed ==> cancelRequested || terminalizing)
                && (request in lost ==> status[request] != Pending)
    {
      status := map request | request in mailbox.requests ::
        if request !in mailbox.settled then Pending
        else if mailbox.settled[request].AnsweredBy? then Answered
        else if mailbox.settled[request].TimedOutAt? then TimedOut
        else Closed;
      forall other ensures Fits(other) { assert old(Fits(other)); }
      forall request | request in status
        ensures status[request] == Answered <==> request in accepted
        ensures status[request] == Closed ==> cancelRequested || terminalizing
        ensures request in lost ==> status[request] != Pending
      {
        assert Fits(request);
      }
    }

    /**
     A settlement as timed out, which the mailbox takes and no step of the program makes.  The
     invariant holds beside it, so what is proved without it says what would be lost with it.
     */
    method TimesOut(request: RequestId, at: string) returns (won: bool)
      requires Valid()
      modifies mailbox`settled
      ensures Valid()
      ensures mailbox.settled == AfterOne(old(mailbox.settled), Attempt(request, TimedOutAt(at)))
      ensures won <==> request !in old(mailbox.settled)
    {
      won := mailbox.Settle(request, TimedOutAt(at));
      forall other ensures Fits(other) { assert old(Fits(other)); }
    }

    /**
     `answerRunTaskInput`.  `valid` is the verdict on the answer's form, `sends` whether the child's
     channel takes the frame.
     */
    method AnswerInput(request: RequestId, responseId: ResponseId, answer: string, receipt: string, valid: bool, sends: bool)
      returns (outcome: Answer)
      requires Valid()
      modifies this`deliveries, this`frames
      ensures Valid()
      // One that was accepted is replayed to the exact retry and to nobody else.
      ensures request in accepted ==>
                && frames == old(frames) && deliveries == old(deliveries)
                && outcome == if accepted[request].responseId != responseId then Declined(AlreadyAnswered)
                              else if accepted[request].answer != answer then Declined(ResponseConflict)
                              else Replayed(accepted[request].receipt)
      // One that is on its way is shared with the exact retry and with nobody else.
      ensures request !in accepted && request in old(deliveries) ==>
                && frames == old(frames) && deliveries == old(deliveries)
                && outcome == if old(deliveries)[request].responseId != responseId then Declined(AlreadyAnswered)
                              else if old(deliveries)[request].answer != answer then Declined(ResponseConflict)
                              else Awaiting(old(deliveries)[request].receipt)
      // A new one is sent exactly for a pending request of a run that accepts input.
      ensures request !in accepted && request !in old(deliveries) ==>
                (outcome.Awaiting? <==>
                   request in status && status[request] == Pending && !cancelRequested && !terminalizing && valid && sends)
      // Why a new one is declined, the first reason that holds.
      ensures request !in accepted && request !in old(deliveries) && outcome.Declined? ==>
                outcome.error ==
                  if request !in status then NotPartOfRun
                  else if status[request] != Pending then
                    match status[request]
                    case Closed => AlreadyClosed
                    case TimedOut => AlreadyTimedOut
                    case _ => AlreadyAnswered
                  else if cancelRequested || terminalizing || valid then NotAccepting
                  else InvalidAnswer
      // The request is new to the child, unless a timed-out settlement that no listing has told yet beat its acceptance.
      ensures request !in accepted && request !in old(deliveries) && outcome.Awaiting? && !TimedOutOnDisk(mailbox.settled, request) ==>
                Count(old(frames), request) == 0
      ensures request !in accepted && request !in old(deliveries) && outcome.Awaiting? ==>
                (Count(old(frames), request) > 0 <==> request in lost)
      ensures request !in accepted && request !in old(deliveries) ==>
                if outcome.Awaiting? then
                  && outcome.receipt == receipt
                  && frames == old(frames) + [Frame(request, responseId, answer)]
                  && deliveries == old(deliveries)[request := Delivery(responseId, answer, receipt)]
                else
                  outcome.Declined? && frames == old(frames) && deliveries == old(deliveries)
    {
      assert Fits(request);
      if request in accepted {
        var before := accepted[request];
        if before.responseId != responseId { return Declined(AlreadyAnswered); }
        if before.answer != answer { return Declined(ResponseConflict); }
        return Replayed(before.receipt);
      }
      if request in deliveries {
        var before := deliveries[request];
        if before.responseId == responseId && before.answer == answer { return Awaiting(before.receipt); }
        return Declined(if before.responseId == responseId then ResponseConflict else AlreadyAnswered);
      }
      if request !in status { return Declined(NotPartOfRun); }
      if status[request] == Closed { return Declined(AlreadyClosed); }
      if status[request] == TimedOut { return Declined(AlreadyTimedOut); }
      if status[request] == Answered { return Declined(AlreadyAnswered); }
      if cancelRequested || terminalizing { return Declined(NotAccepting); }
      if !valid { return Declined(InvalidAnswer); }
      if !sends { return Declined(NotAccepting); }
      Deliver(request, Delivery(responseId, answer, receipt));
      return Awaiting(receipt);
    }

    /** Registers the delivery and sends its frame. */
    method Deliver(request: RequestId, delivery: Delivery)
      requires Valid() && request !in accepted && request !in deliveries && !cancelRequested && !terminalizing
      modifies this`deliveries, this`frames
      ensures Valid()
      ensures deliveries == old(deliveries)[request := delivery]
      ensures frames == old(frames) + [Frame(request, delivery.responseId, delivery.answer)]
    {
      var frame := Frame(request, delivery.responseId, delivery.answer);
      forall other
        ensures Count(frames + [frame], other) == Count(frames, other) + if request == other then 1 else 0
      {
        CountNext(frames, frame, other);
      }
      deliveries := deliveries[request := delivery];
      frames := frames + [frame];
      forall other ensures Fits(other) { assert old(Fits(other)); }
    }

    /**
     `settleChildAcceptedInputResponse`: the child's acceptance settles the request, unless it is
     settled otherwise already; then nothing of it is published and the delivery is given up.
     */
    method ChildAccepts(request: RequestId, responseId: ResponseId, at: string) returns (settled: bool)
      requires Valid()
      modifies this`deliveries, this`accepted, this`status, this`lost, mailbox`settled
      ensures Valid()
      ensures var awaited := request in old(deliveries) && old(deliveries)[request].responseId == responseId;
              && deliveries == (if awaited then old(deliveries) - {request} else old(deliveries))
              && (settled <==> awaited && !cancelRequested && !terminalizing && request !in old(mailbox.settled))
              && lost == if awaited && !settled && !cancelRequested && !terminalizing then old(lost) + {request} else old(lost)
      ensures settled ==>
                && accepted == old(accepted)[request := old(deliveries)[request]]
                && status == old(status)[request := Answered]
                && mailbox.settled == old(mailbox.settled)[request := AnsweredBy(responseId, old(deliveries)[request].receipt, at)]
      ensures !settled ==> accepted == old(accepted) && status == old(status) && mailbox.settled == old(mailbox.settled)
    {
      hide Count;
      if request !in deliveries || deliveries[request].responseId != responseId { return false; }
      var delivery := deliveries[request];
      assert Fits(request);
      CountFinds(frames, Frame(request, delivery.responseId, delivery.answer));
      deliveries := deliveries - {request};
      if cancelRequested || terminalizing {
        forall other ensures Fits(other) { assert old(Fits(other)); }
        return false;
      }
      settled := mailbox.Settle(request, AnsweredBy(responseId, delivery.receipt, at));
      if settled {
        accepted := accepted[request := delivery];
        status := status[request := Answered];
      } else {
        lost := lost + {request};
      }
      forall other ensures Fits(other) { assert old(Fits(other)); }
    }

    /** Accepting a cancellation rejects what is on its way; the mailbox is closed in a later step. */
    method AcceptCancellation()
      requires Valid()
      modifies this`cancelRequested, this`deliveries, this`status
      ensures Valid() && cancelRequested && deliveries == map[]
      ensures status.Keys == old(status).Keys
      ensures forall request :: request in status ==>
                status[request] != Pending && (old(status)[request] != Pending ==> status[request] == old(status)[request])
                && (old(status)[request] == Pending ==> status[request] == Closed)
    {
      cancelRequested, deliveries := true, map[];
      status := map request | request in status :: if status[request] == Pending then Closed else status[request];
      forall other ensures Fits(other) { assert old(Fits(other)); }
    }

    /** `cancelRunTask`, after the acceptance and outside the owner chain. */
    method CloseCancelled(at: string)
      requires Valid() && cancelRequested
      modifies mailbox`settled
      ensures Valid()
      ensures ClosesPending(mailbox.requests, old(mailbox.settled), mailbox.settled, ClosedFor("run cancelled", at))
    {
      mailbox.ClosePending("run cancelled", at);
      forall other ensures Fits(other) { assert old(Fits(other)); }
    }

    /** Finalisation settles every request that is still pending as closed. */
    method Finalise(reason: string, at: string)
      requires Valid()
      modifies this`terminalizing, this`deliveries, this`status, mailbox`settled
      ensures Valid() && terminalizing && deliveries == map[]
      ensures status.Keys == old(status).Keys
      ensures forall request :: request in status ==>
                status[request] == if old(status)[request] == Pending then Closed else old(status)[request]
      ensures ClosesPending(mailbox.requests, old(mailbox.settled), mailbox.settled, ClosedFor(reason, at))
    {
      terminalizing, deliveries := true, map[];
      status := map request | request in status :: if status[request] == Pending then Closed else status[request];
      mailbox.ClosePending(reason, at);
      forall other ensures Fits(other) { assert old(Fits(other)); }
    }
  }

  /** At most one frame a request is ever sent, unless somebody settles the request as timed out. */
  lemma OneFrame(desk: InputDesk, request: RequestId)
    requires desk.Valid() && !TimedOutOnDisk(desk.mailbox.settled, request)
    ensures Count(desk.frames, request) <= 1
  {
    assert desk.Fits(request);
  }

  /** That condition is needed: a timed-out settlement between a frame and its acceptance lets a second frame out. */
  method SecondFrame(request: RequestId, answer: string) returns (desk: InputDesk)
    ensures fresh(desk) && desk.Valid() && Count(desk.frames, request) == 2
    ensures request in desk.mailbox.settled && desk.mailbox.settled[request].TimedOutAt?
  {
    hide Count;
    assert Count([], request) == 0 by { NoneCounted(request); }
    CountNext([], Frame(request, "a", answer), request);
    CountNext([Frame(request, "a", answer)], Frame(request, "b", answer), request);
    var mailbox := new Mailbox();
    mailbox.Create(request);
    desk := new InputDesk(mailbox);
    desk.Refresh();
    var sent := desk.AnswerInput(request, "a", answer, "input-a", true, true);
    assert desk.frames == [] + [Frame(request, "a", answer)] == [Frame(request, "a", answer)];
    var won := desk.TimesOut(request, "t");
    var settled := desk.ChildAccepts(request, "a", "t");
    sent := desk.AnswerInput(request, "b", answer, "input-b", true, true);
    assert desk.frames == [Frame(request, "a", answer)] + [Frame(request, "b", answer)];
  }

  lemma NoneCounted(request: RequestId)
    ensures Count([], request) == 0
  {
  }

  // ---------------------------------------------------------------- the child's end

  /** Rendezvous of responses that arrive and tools that wait for them. */
  class ChildControl {
    var buffered: map<RequestId, Frame>
    var waiters: set<RequestId>
    /** Responses handed to a waiting tool, each reported as accepted, in order. */
    var delivered: seq<Frame>
    /** Every response frame that arrived. */
    ghost var received: seq<Frame>

    constructor ()
      ensures Valid() && received == [] && delivered == []
    {
      buffered, waiters, delivered, received := map[], {}, [], [];
    }

    /** Nothing is handed out that did not arrive, nor more often than it did. */
    ghost predicate Valid()
      reads this
    {
      && buffered.Keys !! waiters
      && (forall request :: request in buffered ==> buffered[request].request == request && buffered[request] in received)
      && (forall k :: 0 <= k < |delivered| ==> delivered[k] in received)
      && (forall request :: Count(delivered, request) + (if request in buffered then 1 else 0) <= Count(received, request))
    }

    method OnResponse(response: Frame)
      requires Valid()
      modifies this
      ensures Valid() && received == old(received) + [response]
      ensures if response.request in old(waiters) then
                delivered == old(delivered) + [response] && waiters == old(waiters) - {response.request} && buffered == old(buffered)
              else
                delivered == old(delivered) && waiters == old(waiters) && buffered == old(buffered)[response.request := response]
    {
      forall request
        ensures Count(received + [response], request) == Count(received, request) + if response.request == request then 1 else 0
        ensures Count(delivered + [response], request) == Count(delivered, request) + if response.request == request then 1 else 0
      {
        CountNext(received, response, request);
        CountNext(delivered, response, request);
      }
      received := received + [response];
      if response.request in waiters {
        waiters := waiters - {response.request};
        delivered := delivered + [response];
      } else {
        buffered := buffered[response.request := response];
      }
    }

    method WaitForResponse(request: RequestId) returns (response: Option<Frame>)
      requires Valid()
      modifies this`buffered, this`waiters, this`delivered
      ensures Valid()
      ensures response == if request in old(buffered) then Some(old(buffered)[request]) else None
      ensures delivered == old(delivered) + if response.Some? then [response.value] else []
      ensures buffered == old(buffered) - {request}
      ensures waiters == if response.None? then old(waiters) + {request} else old(waiters)
    {
      if request in buffered {
        response := Some(buffered[request]);
        forall other
          ensures Count(delivered + [buffered[request]], other) == Count(delivered, other) + if request == other then 1 else 0
        {
          CountNext(delivered, buffered[request], other);
        }
        buffered := buffered - {request};
        delivered := delivered + [response.value];
        return;
      }
      waiters := waiters + {request};
      return None;
    }

    method WaitTimesOut(request: RequestId)
      requires Valid()
      modifies this`waiters
      ensures Valid() && waiters == old(waiters) - {request}
    {
      waiters := waiters - {request};
    }

    /** The child ends: waiters are dropped and so is what nobody waited for. */
    method Dispose()
      requires Valid()
      modifies this`buffered, this`waiters
      ensures Valid() && buffered == map[] && waiters == {}
    {
      buffered, waiters := map[], {};
    }
  }

  /** The channel delivers the owner's next frame. */
  method Forward(desk: InputDesk, control: ChildControl, n: nat)
    requires desk.Valid() && control.Valid() && n < |desk.frames| && control.received == desk.frames[..n]
    modifies control
    ensures control.Valid() && control.received == desk.frames[..n + 1]
  {
    control.OnResponse(desk.frames[n]);
  }

  /** A tool of the child gets only what the owner sent, and each request once, unless somebody settles it as timed out. */
  lemma ChildGetsEachOnce(desk: InputDesk, control: ChildControl, request: RequestId)
    requires desk.Valid() && control.Valid() && control.received <= desk.frames
    ensures forall k :: 0 <= k < |control.delivered| ==> control.delivered[k] in desk.frames
    ensures !TimedOutOnDisk(desk.mailbox.settled, request) ==> Count(control.delivered, request) <= 1
  {
    if !TimedOutOnDisk(desk.mailbox.settled, request) { OneFrame(desk, request); }
    CountPrefix(desk.frames, |control.received|, request);
    assert desk.frames[..|control.received|] == control.received;
  }

  // ---------------------------------------------------------------- whole conversations

  /** Every step the program has, of the owner, the channel and the child, in any order. */
  datatype InputStep =
    | Ask(request: RequestId)
    | List
    | Reply(request: RequestId, responseId: ResponseId, answer: string, receipt: string, valid: bool, sends: bool)
    | Transmit
    | Wait(request: RequestId)
    | GiveUp(request: RequestId)
    | Dispose
    | Accept(request: RequestId, responseId: ResponseId, at: string)
    | Cancel
    | CloseMailbox(at: string)
    | Finish(reason: string, at: string)

  ghost predicate Keeps(before: map<RequestId, Settlement>, after: map<RequestId, Settlement>) {
    forall request :: request in before ==> request in after && after[request] == before[request]
  }

  lemma CloseKeeps(
    requests: set<RequestId>, before: map<RequestId, Settlement>, after: map<RequestId, Settlement>, settlement: Settlement)
    requires ClosesPending(requests, before, after, settlement) && settlement.ClosedFor? && NoneTimedOut(before)
    ensures NoneTimedOut(after) && Keeps(before, after)
  {
    forall request ensures !TimedOutOnDisk(after, request) {
      assert !TimedOutOnDisk(before, request);
      if request in after { assert request in before.Keys + requests; }
    }
  }

  /** One step; one that cannot be taken does nothing. */
  method Take(desk: InputDesk, control: ChildControl, step: InputStep, transmitted: nat) returns (next: nat)
    requires desk.Valid() && control.Valid() && transmitted <= |desk.frames| && control.received == desk.frames[..transmitted]
    requires NoneTimedOut(desk.mailbox.settled)
    modifies desk, desk.mailbox, control
    ensures desk.Valid() && control.Valid() && next <= |desk.frames| && control.received == desk.frames[..next]
    ensures NoneTimedOut(desk.mailbox.settled) && Keeps(old(desk.mailbox.settled), desk.mailbox.settled)
    ensures old(desk.frames) <= desk.frames
  {
    hide Count;
    next := transmitted;
    ghost var requests, before := desk.mailbox.requests, desk.mailbox.settled;
    match step
    case Ask(request) =>
      desk.mailbox.Create(request);
      forall other ensures desk.Fits(other) { assert old(desk.Fits(other)); }
    case List => desk.Refresh();
    case Reply(request, responseId, answer, receipt, valid, sends) =>
      var outcome := desk.AnswerInput(request, responseId, answer, receipt, valid, sends);
    case Transmit =>
      if transmitted < |desk.frames| {
        Forward(desk, control, transmitted);
        next := transmitted + 1;
      }
    case Wait(request) => var response := control.WaitForResponse(request);
    case GiveUp(request) => control.WaitTimesOut(request);
    case Dispose => control.Dispose();
    case Accept(request, responseId, at) =>
      var settled := desk.ChildAccepts(request, responseId, at);
      forall other ensures !TimedOutOnDisk(desk.mailbox.settled, other) { assert !TimedOutOnDisk(before, other); }
    case Cancel => desk.AcceptCancellation();
    case CloseMailbox(at) =>
      if desk.cancelRequested {
        desk.CloseCancelled(at);
        CloseKeeps(requests, before, desk.mailbox.settled, ClosedFor("run cancelled", at));
      }
    case Finish(reason, at) =>
      desk.Finalise(reason, at);
      CloseKeeps(requests, before, desk.mailbox.settled, ClosedFor(reason, at));
  }

  /**
   Over any sequence of steps the program has: at most one frame a request is sent, at most one
   response a request reaches a tool of the child, and a settlement is never replaced.
   */
  method Converse(desk: InputDesk, control: ChildControl, steps: seq<InputStep>)
    requires desk.Valid() && control.Valid() && control.received == desk.frames == []
    requires NoneTimedOut(desk.mailbox.settled)
    modifies desk, desk.mailbox, control
    ensures forall request :: Count(desk.frames, request) <= 1 && Count(control.delivered, request) <= 1
    ensures forall k :: 0 <= k < |control.delivered| ==> control.delivered[k] in desk.frames
    ensures Keeps(old(desk.mailbox.settled), desk.mailbox.settled)
    ensures desk.Valid() && control.Valid() && NoneTimedOut(desk.mailbox.settled)
  {
    hide Count;
    var transmitted: nat := 0;
    for k := 0 to |steps|
      invariant desk.Valid() && control.Valid() && transmitted <= |desk.frames| && control.received == desk.frames[..transmitted]
      invariant NoneTimedOut(desk.mailbox.settled) && Keeps(old(desk.mailbox.settled), desk.mailbox.settled)
    {
      transmitted := Take(desk, control, steps[k], transmitted);
    }
    forall request ensures Count(desk.frames, request) <= 1 && Count(control.delivered, request) <= 1 {
      OneFrame(desk, request);
      ChildGetsEachOnce(desk, control, request);
    }
    ChildGetsEachOnce(desk, control, "");
  }
}
