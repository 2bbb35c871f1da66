/**
 Child capacity, the run queue and the restart evidence they give (src/activeChildLease.ts, and
 the liveness checks of src/runTask.ts).

 Leases and tickets are files that any number of servers create, scan and remove at single file
 operations, but that the read of a dead server's file and its removal are one step; a server may
 die between any two steps.  Assumed, not proved: the capacity lock excludes
 live holders and is released by death; "gone" is true and permanent; every server has the same
 positive limit; a ticket is released only before its run waits or after the wait has settled.
 */
module Capacity {
  import opened Outcomes

  type Proc = nat
  type CallId = nat
  type RunId = nat
  type LeaseId = nat

  datatype Lease = Lease(run: RunId, proc: Proc)

  /** What the owner of an admitted run holds. */
  datatype Holding =
    | Ticketed(promoter: Option<CallId>)
    | Promoting(lease: LeaseId)
    | Leased(lease: LeaseId)
    | LetGo

  datatype Purpose = Admission(allowQueue: bool) | Promotion

  datatype Pc =
    | Waiting(run: RunId, purpose: Purpose)
    | Locked(run: RunId, purpose: Purpose)
    | Counting(run: RunId, purpose: Purpose, todo: set<LeaseId>, seen: set<LeaseId>)
    | Granting(run: RunId, purpose: Purpose)
    | Full(run: RunId)
    | CountingTickets(run: RunId, tickets: set<RunId>, seenTickets: set<RunId>)
    | Queueing(run: RunId)
    | RemovingTicket(run: RunId, lease: LeaseId)
    | Settling(run: RunId, lease: LeaseId)
    // restart reconciliation of one run: two rounds of lease scan, then ticket read
    | ScanningLeases(run: RunId, round: nat, todo: set<LeaseId>)
    | ReadingTicket(run: RunId, round: nat)
    | FirstSaysGone(run: RunId)
    | SecondSaysGone(run: RunId)
    | Finished

  datatype Call = Call(proc: Proc, pc: Pc)

  datatype Limits = Limits(active: nat, queued: nat)

  datatype State = State(
    leases: map<LeaseId, Lease>,
    tickets: map<RunId, Proc>,
    lock: Option<CallId>,
    calls: map<CallId, Call>,
    gone: set<Proc>,
    owners: map<RunId, Proc>,
    admitters: map<RunId, CallId>,
    holding: map<RunId, Holding>,
    drifted: set<RunId>)

  predicate HoldsLock(pc: Pc) {
    match pc
    case Locked(_, _) | Counting(_, _, _, _) | Granting(_, _) | Full(_) => true
    case CountingTickets(_, _, _) | Queueing(_) | RemovingTicket(_, _) | Settling(_, _) => true
    case _ => false
  }

  /** Admission and promotion up to the lease, under the capacity lock. */
  datatype CapacityStep =
    | BeginAdmission(id: CallId, proc: Proc, run: RunId, allowQueue: bool)
    | Acquire(id: CallId)
    | List(id: CallId)
    | Count(id: CallId, lease: LeaseId)
    | Decide(id: CallId)
    | Abandon(id: CallId)
    | GiveUp(id: CallId)
    | PublishLease(id: CallId, lease: LeaseId)

  /** Queueing a run that found no room, still under the lock. */
  datatype QueueStep =
    | ListTickets(id: CallId)
    | CountTicket(id: CallId, other: RunId)
    | DecideQueue(id: CallId)
    | PublishTicket(id: CallId)

  /** The owner of an admitted run. */
  datatype OwnerStep =
    | BeginPromotion(id: CallId, run: RunId)
    | RemoveTicket(id: CallId)
    | KeepTicket(id: CallId)
    | Settle(id: CallId, cancelled: bool)
    | ReleaseLease(run: RunId)
    | ReleaseTicket(run: RunId)

  /** Restart reconciliation by any server. */
  datatype ProbeStep =
    | BeginProbe(id: CallId, proc: Proc, run: RunId)
    | ScanLease(id: CallId, lease: LeaseId)
    | ScanDone(id: CallId)
    | ReadTicket(id: CallId)
    | BeginSecond(id: CallId)
    | WriteDrift(id: CallId)

  datatype Step =
    | ByCapacity(capacity: CapacityStep)
    | ByQueue(queue: QueueStep)
    | ByOwner(owner: OwnerStep)
    | ByProbe(probe: ProbeStep)
    | Die(proc: Proc)

  function At(s: State, id: CallId): Pc
    requires id in s.calls
  {
    s.calls[id].pc
  }

  function Move(s: State, id: CallId, pc: Pc): State
    requires id in s.calls
  {
    s.(calls := s.calls[id := Call(s.calls[id].proc, pc)])
  }

  /** A promoted lease belongs to the promotion until it is handed over. */
  predicate NotSettling(s: State, run: RunId) {
    forall id :: id in s.calls && At(s, id).Settling? ==> At(s, id).run != run
  }

  predicate Stale(s: State, lease: LeaseId) {
    lease in s.leases && s.leases[lease].proc in s.gone
  }

  /** `admitActiveChild` is entered for a new run. */
  predicate CanBeginAdmission(s: State, id: CallId, proc: Proc, run: RunId, allowQueue: bool) {
    id !in s.calls && proc !in s.gone && run !in s.owners
  }

  function DoBeginAdmission(s: State, id: CallId, proc: Proc, run: RunId, allowQueue: bool): State
    requires CanBeginAdmission(s, id, proc, run, allowQueue)
  {
    s.(calls := s.calls[id := Call(proc, Waiting(run, Admission(allowQueue)))],
       owners := s.owners[run := proc],
       admitters := s.admitters[run := id])
  }

  /** The pump turns to the head of its queue. */
  predicate CanBeginPromotion(s: State, id: CallId, run: RunId) {
    && id !in s.calls && run in s.owners && s.owners[run] !in s.gone
    && run in s.holding && s.holding[run] == Ticketed(None)
  }

  function DoBeginPromotion(s: State, id: CallId, run: RunId): State
    requires CanBeginPromotion(s, id, run)
  {
    s.(calls := s.calls[id := Call(s.owners[run], Waiting(run, Promotion))],
       holding := s.holding[run := Ticketed(Some(id))])
  }

  /** The exclusive lock directory is created. */
  predicate CanAcquire(s: State, id: CallId) {
    id in s.calls && s.lock.None? && At(s, id).Waiting?
  }

  function DoAcquire(s: State, id: CallId): State
    requires CanAcquire(s, id)
  {
    Move(s, id, Locked(At(s, id).run, At(s, id).purpose)).(lock := Some(id))
  }

  /** The lease directory is listed. */
  predicate CanList(s: State, id: CallId) {
    id in s.calls && At(s, id).Locked?
  }

  function DoList(s: State, id: CallId): State
    requires CanList(s, id)
  {
    Move(s, id, Counting(At(s, id).run, At(s, id).purpose, s.leases.Keys, {}))
  }

  /** One listed lease is read, and removed if its server is gone. */
  predicate CanCount(s: State, id: CallId, lease: LeaseId) {
    id in s.calls && At(s, id).Counting? && lease in At(s, id).todo
  }

  function DoCount(s: State, id: CallId, lease: LeaseId): State
    requires CanCount(s, id, lease)
  {
    // A file that vanished or cannot be read counts as active; one of a dead server is removed.
    var pc := At(s, id);
    if Stale(s, lease)
    then Move(s, id, Counting(pc.run, pc.purpose, pc.todo - {lease}, pc.seen)).(leases := s.leases - {lease})
    else Move(s, id, Counting(pc.run, pc.purpose, pc.todo - {lease}, pc.seen + {lease}))
  }

  /** Room or no room, once every listed lease is read. */
  predicate CanDecide(s: State, id: CallId) {
    id in s.calls && At(s, id).Counting? && At(s, id).todo == {}
  }

  function DoDecide(s: State, id: CallId, limits: Limits): State
    requires CanDecide(s, id)
  {
    var pc := At(s, id);
    if |pc.seen| < limits.active then Move(s, id, Granting(pc.run, pc.purpose))
    else if pc.purpose.Promotion? then
      Move(s, id, Finished).(lock := None, holding := s.holding[pc.run := Ticketed(None)])
    else if pc.purpose.allowQueue && limits.queued > 0 then Move(s, id, Full(pc.run))
    else Move(s, id, Finished).(lock := None)
  }

  /** Cancelled or failed before anything is published. */
  predicate CanAbandon(s: State, id: CallId) {
    id in s.calls && (At(s, id).Locked? || At(s, id).Granting? || At(s, id).Full? || At(s, id).Queueing?)
  }

  function DoAbandon(s: State, id: CallId): State
    requires CanAbandon(s, id)
  {
    // A cancelled promotion keeps its ticket; a failed admission holds nothing.
    var pc := At(s, id);
    if (pc.Locked? || pc.Granting?) && pc.purpose.Promotion?
    then Move(s, id, Finished).(lock := None, holding := s.holding[pc.run := Ticketed(None)])
    else Move(s, id, Finished).(lock := None)
  }

  /** The lease file is linked; an admission ends here, a promotion goes on. */
  predicate CanPublishLease(s: State, id: CallId, lease: LeaseId) {
    id in s.calls && At(s, id).Granting? && lease !in s.leases
  }

  function DoPublishLease(s: State, id: CallId, lease: LeaseId): State
    requires CanPublishLease(s, id, lease)
  {
    var pc := At(s, id);
    var published := s.(leases := s.leases[lease := Lease(pc.run, s.calls[id].proc)]);
    if pc.purpose.Promotion?
    then Move(published, id, RemovingTicket(pc.run, lease)).(holding := s.holding[pc.run := Promoting(lease)])
    else Move(published, id, Finished).(lock := None, holding := s.holding[pc.run := Leased(lease)])
  }

  /** No room: the queue directory is listed. */
  predicate CanListTickets(s: State, id: CallId) {
    id in s.calls && At(s, id).Full?
  }

  function DoListTickets(s: State, id: CallId): State
    requires CanListTickets(s, id)
  {
    Move(s, id, CountingTickets(At(s, id).run, s.tickets.Keys, {}))
  }

  /** One listed ticket is read, and removed if its server is gone. */
  predicate CanCountTicket(s: State, id: CallId, other: RunId) {
    id in s.calls && At(s, id).CountingTickets? && other in At(s, id).tickets
  }

  function DoCountTicket(s: State, id: CallId, other: RunId): State
    requires CanCountTicket(s, id, other)
  {
    var pc := At(s, id);
    if other in s.tickets && s.tickets[other] in s.gone
    then Move(s, id, CountingTickets(pc.run, pc.tickets - {other}, pc.seenTickets)).(tickets := s.tickets - {other})
    else Move(s, id, CountingTickets(pc.run, pc.tickets - {other}, pc.seenTickets + {other}))
  }

  /** Room in the queue or not. */
  predicate CanDecideQueue(s: State, id: CallId) {
    id in s.calls && At(s, id).CountingTickets? && At(s, id).tickets == {}
  }

  function DoDecideQueue(s: State, id: CallId, limits: Limits): State
    requires CanDecideQueue(s, id)
  {
    var pc := At(s, id);
    if |pc.seenTickets| < limits.queued then Move(s, id, Queueing(pc.run))
    else Move(s, id, Finished).(lock := None)
  }

  /** The ticket file is linked. */
  predicate CanPublishTicket(s: State, id: CallId) {
    id in s.calls && At(s, id).Queueing?
  }

  function DoPublishTicket(s: State, id: CallId): State
    requires CanPublishTicket(s, id)
  {
    var pc := At(s, id);
    Move(s, id, Finished).(
      lock := None,
      tickets := s.tickets[pc.run := s.calls[id].proc],
      holding := s.holding[pc.run := Ticketed(None)])
  }

  /** The promoted run gives up its ticket. */
  predicate CanRemoveTicket(s: State, id: CallId) {
    id in s.calls && At(s, id).RemovingTicket?
  }

  function DoRemoveTicket(s: State, id: CallId): State
    requires CanRemoveTicket(s, id)
  {
    var pc := At(s, id);
    Move(s, id, Settling(pc.run, pc.lease)).(
      tickets := s.tickets - {pc.run},
      holding := s.holding[pc.run := Leased(pc.lease)])
  }

  /** Or the removal fails. */
  predicate CanKeepTicket(s: State, id: CallId) {
    id in s.calls && At(s, id).RemovingTicket?
  }

  function DoKeepTicket(s: State, id: CallId): State
    requires CanKeepTicket(s, id)
  {
    // The ticket could not be removed: the promotion fails and its lease is returned.
    var pc := At(s, id);
    Move(s, id, Finished).(
      lock := None, leases := s.leases - {pc.lease}, holding := s.holding[pc.run := Ticketed(None)])
  }

  /** The lock stayed busy for all attempts. */
  predicate CanGiveUp(s: State, id: CallId) {
    id in s.calls && At(s, id).Waiting?
  }

  function DoGiveUp(s: State, id: CallId): State
    requires CanGiveUp(s, id)
  {
    // The capacity lock stayed busy.
    var pc := At(s, id);
    if pc.purpose.Promotion?
    then Move(s, id, Finished).(holding := s.holding[pc.run := Ticketed(None)])
    else Move(s, id, Finished)
  }

  /** The promotion is handed over, or was cancelled meanwhile and returns its lease. */
  predicate CanSettle(s: State, id: CallId, cancelled: bool) {
    id in s.calls && At(s, id).Settling?
  }

  function DoSettle(s: State, id: CallId, cancelled: bool): State
    requires CanSettle(s, id, cancelled)
  {
    var pc := At(s, id);
    if cancelled
    then Move(s, id, Finished).(
           lock := None, leases := s.leases - {pc.lease}, holding := s.holding[pc.run := LetGo])
    else Move(s, id, Finished).(lock := None)
  }

  /** The owner lets go of its lease. */
  predicate CanReleaseLease(s: State, run: RunId) {
    Held(s, run) && s.holding[run].Leased? && NotSettling(s, run)
  }

  function DoReleaseLease(s: State, run: RunId): State
    requires CanReleaseLease(s, run)
  {
    s.(leases := s.leases - {s.holding[run].lease}, holding := s.holding[run := LetGo])
  }

  /** The owner lets go of its ticket, which nobody waits on. */
  predicate CanReleaseTicket(s: State, run: RunId) {
    Held(s, run) && s.holding[run] == Ticketed(None)
  }

  function DoReleaseTicket(s: State, run: RunId): State
    requires CanReleaseTicket(s, run)
  {
    s.(tickets := s.tickets - {run}, holding := s.holding[run := LetGo])
  }

  /** `activeChildLeaseLiveness` lists the lease files. */
  predicate CanBeginProbe(s: State, id: CallId, proc: Proc, run: RunId) {
    id !in s.calls && proc !in s.gone && run in s.holding
  }

  function DoBeginProbe(s: State, id: CallId, proc: Proc, run: RunId): State
    requires CanBeginProbe(s, id, proc, run)
  {
    s.(calls := s.calls[id := Call(proc, ScanningLeases(run, 1, s.leases.Keys))])
  }

  /** One listed lease is read: stale, of this run, or of another. */
  predicate CanScanLease(s: State, id: CallId, lease: LeaseId) {
    id in s.calls && At(s, id).ScanningLeases? && lease in At(s, id).todo
  }

  function DoScanLease(s: State, id: CallId, lease: LeaseId): State
    requires CanScanLease(s, id, lease)
  {
    var pc := At(s, id);
    if Stale(s, lease)
    then Move(s, id, ScanningLeases(pc.run, pc.round, pc.todo - {lease})).(leases := s.leases - {lease})
    else if lease in s.leases && s.leases[lease].run == pc.run then Move(s, id, Finished)
    else Move(s, id, ScanningLeases(pc.run, pc.round, pc.todo - {lease}))
  }

  /** No lease of this run was seen. */
  predicate CanScanDone(s: State, id: CallId) {
    id in s.calls && At(s, id).ScanningLeases? && At(s, id).todo == {}
  }

  function DoScanDone(s: State, id: CallId): State
    requires CanScanDone(s, id)
  {
    Move(s, id, ReadingTicket(At(s, id).run, At(s, id).round))
  }

  /** `hasLiveQueuedRunTicket`. */
  predicate CanReadTicket(s: State, id: CallId) {
    id in s.calls && At(s, id).ReadingTicket?
  }

  function DoReadTicket(s: State, id: CallId): State
    requires CanReadTicket(s, id)
  {
    var pc := At(s, id);
    if pc.run in s.tickets && s.tickets[pc.run] !in s.gone then Move(s, id, Finished)
    else
      Move(s, id, if pc.round == 1 then FirstSaysGone(pc.run) else SecondSaysGone(pc.run)).(
        tickets := s.tickets - {pc.run})
  }

  /** The check is made again under the claim lock. */
  predicate CanBeginSecond(s: State, id: CallId) {
    id in s.calls && At(s, id).FirstSaysGone?
  }

  function DoBeginSecond(s: State, id: CallId): State
    requires CanBeginSecond(s, id)
  {
    Move(s, id, ScanningLeases(At(s, id).run, 2, s.leases.Keys))
  }

  /** Both checks said gone: the run is settled as lost. */
  predicate CanWriteDrift(s: State, id: CallId) {
    id in s.calls && At(s, id).SecondSaysGone?
  }

  function DoWriteDrift(s: State, id: CallId): State
    requires CanWriteDrift(s, id)
  {
    Move(s, id, Finished).(drifted := s.drifted + {At(s, id).run})
  }

  /** A server dies: its calls end, its lock is released. */
  predicate CanDie(s: State, proc: Proc) {
    proc !in s.gone
  }

  function DoDie(s: State, proc: Proc): State
    requires CanDie(s, proc)
  {
    s.(gone := s.gone + {proc},
       calls := map id | id in s.calls && s.calls[id].proc != proc :: s.calls[id],
       lock := if s.lock.Some? && s.lock.value in s.calls && s.calls[s.lock.value].proc == proc then None else s.lock)
  }

  predicate CapacityEnabled(s: State, step: CapacityStep) {
    match step
    case BeginAdmission(id, proc, run, allowQueue) => CanBeginAdmission(s, id, proc, run, allowQueue)
    case Acquire(id) => CanAcquire(s, id)
    case List(id) => CanList(s, id)
    case Count(id, lease) => CanCount(s, id, lease)
    case Decide(id) => CanDecide(s, id)
    case Abandon(id) => CanAbandon(s, id)
    case GiveUp(id) => CanGiveUp(s, id)
    case PublishLease(id, lease) => CanPublishLease(s, id, lease)
  }

  function DoCapacity(s: State, step: CapacityStep, limits: Limits): State
    requires CapacityEnabled(s, step)
  {
    match step
    case BeginAdmission(id, proc, run, allowQueue) => DoBeginAdmission(s, id, proc, run, allowQueue)
    case Acquire(id) => DoAcquire(s, id)
    case List(id) => DoList(s, id)
    case Count(id, lease) => DoCount(s, id, lease)
    case Decide(id) => DoDecide(s, id, limits)
    case Abandon(id) => DoAbandon(s, id)
    case GiveUp(id) => DoGiveUp(s, id)
    case PublishLease(id, lease) => DoPublishLease(s, id, lease)
  }

  predicate QueueEnabled(s: State, step: QueueStep) {
    match step
    case ListTickets(id) => CanListTickets(s, id)
    case CountTicket(id, other) => CanCountTicket(s, id, other)
    case DecideQueue(id) => CanDecideQueue(s, id)
    case PublishTicket(id) => CanPublishTicket(s, id)
  }

  function DoQueue(s: State, step: QueueStep, limits: Limits): State
    requires QueueEnabled(s, step)
  {
    match step
    case ListTickets(id) => DoListTickets(s, id)
    case CountTicket(id, other) => DoCountTicket(s, id, other)
    case DecideQueue(id) => DoDecideQueue(s, id, limits)
    case PublishTicket(id) => DoPublishTicket(s, id)
  }

  predicate OwnerEnabled(s: State, step: OwnerStep) {
    match step
    case BeginPromotion(id, run) => CanBeginPromotion(s, id, run)
    case RemoveTicket(id) => CanRemoveTicket(s, id)
    case KeepTicket(id) => CanKeepTicket(s, id)
    case Settle(id, cancelled) => CanSettle(s, id, cancelled)
    case ReleaseLease(run) => CanReleaseLease(s, run)
    case ReleaseTicket(run) => CanReleaseTicket(s, run)
  }

  function DoOwner(s: State, step: OwnerStep): State
    requires OwnerEnabled(s, step)
  {
    match step
    case BeginPromotion(id, run) => DoBeginPromotion(s, id, run)
    case RemoveTicket(id) => DoRemoveTicket(s, id)
    case KeepTicket(id) => DoKeepTicket(s, id)
    case Settle(id, cancelled) => DoSettle(s, id, cancelled)
    case ReleaseLease(run) => DoReleaseLease(s, run)
    case ReleaseTicket(run) => DoReleaseTicket(s, run)
  }

  predicate ProbeEnabled(s: State, step: ProbeStep) {
    match step
    case BeginProbe(id, proc, run) => CanBeginProbe(s, id, proc, run)
    case ScanLease(id, lease) => CanScanLease(s, id, lease)
    case ScanDone(id) => CanScanDone(s, id)
    case ReadTicket(id) => CanReadTicket(s, id)
    case BeginSecond(id) => CanBeginSecond(s, id)
    case WriteDrift(id) => CanWriteDrift(s, id)
  }

  function DoProbe(s: State, step: ProbeStep): State
    requires ProbeEnabled(s, step)
  {
    match step
    case BeginProbe(id, proc, run) => DoBeginProbe(s, id, proc, run)
    case ScanLease(id, lease) => DoScanLease(s, id, lease)
    case ScanDone(id) => DoScanDone(s, id)
    case ReadTicket(id) => DoReadTicket(s, id)
    case BeginSecond(id) => DoBeginSecond(s, id)
    case WriteDrift(id) => DoWriteDrift(s, id)
  }

  predicate Enabled(s: State, step: Step) {
    match step
    case ByCapacity(a) => CapacityEnabled(s, a)
    case ByQueue(a) => QueueEnabled(s, a)
    case ByOwner(a) => OwnerEnabled(s, a)
    case ByProbe(a) => ProbeEnabled(s, a)
    case Die(proc) => CanDie(s, proc)
  }

  function Do(s: State, step: Step, limits: Limits): State
    requires Enabled(s, step)
  {
    match step
    case ByCapacity(a) => DoCapacity(s, a, limits)
    case ByQueue(a) => DoQueue(s, a, limits)
    case ByOwner(a) => DoOwner(s, a)
    case ByProbe(a) => DoProbe(s, a)
    case Die(proc) => DoDie(s, proc)
  }

  predicate Init(s: State) {
    s == State(map[], map[], None, map[], {}, map[], map[], map[], {})
  }

  ghost predicate Run(states: seq<State>, steps: seq<Step>, limits: Limits) {
    && |states| == |steps| + 1
    && Init(states[0])
    && forall k {:trigger steps[k]} :: 0 <= k < |steps| ==>
         Enabled(states[k], steps[k]) && states[k + 1] == Do(states[k], steps[k], limits)
  }

  // ---------------------------------------------------------------- the invariant

  /** The owner lives and has neither let go nor been cancelled. */
  predicate Held(s: State, run: RunId) {
    run in s.holding && run in s.owners && s.owners[run] !in s.gone && !s.holding[run].LetGo?
  }

  predicate LeaseOf(s: State, run: RunId, lease: LeaseId) {
    run in s.owners && lease in s.leases && s.leases[lease] == Lease(run, s.owners[run])
  }

  predicate TicketOf(s: State, run: RunId) {
    run in s.owners && run in s.tickets && s.tickets[run] == s.owners[run]
  }

  /** What is held is on disk. */
  predicate HoldingInv(s: State, run: RunId) {
    Held(s, run) ==>
      match s.holding[run]
      case Ticketed(_) => TicketOf(s, run)
      case Promoting(lease) => TicketOf(s, run) && LeaseOf(s, run, lease)
      case Leased(lease) => LeaseOf(s, run, lease)
      case LetGo => true
  }

  predicate Serves(s: State, id: CallId, run: RunId, purpose: Purpose)
    requires id in s.calls
  {
    && run in s.owners && s.owners[run] == s.calls[id].proc
    && match purpose
       case Admission(_) => run in s.admitters && s.admitters[run] == id && run !in s.holding
       case Promotion => run in s.holding && s.holding[run] == Ticketed(Some(id))
  }

  predicate CallInv(s: State, id: CallId, limits: Limits)
    requires id in s.calls
  {
    && s.calls[id].proc !in s.gone
    && (HoldsLock(At(s, id)) ==> s.lock == Some(id))
    && match At(s, id)
       case Waiting(run, purpose) => Serves(s, id, run, purpose)
       case Locked(run, purpose) => Serves(s, id, run, purpose)
       case Counting(run, purpose, todo, seen) => Serves(s, id, run, purpose) && s.leases.Keys <= todo + seen
       case Granting(run, purpose) => Serves(s, id, run, purpose) && |s.leases| < limits.active
       case Full(run) => Serves(s, id, run, Admission(true))
       case CountingTickets(run, tickets, seen) =>
         Serves(s, id, run, Admission(true)) && s.tickets.Keys <= tickets + seen
       case Queueing(run) => Serves(s, id, run, Admission(true)) && |s.tickets| < limits.queued
       case RemovingTicket(run, lease) =>
         run in s.owners && s.owners[run] == s.calls[id].proc && run in s.holding && s.holding[run] == Promoting(lease)
       case Settling(run, lease) =>
         run in s.owners && s.owners[run] == s.calls[id].proc && run in s.holding && s.holding[run] == Leased(lease)
       case ScanningLeases(run, round, todo) =>
         && run in s.holding
         && (round != 1 ==> AfterFirst(s, run))
         && (round != 1 && Held(s, run) && s.holding[run].Leased? ==> s.holding[run].lease in todo)
       case ReadingTicket(run, round) => run in s.holding && (round != 1 ==> !Held(s, run))
       case FirstSaysGone(run) => AfterFirst(s, run)
       case SecondSaysGone(run) => run in s.holding && !Held(s, run)
       case Finished => true
  }

  /** One fooled check costs the run its one promotion: afterwards only a lease is held. */
  predicate AfterFirst(s: State, run: RunId) {
    run in s.holding && (Held(s, run) ==> s.holding[run].Leased?)
  }

  predicate Inv(s: State, limits: Limits) {
    && (forall id :: id in s.calls ==> CallInv(s, id, limits))
    && (s.lock.Some? ==> s.lock.value in s.calls && HoldsLock(At(s, s.lock.value)))
    && (forall run :: run in s.holding ==> run in s.owners && HoldingInv(s, run))
    && (forall run :: run in s.tickets ==> run in s.owners && run in s.holding)
    && |s.leases| <= limits.active
    && |s.tickets| <= limits.queued
  }

  lemma {:induction false} SubsetSize<T>(a: set<T>, b: set<T>)
    requires a <= b
    ensures |a| <= |b|
  {
    if a != {} {
      var x :| x in a;
      SubsetSize(a - {x}, b - {x});
    }
  }

  lemma FewerEntries<K, V>(m: map<K, V>, m': map<K, V>)
    requires m'.Keys <= m.Keys
    ensures |m'| <= |m|
  {
    SubsetSize(m'.Keys, m.Keys);
    assert |m| == |m.Keys| && |m'| == |m'.Keys|;
  }

  lemma OneMoreEntry<K, V>(m: map<K, V>, k: K, v: V)
    ensures |m[k := v]| <= |m| + 1
  {
    assert m[k := v].Keys == m.Keys + {k};
    assert |m| == |m.Keys| && |m[k := v]| == |m[k := v].Keys|;
  }

  // ---------------------------------------------------------------- small changes that keep the invariant

  lemma MoveKeep(s: State, id: CallId, pc: Pc, limits: Limits)
    requires Inv(s, limits) && id in s.calls && HoldsLock(pc) == HoldsLock(At(s, id))
    requires CallInv(Move(s, id, pc), id, limits)
    ensures Inv(Move(s, id, pc), limits)
  {
    var s' := Move(s, id, pc);
    forall other | other in s'.calls ensures CallInv(s', other, limits) {
      if other in s.calls { assert CallInv(s, other, limits); }
    }
    forall run | run in s'.holding ensures HoldingInv(s', run) { assert HoldingInv(s, run); }
  }

  function Finish(s: State, id: CallId): State
    requires id in s.calls
  {
    Move(s, id, Finished).(lock := None)
  }

  lemma FinishKeep(s: State, id: CallId, limits: Limits)
    requires Inv(s, limits) && id in s.calls && HoldsLock(At(s, id))
    ensures Inv(Finish(s, id), limits)
  {
    var s' := Finish(s, id);
    forall other | other in s'.calls ensures CallInv(s', other, limits) {
      assert CallInv(s, other, limits) && CallInv(s, id, limits);
    }
    forall run | run in s'.holding ensures HoldingInv(s', run) { assert HoldingInv(s, run); }
  }

  function Lock(s: State, id: CallId, pc: Pc): State
    requires id in s.calls
  {
    Move(s, id, pc).(lock := Some(id))
  }

  lemma LockKeep(s: State, id: CallId, pc: Pc, limits: Limits)
    requires Inv(s, limits) && id in s.calls && s.lock.None? && HoldsLock(pc)
    requires CallInv(Lock(s, id, pc), id, limits)
    ensures Inv(Lock(s, id, pc), limits)
  {
    var s' := Lock(s, id, pc);
    forall other | other in s'.calls ensures CallInv(s', other, limits) { assert CallInv(s, other, limits); }
    forall run | run in s'.holding ensures HoldingInv(s', run) { assert HoldingInv(s, run); }
  }

  lemma WithoutLease(s: State, lease: LeaseId, limits: Limits)
    requires Inv(s, limits)
    requires forall run :: Held(s, run) && (s.holding[run].Promoting? || s.holding[run].Leased?) ==> s.holding[run].lease != lease
    ensures Inv(s.(leases := s.leases - {lease}), limits)
  {
    var s' := s.(leases := s.leases - {lease});
    FewerEntries(s.leases, s'.leases);
    forall other | other in s'.calls ensures CallInv(s', other, limits) { assert CallInv(s, other, limits); }
    forall run | run in s'.holding ensures HoldingInv(s', run) { assert HoldingInv(s, run); }
  }

  lemma WithoutTicket(s: State, run: RunId, limits: Limits)
    requires Inv(s, limits)
    requires Held(s, run) ==> s.holding[run].Leased?
    ensures Inv(s.(tickets := s.tickets - {run}), limits)
  {
    var s' := s.(tickets := s.tickets - {run});
    FewerEntries(s.tickets, s'.tickets);
    forall other | other in s'.calls ensures CallInv(s', other, limits) { assert CallInv(s, other, limits); }
    forall other | other in s'.holding ensures HoldingInv(s', other) { assert HoldingInv(s, other); }
  }

  lemma StaleLeaseIsNotHeld(s: State, lease: LeaseId, limits: Limits)
    requires Inv(s, limits) && Stale(s, lease)
    ensures Inv(s.(leases := s.leases - {lease}), limits)
  {
    forall run | Held(s, run) && (s.holding[run].Promoting? || s.holding[run].Leased?)
      ensures s.holding[run].lease != lease
    {
      assert HoldingInv(s, run);
    }
    WithoutLease(s, lease, limits);
  }

  lemma StaleTicketIsNotHeld(s: State, run: RunId, limits: Limits)
    requires Inv(s, limits) && (run in s.tickets ==> s.tickets[run] in s.gone)
    ensures Inv(s.(tickets := s.tickets - {run}), limits)
    ensures run in s.holding && Held(s, run) ==> s.holding[run].Leased?
  {
    if run in s.holding { assert HoldingInv(s, run); }
    WithoutTicket(s, run, limits);
  }

  /** The holding of a run that no call but a probe works on may change, as long as what is held is on disk. */
  lemma Rehold(s: State, run: RunId, holding: Holding, limits: Limits)
    requires Inv(s, limits) && run in s.owners
    requires forall id :: id in s.calls ==> !Works(s, id, run)
    requires HoldingInv(s.(holding := s.holding[run := holding]), run)
    requires run in s.holding && Held(s, run) && s.holding[run].Leased? ==> holding == LetGo || holding == s.holding[run]
    requires run in s.holding && s.holding[run].LetGo? ==> holding == LetGo
    ensures Inv(s.(holding := s.holding[run := holding]), limits)
  {
    var s' := s.(holding := s.holding[run := holding]);
    forall id | id in s'.calls ensures CallInv(s', id, limits) { assert CallInv(s, id, limits) && !Works(s, id, run); }
    forall other | other in s'.holding ensures HoldingInv(s', other) {
      if other != run { assert HoldingInv(s, other); }
    }
  }

  /** An admission or a promotion of the run is under way. */
  predicate Works(s: State, id: CallId, run: RunId)
    requires id in s.calls
  {
    (At(s, id).Waiting? || HoldsLock(At(s, id))) && At(s, id).run == run
  }

  /** At most one call works on a run. */
  lemma OnlyWorker(s: State, id: CallId, other: CallId, run: RunId, limits: Limits)
    requires Inv(s, limits) && id in s.calls && other in s.calls
    requires Works(s, id, run) && Works(s, other, run)
    ensures id == other
  {
    assert CallInv(s, id, limits) && CallInv(s, other, limits);
  }

  lemma NoWorkerAfter(s: State, id: CallId, run: RunId, limits: Limits)
    requires Inv(s, limits) && id in s.calls && Works(s, id, run) && HoldsLock(At(s, id))
    ensures forall other :: other in Finish(s, id).calls ==> !Works(Finish(s, id), other, run)
  {
    forall other | other in Finish(s, id).calls ensures !Works(Finish(s, id), other, run) {
      if other != id && Works(s, other, run) { OnlyWorker(s, id, other, run, limits); }
    }
  }

  // ---------------------------------------------------------------- every step keeps it

  lemma BeginAdmissionKeep(s: State, id: CallId, proc: Proc, run: RunId, allowQueue: bool, limits: Limits)
    requires Inv(s, limits) && CanBeginAdmission(s, id, proc, run, allowQueue)
    ensures Inv(DoBeginAdmission(s, id, proc, run, allowQueue), limits)
  {
    var s' := DoBeginAdmission(s, id, proc, run, allowQueue);
    forall id | id in s'.calls ensures CallInv(s', id, limits) {
      if id in s.calls { assert CallInv(s, id, limits); }
    }
    forall run | run in s'.holding ensures HoldingInv(s', run) {
      if run in s.holding { assert HoldingInv(s, run); }
    }
  }

  lemma BeginPromotionKeep(s: State, id: CallId, run: RunId, limits: Limits)
    requires Inv(s, limits) && CanBeginPromotion(s, id, run)
    ensures Inv(DoBeginPromotion(s, id, run), limits)
  {
    var s' := DoBeginPromotion(s, id, run);
    forall id | id in s'.calls ensures CallInv(s', id, limits) {
      if id in s.calls { assert CallInv(s, id, limits); }
    }
    forall run | run in s'.holding ensures HoldingInv(s', run) {
      if run in s.holding { assert HoldingInv(s, run); }
    }
  }

  lemma BeginProbeKeep(s: State, id: CallId, proc: Proc, run: RunId, limits: Limits)
    requires Inv(s, limits) && CanBeginProbe(s, id, proc, run)
    ensures Inv(DoBeginProbe(s, id, proc, run), limits)
  {
    var s' := DoBeginProbe(s, id, proc, run);
    forall id | id in s'.calls ensures CallInv(s', id, limits) {
      if id in s.calls { assert CallInv(s, id, limits); }
    }
    forall run | run in s'.holding ensures HoldingInv(s', run) {
      if run in s.holding { assert HoldingInv(s, run); }
    }
  }

  lemma AcquireKeep(s: State, id: CallId, limits: Limits)
    requires Inv(s, limits) && CanAcquire(s, id)
    ensures Inv(DoAcquire(s, id), limits)
  {
    var pc := At(s, id);
    assert CallInv(s, id, limits);
    LockKeep(s, id, Locked(pc.run, pc.purpose), limits);
  }

  lemma ListKeep(s: State, id: CallId, limits: Limits)
    requires Inv(s, limits) && CanList(s, id)
    ensures Inv(DoList(s, id), limits)
  {
    assert CallInv(s, id, limits);
    MoveKeep(s, id, DoList(s, id).calls[id].pc, limits);
  }

  lemma ListTicketsKeep(s: State, id: CallId, limits: Limits)
    requires Inv(s, limits) && CanListTickets(s, id)
    ensures Inv(DoListTickets(s, id), limits)
  {
    assert CallInv(s, id, limits);
    MoveKeep(s, id, DoListTickets(s, id).calls[id].pc, limits);
  }

  lemma CounterCovers(s: State, id: CallId, lease: LeaseId, limits: Limits)
    requires Inv(s, limits) && CanCount(s, id, lease)
    ensures CallInv(DoCount(s, id, lease), id, limits)
  {
    assert CallInv(s, id, limits);
    var pc, pc' := At(s, id), At(DoCount(s, id, lease), id);
    assert pc'.Counting? && DoCount(s, id, lease).leases.Keys <= pc'.todo + pc'.seen;
  }

  lemma CountKeep(s: State, id: CallId, lease: LeaseId, limits: Limits)
    requires Inv(s, limits) && CanCount(s, id, lease)
    ensures Inv(DoCount(s, id, lease), limits)
  {
    CounterCovers(s, id, lease, limits);
    var pc := At(DoCount(s, id, lease), id);
    if Stale(s, lease) {
      StaleLeaseIsNotHeld(s, lease, limits);
      MoveKeep(s.(leases := s.leases - {lease}), id, pc, limits);
    } else {
      MoveKeep(s, id, pc, limits);
    }
  }

  lemma DecideKeep(s: State, id: CallId, limits: Limits)
    requires Inv(s, limits) && CanDecide(s, id)
    ensures Inv(DoDecide(s, id, limits), limits)
  {
    var pc := At(s, id);
    assert CallInv(s, id, limits);
    SubsetSize(s.leases.Keys, pc.seen);
    if |pc.seen| < limits.active {
      MoveKeep(s, id, Granting(pc.run, pc.purpose), limits);
    } else if pc.purpose.Promotion? {
      BackToTicket(s, id, limits);
    } else if pc.purpose.allowQueue && limits.queued > 0 {
      MoveKeep(s, id, Full(pc.run), limits);
    } else {
      FinishKeep(s, id, limits);
    }
  }

  /** The run waits with its ticket on disk and may be promoted. */
  predicate MayBePromoted(s: State, run: RunId) {
    Held(s, run) && s.holding[run] == Ticketed(None) && TicketOf(s, run)
  }

  /** A promotion that finds no room, or is cancelled before it has its lease, leaves the ticket as it was. */
  lemma BackToTicket(s: State, id: CallId, limits: Limits)
    requires Inv(s, limits) && id in s.calls && (At(s, id).Locked? || At(s, id).Counting? || At(s, id).Granting?)
    requires At(s, id).purpose.Promotion?
    ensures Inv(Finish(s, id).(holding := s.holding[At(s, id).run := Ticketed(None)]), limits)
    ensures MayBePromoted(Finish(s, id).(holding := s.holding[At(s, id).run := Ticketed(None)]), At(s, id).run)
  {
    var run := At(s, id).run;
    assert CallInv(s, id, limits) && HoldingInv(s, run);
    FinishKeep(s, id, limits);
    NoWorkerAfter(s, id, run, limits);
    Rehold(Finish(s, id), run, Ticketed(None), limits);
  }

  lemma AbandonKeep(s: State, id: CallId, limits: Limits)
    requires Inv(s, limits) && CanAbandon(s, id)
    ensures Inv(DoAbandon(s, id), limits)
  {
    var pc := At(s, id);
    if (pc.Locked? || pc.Granting?) && pc.purpose.Promotion? { BackToTicket(s, id, limits); } else { FinishKeep(s, id, limits); }
  }

  lemma PublishLeaseCall(s: State, id: CallId, lease: LeaseId, other: CallId, limits: Limits)
    requires CanPublishLease(s, id, lease) && CallInv(s, id, limits)
    requires other in s.calls && CallInv(s, other, limits)
    ensures CallInv(DoPublishLease(s, id, lease), other, limits)
  {
  }

  lemma PublishLeaseHolding(s: State, id: CallId, lease: LeaseId, run: RunId, limits: Limits)
    requires CanPublishLease(s, id, lease) && CallInv(s, id, limits)
    requires run in DoPublishLease(s, id, lease).holding && (run in s.holding ==> HoldingInv(s, run))
    ensures (run in s.holding || run in s.owners) && HoldingInv(DoPublishLease(s, id, lease), run)
  {
  }

  lemma PublishLeaseKeep(s: State, id: CallId, lease: LeaseId, limits: Limits)
    requires Inv(s, limits) && CanPublishLease(s, id, lease)
    ensures Inv(DoPublishLease(s, id, lease), limits)
  {
    var s' := DoPublishLease(s, id, lease);
    assert CallInv(s, id, limits);
    OneMoreEntry(s.leases, lease, s'.leases[lease]);
    forall other | other in s'.calls ensures CallInv(s', other, limits) { PublishLeaseCall(s, id, lease, other, limits); }
    forall run | run in s'.holding ensures run in s'.owners && HoldingInv(s', run) {
      PublishLeaseHolding(s, id, lease, run, limits);
    }
  }

  lemma CountTicketKeep(s: State, id: CallId, other: RunId, limits: Limits)
    requires Inv(s, limits) && CanCountTicket(s, id, other)
    ensures Inv(DoCountTicket(s, id, other), limits)
  {
    var stale := other in s.tickets && s.tickets[other] in s.gone;
    var s1 := if stale then s.(tickets := s.tickets - {other}) else s;
    if stale { StaleTicketIsNotHeld(s, other, limits); }
    assert CallInv(s, id, limits);
    MoveKeep(s1, id, DoCountTicket(s, id, other).calls[id].pc, limits);
  }

  lemma DecideQueueKeep(s: State, id: CallId, limits: Limits)
    requires Inv(s, limits) && CanDecideQueue(s, id)
    ensures Inv(DoDecideQueue(s, id, limits), limits)
  {
    var pc := At(s, id);
    assert CallInv(s, id, limits);
    SubsetSize(s.tickets.Keys, pc.seenTickets);
    if |pc.seenTickets| < limits.queued { MoveKeep(s, id, Queueing(pc.run), limits); } else { FinishKeep(s, id, limits); }
  }

  lemma PublishTicketKeep(s: State, id: CallId, limits: Limits)
    requires Inv(s, limits) && CanPublishTicket(s, id)
    ensures Inv(DoPublishTicket(s, id), limits)
  {
    var s' := DoPublishTicket(s, id);
    OneMoreEntry(s.tickets, At(s, id).run, s.calls[id].proc);
    assert CallInv(s, id, limits);
    forall id | id in s'.calls ensures CallInv(s', id, limits) { assert CallInv(s, id, limits); }
    forall run | run in s'.holding ensures HoldingInv(s', run) {
      if run in s.holding { assert HoldingInv(s, run); }
    }
  }

  lemma RemoveTicketCall(s: State, id: CallId, other: CallId, limits: Limits)
    requires CanRemoveTicket(s, id) && CallInv(s, id, limits)
    requires other in s.calls && CallInv(s, other, limits)
    ensures CallInv(DoRemoveTicket(s, id), other, limits)
  {
  }

  lemma RemoveTicketHolding(s: State, id: CallId, run: RunId, limits: Limits)
    requires CanRemoveTicket(s, id) && CallInv(s, id, limits)
    requires run in s.holding && HoldingInv(s, run) && HoldingInv(s, At(s, id).run)
    ensures HoldingInv(DoRemoveTicket(s, id), run)
  {
  }

  lemma RemoveTicketKeep(s: State, id: CallId, limits: Limits)
    requires Inv(s, limits) && CanRemoveTicket(s, id)
    ensures Inv(DoRemoveTicket(s, id), limits)
  {
    var s' := DoRemoveTicket(s, id);
    assert CallInv(s, id, limits);
    forall other | other in s'.calls ensures CallInv(s', other, limits) { RemoveTicketCall(s, id, other, limits); }
    FewerEntries(s.tickets, s'.tickets);
    forall run | run in s'.holding ensures HoldingInv(s', run) { RemoveTicketHolding(s, id, run, limits); }
  }

  lemma KeepTicketKeep(s: State, id: CallId, limits: Limits)
    requires Inv(s, limits) && CanKeepTicket(s, id)
    ensures Inv(DoKeepTicket(s, id), limits)
    // The run waits with its ticket again, and the lease is returned.
    ensures var run, s' := At(s, id).run, DoKeepTicket(s, id);
            LeaseOf(s, run, At(s, id).lease) && At(s, id).lease !in s'.leases && MayBePromoted(s', run)
  {
    var pc := At(s, id);
    assert CallInv(s, id, limits) && HoldingInv(s, pc.run);
    FinishKeep(s, id, limits);
    NoWorkerAfter(s, id, pc.run, limits);
    Rehold(Finish(s, id), pc.run, Ticketed(None), limits);
    var s1 := Finish(s, id).(holding := s.holding[pc.run := Ticketed(None)]);
    OthersLease(s1, pc.run, pc.lease, limits);
    WithoutLease(s1, pc.lease, limits);
  }

  lemma GiveUpKeep(s: State, id: CallId, limits: Limits)
    requires Inv(s, limits) && CanGiveUp(s, id)
    ensures Inv(DoGiveUp(s, id), limits)
  {
    var pc := At(s, id);
    assert CallInv(s, id, limits);
    MoveKeep(s, id, Finished, limits);
    if pc.purpose.Promotion? {
      assert HoldingInv(s, pc.run);
      var s1 := Move(s, id, Finished);
      forall other | other in s1.calls ensures !Works(s1, other, pc.run) {
        if other != id && Works(s, other, pc.run) { OnlyWorker(s, id, other, pc.run, limits); }
      }
      Rehold(s1, pc.run, Ticketed(None), limits);
    }
  }

  lemma LetGoKeep(s: State, run: RunId, limits: Limits)
    requires Inv(s, limits) && run in s.owners
    requires forall id :: id in s.calls ==> !Works(s, id, run)
    ensures Inv(s.(holding := s.holding[run := LetGo]), limits)
  {
    Rehold(s, run, LetGo, limits);
  }

  lemma SettleKeep(s: State, id: CallId, cancelled: bool, limits: Limits)
    requires Inv(s, limits) && CanSettle(s, id, cancelled)
    ensures Inv(DoSettle(s, id, cancelled), limits)
    // The run has exactly its lease, or has returned it and holds nothing.
    ensures var run, lease, s' := At(s, id).run, At(s, id).lease, DoSettle(s, id, cancelled);
            && (cancelled ==> LeaseOf(s, run, lease) && lease !in s'.leases && !Held(s', run))
            && (!cancelled ==> LeaseOf(s', run, lease) && Held(s', run) && s'.holding[run] == Leased(lease))
  {
    var pc := At(s, id);
    assert CallInv(s, id, limits) && HoldingInv(s, pc.run);
    FinishKeep(s, id, limits);
    if cancelled {
      NoWorkerAfter(s, id, pc.run, limits);
      LetGoKeep(Finish(s, id), pc.run, limits);
      var s1 := Finish(s, id).(holding := s.holding[pc.run := LetGo]);
      OthersLease(s1, pc.run, pc.lease, limits);
      WithoutLease(s1, pc.lease, limits);
    }
  }

  /** No other run holds the lease of this one. */
  lemma OthersLease(s: State, run: RunId, lease: LeaseId, limits: Limits)
    requires Inv(s, limits) && run in s.holding && LeaseOf(s, run, lease)
    requires s.holding[run].LetGo? || s.holding[run].Ticketed?
    ensures forall other ::
              Held(s, other) && (s.holding[other].Promoting? || s.holding[other].Leased?) ==> s.holding[other].lease != lease
  {
    forall other | Held(s, other) && (s.holding[other].Promoting? || s.holding[other].Leased?)
      ensures s.holding[other].lease != lease
    {
      assert HoldingInv(s, other);
    }
  }

  lemma ReleaseLeaseKeep(s: State, run: RunId, limits: Limits)
    requires Inv(s, limits) && CanReleaseLease(s, run)
    ensures Inv(DoReleaseLease(s, run), limits)
  {
    var lease := s.holding[run].lease;
    assert HoldingInv(s, run);
    forall id | id in s.calls ensures !Works(s, id, run) { assert CallInv(s, id, limits); }
    LetGoKeep(s, run, limits);
    var s1 := s.(holding := s.holding[run := LetGo]);
    OthersLease(s1, run, lease, limits);
    WithoutLease(s1, lease, limits);
  }

  lemma ReleaseTicketKeep(s: State, run: RunId, limits: Limits)
    requires Inv(s, limits) && CanReleaseTicket(s, run)
    ensures Inv(DoReleaseTicket(s, run), limits)
  {
    forall id | id in s.calls ensures !Works(s, id, run) { assert CallInv(s, id, limits); }
    LetGoKeep(s, run, limits);
    WithoutTicket(s.(holding := s.holding[run := LetGo]), run, limits);
  }

  lemma ScannerKnows(s: State, id: CallId, lease: LeaseId, limits: Limits)
    requires CanScanLease(s, id, lease) && CallInv(s, id, limits) && HoldingInv(s, At(s, id).run)
    ensures CallInv(DoScanLease(s, id, lease), id, limits)
  {
  }

  lemma ScanLeaseKeep(s: State, id: CallId, lease: LeaseId, limits: Limits)
    requires Inv(s, limits) && CanScanLease(s, id, lease)
    ensures Inv(DoScanLease(s, id, lease), limits)
  {
    assert CallInv(s, id, limits) && HoldingInv(s, At(s, id).run);
    ScannerKnows(s, id, lease, limits);
    var pc := At(DoScanLease(s, id, lease), id);
    if Stale(s, lease) {
      StaleLeaseIsNotHeld(s, lease, limits);
      MoveKeep(s.(leases := s.leases - {lease}), id, pc, limits);
    } else {
      MoveKeep(s, id, pc, limits);
    }
  }

  lemma ScanDoneKeep(s: State, id: CallId, limits: Limits)
    requires Inv(s, limits) && CanScanDone(s, id)
    ensures Inv(DoScanDone(s, id), limits)
  {
    assert CallInv(s, id, limits) && HoldingInv(s, At(s, id).run);
    MoveKeep(s, id, DoScanDone(s, id).calls[id].pc, limits);
  }

  lemma BeginSecondKeep(s: State, id: CallId, limits: Limits)
    requires Inv(s, limits) && CanBeginSecond(s, id)
    ensures Inv(DoBeginSecond(s, id), limits)
  {
    assert CallInv(s, id, limits) && HoldingInv(s, At(s, id).run);
    MoveKeep(s, id, DoBeginSecond(s, id).calls[id].pc, limits);
  }

  /** A read that finds no live ticket proves that nothing but a lease can be held. */
  lemma NoTicketRead(s: State, id: CallId, limits: Limits)
    requires Inv(s, limits) && CanReadTicket(s, id)
    requires var run := At(s, id).run; run in s.tickets ==> s.tickets[run] in s.gone
    ensures Inv(DoReadTicket(s, id), limits)
  {
    var run := At(s, id).run;
    StaleTicketIsNotHeld(s, run, limits);
    assert CallInv(s, id, limits);
    ReaderKnows(s, id, limits);
    MoveKeep(s.(tickets := s.tickets - {run}), id, At(DoReadTicket(s, id), id), limits);
  }

  lemma ReaderKnows(s: State, id: CallId, limits: Limits)
    requires CanReadTicket(s, id) && CallInv(s, id, limits)
    requires var run := At(s, id).run;
             (run in s.tickets ==> s.tickets[run] in s.gone) && (Held(s, run) ==> s.holding[run].Leased?)
    ensures CallInv(DoReadTicket(s, id), id, limits)
  {
  }

  lemma ReadTicketKeep(s: State, id: CallId, limits: Limits)
    requires Inv(s, limits) && CanReadTicket(s, id)
    ensures Inv(DoReadTicket(s, id), limits)
  {
    var run := At(s, id).run;
    if run in s.tickets && s.tickets[run] !in s.gone {
      assert CallInv(s, id, limits);
      MoveKeep(s, id, Finished, limits);
    } else {
      NoTicketRead(s, id, limits);
    }
  }

  lemma WriteDriftKeep(s: State, id: CallId, limits: Limits)
    requires Inv(s, limits) && CanWriteDrift(s, id)
    ensures Inv(DoWriteDrift(s, id), limits)
  {
    var s' := DoWriteDrift(s, id);
    forall id | id in s'.calls ensures CallInv(s', id, limits) { assert CallInv(s, id, limits); }
    forall run | run in s'.holding ensures HoldingInv(s', run) { assert HoldingInv(s, run); }
  }

  lemma DeathKeepsCalls(s: State, proc: Proc, limits: Limits)
    requires Inv(s, limits) && CanDie(s, proc)
    ensures var s' := DoDie(s, proc); forall id :: id in s'.calls ==> CallInv(s', id, limits)
  {
    var s' := DoDie(s, proc);
    forall id | id in s'.calls ensures CallInv(s', id, limits) { assert CallInv(s, id, limits); }
  }

  lemma DieKeep(s: State, proc: Proc, limits: Limits)
    requires Inv(s, limits) && CanDie(s, proc)
    ensures Inv(DoDie(s, proc), limits)
  {
    var s' := DoDie(s, proc);
    DeathKeepsCalls(s, proc, limits);
    forall run | run in s'.holding ensures HoldingInv(s', run) { assert HoldingInv(s, run); }
  }

  lemma CapacityKeep(s: State, step: CapacityStep, limits: Limits)
    requires Inv(s, limits) && CapacityEnabled(s, step)
    ensures Inv(DoCapacity(s, step, limits), limits)
  {
    match step
    case BeginAdmission(id, proc, run, allowQueue) => BeginAdmissionKeep(s, id, proc, run, allowQueue, limits);
    case Acquire(id) => AcquireKeep(s, id, limits);
    case List(id) => ListKeep(s, id, limits);
    case Count(id, lease) => CountKeep(s, id, lease, limits);
    case Decide(id) => DecideKeep(s, id, limits);
    case Abandon(id) => AbandonKeep(s, id, limits);
    case GiveUp(id) => GiveUpKeep(s, id, limits);
    case PublishLease(id, lease) => PublishLeaseKeep(s, id, lease, limits);
  }

  lemma QueueKeep(s: State, step: QueueStep, limits: Limits)
    requires Inv(s, limits) && QueueEnabled(s, step)
    ensures Inv(DoQueue(s, step, limits), limits)
  {
    match step
    case ListTickets(id) => ListTicketsKeep(s, id, limits);
    case CountTicket(id, other) => CountTicketKeep(s, id, other, limits);
    case DecideQueue(id) => DecideQueueKeep(s, id, limits);
    case PublishTicket(id) => PublishTicketKeep(s, id, limits);
  }

  lemma OwnerKeep(s: State, step: OwnerStep, limits: Limits)
    requires Inv(s, limits) && OwnerEnabled(s, step)
    ensures Inv(DoOwner(s, step), limits)
  {
    match step
    case BeginPromotion(id, run) => BeginPromotionKeep(s, id, run, limits);
    case RemoveTicket(id) => RemoveTicketKeep(s, id, limits);
    case KeepTicket(id) => KeepTicketKeep(s, id, limits);
    case Settle(id, cancelled) => SettleKeep(s, id, cancelled, limits);
    case ReleaseLease(run) => ReleaseLeaseKeep(s, run, limits);
    case ReleaseTicket(run) => ReleaseTicketKeep(s, run, limits);
  }

  lemma ProbeKeep(s: State, step: ProbeStep, limits: Limits)
    requires Inv(s, limits) && ProbeEnabled(s, step)
    ensures Inv(DoProbe(s, step), limits)
  {
    match step
    case BeginProbe(id, proc, run) => BeginProbeKeep(s, id, proc, run, limits);
    case ScanLease(id, lease) => ScanLeaseKeep(s, id, lease, limits);
    case ScanDone(id) => ScanDoneKeep(s, id, limits);
    case ReadTicket(id) => ReadTicketKeep(s, id, limits);
    case BeginSecond(id) => BeginSecondKeep(s, id, limits);
    case WriteDrift(id) => WriteDriftKeep(s, id, limits);
  }

  lemma InvStep(s: State, step: Step, limits: Limits)
    requires Inv(s, limits) && Enabled(s, step)
    ensures Inv(Do(s, step, limits), limits)
  {
    match step
    case ByCapacity(a) => CapacityKeep(s, a, limits);
    case ByQueue(a) => QueueKeep(s, a, limits);
    case ByOwner(a) => OwnerKeep(s, a, limits);
    case ByProbe(a) => ProbeKeep(s, a, limits);
    case Die(proc) => DieKeep(s, proc, limits);
  }

  lemma {:induction false} InvRun(states: seq<State>, steps: seq<Step>, limits: Limits, k: nat)
    requires Run(states, steps, limits) && k < |states|
    ensures Inv(states[k], limits)
  {
    if k > 0 {
      InvRun(states, steps, limits, k - 1);
      InvStep(states[k - 1], steps[k - 1], limits);
    }
  }

  // ---------------------------------------------------------------- what every run keeps

  /** At most the allowed number of leases and tickets, whatever interleaves, fails or dies. */
  lemma CapacityIsBounded(states: seq<State>, steps: seq<Step>, limits: Limits, k: nat)
    requires Run(states, steps, limits) && k < |states|
    ensures |states[k].leases| <= limits.active && |states[k].tickets| <= limits.queued
  {
    InvRun(states, steps, limits, k);
  }

  /** The lock is never left behind: whoever holds it lives and is about to let it go or to go on. */
  lemma LockIsHeld(states: seq<State>, steps: seq<Step>, limits: Limits, k: nat)
    requires Run(states, steps, limits) && k < |states|
    ensures forall id :: id in states[k].calls && HoldsLock(At(states[k], id)) ==> states[k].lock == Some(id)
    ensures states[k].lock.Some? ==>
              && states[k].lock.value in states[k].calls && HoldsLock(At(states[k], states[k].lock.value))
              && states[k].calls[states[k].lock.value].proc !in states[k].gone
  {
    InvRun(states, steps, limits, k);
    forall id | id in states[k].calls && HoldsLock(At(states[k], id)) ensures states[k].lock == Some(id) {
      assert CallInv(states[k], id, limits);
    }
    if states[k].lock.Some? { assert CallInv(states[k], states[k].lock.value, limits); }
  }

  /** A run that is held is on disk at every moment, also in the middle of its promotion. */
  lemma HeldIsOnDisk(states: seq<State>, steps: seq<Step>, limits: Limits, k: nat, run: RunId)
    requires Run(states, steps, limits) && k < |states| && Held(states[k], run)
    ensures TicketOf(states[k], run) || exists lease :: LeaseOf(states[k], run, lease)
  {
    InvRun(states, steps, limits, k);
    assert HoldingInv(states[k], run);
  }

  /** The file counts for a run of a live server only while that run holds it. */
  predicate LeaseBacked(s: State, lease: LeaseId)
    requires lease in s.leases
  {
    var run := s.leases[lease].run;
    s.leases[lease].proc in s.gone
    || (run in s.holding && (s.holding[run] == Promoting(lease) || s.holding[run] == Leased(lease)))
  }

  predicate TicketBacked(s: State, run: RunId)
    requires run in s.tickets
  {
    s.tickets[run] in s.gone || (run in s.holding && (s.holding[run].Ticketed? || s.holding[run].Promoting?))
  }

  predicate NothingLeaks(s: State) {
    && (forall lease :: lease in s.leases ==> LeaseBacked(s, lease))
    && (forall run :: run in s.tickets ==> TicketBacked(s, run))
  }

  /** What a step does to one lease, one ticket and one run that nobody holds any more. */
  predicate Accounts(s: State, s': State, lease: LeaseId, run: RunId) {
    && (lease in s'.leases && (lease in s.leases ==> LeaseBacked(s, lease)) ==> LeaseBacked(s', lease))
    && (run in s'.tickets && (run in s.tickets ==> TicketBacked(s, run)) ==> TicketBacked(s', run))
    && (run in s.holding && run in s.owners && !Held(s, run) ==> run in s'.holding && !Held(s', run))
    && (run in s'.drifted && run !in s.drifted ==> run in s.holding && !Held(s, run))
  }

  /** Nothing on disk changes, and at most a queued run goes back to waiting. */
  predicate OnlyWaits(s: State, s': State, queued: RunId) {
    && s'.leases == s.leases && s'.tickets == s.tickets && s'.gone == s.gone
    && s'.owners == s.owners && s'.drifted == s.drifted
    && (s'.holding == s.holding
        || (queued in s.holding && s.holding[queued].Ticketed? && s'.holding == s.holding[queued := Ticketed(None)]))
  }

  lemma WaitingAccounts(s: State, s': State, queued: RunId, lease: LeaseId, run: RunId)
    requires OnlyWaits(s, s', queued)
    ensures Accounts(s, s', lease, run)
  {
  }

  lemma DecideAccounts(s: State, id: CallId, limits: Limits, lease: LeaseId, run: RunId)
    requires CanDecide(s, id)
    requires CallInv(s, id, limits)
    ensures Accounts(s, DoDecide(s, id, limits), lease, run)
  {
    hide Accounts;
    WaitingAccounts(s, DoDecide(s, id, limits), At(s, id).run, lease, run);
  }

  lemma AbandonAccounts(s: State, id: CallId, limits: Limits, lease: LeaseId, run: RunId)
    requires CanAbandon(s, id)
    requires CallInv(s, id, limits)
    ensures Accounts(s, DoAbandon(s, id), lease, run)
  {
    hide Accounts;
    WaitingAccounts(s, DoAbandon(s, id), At(s, id).run, lease, run);
  }

  lemma GiveUpAccounts(s: State, id: CallId, limits: Limits, lease: LeaseId, run: RunId)
    requires CanGiveUp(s, id)
    requires CallInv(s, id, limits)
    ensures Accounts(s, DoGiveUp(s, id), lease, run)
  {
    hide Accounts;
    WaitingAccounts(s, DoGiveUp(s, id), At(s, id).run, lease, run);
  }

  lemma PublishLeaseAccounts(s: State, id: CallId, added: LeaseId, limits: Limits, lease: LeaseId, run: RunId)
    requires CanPublishLease(s, id, added)
    requires CallInv(s, id, limits)
    ensures Accounts(s, DoPublishLease(s, id, added), lease, run)
  {
  }

  lemma RemoveTicketAccounts(s: State, id: CallId, limits: Limits, lease: LeaseId, run: RunId)
    requires CanRemoveTicket(s, id)
    requires CallInv(s, id, limits)
    ensures Accounts(s, DoRemoveTicket(s, id), lease, run)
  {
  }

  lemma KeepTicketAccounts(s: State, id: CallId, limits: Limits, lease: LeaseId, run: RunId)
    requires CanKeepTicket(s, id)
    requires CallInv(s, id, limits)
    ensures Accounts(s, DoKeepTicket(s, id), lease, run)
  {
  }

  lemma SettleAccounts(s: State, id: CallId, cancelled: bool, limits: Limits, lease: LeaseId, run: RunId)
    requires CanSettle(s, id, cancelled)
    requires CallInv(s, id, limits)
    ensures Accounts(s, DoSettle(s, id, cancelled), lease, run)
  {
  }

  lemma CapacityAccounts(s: State, step: CapacityStep, limits: Limits, lease: LeaseId, run: RunId)
    requires CapacityEnabled(s, step)
    requires step.id in s.calls ==> CallInv(s, step.id, limits)
    ensures Accounts(s, DoCapacity(s, step, limits), lease, run)
  {
    match step
    case Decide(id) => DecideAccounts(s, id, limits, lease, run);
    case Abandon(id) => AbandonAccounts(s, id, limits, lease, run);
    case GiveUp(id) => GiveUpAccounts(s, id, limits, lease, run);
    case PublishLease(id, added) => PublishLeaseAccounts(s, id, added, limits, lease, run);
    case _ =>
  }

  lemma QueueAccounts(s: State, step: QueueStep, limits: Limits, lease: LeaseId, run: RunId)
    requires QueueEnabled(s, step)
    requires step.id in s.calls ==> CallInv(s, step.id, limits)
    ensures Accounts(s, DoQueue(s, step, limits), lease, run)
  {
  }

  lemma OwnerAccounts(s: State, step: OwnerStep, limits: Limits, lease: LeaseId, run: RunId)
    requires OwnerEnabled(s, step)
    requires !step.ReleaseLease? && !step.ReleaseTicket? && step.id in s.calls ==> CallInv(s, step.id, limits)
    ensures Accounts(s, DoOwner(s, step), lease, run)
  {
    match step
    case RemoveTicket(id) => RemoveTicketAccounts(s, id, limits, lease, run);
    case KeepTicket(id) => KeepTicketAccounts(s, id, limits, lease, run);
    case Settle(id, cancelled) => SettleAccounts(s, id, cancelled, limits, lease, run);
    case BeginPromotion(id, promoted) => BeginPromotionAccounts(s, id, promoted, lease, run);
    case ReleaseLease(released) => ReleaseLeaseAccounts(s, released, lease, run);
    case ReleaseTicket(released) => ReleaseTicketAccounts(s, released, lease, run);
  }

  lemma BeginPromotionAccounts(s: State, id: CallId, promoted: RunId, lease: LeaseId, run: RunId)
    requires CanBeginPromotion(s, id, promoted)
    ensures Accounts(s, DoBeginPromotion(s, id, promoted), lease, run)
  {
  }

  lemma ReleaseLeaseAccounts(s: State, released: RunId, lease: LeaseId, run: RunId)
    requires CanReleaseLease(s, released)
    ensures Accounts(s, DoReleaseLease(s, released), lease, run)
  {
  }

  lemma ReleaseTicketAccounts(s: State, released: RunId, lease: LeaseId, run: RunId)
    requires CanReleaseTicket(s, released)
    ensures Accounts(s, DoReleaseTicket(s, released), lease, run)
  {
  }

  lemma ProbeAccounts(s: State, step: ProbeStep, limits: Limits, lease: LeaseId, run: RunId)
    requires ProbeEnabled(s, step)
    requires step.id in s.calls ==> CallInv(s, step.id, limits)
    ensures Accounts(s, DoProbe(s, step), lease, run)
  {
    match step
    case ScanLease(id, scanned) => ScanLeaseAccounts(s, id, scanned, lease, run);
    case ReadTicket(id) => ReadTicketAccounts(s, id, lease, run);
    case _ =>
  }

  lemma ScanLeaseAccounts(s: State, id: CallId, scanned: LeaseId, lease: LeaseId, run: RunId)
    requires CanScanLease(s, id, scanned)
    ensures Accounts(s, DoScanLease(s, id, scanned), lease, run)
  {
  }

  lemma ReadTicketAccounts(s: State, id: CallId, lease: LeaseId, run: RunId)
    requires CanReadTicket(s, id)
    ensures Accounts(s, DoReadTicket(s, id), lease, run)
  {
  }

  lemma StepAccounts(s: State, step: Step, limits: Limits, lease: LeaseId, run: RunId)
    requires Inv(s, limits) && Enabled(s, step)
    ensures Accounts(s, Do(s, step, limits), lease, run)
  {
    match step
    case ByCapacity(a) => CapacityAccounts(s, a, limits, lease, run);
    case ByQueue(a) => QueueAccounts(s, a, limits, lease, run);
    case ByOwner(a) => OwnerAccounts(s, a, limits, lease, run);
    case ByProbe(a) => ProbeAccounts(s, a, limits, lease, run);
    case Die(_) =>
  }

  /** No lease and no ticket of a live server outlives its use: a failed or cancelled promotion returns its lease. */
  lemma {:induction false} NothingEverLeaks(states: seq<State>, steps: seq<Step>, limits: Limits, k: nat)
    requires Run(states, steps, limits) && k < |states|
    ensures NothingLeaks(states[k])
  {
    if k > 0 {
      NothingEverLeaks(states, steps, limits, k - 1);
      InvRun(states, steps, limits, k - 1);
      forall lease | lease in states[k].leases ensures LeaseBacked(states[k], lease) {
        StepAccounts(states[k - 1], steps[k - 1], limits, lease, 0);
      }
      forall run | run in states[k].tickets ensures TicketBacked(states[k], run) {
        StepAccounts(states[k - 1], steps[k - 1], limits, 0, run);
      }
    }
  }

  // ---------------------------------------------------------------- no false owner loss

  /** No run is ever marked `restart_drift` while its live owner holds it, at the write or later. */
  lemma {:induction false} NoFalseOwnerLoss(states: seq<State>, steps: seq<Step>, limits: Limits, k: nat, run: RunId)
    requires Run(states, steps, limits) && k < |states| && run in states[k].drifted
    ensures run in states[k].holding && !Held(states[k], run)
  {
    if k > 0 {
      InvRun(states, steps, limits, k - 1);
      StepAccounts(states[k - 1], steps[k - 1], limits, 0, run);
      if run in states[k - 1].drifted { NoFalseOwnerLoss(states, steps, limits, k - 1, run); }
    }
  }

  // ---------------------------------------------------------------- when the first check is fooled

  /** The call is in the first round of reconciling the run. */
  predicate FirstRound(s: State, id: CallId, run: RunId) {
    && id in s.calls
    && (At(s, id).ScanningLeases? || At(s, id).ReadingTicket?)
    && At(s, id).run == run && At(s, id).round == 1
  }

  /** The leases it has listed and not read yet. */
  function Unread(s: State, id: CallId): set<LeaseId>
    requires id in s.calls
  {
    if At(s, id).ScanningLeases? then At(s, id).todo else {}
  }

  predicate PublishesPromotion(s: State, step: Step, run: RunId, lease: LeaseId) {
    && step.ByCapacity? && step.capacity.PublishLease? && step.capacity.lease == lease
    && step.capacity.id in s.calls && At(s, step.capacity.id) == Granting(run, Promotion)
  }

  predicate RemovesPromoted(s: State, step: Step, run: RunId, lease: LeaseId) {
    && step.ByOwner? && step.owner.RemoveTicket?
    && step.owner.id in s.calls && At(s, step.owner.id) == RemovingTicket(run, lease)
  }

  /** How the holding of a run can change while it stays held. */
  predicate Passes(s: State, step: Step, s': State, run: RunId) {
    run in s.holding && run in s.owners ==>
      && run in s'.holding && run in s'.owners
      && (Held(s', run) ==>
            && Held(s, run)
            && match s'.holding[run]
               case Ticketed(_) => !s.holding[run].Leased?
               case Promoting(lease) =>
                 s.holding[run] == Promoting(lease)
                 || (s.holding[run].Ticketed? && PublishesPromotion(s, step, run, lease))
               case Leased(lease) =>
                 s.holding[run] == Leased(lease)
                 || (s.holding[run] == Promoting(lease) && RemovesPromoted(s, step, run, lease))
               case LetGo => true)
  }

  lemma CapacityPasses(s: State, step: CapacityStep, limits: Limits, run: RunId)
    requires CapacityEnabled(s, step)
    requires step.id in s.calls ==> CallInv(s, step.id, limits)
    ensures Passes(s, ByCapacity(step), DoCapacity(s, step, limits), run)
  {
    match step
    case Decide(id) => DecidePasses(s, id, limits, run);
    case Abandon(id) => AbandonPasses(s, id, limits, run);
    case PublishLease(id, lease) => PublishPasses(s, id, lease, limits, run);
    case _ =>
  }

  lemma DecidePasses(s: State, id: CallId, limits: Limits, run: RunId)
    requires CanDecide(s, id) && CallInv(s, id, limits)
    ensures Passes(s, ByCapacity(Decide(id)), DoDecide(s, id, limits), run)
  {
  }

  lemma AbandonPasses(s: State, id: CallId, limits: Limits, run: RunId)
    requires CanAbandon(s, id) && CallInv(s, id, limits)
    ensures Passes(s, ByCapacity(Abandon(id)), DoAbandon(s, id), run)
  {
  }

  lemma PublishPasses(s: State, id: CallId, lease: LeaseId, limits: Limits, run: RunId)
    requires CanPublishLease(s, id, lease) && CallInv(s, id, limits)
    ensures Passes(s, ByCapacity(PublishLease(id, lease)), DoPublishLease(s, id, lease), run)
  {
  }

  lemma QueuePasses(s: State, step: QueueStep, limits: Limits, run: RunId)
    requires QueueEnabled(s, step)
    requires step.id in s.calls ==> CallInv(s, step.id, limits)
    ensures Passes(s, ByQueue(step), DoQueue(s, step, limits), run)
  {
  }

  lemma OwnerPasses(s: State, step: OwnerStep, limits: Limits, run: RunId)
    requires OwnerEnabled(s, step)
    requires !step.ReleaseLease? && !step.ReleaseTicket? && step.id in s.calls ==> CallInv(s, step.id, limits)
    ensures Passes(s, ByOwner(step), DoOwner(s, step), run)
  {
    match step
    case RemoveTicket(id) => RemovePasses(s, id, limits, run);
    case KeepTicket(id) => KeepPasses(s, id, limits, run);
    case Settle(id, cancelled) => SettlePasses(s, id, cancelled, limits, run);
    case _ =>
  }

  lemma KeepPasses(s: State, id: CallId, limits: Limits, run: RunId)
    requires CanKeepTicket(s, id) && CallInv(s, id, limits)
    ensures Passes(s, ByOwner(KeepTicket(id)), DoKeepTicket(s, id), run)
  {
  }

  lemma SettlePasses(s: State, id: CallId, cancelled: bool, limits: Limits, run: RunId)
    requires CanSettle(s, id, cancelled) && CallInv(s, id, limits)
    ensures Passes(s, ByOwner(Settle(id, cancelled)), DoSettle(s, id, cancelled), run)
  {
  }

  lemma RemovePasses(s: State, id: CallId, limits: Limits, run: RunId)
    requires CanRemoveTicket(s, id) && CallInv(s, id, limits)
    ensures Passes(s, ByOwner(RemoveTicket(id)), DoRemoveTicket(s, id), run)
  {
  }

  lemma ProbePasses(s: State, step: ProbeStep, limits: Limits, run: RunId)
    requires ProbeEnabled(s, step)
    ensures Passes(s, ByProbe(step), DoProbe(s, step), run)
  {
  }

  lemma StepPasses(s: State, step: Step, limits: Limits, run: RunId)
    requires Inv(s, limits) && Enabled(s, step)
    ensures Passes(s, step, Do(s, step, limits), run)
  {
    match step
    case ByCapacity(a) => CapacityPasses(s, a, limits, run);
    case ByQueue(a) => QueuePasses(s, a, limits, run);
    case ByOwner(a) => OwnerPasses(s, a, limits, run);
    case ByProbe(a) => ProbePasses(s, a, limits, run);
    case Die(_) =>
  }

  /** The listing of the leases that begins a first round. */
  predicate Begins(step: Step, id: CallId, run: RunId) {
    step.ByProbe? && step.probe.BeginProbe? && step.probe.id == id && step.probe.run == run
  }

  /** A first round goes on, without having read a lease that its live owner holds. */
  predicate ReadsOn(s: State, s': State, id: CallId, run: RunId) {
    FirstRound(s', id, run) ==>
      && FirstRound(s, id, run)
      && forall lease :: lease in Unread(s, id) && LeaseOf(s, run, lease) && s.owners[run] !in s.gone ==> lease in Unread(s', id)
  }

  lemma CapacityReadsOn(s: State, step: CapacityStep, limits: Limits, id: CallId, run: RunId)
    requires CapacityEnabled(s, step)
    ensures ReadsOn(s, DoCapacity(s, step, limits), id, run)
  {
    match step
    case Count(other, lease) => CountReadsOn(s, other, lease, id, run);
    case Decide(other) => DecideReadsOn(s, other, limits, id, run);
    case Abandon(other) => AbandonReadsOn(s, other, id, run);
    case PublishLease(other, lease) => PublishReadsOn(s, other, lease, id, run);
    case _ =>
  }

  lemma CountReadsOn(s: State, other: CallId, lease: LeaseId, id: CallId, run: RunId)
    requires CanCount(s, other, lease)
    ensures ReadsOn(s, DoCount(s, other, lease), id, run)
  {
  }

  lemma DecideReadsOn(s: State, other: CallId, limits: Limits, id: CallId, run: RunId)
    requires CanDecide(s, other)
    ensures ReadsOn(s, DoDecide(s, other, limits), id, run)
  {
  }

  lemma AbandonReadsOn(s: State, other: CallId, id: CallId, run: RunId)
    requires CanAbandon(s, other)
    ensures ReadsOn(s, DoAbandon(s, other), id, run)
  {
  }

  lemma PublishReadsOn(s: State, other: CallId, lease: LeaseId, id: CallId, run: RunId)
    requires CanPublishLease(s, other, lease)
    ensures ReadsOn(s, DoPublishLease(s, other, lease), id, run)
  {
  }

  lemma QueueReadsOn(s: State, step: QueueStep, limits: Limits, id: CallId, run: RunId)
    requires QueueEnabled(s, step)
    ensures ReadsOn(s, DoQueue(s, step, limits), id, run)
  {
  }

  lemma OwnerReadsOn(s: State, step: OwnerStep, id: CallId, run: RunId)
    requires OwnerEnabled(s, step)
    ensures ReadsOn(s, DoOwner(s, step), id, run)
  {
  }

  lemma ScanReadsOn(s: State, other: CallId, lease: LeaseId, id: CallId, run: RunId)
    requires CanScanLease(s, other, lease)
    ensures ReadsOn(s, DoScanLease(s, other, lease), id, run)
  {
  }

  lemma ProbeReadsOn(s: State, step: ProbeStep, id: CallId, run: RunId)
    requires ProbeEnabled(s, step) && !Begins(ByProbe(step), id, run)
    ensures ReadsOn(s, DoProbe(s, step), id, run)
  {
    match step
    case ScanLease(other, lease) => ScanReadsOn(s, other, lease, id, run);
    case _ =>
  }

  lemma StepReadsOn(s: State, step: Step, limits: Limits, id: CallId, run: RunId)
    requires Enabled(s, step) && !Begins(step, id, run)
    ensures ReadsOn(s, Do(s, step, limits), id, run)
  {
    match step
    case ByCapacity(a) => CapacityReadsOn(s, a, limits, id, run);
    case ByQueue(a) => QueueReadsOn(s, a, limits, id, run);
    case ByOwner(a) => OwnerReadsOn(s, a, id, run);
    case ByProbe(a) => ProbeReadsOn(s, a, id, run);
    case Die(_) =>
  }

  /** The run's promotion published this lease in the steps from `b` and before `n`. */
  ghost predicate PublishedSince(states: seq<State>, steps: seq<Step>, run: RunId, lease: LeaseId, b: nat, n: nat)
    requires |states| == |steps| + 1 && n <= |steps|
  {
    exists p :: b <= p < n && PublishesPromotion(states[p], steps[p], run, lease)
  }

  /** And afterwards, still before `n`, it removed the ticket. */
  ghost predicate PromotedSince(states: seq<State>, steps: seq<Step>, run: RunId, lease: LeaseId, b: nat, n: nat)
    requires |states| == |steps| + 1 && n <= |steps|
  {
    exists j :: b <= j < n && RemovesPromoted(states[j], steps[j], run, lease) && PublishedSince(states, steps, run, lease, b, j)
  }

  /** What a first round that listed the leases in step `b` has missed. */
  ghost predicate Missed(states: seq<State>, steps: seq<Step>, run: RunId, id: CallId, b: nat, n: nat)
    requires |states| == |steps| + 1 && n <= |steps| && id in states[n].calls
  {
    Held(states[n], run) ==>
      match states[n].holding[run]
      case Promoting(lease) => lease in Unread(states[n], id) || PublishedSince(states, steps, run, lease, b, n)
      case Leased(lease) => lease in Unread(states[n], id) || PromotedSince(states, steps, run, lease, b, n)
      case _ => true
  }

  lemma MissedNext(states: seq<State>, steps: seq<Step>, limits: Limits, run: RunId, id: CallId, b: nat, n: nat)
    requires Run(states, steps, limits) && b <= n < |steps|
    requires FirstRound(states[n], id, run) && FirstRound(states[n + 1], id, run) && !Begins(steps[n], id, run)
    requires Missed(states, steps, run, id, b, n)
    ensures Missed(states, steps, run, id, b, n + 1)
  {
    hide Inv, Enabled, Do, CallInv;
    InvRun(states, steps, limits, n);
    HeldOnDisk(states[n], id, run, limits);
    StepPasses(states[n], steps[n], limits, run);
    StepReadsOn(states[n], steps[n], limits, id, run);
  }

  lemma HeldOnDisk(s: State, id: CallId, run: RunId, limits: Limits)
    requires Inv(s, limits) && (run in s.holding || FirstRound(s, id, run))
    ensures run in s.holding && run in s.owners && HoldingInv(s, run)
  {
    if id in s.calls { assert CallInv(s, id, limits); }
  }

  lemma NothingMissedYet(states: seq<State>, steps: seq<Step>, limits: Limits, run: RunId, id: CallId, b: nat)
    requires Run(states, steps, limits) && b < |steps| && Begins(steps[b], id, run)
    ensures FirstRound(states[b + 1], id, run) && Missed(states, steps, run, id, b, b + 1)
  {
    assert CanBeginProbe(states[b], id, steps[b].probe.proc, run);
    assert states[b + 1] == DoBeginProbe(states[b], id, steps[b].probe.proc, run);
    InvRun(states, steps, limits, b);
    HeldOnDisk(states[b], id, run, limits);
  }

  /** Every first round has begun, has lasted since, and has missed nothing but a promotion. */
  lemma {:induction false} FirstRoundHistory(states: seq<State>, steps: seq<Step>, limits: Limits, n: nat, id: CallId, run: RunId)
    returns (b: nat)
    requires Run(states, steps, limits) && n < |states| && FirstRound(states[n], id, run)
    ensures b < n && Begins(steps[b], id, run)
    ensures forall k :: b < k <= n ==> FirstRound(states[k], id, run)
    ensures Missed(states, steps, run, id, b, n)
  {
    assert n > 0;
    if Begins(steps[n - 1], id, run) {
      b := n - 1;
      NothingMissedYet(states, steps, limits, run, id, b);
    } else {
      StepReadsOn(states[n - 1], steps[n - 1], limits, id, run);
      b := FirstRoundHistory(states, steps, limits, n - 1, id, run);
      MissedNext(states, steps, limits, run, id, b, n - 1);
    }
  }

  /**
   The interleaving that fools a first check: after it listed the leases, and before it reads the
   ticket in step `k`, the run's promotion both published its lease and removed its ticket.
   */
  ghost predicate Overtaken(states: seq<State>, steps: seq<Step>, k: nat, id: CallId, run: RunId)
    requires |states| == |steps| + 1 && k <= |steps|
  {
    exists b: nat, lease ::
      && b < k && Begins(steps[b], id, run)
      && (forall j :: b < j <= k ==> FirstRound(states[j], id, run))
      && PromotedSince(states, steps, run, lease, b, k)
  }

  /** A first check reports a held run as gone if and only if the run's one promotion overtakes it. */
  lemma FooledExactly(states: seq<State>, steps: seq<Step>, limits: Limits, k: nat, id: CallId, run: RunId)
    requires Run(states, steps, limits) && k < |steps| && steps[k] == ByProbe(ReadTicket(id))
    requires FirstRound(states[k], id, run) && Held(states[k], run)
    ensures At(states[k + 1], id) == FirstSaysGone(run) <==> Overtaken(states, steps, k, id, run)
  {
    hide *;
    StepIs(states, steps, limits, k);
    ReadSays(states, steps, limits, k, id, run);
    if At(states[k + 1], id) == FirstSaysGone(run) {
      OnlyPromotionFools(states, steps, limits, k, id, run);
    }
    if Overtaken(states, steps, k, id, run) {
      PromotionFools(states, steps, limits, k, id, run);
    }
  }

  lemma OnlyPromotionFools(states: seq<State>, steps: seq<Step>, limits: Limits, k: nat, id: CallId, run: RunId)
    requires Run(states, steps, limits) && k < |steps|
    requires FirstRound(states[k], id, run) && Held(states[k], run)
    requires At(states[k], id).ReadingTicket? && states[k].holding[run].Leased?
    ensures Overtaken(states, steps, k, id, run)
  {
    hide FirstRound, Begins, PromotedSince, Run;
    assert |states| == |steps| + 1 by { StepIs(states, steps, limits, k); }
    var b := FirstRoundHistory(states, steps, limits, k, id, run);
    assert PromotedSince(states, steps, run, states[k].holding[run].lease, b, k);
  }

  lemma PromotionFools(states: seq<State>, steps: seq<Step>, limits: Limits, k: nat, id: CallId, run: RunId)
    requires Run(states, steps, limits) && k < |steps| && Overtaken(states, steps, k, id, run)
    requires Held(states[k], run)
    ensures states[k].holding[run].Leased?
  {
    hide PromotedSince, RemovesPromoted, Held, Run, FirstRound;
    assert |states| == |steps| + 1 by { StepIs(states, steps, limits, k); }
    var b: nat, lease :| b < k && PromotedSince(states, steps, run, lease, b, k);
    var j := RemovalIn(states, steps, run, lease, b, k);
    PromotedStays(states, steps, limits, j, k, run, lease);
  }

  lemma RemovalIn(states: seq<State>, steps: seq<Step>, run: RunId, lease: LeaseId, b: nat, n: nat) returns (j: nat)
    requires |states| == |steps| + 1 && n <= |steps| && PromotedSince(states, steps, run, lease, b, n)
    ensures b <= j < n && RemovesPromoted(states[j], steps[j], run, lease)
  {
    hide RemovesPromoted, PublishedSince;
    j :| b <= j < n && RemovesPromoted(states[j], steps[j], run, lease) && PublishedSince(states, steps, run, lease, b, j);
  }

  lemma StepIs(states: seq<State>, steps: seq<Step>, limits: Limits, k: nat)
    requires Run(states, steps, limits) && k < |steps|
    ensures |states| == |steps| + 1
    ensures Enabled(states[k], steps[k]) && states[k + 1] == Do(states[k], steps[k], limits)
  {
  }

  /** The read of the ticket of a held run finds nothing exactly when the run is held by its lease alone. */
  lemma ReadSays(states: seq<State>, steps: seq<Step>, limits: Limits, k: nat, id: CallId, run: RunId)
    requires Run(states, steps, limits) && k < |steps| && steps[k] == ByProbe(ReadTicket(id))
    requires FirstRound(states[k], id, run) && Held(states[k], run)
    ensures id in states[k].calls && id in states[k + 1].calls && At(states[k], id).ReadingTicket?
    ensures run in states[k].holding
    ensures At(states[k + 1], id) == FirstSaysGone(run) <==> states[k].holding[run].Leased?
  {
    StepIs(states, steps, limits, k);
    InvRun(states, steps, limits, k);
    NothingEverLeaks(states, steps, limits, k);
    hide Inv, CallInv, Run;
    HeldReads(states[k], id, run, limits);
  }

  lemma HeldReads(s: State, id: CallId, run: RunId, limits: Limits)
    requires Inv(s, limits) && NothingLeaks(s) && CanReadTicket(s, id) && FirstRound(s, id, run) && Held(s, run)
    ensures At(DoReadTicket(s, id), id) == FirstSaysGone(run) <==> s.holding[run].Leased?
  {
    HeldOnDisk(s, id, run, limits);
    assert run in s.tickets ==> TicketBacked(s, run);
  }

  /** After its promotion a run that is still held is held by its lease. */
  lemma {:induction false} PromotedStays(
    states: seq<State>, steps: seq<Step>, limits: Limits, j: nat, k: nat, run: RunId, lease: LeaseId)
    requires Run(states, steps, limits) && j < k < |states| && RemovesPromoted(states[j], steps[j], run, lease)
    ensures run in states[k].holding && run in states[k].owners && (Held(states[k], run) ==> states[k].holding[run].Leased?)
  {
    hide Inv, CallInv, Enabled, Do;
    InvRun(states, steps, limits, k - 1);
    if j == k - 1 {
      PromotedNow(states[j], steps[j], limits, run, lease);
    } else {
      PromotedStays(states, steps, limits, j, k - 1, run, lease);
      StepPasses(states[k - 1], steps[k - 1], limits, run);
    }
  }

  lemma PromotedNow(s: State, step: Step, limits: Limits, run: RunId, lease: LeaseId)
    requires Inv(s, limits) && Enabled(s, step) && RemovesPromoted(s, step, run, lease)
    ensures var s' := Do(s, step, limits); run in s'.holding && run in s'.owners && s'.holding[run].Leased?
  {
    assert CallInv(s, step.owner.id, limits);
  }

  // ---------------------------------------------------------------- a dead owner's run is reported

  /** The file was written by the owner of its run. */
  predicate LeaseOwned(s: State, lease: LeaseId)
    requires lease in s.leases
  {
    s.leases[lease].run in s.owners && s.leases[lease].proc == s.owners[s.leases[lease].run]
  }

  predicate TicketOwned(s: State, run: RunId)
    requires run in s.tickets
  {
    run in s.owners && s.tickets[run] == s.owners[run]
  }

  predicate OwnersWrite(s: State, s': State, lease: LeaseId, run: RunId) {
    && (lease in s'.leases && (lease in s.leases ==> LeaseOwned(s, lease)) ==> LeaseOwned(s', lease))
    && (run in s'.tickets && (run in s.tickets ==> TicketOwned(s, run)) ==> TicketOwned(s', run))
    && (run in s.owners ==> run in s'.owners && s'.owners[run] == s.owners[run])
    && s.gone <= s'.gone
  }

  lemma CapacityOwnersWrite(s: State, step: CapacityStep, limits: Limits, lease: LeaseId, run: RunId)
    requires CapacityEnabled(s, step)
    requires step.id in s.calls ==> CallInv(s, step.id, limits)
    ensures OwnersWrite(s, DoCapacity(s, step, limits), lease, run)
  {
    match step
    case Decide(id) => DecideOwnersWrite(s, id, limits, lease, run);
    case PublishLease(id, added) => PublishLeaseOwnersWrite(s, id, added, limits, lease, run);
    case _ =>
  }

  lemma DecideOwnersWrite(s: State, id: CallId, limits: Limits, lease: LeaseId, run: RunId)
    requires CanDecide(s, id)
    ensures OwnersWrite(s, DoDecide(s, id, limits), lease, run)
  {
  }

  lemma PublishLeaseOwnersWrite(s: State, id: CallId, added: LeaseId, limits: Limits, lease: LeaseId, run: RunId)
    requires CanPublishLease(s, id, added) && CallInv(s, id, limits)
    ensures OwnersWrite(s, DoPublishLease(s, id, added), lease, run)
  {
  }

  lemma QueueOwnersWrite(s: State, step: QueueStep, limits: Limits, lease: LeaseId, run: RunId)
    requires QueueEnabled(s, step)
    requires step.id in s.calls ==> CallInv(s, step.id, limits)
    ensures OwnersWrite(s, DoQueue(s, step, limits), lease, run)
  {
  }

  lemma OwnerOwnersWrite(s: State, step: OwnerStep, lease: LeaseId, run: RunId)
    requires OwnerEnabled(s, step)
    ensures OwnersWrite(s, DoOwner(s, step), lease, run)
  {
  }

  lemma ProbeOwnersWrite(s: State, step: ProbeStep, lease: LeaseId, run: RunId)
    requires ProbeEnabled(s, step)
    ensures OwnersWrite(s, DoProbe(s, step), lease, run)
  {
  }

  lemma StepOwnersWrite(s: State, step: Step, limits: Limits, lease: LeaseId, run: RunId)
    requires Inv(s, limits) && Enabled(s, step)
    ensures OwnersWrite(s, Do(s, step, limits), lease, run)
  {
    match step
    case ByCapacity(a) => CapacityOwnersWrite(s, a, limits, lease, run);
    case ByQueue(a) => QueueOwnersWrite(s, a, limits, lease, run);
    case ByOwner(a) => OwnerOwnersWrite(s, a, lease, run);
    case ByProbe(a) => ProbeOwnersWrite(s, a, lease, run);
    case Die(_) =>
  }

  lemma {:induction false} FilesAreOwned(states: seq<State>, steps: seq<Step>, limits: Limits, k: nat)
    requires Run(states, steps, limits) && k < |states|
    ensures forall lease :: lease in states[k].leases ==> LeaseOwned(states[k], lease)
    ensures forall run :: run in states[k].tickets ==> TicketOwned(states[k], run)
  {
    hide Inv, Enabled, Do, LeaseOwned, TicketOwned;
    if k > 0 {
      StepIs(states, steps, limits, k - 1);
      FilesAreOwned(states, steps, limits, k - 1);
      InvRun(states, steps, limits, k - 1);
      forall lease | lease in states[k].leases ensures LeaseOwned(states[k], lease) {
        StepOwnersWrite(states[k - 1], steps[k - 1], limits, lease, 0);
      }
      forall run | run in states[k].tickets ensures TicketOwned(states[k], run) {
        StepOwnersWrite(states[k - 1], steps[k - 1], limits, 0, run);
      }
    }
  }

  /** The call has nothing but suspicion of the run. */
  predicate Suspects(s: State, id: CallId, run: RunId) {
    id in s.calls
    && match At(s, id)
       case ScanningLeases(r, _, _) => r == run
       case ReadingTicket(r, _) => r == run
       case FirstSaysGone(r) => r == run
       case SecondSaysGone(r) => r == run
       case _ => false
  }

  /** Each file of the run is of a server that is gone. */
  ghost predicate NoLiveFile(s: State, run: RunId) {
    && (forall lease :: lease in s.leases && s.leases[lease].run == run ==> s.leases[lease].proc in s.gone)
    && (run in s.tickets ==> s.tickets[run] in s.gone)
  }

  lemma CapacitySuspects(s: State, step: CapacityStep, limits: Limits, id: CallId, run: RunId)
    requires CapacityEnabled(s, step) && Suspects(s, id, run)
    ensures Suspects(DoCapacity(s, step, limits), id, run)
  {
    match step
    case Decide(other) => DecideSuspects(s, other, limits, id, run);
    case _ =>
  }

  lemma DecideSuspects(s: State, other: CallId, limits: Limits, id: CallId, run: RunId)
    requires CanDecide(s, other) && Suspects(s, id, run)
    ensures Suspects(DoDecide(s, other, limits), id, run)
  {
  }

  lemma QueueSuspects(s: State, step: QueueStep, limits: Limits, id: CallId, run: RunId)
    requires QueueEnabled(s, step) && Suspects(s, id, run)
    ensures Suspects(DoQueue(s, step, limits), id, run)
  {
  }

  lemma OwnerSuspects(s: State, step: OwnerStep, id: CallId, run: RunId)
    requires OwnerEnabled(s, step) && Suspects(s, id, run)
    ensures Suspects(DoOwner(s, step), id, run)
  {
  }

  lemma ScanSuspects(s: State, other: CallId, lease: LeaseId, id: CallId, run: RunId)
    requires CanScanLease(s, other, lease) && Suspects(s, id, run) && NoLiveFile(s, run)
    ensures Suspects(DoScanLease(s, other, lease), id, run)
  {
  }

  lemma ReadSuspects(s: State, other: CallId, id: CallId, run: RunId)
    requires CanReadTicket(s, other) && Suspects(s, id, run) && NoLiveFile(s, run)
    ensures Suspects(DoReadTicket(s, other), id, run)
  {
  }

  lemma ProbeSuspects(s: State, step: ProbeStep, id: CallId, run: RunId)
    requires ProbeEnabled(s, step) && Suspects(s, id, run) && NoLiveFile(s, run) && step != WriteDrift(id)
    ensures Suspects(DoProbe(s, step), id, run)
  {
    hide NoLiveFile;
    match step
    case ScanLease(other, lease) => ScanSuspects(s, other, lease, id, run);
    case ReadTicket(other) => ReadSuspects(s, other, id, run);
    case _ =>
  }

  lemma DeathSuspects(s: State, proc: Proc, id: CallId, run: RunId)
    requires CanDie(s, proc) && Suspects(s, id, run) && id in DoDie(s, proc).calls
    ensures Suspects(DoDie(s, proc), id, run)
  {
  }

  lemma StepSuspects(s: State, step: Step, limits: Limits, id: CallId, run: RunId)
    requires Enabled(s, step) && Suspects(s, id, run) && NoLiveFile(s, run) && step != ByProbe(WriteDrift(id))
    requires id in Do(s, step, limits).calls
    ensures Suspects(Do(s, step, limits), id, run)
  {
    hide Suspects, NoLiveFile, CapacityEnabled, QueueEnabled, OwnerEnabled, ProbeEnabled, CanDie,
      DoCapacity, DoQueue, DoOwner, DoProbe, DoDie;
    match step
    case ByCapacity(a) => CapacitySuspects(s, a, limits, id, run);
    case ByQueue(a) => QueueSuspects(s, a, limits, id, run);
    case ByOwner(a) => OwnerSuspects(s, a, id, run);
    case ByProbe(a) => ProbeSuspects(s, a, id, run);
    case Die(proc) => DeathSuspects(s, proc, id, run);
  }

  /** A suspicion can always go on: a lease or the ticket is read, or the next round begins, or the loss is written. */
  lemma SuspicionGoesOn(s: State, id: CallId, run: RunId) returns (step: ProbeStep)
    requires Suspects(s, id, run)
    ensures ProbeEnabled(s, step) && !step.BeginProbe? && step.id == id
  {
    match At(s, id)
    case ScanningLeases(_, _, todo) =>
      if lease :| lease in todo { step := ScanLease(id, lease); } else { step := ScanDone(id); }
    case ReadingTicket(_, _) => step := ReadTicket(id);
    case FirstSaysGone(_) => step := BeginSecond(id);
    case SecondSaysGone(_) => step := WriteDrift(id);
  }

  lemma DriftStays(s: State, step: Step, limits: Limits, run: RunId)
    requires Enabled(s, step) && run in s.drifted
    ensures run in Do(s, step, limits).drifted
  {
    match step
    case ByCapacity(a) => CapacityDriftStays(s, a, limits);
    case ByQueue(a) => assert DoQueue(s, a, limits).drifted == s.drifted;
    case ByOwner(a) => assert DoOwner(s, a).drifted == s.drifted;
    case ByProbe(a) => assert s.drifted <= DoProbe(s, a).drifted;
    case Die(_) =>
  }

  lemma CapacityDriftStays(s: State, step: CapacityStep, limits: Limits)
    requires CapacityEnabled(s, step)
    ensures DoCapacity(s, step, limits).drifted == s.drifted
  {
    match step
    case Decide(id) => assert DoDecide(s, id, limits).drifted == s.drifted;
    case _ =>
  }

  lemma WriteDrifts(s: State, id: CallId, limits: Limits, run: RunId)
    requires Enabled(s, ByProbe(WriteDrift(id))) && Suspects(s, id, run)
    ensures run in Do(s, ByProbe(WriteDrift(id)), limits).drifted
  {
  }

  /** The owner is dead, so no file of its run is of a living server, now or later. */
  lemma DeadHasNoLiveFile(states: seq<State>, steps: seq<Step>, limits: Limits, k: nat, run: RunId)
    requires Run(states, steps, limits) && k < |states|
    requires run in states[k].owners && states[k].owners[run] in states[k].gone
    ensures NoLiveFile(states[k], run)
  {
    FilesAreOwned(states, steps, limits, k);
    forall lease | lease in states[k].leases && states[k].leases[lease].run == run
      ensures states[k].leases[lease].proc in states[k].gone
    {
      assert LeaseOwned(states[k], lease);
    }
    if run in states[k].tickets { assert TicketOwned(states[k], run); }
  }

  lemma {:induction false} DeadStaysDead(states: seq<State>, steps: seq<Step>, limits: Limits, b: nat, k: nat, run: RunId)
    requires Run(states, steps, limits) && b <= k < |states|
    requires run in states[b].owners && states[b].owners[run] in states[b].gone
    ensures run in states[k].owners && states[k].owners[run] in states[k].gone
  {
    hide Inv, Enabled, Do;
    if b < k {
      StepIs(states, steps, limits, k - 1);
      DeadStaysDead(states, steps, limits, b, k - 1, run);
      InvRun(states, steps, limits, k - 1);
      StepOwnersWrite(states[k - 1], steps[k - 1], limits, 0, run);
    }
  }

  /**
   The other half of no false owner loss: a reconciliation that began after the death of the owner,
   and lives to its end, has nothing else to end with than the loss of the run.
   */
  lemma {:induction false} DeadIsDrifted(states: seq<State>, steps: seq<Step>, limits: Limits, b: nat, n: nat, id: CallId, run: RunId)
    requires Run(states, steps, limits) && b < n < |states| && Begins(steps[b], id, run)
    requires run in states[b].owners && states[b].owners[run] in states[b].gone
    requires forall k {:trigger states[k]} :: b < k <= n ==> id in states[k].calls
    ensures Suspects(states[n], id, run) || run in states[n].drifted
  {
    hide Inv, Enabled, Do, Suspects, NoLiveFile;
    StepIs(states, steps, limits, n - 1);
    if n == b + 1 {
      BeginSuspects(states[b], steps[b], limits, id, run);
    } else {
      DeadIsDrifted(states, steps, limits, b, n - 1, id, run);
      DeadStaysDead(states, steps, limits, b, n - 1, run);
      DeadHasNoLiveFile(states, steps, limits, n - 1, run);
      if run in states[n - 1].drifted {
        DriftStays(states[n - 1], steps[n - 1], limits, run);
      } else if steps[n - 1] == ByProbe(WriteDrift(id)) {
        WriteDrifts(states[n - 1], id, limits, run);
      } else {
        StepSuspects(states[n - 1], steps[n - 1], limits, id, run);
      }
    }
  }

  lemma BeginSuspects(s: State, step: Step, limits: Limits, id: CallId, run: RunId)
    requires Enabled(s, step) && Begins(step, id, run)
    ensures Suspects(Do(s, step, limits), id, run)
  {
  }

  // ---------------------------------------------------------------- room is granted

  /** What a step makes of a count of leases under way. */
  predicate CountsOn(s: State, step: Step, s': State, id: CallId) {
    id in s'.calls && At(s', id).Counting? ==>
      if step == ByCapacity(List(id)) then
        At(s', id).todo == s.leases.Keys && At(s', id).seen == {}
      else
        && id in s.calls && At(s, id).Counting?
        && if step.ByCapacity? && step.capacity.Count? && step.capacity.id == id then
             var lease := step.capacity.lease;
             && lease in At(s, id).todo && At(s', id).todo == At(s, id).todo - {lease}
             && At(s', id).seen == if Stale(s, lease) then At(s, id).seen else At(s, id).seen + {lease}
           else At(s', id) == At(s, id)
  }

  lemma CapacityCountsOn(s: State, step: CapacityStep, limits: Limits, id: CallId)
    requires CapacityEnabled(s, step)
    ensures CountsOn(s, ByCapacity(step), DoCapacity(s, step, limits), id)
  {
    match step
    case Decide(other) => DecideCountsOn(s, other, limits, id);
    case Count(other, lease) => CountCountsOn(s, other, lease, limits, id);
    case _ =>
  }

  lemma DecideCountsOn(s: State, other: CallId, limits: Limits, id: CallId)
    requires CanDecide(s, other)
    ensures CountsOn(s, ByCapacity(Decide(other)), DoDecide(s, other, limits), id)
  {
  }

  lemma CountCountsOn(s: State, other: CallId, lease: LeaseId, limits: Limits, id: CallId)
    requires CanCount(s, other, lease)
    ensures CountsOn(s, ByCapacity(Count(other, lease)), DoCount(s, other, lease), id)
  {
  }

  lemma QueueCountsOn(s: State, step: QueueStep, limits: Limits, id: CallId)
    requires QueueEnabled(s, step)
    ensures CountsOn(s, ByQueue(step), DoQueue(s, step, limits), id)
  {
  }

  lemma StepCountsOn(s: State, step: Step, limits: Limits, id: CallId)
    requires Enabled(s, step)
    ensures CountsOn(s, step, Do(s, step, limits), id)
  {
    match step
    case ByCapacity(a) => CapacityCountsOn(s, a, limits, id);
    case ByQueue(a) => QueueCountsOn(s, a, limits, id);
    case ByOwner(a) => OwnerCountsOn(s, a, id);
    case ByProbe(a) => ProbeCountsOn(s, a, id);
    case Die(_) =>
  }

  lemma OwnerCountsOn(s: State, step: OwnerStep, id: CallId)
    requires OwnerEnabled(s, step)
    ensures CountsOn(s, ByOwner(step), DoOwner(s, step), id)
  {
  }

  lemma ProbeCountsOn(s: State, step: ProbeStep, id: CallId)
    requires ProbeEnabled(s, step)
    ensures CountsOn(s, ByProbe(step), DoProbe(s, step), id)
  {
  }

  /** In the steps from `b` and before `n` this call read the lease as one of a dead server. */
  ghost predicate ReadStale(states: seq<State>, steps: seq<Step>, b: nat, n: nat, id: CallId, lease: LeaseId)
    requires |states| == |steps| + 1 && n <= |steps|
  {
    exists j :: b <= j < n && steps[j] == ByCapacity(Count(id, lease)) && Stale(states[j], lease)
  }

  /** The leases listed in step `b` that were not read as dead before `n`, and those still to be read. */
  ghost predicate Tallied(states: seq<State>, steps: seq<Step>, b: nat, n: nat, id: CallId)
    requires |states| == |steps| + 1 && b < n <= |steps|
  {
    && id in states[n].calls && At(states[n], id).Counting?
    && At(states[n], id).todo <= states[b].leases.Keys
    && At(states[n], id).todo !! At(states[n], id).seen
    && (forall lease :: lease in At(states[n], id).seen <==>
          lease in states[b].leases && lease !in At(states[n], id).todo && !ReadStale(states, steps, b, n, id, lease))
    && forall lease :: lease in At(states[n], id).todo ==> !ReadStale(states, steps, b, n, id, lease)
  }

  lemma TallyNext(states: seq<State>, steps: seq<Step>, limits: Limits, b: nat, n: nat, id: CallId)
    requires Run(states, steps, limits) && b < n < |steps| && Tallied(states, steps, b, n, id)
    requires id in states[n + 1].calls && At(states[n + 1], id).Counting? && steps[n] != ByCapacity(List(id))
    ensures Tallied(states, steps, b, n + 1, id)
  {
    StepIs(states, steps, limits, n);
    hide Enabled, Do, Run, ReadStale, Stale;
    StepCountsOn(states[n], steps[n], limits, id);
    forall lease
      ensures ReadStale(states, steps, b, n + 1, id, lease) <==>
                ReadStale(states, steps, b, n, id, lease) || (steps[n] == ByCapacity(Count(id, lease)) && Stale(states[n], lease))
    {
      ReadStaleNext(states, steps, b, n, id, lease);
    }
  }

  lemma ReadStaleNext(states: seq<State>, steps: seq<Step>, b: nat, n: nat, id: CallId, lease: LeaseId)
    requires |states| == |steps| + 1 && b <= n < |steps|
    ensures ReadStale(states, steps, b, n + 1, id, lease) <==>
              ReadStale(states, steps, b, n, id, lease) || (steps[n] == ByCapacity(Count(id, lease)) && Stale(states[n], lease))
  {
    hide Stale;
  }

  /** Every count under way began with a listing and has counted exactly what it did not find dead. */
  lemma {:induction false} CountHistory(states: seq<State>, steps: seq<Step>, limits: Limits, n: nat, id: CallId) returns (b: nat)
    requires Run(states, steps, limits) && n < |states| && id in states[n].calls && At(states[n], id).Counting?
    ensures b < n && steps[b] == ByCapacity(List(id)) && Tallied(states, steps, b, n, id)
  {
    assert n > 0;
    StepIs(states, steps, limits, n - 1);
    hide Enabled, Do;
    StepCountsOn(states[n - 1], steps[n - 1], limits, id);
    if steps[n - 1] == ByCapacity(List(id)) {
      b := n - 1;
    } else {
      b := CountHistory(states, steps, limits, n - 1, id);
      TallyNext(states, steps, limits, b, n - 1, id);
    }
  }

  /**
   Room is granted exactly when fewer leases than the limit were listed and not read as those of
   dead servers.  Without room a promotion waits on with its ticket, an admission is queued where
   it may be, and otherwise it is refused; the lock is let go unless it goes on.
   */
  lemma GrantedExactly(states: seq<State>, steps: seq<Step>, limits: Limits, k: nat, id: CallId) returns (b: nat)
    requires Run(states, steps, limits) && k < |steps| && steps[k] == ByCapacity(Decide(id))
    ensures b < k && steps[b] == ByCapacity(List(id)) && id in states[k].calls && id in states[k + 1].calls
    ensures var counted := set lease | lease in states[b].leases && !ReadStale(states, steps, b, k, id, lease);
            var pc, next := At(states[k], id), At(states[k + 1], id);
            && pc.Counting?
            && next == (if |counted| < limits.active then Granting(pc.run, pc.purpose)
                        else if pc.purpose.Admission? && pc.purpose.allowQueue && limits.queued > 0 then Full(pc.run)
                        else Finished)
            && (next == Finished ==> states[k + 1].lock.None?)
            && (next == Finished && pc.purpose.Promotion? ==>
                  pc.run in states[k + 1].holding && states[k + 1].holding[pc.run] == Ticketed(None))
  {
    StepIs(states, steps, limits, k);
    b := CountHistory(states, steps, limits, k, id);
    hide Run, ReadStale;
    var counted := set lease | lease in states[b].leases && !ReadStale(states, steps, b, k, id, lease);
    assert counted == At(states[k], id).seen;
    assert states[k + 1] == DoDecide(states[k], id, limits);
  }

  /** What a step makes of a count of tickets under way. */
  predicate CountsTicketsOn(s: State, step: Step, s': State, id: CallId) {
    id in s'.calls && At(s', id).CountingTickets? ==>
      if step == ByQueue(ListTickets(id)) then
        At(s', id).tickets == s.tickets.Keys && At(s', id).seenTickets == {}
      else
        && id in s.calls && At(s, id).CountingTickets?
        && if step.ByQueue? && step.queue.CountTicket? && step.queue.id == id then
             var run := step.queue.other;
             && run in At(s, id).tickets && At(s', id).tickets == At(s, id).tickets - {run}
             && At(s', id).seenTickets == if StaleTicket(s, run) then At(s, id).seenTickets else At(s, id).seenTickets + {run}
           else At(s', id) == At(s, id)
  }

  predicate StaleTicket(s: State, run: RunId) {
    run in s.tickets && s.tickets[run] in s.gone
  }

  lemma CapacityCountsTicketsOn(s: State, step: CapacityStep, limits: Limits, id: CallId)
    requires CapacityEnabled(s, step)
    ensures CountsTicketsOn(s, ByCapacity(step), DoCapacity(s, step, limits), id)
  {
    match step
    case Decide(other) => DecideCountsTicketsOn(s, other, limits, id);
    case _ =>
  }

  lemma DecideCountsTicketsOn(s: State, other: CallId, limits: Limits, id: CallId)
    requires CanDecide(s, other)
    ensures CountsTicketsOn(s, ByCapacity(Decide(other)), DoDecide(s, other, limits), id)
  {
  }

  lemma QueueCountsTicketsOn(s: State, step: QueueStep, limits: Limits, id: CallId)
    requires QueueEnabled(s, step)
    ensures CountsTicketsOn(s, ByQueue(step), DoQueue(s, step, limits), id)
  {
    match step
    case CountTicket(other, run) => CountTicketCountsOn(s, other, run, limits, id);
    case _ =>
  }

  lemma CountTicketCountsOn(s: State, other: CallId, run: RunId, limits: Limits, id: CallId)
    requires CanCountTicket(s, other, run)
    ensures CountsTicketsOn(s, ByQueue(CountTicket(other, run)), DoCountTicket(s, other, run), id)
  {
  }

  lemma OwnerCountsTicketsOn(s: State, step: OwnerStep, id: CallId)
    requires OwnerEnabled(s, step)
    ensures CountsTicketsOn(s, ByOwner(step), DoOwner(s, step), id)
  {
  }

  lemma ProbeCountsTicketsOn(s: State, step: ProbeStep, id: CallId)
    requires ProbeEnabled(s, step)
    ensures CountsTicketsOn(s, ByProbe(step), DoProbe(s, step), id)
  {
  }

  lemma StepCountsTicketsOn(s: State, step: Step, limits: Limits, id: CallId)
    requires Enabled(s, step)
    ensures CountsTicketsOn(s, step, Do(s, step, limits), id)
  {
    match step
    case ByCapacity(a) => CapacityCountsTicketsOn(s, a, limits, id);
    case ByQueue(a) => QueueCountsTicketsOn(s, a, limits, id);
    case ByOwner(a) => OwnerCountsTicketsOn(s, a, id);
    case ByProbe(a) => ProbeCountsTicketsOn(s, a, id);
    case Die(_) =>
  }

  /** In the steps from `b` and before `n` this call read the ticket as one of a dead server. */
  ghost predicate TicketReadStale(states: seq<State>, steps: seq<Step>, b: nat, n: nat, id: CallId, run: RunId)
    requires |states| == |steps| + 1 && n <= |steps|
  {
    exists j :: b <= j < n && steps[j] == ByQueue(CountTicket(id, run)) && StaleTicket(states[j], run)
  }

  ghost predicate TicketsTallied(states: seq<State>, steps: seq<Step>, b: nat, n: nat, id: CallId)
    requires |states| == |steps| + 1 && b < n <= |steps|
  {
    && id in states[n].calls && At(states[n], id).CountingTickets?
    && At(states[n], id).tickets <= states[b].tickets.Keys
    && At(states[n], id).tickets !! At(states[n], id).seenTickets
    && (forall run :: run in At(states[n], id).seenTickets <==>
          run in states[b].tickets && run !in At(states[n], id).tickets && !TicketReadStale(states, steps, b, n, id, run))
    && forall run :: run in At(states[n], id).tickets ==> !TicketReadStale(states, steps, b, n, id, run)
  }

  lemma TicketReadStaleNext(states: seq<State>, steps: seq<Step>, b: nat, n: nat, id: CallId, run: RunId)
    requires |states| == |steps| + 1 && b <= n < |steps|
    ensures TicketReadStale(states, steps, b, n + 1, id, run) <==>
              TicketReadStale(states, steps, b, n, id, run) || (steps[n] == ByQueue(CountTicket(id, run)) && StaleTicket(states[n], run))
  {
    hide StaleTicket;
  }

  lemma TicketTallyNext(states: seq<State>, steps: seq<Step>, limits: Limits, b: nat, n: nat, id: CallId)
    requires Run(states, steps, limits) && b < n < |steps| && TicketsTallied(states, steps, b, n, id)
    requires id in states[n + 1].calls && At(states[n + 1], id).CountingTickets? && steps[n] != ByQueue(ListTickets(id))
    ensures TicketsTallied(states, steps, b, n + 1, id)
  {
    StepIs(states, steps, limits, n);
    hide Enabled, Do, Run, TicketReadStale, StaleTicket;
    StepCountsTicketsOn(states[n], steps[n], limits, id);
    forall run
      ensures TicketReadStale(states, steps, b, n + 1, id, run) <==>
                TicketReadStale(states, steps, b, n, id, run)
                || (steps[n] == ByQueue(CountTicket(id, run)) && StaleTicket(states[n], run))
    {
      TicketReadStaleNext(states, steps, b, n, id, run);
    }
  }

  lemma {:induction false} TicketCountHistory(states: seq<State>, steps: seq<Step>, limits: Limits, n: nat, id: CallId)
    returns (b: nat)
    requires Run(states, steps, limits) && n < |states| && id in states[n].calls && At(states[n], id).CountingTickets?
    ensures b < n && steps[b] == ByQueue(ListTickets(id)) && TicketsTallied(states, steps, b, n, id)
  {
    assert n > 0;
    StepIs(states, steps, limits, n - 1);
    hide Enabled, Do;
    StepCountsTicketsOn(states[n - 1], steps[n - 1], limits, id);
    if steps[n - 1] == ByQueue(ListTickets(id)) {
      b := n - 1;
    } else {
      b := TicketCountHistory(states, steps, limits, n - 1, id);
      TicketTallyNext(states, steps, limits, b, n - 1, id);
    }
  }

  /** A run is queued exactly when fewer tickets than the limit were listed and not read as those of dead servers. */
  lemma QueuedExactly(states: seq<State>, steps: seq<Step>, limits: Limits, k: nat, id: CallId) returns (b: nat)
    requires Run(states, steps, limits) && k < |steps| && steps[k] == ByQueue(DecideQueue(id))
    ensures b < k && steps[b] == ByQueue(ListTickets(id)) && id in states[k].calls && id in states[k + 1].calls
    ensures var counted := set run | run in states[b].tickets && !TicketReadStale(states, steps, b, k, id, run);
            var pc, next := At(states[k], id), At(states[k + 1], id);
            && pc.CountingTickets?
            && next == (if |counted| < limits.queued then Queueing(pc.run) else Finished)
            && (next == Finished ==> states[k + 1].lock.None?)
  {
    StepIs(states, steps, limits, k);
    b := TicketCountHistory(states, steps, limits, k, id);
    hide Run, TicketReadStale;
    var counted := set run | run in states[b].tickets && !TicketReadStale(states, steps, b, k, id, run);
    assert counted == At(states[k], id).seenTickets;
    assert states[k + 1] == DoDecideQueue(states[k], id, limits);
  }

  // ---------------------------------------------------------------- the first check can be fooled

  ghost predicate Reachable(s: State, limits: Limits) {
    exists states: seq<State>, steps: seq<Step> :: Run(states, steps, limits) && states[|steps|] == s
  }

  lemma ReachedNext(s: State, step: Step, next: State, limits: Limits)
    requires Reachable(s, limits) && Enabled(s, step) && next == Do(s, step, limits)
    ensures Reachable(next, limits)
  {
    var states: seq<State>, steps: seq<Step> :| Run(states, steps, limits) && states[|steps|] == s;
    assert Run(states + [next], steps + [step], limits);
  }

  lemma NothingYet(s: State, limits: Limits)
    requires Init(s)
    ensures Reachable(s, limits)
  {
    assert Run([s], [], limits);
  }

  /** One server may admit run 0 where one child may be active. */
  lemma OneGranted(s: State)
    requires s == State(map[], map[], Some(0), map[0 := Call(0, Granting(0, Admission(true)))], {},
                        map[0 := 0], map[0 := 0], map[], {})
    ensures Reachable(s, Limits(1, 1))
  {
    hide Reachable, Run, Inv, CallInv;
    var limits, asked := Limits(1, 1), Admission(true);
    var s0 := State(map[], map[], None, map[], {}, map[], map[], map[], {});
    NothingYet(s0, limits);
    var s1 := s.(lock := None, calls := map[0 := Call(0, Waiting(0, asked))]);
    ReachedNext(s0, ByCapacity(BeginAdmission(0, 0, 0, true)), s1, limits);
    var s2 := s.(calls := map[0 := Call(0, Locked(0, asked))]);
    ReachedNext(s1, ByCapacity(Acquire(0)), s2, limits);
    var s3 := s.(calls := map[0 := Call(0, Counting(0, asked, {}, {}))]);
    assert s2.leases.Keys == {};
    ReachedNext(s2, ByCapacity(List(0)), s3, limits);
    ReachedNext(s3, ByCapacity(Decide(0)), s, limits);
  }

  lemma OneActive(s: State)
    requires s == State(map[0 := Lease(0, 0)], map[], None, map[0 := Call(0, Finished)], {},
                        map[0 := 0], map[0 := 0], map[0 := Leased(0)], {})
    ensures Reachable(s, Limits(1, 1))
  {
    hide Reachable, Run, Inv, CallInv;
    var s0 := s.(leases := map[], lock := Some(0), calls := map[0 := Call(0, Granting(0, Admission(true)))], holding := map[]);
    OneGranted(s0);
    ReachedNext(s0, ByCapacity(PublishLease(0, 0)), s, Limits(1, 1));
  }

  /** Run 1 lists the one lease. */
  lemma OneListed(s: State)
    requires s == State(map[0 := Lease(0, 0)], map[], Some(1),
                        map[0 := Call(0, Finished), 1 := Call(0, Counting(1, Admission(true), {0}, {}))], {},
                        map[0 := 0, 1 := 0], map[0 := 0, 1 := 1], map[0 := Leased(0)], {})
    ensures Reachable(s, Limits(1, 1))
  {
    hide Reachable, Run, Inv, CallInv;
    var limits, asked, done := Limits(1, 1), Admission(true), Call(0, Finished);
    var s0 := s.(lock := None, calls := map[0 := done], owners := map[0 := 0], admitters := map[0 := 0]);
    OneActive(s0);
    var s1 := s.(lock := None, calls := map[0 := done, 1 := Call(0, Waiting(1, asked))]);
    ReachedNext(s0, ByCapacity(BeginAdmission(1, 0, 1, true)), s1, limits);
    var s2 := s.(calls := map[0 := done, 1 := Call(0, Locked(1, asked))]);
    ReachedNext(s1, ByCapacity(Acquire(1)), s2, limits);
    assert s2.leases.Keys == {0};
    ReachedNext(s2, ByCapacity(List(1)), s, limits);
  }

  /** Run 1 finds the one place taken. */
  lemma OneCounted(s: State)
    requires s == State(map[0 := Lease(0, 0)], map[], Some(1), map[0 := Call(0, Finished), 1 := Call(0, Full(1))], {},
                        map[0 := 0, 1 := 0], map[0 := 0, 1 := 1], map[0 := Leased(0)], {})
    ensures Reachable(s, Limits(1, 1))
  {
    hide Reachable, Run, Inv, CallInv;
    var limits, asked, done := Limits(1, 1), Admission(true), Call(0, Finished);
    var listed: set<LeaseId> := {0};
    var s0 := s.(calls := map[0 := done, 1 := Call(0, Counting(1, asked, listed, {}))]);
    OneListed(s0);
    var s1 := s.(calls := map[0 := done, 1 := Call(0, Counting(1, asked, {}, listed))]);
    assert listed - {0} == {} && {} + listed == listed;
    ReachedNext(s0, ByCapacity(Count(1, 0)), s1, limits);
    ReachedNext(s1, ByCapacity(Decide(1)), s, limits);
  }

  /** Run 1 is queued. */
  lemma OneQueued(s: State)
    requires s == State(map[0 := Lease(0, 0)], map[1 := 0], None, map[0 := Call(0, Finished), 1 := Call(0, Finished)], {},
                        map[0 := 0, 1 := 0], map[0 := 0, 1 := 1], map[0 := Leased(0), 1 := Ticketed(None)], {})
    ensures Reachable(s, Limits(1, 1))
  {
    hide Reachable, Run, Inv, CallInv;
    var limits, done := Limits(1, 1), Call(0, Finished);
    var s0 := s.(tickets := map[], lock := Some(1), calls := map[0 := done, 1 := Call(0, Full(1))], holding := map[0 := Leased(0)]);
    OneCounted(s0);
    var s1 := s0.(calls := map[0 := done, 1 := Call(0, CountingTickets(1, {}, {}))]);
    assert s0.tickets.Keys == {};
    ReachedNext(s0, ByQueue(ListTickets(1)), s1, limits);
    var s2 := s0.(calls := map[0 := done, 1 := Call(0, Queueing(1))]);
    ReachedNext(s1, ByQueue(DecideQueue(1)), s2, limits);
    ReachedNext(s2, ByQueue(PublishTicket(1)), s, limits);
  }

  /** Run 0 lets go, and a second server scans the leases and finds none. */
  lemma ScannedNothing(s: State)
    requires s == State(map[], map[1 := 0], None,
                        map[0 := Call(0, Finished), 1 := Call(0, Finished), 2 := Call(1, ReadingTicket(1, 1))], {},
                        map[0 := 0, 1 := 0], map[0 := 0, 1 := 1], map[0 := LetGo, 1 := Ticketed(None)], {})
    ensures Reachable(s, Limits(1, 1))
  {
    hide Reachable, Run, Inv, CallInv;
    var limits, done := Limits(1, 1), Call(0, Finished);
    var s0 := s.(leases := map[0 := Lease(0, 0)], calls := map[0 := done, 1 := done],
                 holding := map[0 := Leased(0), 1 := Ticketed(None)]);
    OneQueued(s0);
    var s1 := s.(calls := map[0 := done, 1 := done]);
    ReachedNext(s0, ByOwner(ReleaseLease(0)), s1, limits);
    var s2 := s.(calls := map[0 := done, 1 := done, 2 := Call(1, ScanningLeases(1, 1, {}))]);
    assert s1.leases.Keys == {};
    ReachedNext(s1, ByProbe(BeginProbe(2, 1, 1)), s2, limits);
    ReachedNext(s2, ByProbe(ScanDone(2)), s, limits);
  }

  /** Run 1 is about to get its lease. */
  lemma PromotionGranted(s: State)
    requires s == State(map[], map[1 := 0], Some(3),
                        map[0 := Call(0, Finished), 1 := Call(0, Finished), 2 := Call(1, ReadingTicket(1, 1)),
                            3 := Call(0, Granting(1, Promotion))], {},
                        map[0 := 0, 1 := 0], map[0 := 0, 1 := 1], map[0 := LetGo, 1 := Ticketed(Some(3))], {})
    ensures Reachable(s, Limits(1, 1))
  {
    hide Reachable, Run, Inv, CallInv;
    var limits, done, probe := Limits(1, 1), Call(0, Finished), Call(1, ReadingTicket(1, 1));
    var s0 := s.(lock := None, calls := map[0 := done, 1 := done, 2 := probe], holding := map[0 := LetGo, 1 := Ticketed(None)]);
    ScannedNothing(s0);
    var s1 := s.(lock := None, calls := map[0 := done, 1 := done, 2 := probe, 3 := Call(0, Waiting(1, Promotion))]);
    ReachedNext(s0, ByOwner(BeginPromotion(3, 1)), s1, limits);
    var s2 := s.(calls := map[0 := done, 1 := done, 2 := probe, 3 := Call(0, Locked(1, Promotion))]);
    ReachedNext(s1, ByCapacity(Acquire(3)), s2, limits);
    var s3 := s.(calls := map[0 := done, 1 := done, 2 := probe, 3 := Call(0, Counting(1, Promotion, {}, {}))]);
    assert s2.leases.Keys == {};
    ReachedNext(s2, ByCapacity(List(3)), s3, limits);
    ReachedNext(s3, ByCapacity(Decide(3)), s, limits);
  }

  /** Run 1 has its lease and no ticket any more. */
  lemma PromotionSettles(s: State)
    requires s == State(map[1 := Lease(1, 0)], map[], Some(3),
                        map[0 := Call(0, Finished), 1 := Call(0, Finished), 2 := Call(1, ReadingTicket(1, 1)),
                            3 := Call(0, Settling(1, 1))], {},
                        map[0 := 0, 1 := 0], map[0 := 0, 1 := 1], map[0 := LetGo, 1 := Leased(1)], {})
    ensures Reachable(s, Limits(1, 1))
  {
    hide Reachable, Run, Inv, CallInv;
    var limits, done, probe := Limits(1, 1), Call(0, Finished), Call(1, ReadingTicket(1, 1));
    var s0 := s.(leases := map[], tickets := map[1 := 0], holding := map[0 := LetGo, 1 := Ticketed(Some(3))],
                 calls := map[0 := done, 1 := done, 2 := probe, 3 := Call(0, Granting(1, Promotion))]);
    PromotionGranted(s0);
    var s1 := s.(tickets := map[1 := 0], holding := map[0 := LetGo, 1 := Promoting(1)],
                 calls := map[0 := done, 1 := done, 2 := probe, 3 := Call(0, RemovingTicket(1, 1))]);
    ReachedNext(s0, ByCapacity(PublishLease(3, 1)), s1, limits);
    ReachedNext(s1, ByOwner(RemoveTicket(3)), s, limits);
  }

  /** Promoted between the scan of the leases and the read of the ticket, a held run looks gone. */
  lemma FirstCheckIsFooled() returns (s: State)
    ensures Reachable(s, Limits(1, 1))
    ensures 2 in s.calls && At(s, 2) == FirstSaysGone(1) && Held(s, 1)
  {
    hide Reachable, Run, Inv, CallInv;
    var done := Call(0, Finished);
    var s0 := State(
      map[1 := Lease(1, 0)], map[], Some(3),
      map[0 := done, 1 := done, 2 := Call(1, ReadingTicket(1, 1)), 3 := Call(0, Settling(1, 1))], {},
      map[0 := 0, 1 := 0], map[0 := 0, 1 := 1], map[0 := LetGo, 1 := Leased(1)], {});
    PromotionSettles(s0);
    s := Do(s0, ByProbe(ReadTicket(2)), Limits(1, 1));
    ReachedNext(s0, ByProbe(ReadTicket(2)), s, Limits(1, 1));
  }
}
