/**
 Client-start admission and containment of one token (src/clientStartAdmission.ts, and the
 prepare, promote, replay, reconcile and launch steps of src/runTask.ts).

 Any number of calls by any number of processes interleave at their single file operations, but
 that the check of an orphan's owner and the removal of the orphan are one step; a process may
 die between any two steps.  The on-disk lock excludes live holders and is released by
 death; "gone" is true and permanent; SHA-256 has no collisions.  These are the assumptions of
 the model, not its results.
 */
module Admission {
  import opened Outcomes

  type Proc = nat
  type CallId = nat
  type RunId = nat
  type Digest = string

  /** The record `client-start-ids/<sha256 of the token>.json`. */
  datatype Record =
    | Absent
    | Binding(run: RunId, hash: Digest, owner: Proc, cancelled: bool)
    | Fence

  /** A prepared run claim that is not yet linked to its record path. */
  datatype Candidate = Candidate(hash: Digest, owner: Proc)

  datatype Answer =
    | Resolved(hash: Digest, run: RunId)
    | Conflict(hash: Digest)
    | RefusedByFence(hash: Digest)
    | ContainedFenced
    | ContainedBound(run: RunId)
    | GaveUp

  /** Where a call stands.  The steps that hold the admission lock are named in `HoldsLock`. */
  datatype Pc =
    // start_run
    | Finding(hash: Digest)
    | Preparing(hash: Digest)
    | Prepared(hash: Digest, run: RunId)
    | ClaimReading(hash: Digest, run: RunId)
    | ClaimWriting(hash: Digest, run: RunId)
    | ClaimWritten(hash: Digest, run: RunId)
    | Discarding(run: RunId, answer: Answer)
    | Owning(hash: Digest, run: RunId)
    | GuardReading(hash: Digest, run: RunId)
    | Launching(hash: Digest, run: RunId)
    | Spawned(hash: Digest, run: RunId)
    // cancel_client_start
    | Containing
    | ContainReading
    | ContainFencing
    | ContainCancelling(record: Record)
    | ContainDone(answer: Answer)
    // startup reconciliation of prepared candidates
    | Reconciling
    | SawNoRecord(run: RunId, goneAtRead: bool)
    | Finished(answer: Answer)

  datatype Call = Call(proc: Proc, pc: Pc)

  /** Which call of which process made up a run id; run ids are never made up twice. */
  datatype Maker = Maker(proc: Proc, call: CallId)

  datatype State = State(
    record: Record,
    lock: Option<CallId>,
    candidates: map<RunId, Candidate>,
    runs: set<RunId>,
    spawned: set<RunId>,
    calls: map<CallId, Call>,
    gone: set<Proc>,
    makers: map<RunId, Maker>)

  predicate HoldsLock(pc: Pc) {
    match pc
    case ClaimReading(_, _) | ClaimWriting(_, _) | ClaimWritten(_, _) => true
    case GuardReading(_, _) | Launching(_, _) | Spawned(_, _) => true
    case ContainReading | ContainFencing | ContainCancelling(_) | ContainDone(_) => true
    case _ => false
  }

  // ---------------------------------------------------------------- decisions under the lock

  /** What a claim by `hash` finds: nothing, its own binding, or a reason to refuse. */
  function ClaimAnswer(record: Record, hash: Digest): Answer
    requires !record.Absent?
  {
    match record
    case Fence => RefusedByFence(hash)
    case Binding(run, bound, _, _) => if bound == hash then Resolved(hash, run) else Conflict(hash)
  }

  predicate LaunchAllowed(record: Record, hash: Digest, run: RunId) {
    record.Binding? && record.hash == hash && record.run == run && !record.cancelled
  }

  // ---------------------------------------------------------------- steps

  datatype Step =
    | Begin(id: CallId, proc: Proc, pc: Pc)
    | Find(id: CallId)
    | Prepare(id: CallId, run: RunId)
    | Acquire(id: CallId)
    | ReadForClaim(id: CallId)
    | WriteBinding(id: CallId)
    | ReleaseClaim(id: CallId)
    | FailAfterRename(id: CallId)
    | Discard(id: CallId)
    | Promote(run: RunId)
    | DropPromoted(run: RunId)
    | RecoverRun
    | ReadForGuard(id: CallId)
    | Spawn(id: CallId)
    | EndAttempt(id: CallId)
    | ReleaseGuard(id: CallId)
    | ReadForContainment(id: CallId)
    | WriteFence(id: CallId)
    | WriteCancelled(id: CallId)
    | ReleaseContainment(id: CallId)
    | ReadForReconcile(id: CallId, run: RunId)
    | RemoveOrphan(id: CallId)
    | Die(proc: Proc)

  function At(s: State, id: CallId): Pc
    requires id in s.calls
  {
    s.calls[id].pc
  }

  function Move(s: State, id: CallId, pc: Pc): State
    requires id in s.calls
  {
    s.(calls := s.calls[id := Call(s.calls[id].proc, pc)])
  }

  predicate Enabled(s: State, step: Step) {
    match step
    case Begin(id, proc, pc) =>
      id !in s.calls && proc !in s.gone && (pc.Finding? || pc.Containing? || pc.Reconciling?)
    case Find(id) => id in s.calls && At(s, id).Finding?
    case Prepare(id, run) => id in s.calls && At(s, id).Preparing? && run !in s.makers
    case Acquire(id) =>
      id in s.calls && s.lock.None? && (At(s, id).Prepared? || At(s, id).Owning? || At(s, id).Containing?)
    case ReadForClaim(id) => id in s.calls && At(s, id).ClaimReading?
    case WriteBinding(id) => id in s.calls && At(s, id).ClaimWriting?
    case ReleaseClaim(id) => id in s.calls && At(s, id).ClaimWritten?
    case FailAfterRename(id) => id in s.calls && At(s, id).ClaimWritten?
    case Discard(id) => id in s.calls && At(s, id).Discarding?
    case Promote(run) =>
      run in s.candidates && s.record.Binding? && s.record.run == run && s.record.hash == s.candidates[run].hash
    case DropPromoted(run) => run in s.runs
    case RecoverRun => s.record.Binding? && s.record.owner in s.gone
    case ReadForGuard(id) => id in s.calls && At(s, id).GuardReading?
    case Spawn(id) => id in s.calls && At(s, id).Launching?
    case EndAttempt(id) => id in s.calls && At(s, id).Launching?
    case ReleaseGuard(id) => id in s.calls && At(s, id).Spawned?
    case ReadForContainment(id) => id in s.calls && At(s, id).ContainReading?
    case WriteFence(id) => id in s.calls && At(s, id).ContainFencing?
    case WriteCancelled(id) => id in s.calls && At(s, id).ContainCancelling?
    case ReleaseContainment(id) => id in s.calls && At(s, id).ContainDone?
    case ReadForReconcile(id, run) => id in s.calls && At(s, id).Reconciling? && run in s.candidates
    case RemoveOrphan(id) =>
      id in s.calls && At(s, id).SawNoRecord? && At(s, id).run in s.makers && s.makers[At(s, id).run].proc in s.gone
    case Die(proc) => proc !in s.gone
  }

  function Do(s: State, step: Step): State
    requires Enabled(s, step)
  {
    match step
    case Begin(id, proc, pc) => s.(calls := s.calls[id := Call(proc, pc)])
    case Find(id) =>
      // The lock-free read of `findClientStartAdmission`.
      var hash := At(s, id).hash;
      Move(s, id, if s.record.Absent? then Preparing(hash) else Finished(ClaimAnswer(s.record, hash)))
    case Prepare(id, run) =>
      var hash, proc := At(s, id).hash, s.calls[id].proc;
      Move(s, id, Prepared(hash, run)).(
        candidates := s.candidates[run := Candidate(hash, proc)],
        makers := s.makers[run := Maker(proc, id)])
    case Acquire(id) =>
      var pc := match At(s, id)
        case Prepared(hash, run) => ClaimReading(hash, run)
        case Owning(hash, run) => GuardReading(hash, run)
        case _ => ContainReading;
      Move(s, id, pc).(lock := Some(id))
    case ReadForClaim(id) =>
      var hash, run := At(s, id).hash, At(s, id).run;
      if s.record.Absent? then Move(s, id, ClaimWriting(hash, run))
      else Move(s, id, Discarding(run, ClaimAnswer(s.record, hash))).(lock := None)
    case WriteBinding(id) =>
      var hash, run := At(s, id).hash, At(s, id).run;
      Move(s, id, ClaimWritten(hash, run)).(record := Binding(run, hash, s.calls[id].proc, false))
    case ReleaseClaim(id) =>
      Move(s, id, Owning(At(s, id).hash, At(s, id).run)).(lock := None)
    case FailAfterRename(id) =>
      // An I/O error after the rename: the claim throws and its caller discards the candidate.
      Move(s, id, Discarding(At(s, id).run, GaveUp)).(lock := None)
    case Discard(id) =>
      Move(s, id, Finished(At(s, id).answer)).(candidates := s.candidates - {At(s, id).run})
    case Promote(run) => s.(runs := s.runs + {run})
    case DropPromoted(run) => s.(candidates := s.candidates - {run})
    case RecoverRun => s.(runs := s.runs + {s.record.run})
    case ReadForGuard(id) =>
      var hash, run := At(s, id).hash, At(s, id).run;
      if LaunchAllowed(s.record, hash, run) then Move(s, id, Launching(hash, run))
      else Move(s, id, Finished(Resolved(hash, run))).(lock := None)
    case Spawn(id) =>
      Move(s, id, Spawned(At(s, id).hash, At(s, id).run)).(spawned := s.spawned + {At(s, id).run})
    case EndAttempt(id) =>
      Move(s, id, Finished(Resolved(At(s, id).hash, At(s, id).run))).(lock := None)
    case ReleaseGuard(id) =>
      Move(s, id, Finished(Resolved(At(s, id).hash, At(s, id).run))).(lock := None)
    case ReadForContainment(id) =>
      Move(s, id, match s.record
        case Absent => ContainFencing
        case Fence => ContainDone(ContainedFenced)
        case Binding(run, _, _, cancelled) =>
          if cancelled then ContainDone(ContainedBound(run)) else ContainCancelling(s.record))
    case WriteFence(id) =>
      Move(s, id, ContainDone(ContainedFenced)).(record := Fence)
    case WriteCancelled(id) =>
      // The replacement is built from the record that was read, not from the record on disk.
      var read := At(s, id).record;
      if read.Binding? then
        Move(s, id, ContainDone(ContainedBound(read.run))).(record := read.(cancelled := true))
      else s
    case ReleaseContainment(id) =>
      Move(s, id, Finished(At(s, id).answer)).(lock := None)
    case ReadForReconcile(id, run) =>
      if s.record.Absent? then Move(s, id, SawNoRecord(run, s.candidates[run].owner in s.gone))
      else Move(s, id, Finished(GaveUp))
    case RemoveOrphan(id) =>
      Move(s, id, Finished(GaveUp)).(candidates := s.candidates - {At(s, id).run})
    case Die(proc) =>
      s.(gone := s.gone + {proc},
         calls := map id | id in s.calls && s.calls[id].proc != proc :: s.calls[id],
         lock := if s.lock.Some? && s.lock.value in s.calls && s.calls[s.lock.value].proc == proc then None else s.lock)
  }

  predicate Init(s: State) {
    s == State(Absent, None, map[], {}, {}, map[], {}, map[])
  }

  /** A run of the system: states joined by steps. */
  ghost predicate Run(states: seq<State>, steps: seq<Step>) {
    && |states| == |steps| + 1
    && Init(states[0])
    && forall k {:trigger steps[k]} :: 0 <= k < |steps| ==>
         Enabled(states[k], steps[k]) && states[k + 1] == Do(states[k], steps[k])
  }

  // ---------------------------------------------------------------- the invariant

  predicate BoundTo(record: Record, run: RunId) {
    record.Binding? && record.run == run
  }

  /** An answer stays true of the record for ever. */
  predicate AnswerHolds(record: Record, answer: Answer) {
    match answer
    case Resolved(hash, run) => BoundTo(record, run) && record.hash == hash
    case Conflict(hash) => record.Binding? && record.hash != hash
    case RefusedByFence(_) => record.Fence?
    case ContainedFenced => record.Fence?
    case ContainedBound(run) => BoundTo(record, run) && record.cancelled
    case GaveUp => true
  }

  predicate Makes(s: State, id: CallId, run: RunId)
    requires id in s.calls
  {
    run in s.makers && s.makers[run] == Maker(s.calls[id].proc, id)
  }

  /** Before its claim: the candidate is on disk and nothing is bound to it. */
  predicate Unclaimed(s: State, id: CallId, hash: Digest, run: RunId)
    requires id in s.calls
  {
    && Makes(s, id, run)
    && run in s.candidates && s.candidates[run] == Candidate(hash, s.calls[id].proc)
    && !BoundTo(s.record, run)
  }

  predicate Claimed(s: State, id: CallId, hash: Digest, run: RunId)
    requires id in s.calls
  {
    && Makes(s, id, run)
    && BoundTo(s.record, run) && s.record.hash == hash && s.record.owner == s.calls[id].proc
  }

  predicate CallInv(s: State, id: CallId)
    requires id in s.calls
  {
    && s.calls[id].proc !in s.gone
    && (HoldsLock(At(s, id)) ==> s.lock == Some(id))
    && match At(s, id)
       case Finding(_) | Preparing(_) | Containing | ContainReading | Reconciling => true
       case Prepared(hash, run) => Unclaimed(s, id, hash, run)
       case ClaimReading(hash, run) => Unclaimed(s, id, hash, run)
       case ClaimWriting(hash, run) => Unclaimed(s, id, hash, run) && s.record.Absent?
       case ClaimWritten(hash, run) => Claimed(s, id, hash, run)
       case Discarding(run, answer) =>
         && Makes(s, id, run) && AnswerHolds(s.record, answer)
         && (answer != GaveUp ==> !BoundTo(s.record, run))
       case Owning(hash, run) => Claimed(s, id, hash, run)
       case GuardReading(hash, run) => Claimed(s, id, hash, run)
       case Launching(hash, run) => Claimed(s, id, hash, run) && !s.record.cancelled
       case Spawned(hash, run) => Claimed(s, id, hash, run) && run in s.spawned
       case ContainFencing => s.record.Absent?
       case ContainCancelling(record) => record == s.record && record.Binding? && !record.cancelled
       case ContainDone(answer) => AnswerHolds(s.record, answer)
       case SawNoRecord(run, goneAtRead) =>
         run in s.makers && (goneAtRead ==> s.makers[run].proc in s.gone && !BoundTo(s.record, run))
       case Finished(answer) => AnswerHolds(s.record, answer)
  }

  predicate Inv(s: State) {
    && (forall id :: id in s.calls ==> CallInv(s, id))
    && (s.lock.Some? ==> s.lock.value in s.calls && HoldsLock(At(s, s.lock.value)))
    && (forall run :: run in s.candidates ==> run in s.makers && s.candidates[run].owner == s.makers[run].proc)
    && (forall run :: run in s.runs ==> BoundTo(s.record, run))
    && (forall run :: run in s.spawned ==> BoundTo(s.record, run))
    && (s.record.Binding? ==> s.record.run in s.makers && s.record.owner == s.makers[s.record.run].proc)
  }

  lemma OpeningKeep(s: State, step: Step)
    requires step.Begin? || step.Find?
    requires Inv(s) && Enabled(s, step)
    ensures Inv(Do(s, step))
  {
    var s' := Do(s, step);
    forall id | id in s'.calls ensures CallInv(s', id) {
      if id in s.calls { assert CallInv(s, id); }
    }
  }

  lemma PrepareKeep(s: State, step: Step)
    requires step.Prepare?
    requires Inv(s) && Enabled(s, step)
    ensures Inv(Do(s, step))
  {
    var s' := Do(s, step);
    forall id | id in s'.calls ensures CallInv(s', id) {
      if id in s.calls { assert CallInv(s, id); }
    }
  }

  lemma CandidatesKeep(s: State, step: Step)
    requires step.Discard? || step.DropPromoted?
    requires Inv(s) && Enabled(s, step)
    ensures Inv(Do(s, step))
  {
    var s' := Do(s, step);
    forall id | id in s'.calls ensures CallInv(s', id) {
      if id in s.calls { assert CallInv(s, id); }
    }
  }

  lemma ClaimKeep(s: State, step: Step)
    requires step.Acquire? || step.ReadForClaim? || step.ReleaseClaim? || step.FailAfterRename?
    requires Inv(s) && Enabled(s, step)
    ensures Inv(Do(s, step))
  {
    var s' := Do(s, step);
    forall id | id in s'.calls ensures CallInv(s', id) {
      if id in s.calls { assert CallInv(s, id); }
    }
  }

  lemma BindingKeep(s: State, step: Step)
    requires step.WriteBinding? || step.Promote? || step.RecoverRun?
    requires Inv(s) && Enabled(s, step)
    ensures Inv(Do(s, step))
  {
    var s' := Do(s, step);
    forall id | id in s'.calls ensures CallInv(s', id) {
      if id in s.calls { assert CallInv(s, id); }
    }
  }

  lemma GuardKeep(s: State, step: Step)
    requires step.ReadForGuard? || step.Spawn?
    requires Inv(s) && Enabled(s, step)
    ensures Inv(Do(s, step))
  {
    var s' := Do(s, step);
    forall id | id in s'.calls ensures CallInv(s', id) {
      if id in s.calls { assert CallInv(s, id); }
    }
  }

  lemma GuardEndKeep(s: State, step: Step)
    requires step.EndAttempt? || step.ReleaseGuard?
    requires Inv(s) && Enabled(s, step)
    ensures Inv(Do(s, step))
  {
    var s' := Do(s, step);
    forall id | id in s'.calls ensures CallInv(s', id) {
      if id in s.calls { assert CallInv(s, id); }
    }
  }

  lemma ContainmentKeep(s: State, step: Step)
    requires step.ReadForContainment? || step.ReleaseContainment?
    requires Inv(s) && Enabled(s, step)
    ensures Inv(Do(s, step))
  {
    var s' := Do(s, step);
    forall id | id in s'.calls ensures CallInv(s', id) {
      if id in s.calls { assert CallInv(s, id); }
    }
  }

  lemma ReplacementKeep(s: State, step: Step)
    requires step.WriteFence? || step.WriteCancelled?
    requires Inv(s) && Enabled(s, step)
    ensures Inv(Do(s, step))
  {
    var s' := Do(s, step);
    forall id | id in s'.calls ensures CallInv(s', id) {
      if id in s.calls { assert CallInv(s, id); }
    }
  }

  lemma ReconcileKeep(s: State, step: Step)
    requires step.ReadForReconcile?
    requires Inv(s) && Enabled(s, step)
    ensures Inv(Do(s, step))
  {
    var s' := Do(s, step);
    forall id | id in s'.calls ensures CallInv(s', id) {
      if id in s.calls { assert CallInv(s, id); }
    }
  }

  lemma OrphanKeep(s: State, step: Step)
    requires step.RemoveOrphan?
    requires Inv(s) && Enabled(s, step)
    ensures Inv(Do(s, step))
  {
    var s' := Do(s, step);
    forall id | id in s'.calls ensures CallInv(s', id) {
      if id in s.calls { assert CallInv(s, id); }
    }
  }

  lemma DeathKeep(s: State, step: Step)
    requires step.Die?
    requires Inv(s) && Enabled(s, step)
    ensures Inv(Do(s, step))
  {
    var s' := Do(s, step);
    forall id | id in s'.calls ensures CallInv(s', id) {
      if id in s.calls { assert CallInv(s, id); }
    }
  }

  /** Every step of every call keeps the invariant. */
  lemma InvStep(s: State, step: Step)
    requires Inv(s) && Enabled(s, step)
    ensures Inv(Do(s, step))
  {
    match step
    case Begin(_, _, _) => OpeningKeep(s, step);
    case Find(_) => OpeningKeep(s, step);
    case Prepare(_, _) => PrepareKeep(s, step);
    case Discard(_) => CandidatesKeep(s, step);
    case DropPromoted(_) => CandidatesKeep(s, step);
    case Acquire(_) => ClaimKeep(s, step);
    case ReadForClaim(_) => ClaimKeep(s, step);
    case ReleaseClaim(_) => ClaimKeep(s, step);
    case FailAfterRename(_) => ClaimKeep(s, step);
    case WriteBinding(_) => BindingKeep(s, step);
    case Promote(_) => BindingKeep(s, step);
    case RecoverRun => BindingKeep(s, step);
    case ReadForGuard(_) => GuardKeep(s, step);
    case Spawn(_) => GuardKeep(s, step);
    case EndAttempt(_) => GuardEndKeep(s, step);
    case ReleaseGuard(_) => GuardEndKeep(s, step);
    case ReadForContainment(_) => ContainmentKeep(s, step);
    case ReleaseContainment(_) => ContainmentKeep(s, step);
    case WriteFence(_) => ReplacementKeep(s, step);
    case WriteCancelled(_) => ReplacementKeep(s, step);
    case ReadForReconcile(_, _) => ReconcileKeep(s, step);
    case RemoveOrphan(_) => OrphanKeep(s, step);
    case Die(_) => DeathKeep(s, step);
  }

  lemma {:induction false} InvRun(states: seq<State>, steps: seq<Step>, k: nat)
    requires Run(states, steps) && k < |states|
    ensures Inv(states[k])
  {
    if k > 0 {
      InvRun(states, steps, k - 1);
      InvStep(states[k - 1], steps[k - 1]);
    }
  }

  // ---------------------------------------------------------------- one run per token

  /** A record is written once, and then only ever marked cancelled. */
  predicate RecordGrows(before: Record, after: Record) {
    match before
    case Absent => true
    case Fence => after.Fence?
    case Binding(run, hash, owner, cancelled) =>
      after.Binding? && after.(cancelled := cancelled) == before && (cancelled ==> after.cancelled)
  }

  predicate WritesRecord(step: Step) {
    step.WriteBinding? || step.WriteFence? || step.WriteCancelled?
  }

  lemma OnlyWritesRecord(s: State, step: Step)
    requires Enabled(s, step) && !WritesRecord(step)
    ensures Do(s, step).record == s.record
  {
  }

  lemma WriteGrows(s: State, step: Step)
    requires Enabled(s, step) && WritesRecord(step) && CallInv(s, step.id)
    ensures RecordGrows(s.record, Do(s, step).record)
  {
  }

  lemma RecordStep(s: State, step: Step)
    requires Inv(s) && Enabled(s, step)
    ensures RecordGrows(s.record, Do(s, step).record)
  {
    hide Enabled, Do, CallInv;
    if WritesRecord(step) {
      assert step.id in s.calls by { WriterCalls(s, step); }
      WriteGrows(s, step);
    } else {
      OnlyWritesRecord(s, step);
    }
  }

  lemma WriterCalls(s: State, step: Step)
    requires Enabled(s, step) && WritesRecord(step)
    ensures step.id in s.calls
  {
  }

  lemma {:induction false} RecordRun(states: seq<State>, steps: seq<Step>, i: nat, j: nat)
    requires Run(states, steps) && i <= j < |states|
    ensures RecordGrows(states[i].record, states[j].record)
  {
    if i < j {
      RecordRun(states, steps, i, j - 1);
      InvRun(states, steps, j - 1);
      RecordStep(states[j - 1], steps[j - 1]);
    }
  }

  /** A fence and a binding never both occur in the history of one token. */
  lemma FenceExcludesBinding(states: seq<State>, steps: seq<Step>, i: nat, j: nat)
    requires Run(states, steps) && i < |states| && j < |states|
    ensures !(states[i].record.Fence? && states[j].record.Binding?)
  {
    if i <= j { RecordRun(states, steps, i, j); } else { RecordRun(states, steps, j, i); }
  }

  /** Any two answers of one token, given at any two moments by any processes, agree. */
  lemma AnswersAgree(states: seq<State>, steps: seq<Step>, i: nat, j: nat, a: CallId, b: CallId)
    requires Run(states, steps) && i < |states| && j < |states|
    requires a in states[i].calls && At(states[i], a).Finished?
    requires b in states[j].calls && At(states[j], b).Finished?
    requires At(states[i], a).answer.Resolved?
    ensures var first, second := At(states[i], a).answer, At(states[j], b).answer;
            && (second.Resolved? ==> second.run == first.run && second.hash == first.hash)
            && (second.Conflict? ==> second.hash != first.hash)
            && (second.ContainedBound? ==> second.run == first.run)
            && !second.RefusedByFence? && !second.ContainedFenced?
  {
    InvRun(states, steps, i);
    InvRun(states, steps, j);
    assert CallInv(states[i], a) && CallInv(states[j], b);
    if i <= j { RecordRun(states, steps, i, j); } else { RecordRun(states, steps, j, i); }
  }

  /** The request that a start call was made with goes through all its states into its answer. */
  predicate AnswersFor(answer: Answer, hash: Digest) {
    match answer
    case Resolved(h, _) => h == hash
    case Conflict(h) => h == hash
    case RefusedByFence(h) => h == hash
    case GaveUp => true
    case ContainedFenced | ContainedBound(_) => false
  }

  predicate Serves(pc: Pc, hash: Digest) {
    match pc
    case Finding(h) => h == hash
    case Preparing(h) => h == hash
    case Prepared(h, _) => h == hash
    case ClaimReading(h, _) => h == hash
    case ClaimWriting(h, _) => h == hash
    case ClaimWritten(h, _) => h == hash
    case Owning(h, _) => h == hash
    case GuardReading(h, _) => h == hash
    case Launching(h, _) => h == hash
    case Spawned(h, _) => h == hash
    case Discarding(_, answer) => AnswersFor(answer, hash)
    case Finished(answer) => AnswersFor(answer, hash)
    case _ => false
  }

  lemma ServesStep(s: State, step: Step, id: CallId, hash: Digest)
    requires Enabled(s, step) && id in s.calls && Serves(At(s, id), hash) && id in Do(s, step).calls
    ensures Serves(At(Do(s, step), id), hash)
  {
  }

  /** Step `b` began this start request, and its call has lived up to moment `n`. */
  ghost predicate BeganAt(states: seq<State>, steps: seq<Step>, b: nat, n: nat, id: CallId, hash: Digest)
    requires |states| == |steps| + 1
  {
    && b < n < |states| && steps[b].Begin? && steps[b].id == id && steps[b].pc == Finding(hash)
    && forall k {:trigger states[k]} :: b < k <= n ==> id in states[k].calls
  }

  lemma {:induction false} ServesRun(states: seq<State>, steps: seq<Step>, b: nat, n: nat, id: CallId, hash: Digest)
    requires Run(states, steps) && BeganAt(states, steps, b, n, id, hash)
    ensures Serves(At(states[n], id), hash)
  {
    hide Serves, Enabled, Do;
    if n == b + 1 {
      BeginServes(states[b], steps[b], id, hash);
    } else {
      ServesRun(states, steps, b, n - 1, id, hash);
      ServesStep(states[n - 1], steps[n - 1], id, hash);
    }
  }

  lemma BeginServes(s: State, step: Step, id: CallId, hash: Digest)
    requires Enabled(s, step) && step.Begin? && step.id == id && step.pc == Finding(hash)
    ensures id in Do(s, step).calls && Serves(At(Do(s, step), id), hash) && !GivesUp(At(Do(s, step), id))
  {
  }

  predicate GivesUp(pc: Pc) {
    pc == Finished(GaveUp) || (pc.Discarding? && pc.answer == GaveUp)
  }

  predicate Claims(step: Step) {
    step.Begin? || step.Find? || step.Prepare? || step.Acquire?
    || step.ReadForClaim? || step.WriteBinding? || step.ReleaseClaim? || step.FailAfterRename?
  }

  lemma GivesUpClaiming(s: State, step: Step, id: CallId, hash: Digest)
    requires Claims(step)
    requires Enabled(s, step) && id in s.calls && Serves(At(s, id), hash) && id in Do(s, step).calls
    ensures GivesUp(At(Do(s, step), id)) <==> GivesUp(At(s, id)) || step == FailAfterRename(id)
  {
  }

  lemma GivesUpLater(s: State, step: Step, id: CallId, hash: Digest)
    requires !Claims(step)
    requires Enabled(s, step) && id in s.calls && Serves(At(s, id), hash) && id in Do(s, step).calls
    ensures GivesUp(At(Do(s, step), id)) <==> GivesUp(At(s, id))
  {
  }

  lemma GivesUpStep(s: State, step: Step, id: CallId, hash: Digest)
    requires Enabled(s, step) && id in s.calls && Serves(At(s, id), hash) && id in Do(s, step).calls
    ensures GivesUp(At(Do(s, step), id)) <==> GivesUp(At(s, id)) || step == FailAfterRename(id)
  {
    hide Enabled, Do, Serves, GivesUp;
    if Claims(step) { GivesUpClaiming(s, step, id, hash); } else { GivesUpLater(s, step, id, hash); }
  }

  /** The claim of the call failed after its rename, in a step between `b` and `n`. */
  ghost predicate FailedBetween(steps: seq<Step>, b: nat, n: nat, id: CallId)
    requires n <= |steps|
  {
    exists j :: b < j < n && steps[j] == FailAfterRename(id)
  }

  /** A start request gives up if and only if its own claim failed after the rename. */
  lemma {:induction false} GivesUpExactly(states: seq<State>, steps: seq<Step>, b: nat, n: nat, id: CallId, hash: Digest)
    requires Run(states, steps) && BeganAt(states, steps, b, n, id, hash)
    ensures GivesUp(At(states[n], id)) <==> FailedBetween(steps, b, n, id)
  {
    hide Serves, Enabled, Do, GivesUp;
    StepIs(states, steps, n - 1);
    if n == b + 1 {
      BeginServes(states[b], steps[b], id, hash);
    } else {
      ServesRun(states, steps, b, n - 1, id, hash);
      GivesUpExactly(states, steps, b, n - 1, id, hash);
      GivesUpStep(states[n - 1], steps[n - 1], id, hash);
      assert FailedBetween(steps, b, n, id) <==> FailedBetween(steps, b, n - 1, id) || steps[n - 1] == FailAfterRename(id);
    }
  }

  /**
   The answer to a start request that did not fail is the one the record gives, at the time and
   ever after: its own binding, a conflict with another request's, or the refusal of a fence.
   */
  lemma StartAnswersRecord(states: seq<State>, steps: seq<Step>, b: nat, n: nat, m: nat, id: CallId, hash: Digest)
    requires Run(states, steps) && BeganAt(states, steps, b, n, id, hash) && n <= m < |states|
    requires At(states[n], id).Finished? && !FailedBetween(steps, b, n, id)
    ensures !states[m].record.Absent? && At(states[n], id).answer == ClaimAnswer(states[m].record, hash)
  {
    hide Run;
    ServesRun(states, steps, b, n, id, hash);
    GivesUpExactly(states, steps, b, n, id, hash);
    InvRun(states, steps, n);
    assert CallInv(states[n], id);
    RecordRun(states, steps, n, m);
  }

  /** What a call that was begun as a containment request goes through. */
  predicate Contains(pc: Pc) {
    match pc
    case Containing | ContainReading | ContainFencing | ContainCancelling(_) => true
    case ContainDone(answer) => answer.ContainedFenced? || answer.ContainedBound?
    case Finished(answer) => answer.ContainedFenced? || answer.ContainedBound?
    case _ => false
  }

  lemma ContainsStep(s: State, step: Step, id: CallId)
    requires Enabled(s, step) && id in s.calls && Contains(At(s, id)) && id in Do(s, step).calls
    ensures Contains(At(Do(s, step), id))
  {
  }

  /** Step `b` began this containment request, and its call has lived up to moment `n`. */
  ghost predicate ContainingSince(states: seq<State>, steps: seq<Step>, b: nat, n: nat, id: CallId)
    requires |states| == |steps| + 1
  {
    && b < n < |states| && steps[b].Begin? && steps[b].id == id && steps[b].pc == Containing
    && forall k {:trigger states[k]} :: b < k <= n ==> id in states[k].calls
  }

  lemma {:induction false} ContainsRun(states: seq<State>, steps: seq<Step>, b: nat, n: nat, id: CallId)
    requires Run(states, steps) && ContainingSince(states, steps, b, n, id)
    ensures Contains(At(states[n], id))
  {
    hide Contains, Enabled, Do;
    if n == b + 1 {
      BeginContains(states[b], steps[b], id);
    } else {
      ContainsRun(states, steps, b, n - 1, id);
      ContainsStep(states[n - 1], steps[n - 1], id);
    }
  }

  lemma BeginContains(s: State, step: Step, id: CallId)
    requires Enabled(s, step) && step.Begin? && step.id == id && step.pc == Containing
    ensures id in Do(s, step).calls && Contains(At(Do(s, step), id))
  {
  }

  /** The answer to a containment request is the one the record gives, at the time and ever after. */
  lemma ContainmentAnswersRecord(states: seq<State>, steps: seq<Step>, b: nat, n: nat, m: nat, id: CallId)
    requires Run(states, steps) && ContainingSince(states, steps, b, n, id) && n <= m < |states|
    requires At(states[n], id).Finished?
    ensures !states[m].record.Absent?
    ensures At(states[n], id).answer ==
              if states[m].record.Fence? then ContainedFenced else ContainedBound(states[m].record.run)
    ensures states[m].record.Binding? ==> states[m].record.cancelled
  {
    hide Run;
    ContainsRun(states, steps, b, n, id);
    InvRun(states, steps, n);
    assert CallInv(states[n], id);
    RecordRun(states, steps, n, m);
  }

  /**
   Any two start requests of one token, made and answered at any moments by any processes, where
   neither claim failed after its rename: equal requests are answered alike, and where the first
   was resolved a different one is a conflict.
   */
  lemma OneRunPerToken(
    states: seq<State>, steps: seq<Step>, p: nat, i: nat, a: CallId, first: Digest, q: nat, j: nat, b: CallId, second: Digest)
    requires Run(states, steps)
    requires BeganAt(states, steps, p, i, a, first) && At(states[i], a).Finished? && !FailedBetween(steps, p, i, a)
    requires BeganAt(states, steps, q, j, b, second) && At(states[j], b).Finished? && !FailedBetween(steps, q, j, b)
    ensures second == first ==> At(states[j], b).answer == At(states[i], a).answer
    ensures At(states[i], a).answer.Resolved? && second != first ==> At(states[j], b).answer == Conflict(second)
  {
    hide Run;
    var m := if i <= j then j else i;
    StartAnswersRecord(states, steps, p, i, m, a, first);
    StartAnswersRecord(states, steps, q, j, m, b, second);
  }

  // ---------------------------------------------------------------- containment against launch

  /** A child is spawned by a lock holder that has just read an uncancelled binding. */
  lemma SpawnNeedsLiveBinding(s: State, step: Step)
    requires Inv(s) && Enabled(s, step)
    requires s.record.Absent? || s.record.Fence? || s.record.cancelled
    ensures Do(s, step).spawned == s.spawned
  {
    if step.Spawn? {
      assert CallInv(s, step.id);
    }
  }

  /** The guard lets the launch of a bound run pass exactly while the binding is not cancelled. */
  lemma GuardDecides(s: State, id: CallId)
    requires Inv(s) && Enabled(s, ReadForGuard(id))
    ensures var hash, run := At(s, id).hash, At(s, id).run;
            && s.record.Binding? && s.record.run == run && s.record.hash == hash
            && At(Do(s, ReadForGuard(id)), id) == if s.record.cancelled then Finished(Resolved(hash, run)) else Launching(hash, run)
  {
    assert CallInv(s, id);
  }

  /** The answer of a containment request, once it is given or about to be returned. */
  predicate Contained(s: State, id: CallId, answer: Answer) {
    id in s.calls && (At(s, id) == ContainDone(answer) || At(s, id) == Finished(answer))
  }

  lemma BoundIsCancelled(states: seq<State>, steps: seq<Step>, i: nat, j: nat, id: CallId, run: RunId)
    requires Run(states, steps) && i <= j < |states|
    requires Contained(states[i], id, ContainedBound(run))
    ensures BoundTo(states[j].record, run) && states[j].record.cancelled
  {
    InvRun(states, steps, i);
    assert CallInv(states[i], id);
    RecordRun(states, steps, i, j);
  }

  /** After "bound" no child is spawned any more: it already was, the attempt is over, or it never will be. */
  lemma {:induction false} NoSpawnAfterBound(states: seq<State>, steps: seq<Step>, i: nat, j: nat, id: CallId, run: RunId)
    requires Run(states, steps) && i <= j < |states|
    requires Contained(states[i], id, ContainedBound(run))
    ensures states[j].spawned == states[i].spawned
    ensures forall c :: !Enabled(states[j], Spawn(c))
  {
    BoundIsCancelled(states, steps, i, j, id, run);
    InvRun(states, steps, j);
    forall c ensures !Enabled(states[j], Spawn(c)) {
      if c in states[j].calls { assert CallInv(states[j], c); }
    }
    if i < j {
      NoSpawnAfterBound(states, steps, i, j - 1, id, run);
      BoundIsCancelled(states, steps, i, j - 1, id, run);
      InvRun(states, steps, j - 1);
      SpawnNeedsLiveBinding(states[j - 1], steps[j - 1]);
    }
  }

  /** After "fenced" no child was or ever will be spawned, whichever moment one looks at. */
  lemma NoSpawnWithFence(states: seq<State>, steps: seq<Step>, i: nat, j: nat, id: CallId)
    requires Run(states, steps) && i < |states| && j < |states|
    requires Contained(states[i], id, ContainedFenced)
    ensures states[j].spawned == {}
  {
    InvRun(states, steps, i);
    assert CallInv(states[i], id);
    InvRun(states, steps, j);
    if states[j].spawned != {} {
      var run :| run in states[j].spawned;
      assert BoundTo(states[j].record, run);
      FenceExcludesBinding(states, steps, i, j);
    }
  }

  // ---------------------------------------------------------------- every binding is durable

  /** The bound run has its prepared candidate or its run record on disk. */
  predicate Durable(s: State) {
    s.record.Binding? ==> s.record.run in s.candidates || s.record.run in s.runs
  }

  /** The two guards that let a bound candidate go: neither looks at the record again before removing. */
  predicate Loses(s: State, step: Step)
    requires Enabled(s, step)
  {
    match step
    case RemoveOrphan(id) => BoundTo(s.record, At(s, id).run) && At(s, id).run !in s.runs
    case Discard(id) => BoundTo(s.record, At(s, id).run) && At(s, id).run !in s.runs
    case _ => false
  }

  lemma RecordStepsAreDurable(s: State, step: Step)
    requires WritesRecord(step)
    requires Inv(s) && Enabled(s, step) && Durable(s)
    ensures Durable(Do(s, step))
  {
    assert CallInv(s, step.id);
  }

  lemma OtherStepsAreDurable(s: State, step: Step)
    requires !WritesRecord(step)
    requires Enabled(s, step) && Durable(s)
    ensures Durable(Do(s, step)) <==> !Loses(s, step)
  {
  }

  /** Exactly these two removals take the durable evidence of a binding away. */
  lemma DurableExactly(s: State, step: Step)
    requires Inv(s) && Enabled(s, step) && Durable(s)
    ensures Durable(Do(s, step)) <==> !Loses(s, step)
  {
    if WritesRecord(step) {
      RecordStepsAreDurable(s, step);
    } else {
      OtherStepsAreDurable(s, step);
    }
  }

  /** No claim fails after its rename, and the owner of a removed candidate was gone before the record was read. */
  predicate Careful(s: State, step: Step)
    requires Enabled(s, step)
  {
    !step.FailAfterRename? && (step.RemoveOrphan? ==> At(s, step.id).goneAtRead)
  }

  ghost predicate CarefulRun(states: seq<State>, steps: seq<Step>)
    requires Run(states, steps)
  {
    forall k {:trigger steps[k]} :: 0 <= k < |steps| ==> Careful(states[k], steps[k])
  }

  /** No call is about to discard the candidate of the binding. */
  predicate NoneDiscardsBound(s: State) {
    forall id :: id in s.calls && At(s, id).Discarding? ==> !BoundTo(s.record, At(s, id).run)
  }

  lemma NoneDiscardsStep(s: State, step: Step, id: CallId)
    requires Enabled(s, step) && !step.FailAfterRename?
    requires step.WriteBinding? || step.WriteCancelled? || step.ReadForClaim? ==> CallInv(s, step.id)
    requires id in s.calls ==> CallInv(s, id) && (At(s, id).Discarding? ==> !BoundTo(s.record, At(s, id).run))
    requires id in Do(s, step).calls && At(Do(s, step), id).Discarding?
    ensures !BoundTo(Do(s, step).record, At(Do(s, step), id).run)
  {
  }

  lemma CarefulStep(s: State, step: Step)
    requires Inv(s) && Enabled(s, step) && Durable(s) && NoneDiscardsBound(s) && Careful(s, step)
    ensures Durable(Do(s, step)) && NoneDiscardsBound(Do(s, step))
  {
    if step.RemoveOrphan? { assert CallInv(s, step.id); }
    assert !Loses(s, step);
    DurableExactly(s, step);
    forall id | id in Do(s, step).calls && At(Do(s, step), id).Discarding?
      ensures !BoundTo(Do(s, step).record, At(Do(s, step), id).run)
    {
      NoneDiscardsStep(s, step, id);
    }
  }

  lemma {:induction false} CarefulRunsAreDurable(states: seq<State>, steps: seq<Step>, k: nat)
    requires Run(states, steps) && CarefulRun(states, steps) && k < |states|
    ensures Durable(states[k]) && NoneDiscardsBound(states[k])
  {
    if k > 0 {
      CarefulRunsAreDurable(states, steps, k - 1);
      InvRun(states, steps, k - 1);
      CarefulStep(states[k - 1], steps[k - 1]);
    }
  }

  // ---------------------------------------------------------------- when a binding is not durable

  predicate BindsNow(s: State, step: Step, run: RunId) {
    step.WriteBinding? && step.id in s.calls && At(s, step.id).ClaimWriting? && At(s, step.id).run == run
  }

  predicate ReadsNoRecord(s: State, step: Step, id: CallId, run: RunId) {
    step == ReadForReconcile(id, run) && s.record.Absent?
  }

  predicate RemovesOrphan(s: State, step: Step, id: CallId, run: RunId) {
    step == RemoveOrphan(id) && id in s.calls && At(s, id).SawNoRecord? && At(s, id).run == run
  }

  predicate FailsClaim(s: State, step: Step, id: CallId, run: RunId) {
    step == FailAfterRename(id) && id in s.calls && At(s, id).ClaimWritten? && At(s, id).run == run
  }

  predicate Discards(s: State, step: Step, id: CallId, run: RunId) {
    step == Discard(id) && id in s.calls && At(s, id).Discarding? && At(s, id).run == run
  }

  /** Before step `n`: reconciliation read "no record", the run was bound, and then its candidate was removed. */
  ghost predicate OrphanRaced(states: seq<State>, steps: seq<Step>, n: nat, run: RunId)
    requires |states| == |steps| + 1 && n <= |steps|
  {
    exists i, m, j, id ::
      && 0 <= i < m < j < n
      && ReadsNoRecord(states[i], steps[i], id, run)
      && BindsNow(states[m], steps[m], run)
      && RemovesOrphan(states[j], steps[j], id, run)
  }

  /** Before step `n`: the claim of the run failed after its rename, and its candidate was discarded. */
  ghost predicate ClaimFailed(states: seq<State>, steps: seq<Step>, n: nat, run: RunId)
    requires |states| == |steps| + 1 && n <= |steps|
  {
    exists i, j, id ::
      0 <= i < j < n && FailsClaim(states[i], steps[i], id, run) && Discards(states[j], steps[j], id, run)
  }

  predicate Records(s: State, step: Step, run: RunId) {
    step == Promote(run) || (step.RecoverRun? && BoundTo(s.record, run))
  }

  /** Before step `n` the run's record was linked, by promotion or by recovery. */
  ghost predicate Recorded(states: seq<State>, steps: seq<Step>, n: nat, run: RunId)
    requires |states| == |steps| + 1 && n <= |steps|
  {
    exists j :: 0 <= j < n && Records(states[j], steps[j], run)
  }

  lemma StepIs(states: seq<State>, steps: seq<Step>, n: nat)
    requires Run(states, steps) && n < |steps|
    ensures |states| == |steps| + 1 && Enabled(states[n], steps[n]) && states[n + 1] == Do(states[n], steps[n])
  {
  }

  lemma RecordsStep(s: State, step: Step, run: RunId)
    requires Enabled(s, step)
    ensures run in Do(s, step).runs <==> run in s.runs || Records(s, step, run)
  {
  }

  lemma {:induction false} RecordedExactly(states: seq<State>, steps: seq<Step>, n: nat, run: RunId)
    requires Run(states, steps) && n < |states|
    ensures run in states[n].runs <==> Recorded(states, steps, n, run)
  {
    hide Enabled, Do, Records;
    if n > 0 {
      StepIs(states, steps, n - 1);
      RecordedExactly(states, steps, n - 1, run);
      RecordsStep(states[n - 1], steps[n - 1], run);
      assert Recorded(states, steps, n, run) <==> Recorded(states, steps, n - 1, run) || Records(states[n - 1], steps[n - 1], run);
    }
  }

  lemma DiscardingStep(s: State, step: Step, id: CallId, run: RunId)
    requires Enabled(s, step) && !FailsClaim(s, step, id, run)
    requires id in Do(s, step).calls && At(Do(s, step), id) == Discarding(run, GaveUp)
    ensures id in s.calls && At(s, id) == Discarding(run, GaveUp)
  {
  }

  lemma {:induction false} DiscardingHistory(states: seq<State>, steps: seq<Step>, n: nat, id: CallId, run: RunId)
    returns (i: nat)
    requires Run(states, steps) && n < |states| && id in states[n].calls && At(states[n], id) == Discarding(run, GaveUp)
    ensures i < n && FailsClaim(states[i], steps[i], id, run)
  {
    hide Enabled, Do, FailsClaim;
    assert n > 0;
    StepIs(states, steps, n - 1);
    if FailsClaim(states[n - 1], steps[n - 1], id, run) { return n - 1; }
    DiscardingStep(states[n - 1], steps[n - 1], id, run);
    i := DiscardingHistory(states, steps, n - 1, id, run);
  }

  predicate Saw(s: State, id: CallId, run: RunId) {
    id in s.calls && At(s, id).SawNoRecord? && At(s, id).run == run
  }

  lemma SawStep(s: State, step: Step, id: CallId, run: RunId)
    requires Enabled(s, step) && !ReadsNoRecord(s, step, id, run) && Saw(Do(s, step), id, run)
    ensures Saw(s, id, run)
  {
  }

  lemma {:induction false} SawHistory(states: seq<State>, steps: seq<Step>, n: nat, id: CallId, run: RunId) returns (i: nat)
    requires Run(states, steps) && n < |states| && Saw(states[n], id, run)
    ensures i < n && ReadsNoRecord(states[i], steps[i], id, run)
  {
    hide Enabled, Do, ReadsNoRecord;
    assert n > 0;
    StepIs(states, steps, n - 1);
    if ReadsNoRecord(states[n - 1], steps[n - 1], id, run) { return n - 1; }
    SawStep(states[n - 1], steps[n - 1], id, run);
    i := SawHistory(states, steps, n - 1, id, run);
  }

  lemma BoundStep(s: State, step: Step, run: RunId)
    requires Inv(s) && Enabled(s, step) && !BindsNow(s, step, run) && BoundTo(Do(s, step).record, run)
    ensures BoundTo(s.record, run)
  {
    hide Enabled, Do, CallInv, BindsNow;
    if WritesRecord(step) {
      WriterCalls(s, step);
      WriteBinds(s, step, run);
    } else {
      OnlyWritesRecord(s, step);
    }
  }

  lemma WriteBinds(s: State, step: Step, run: RunId)
    requires Enabled(s, step) && WritesRecord(step) && CallInv(s, step.id)
    requires !BindsNow(s, step, run) && BoundTo(Do(s, step).record, run)
    ensures BoundTo(s.record, run)
  {
  }

  lemma {:induction false} BoundHistory(states: seq<State>, steps: seq<Step>, i: nat, n: nat, run: RunId) returns (m: nat)
    requires Run(states, steps) && i <= n < |states| && states[i].record.Absent? && BoundTo(states[n].record, run)
    ensures i <= m < n && BindsNow(states[m], steps[m], run)
  {
    hide Enabled, Do, BindsNow, Inv;
    assert i < n;
    StepIs(states, steps, n - 1);
    if BindsNow(states[n - 1], steps[n - 1], run) { return n - 1; }
    InvRun(states, steps, n - 1);
    BoundStep(states[n - 1], steps[n - 1], run);
    m := BoundHistory(states, steps, i, n - 1, run);
  }

  /** While it has no record of its own, a bound run has its candidate. */
  predicate Backed(s: State, run: RunId) {
    BoundTo(s.record, run) && run !in s.runs ==> run in s.candidates
  }

  lemma BackedStep(s: State, step: Step, run: RunId)
    requires Inv(s) && Enabled(s, step) && Backed(s, run)
    requires step.RemoveOrphan? ==> !RemovesOrphan(s, step, step.id, run)
    requires step.Discard? ==> !Discards(s, step, step.id, run)
    ensures Backed(Do(s, step), run)
  {
    if step.WriteBinding? || step.WriteCancelled? { assert CallInv(s, step.id); }
  }

  /** A removal of a bound candidate is the end of a race or of a failed claim. */
  lemma RemovalHistory(states: seq<State>, steps: seq<Step>, n: nat, id: CallId, run: RunId)
    requires Run(states, steps) && n < |steps| && BoundTo(states[n].record, run)
    requires RemovesOrphan(states[n], steps[n], id, run) || Discards(states[n], steps[n], id, run)
    ensures OrphanRaced(states, steps, n + 1, run) || ClaimFailed(states, steps, n + 1, run)
  {
    hide Enabled, Do, Run, BindsNow;
    StepIs(states, steps, n);
    if RemovesOrphan(states[n], steps[n], id, run) {
      var i := SawHistory(states, steps, n, id, run);
      var m := BoundHistory(states, steps, i, n, run);
      assert i != m by { BindsIsNoRead(states[i], steps[i], id, run); }
      assert OrphanRaced(states, steps, n + 1, run);
    } else {
      InvRun(states, steps, n);
      assert CallInv(states[n], id);
      var i := DiscardingHistory(states, steps, n, id, run);
      assert ClaimFailed(states, steps, n + 1, run);
    }
  }

  lemma BindsIsNoRead(s: State, step: Step, id: CallId, run: RunId)
    requires ReadsNoRecord(s, step, id, run)
    ensures !BindsNow(s, step, run)
  {
  }

  lemma {:induction false} UnbackedHistory(states: seq<State>, steps: seq<Step>, n: nat, run: RunId)
    requires Run(states, steps) && n < |states| && !Backed(states[n], run)
    ensures OrphanRaced(states, steps, n, run) || ClaimFailed(states, steps, n, run)
  {
    hide Enabled, Do, Inv, OrphanRaced, ClaimFailed, RemovesOrphan, Discards, Backed;
    assert n > 0 by { InitIsBacked(states, steps, run); }
    StepIs(states, steps, n - 1);
    InvRun(states, steps, n - 1);
    var s, step := states[n - 1], steps[n - 1];
    if !Backed(s, run) {
      UnbackedHistory(states, steps, n - 1, run);
      HistoryGrows(states, steps, n - 1, run);
    } else {
      if (step.RemoveOrphan? && RemovesOrphan(s, step, step.id, run)) || (step.Discard? && Discards(s, step, step.id, run)) {
        BoundNow(s, step, run);
        RemovalHistory(states, steps, n - 1, step.id, run);
      } else {
        BackedStep(s, step, run);
      }
    }
  }

  lemma InitIsBacked(states: seq<State>, steps: seq<Step>, run: RunId)
    requires Run(states, steps)
    ensures Backed(states[0], run)
  {
  }

  lemma BoundNow(s: State, step: Step, run: RunId)
    requires Enabled(s, step) && (step.RemoveOrphan? || step.Discard?) && !Backed(Do(s, step), run)
    ensures BoundTo(s.record, run)
  {
  }

  lemma HistoryGrows(states: seq<State>, steps: seq<Step>, n: nat, run: RunId)
    requires |states| == |steps| + 1 && n < |steps|
    ensures OrphanRaced(states, steps, n, run) ==> OrphanRaced(states, steps, n + 1, run)
    ensures ClaimFailed(states, steps, n, run) ==> ClaimFailed(states, steps, n + 1, run)
  {
    hide ReadsNoRecord, BindsNow, RemovesOrphan, FailsClaim, Discards;
  }

  /** A candidate that was removed never comes back. */
  predicate Removed(s: State, run: RunId) {
    run in s.makers && run !in s.candidates
  }

  lemma RemovedStep(s: State, step: Step, run: RunId)
    requires Enabled(s, step) && Removed(s, run)
    ensures Removed(Do(s, step), run)
  {
  }

  lemma RemovalRemoves(s: State, step: Step, id: CallId, run: RunId)
    requires Inv(s) && Enabled(s, step) && (RemovesOrphan(s, step, id, run) || Discards(s, step, id, run))
    ensures Removed(Do(s, step), run)
  {
    assert CallInv(s, id);
  }

  lemma {:induction false} RemovedForGood(states: seq<State>, steps: seq<Step>, j: nat, n: nat, id: CallId, run: RunId)
    requires Run(states, steps) && j < n < |states|
    requires RemovesOrphan(states[j], steps[j], id, run) || Discards(states[j], steps[j], id, run)
    ensures Removed(states[n], run)
  {
    hide Enabled, Do, Inv, RemovesOrphan, Discards, Removed;
    StepIs(states, steps, n - 1);
    if j == n - 1 {
      InvRun(states, steps, j);
      RemovalRemoves(states[j], steps[j], id, run);
    } else {
      RemovedForGood(states, steps, j, n - 1, id, run);
      RemovedStep(states[n - 1], steps[n - 1], run);
    }
  }

  lemma BoundSince(states: seq<State>, steps: seq<Step>, m: nat, n: nat, id: CallId, run: RunId)
    requires Run(states, steps) && m < n < |states|
    requires BindsNow(states[m], steps[m], run) || FailsClaim(states[m], steps[m], id, run)
    ensures BoundTo(states[n].record, run)
  {
    hide Run;
    assert |states| == |steps| + 1 by { RunLength(states, steps); }
    StepIs(states, steps, m);
    InvRun(states, steps, m);
    if steps[m].FailAfterRename? { assert CallInv(states[m], id); }
    RecordRun(states, steps, m + 1, n);
  }

  /**
   At every moment of every run: the binding has neither candidate nor run record if and only if
   its run has not been recorded, and reconciliation removed the candidate after a read of "no
   record" that the binding overtook, or a claim that failed after its rename discarded it.
   */
  lemma NotDurableExactly(states: seq<State>, steps: seq<Step>, n: nat)
    requires Run(states, steps) && n < |states|
    ensures !Durable(states[n]) <==>
              exists run ::
                !Recorded(states, steps, n, run) && (OrphanRaced(states, steps, n, run) || ClaimFailed(states, steps, n, run))
  {
    hide Run, OrphanRaced, ClaimFailed, Recorded;
    assert |states| == |steps| + 1 by { RunLength(states, steps); }
    if !Durable(states[n]) {
      var run := states[n].record.run;
      RecordedExactly(states, steps, n, run);
      UnbackedHistory(states, steps, n, run);
    }
    forall run | !Recorded(states, steps, n, run) && (OrphanRaced(states, steps, n, run) || ClaimFailed(states, steps, n, run))
      ensures !Durable(states[n])
    {
      RecordedExactly(states, steps, n, run);
      LostHistory(states, steps, n, run);
    }
  }

  lemma RunLength(states: seq<State>, steps: seq<Step>)
    requires Run(states, steps)
    ensures |states| == |steps| + 1
  {
  }

  lemma LostHistory(states: seq<State>, steps: seq<Step>, n: nat, run: RunId)
    requires Run(states, steps) && n < |states|
    requires OrphanRaced(states, steps, n, run) || ClaimFailed(states, steps, n, run)
    ensures BoundTo(states[n].record, run) && run !in states[n].candidates
  {
    hide Run, ReadsNoRecord, BindsNow, RemovesOrphan, FailsClaim, Discards;
    assert |states| == |steps| + 1 by { RunLength(states, steps); }
    if OrphanRaced(states, steps, n, run) {
      var i, m, j, id :|
        && 0 <= i < m < j < n
        && ReadsNoRecord(states[i], steps[i], id, run)
        && BindsNow(states[m], steps[m], run)
        && RemovesOrphan(states[j], steps[j], id, run);
      BoundSince(states, steps, m, n, id, run);
      RemovedForGood(states, steps, j, n, id, run);
    } else {
      var i, j, id :|
        0 <= i < j < n && FailsClaim(states[i], steps[i], id, run) && Discards(states[j], steps[j], id, run);
      BoundSince(states, steps, i, n, id, run);
      RemovedForGood(states, steps, j, n, id, run);
    }
  }

  // ---------------------------------------------------------------- the race of reconciliation

  /** Some run without any I/O error leads here. */
  ghost predicate Reachable(s: State) {
    exists states: seq<State>, steps: seq<Step> ::
      Run(states, steps) && states[|steps|] == s && forall k :: 0 <= k < |steps| ==> !steps[k].FailAfterRename?
  }

  lemma ReachedNext(s: State, step: Step, next: State)
    requires Reachable(s) && Enabled(s, step) && !step.FailAfterRename?
    requires next == Do(s, step)
    ensures Reachable(next)
  {
    var states: seq<State>, steps: seq<Step> :|
      Run(states, steps) && states[|steps|] == s && forall k :: 0 <= k < |steps| ==> !steps[k].FailAfterRename?;
    var states', steps' := states + [next], steps + [step];
    assert Run(states', steps');
  }

  lemma NothingYet(s: State)
    requires Init(s)
    ensures Reachable(s)
  {
    assert Run([s], []);
  }

  /** A start request has prepared its candidate. */
  lemma OrphanPrepared(s: State)
    requires s == State(
               Absent, None, map[7 := Candidate("h", 0)], {}, {},
               map[0 := Call(0, Prepared("h", 7))], {}, map[7 := Maker(0, 0)])
    ensures Reachable(s)
  {
    hide Reachable, Run, Inv, CallInv;
    var s0 := State(Absent, None, map[], {}, {}, map[], {}, map[]);
    NothingYet(s0);
    var s1 := s0.(calls := map[0 := Call(0, Finding("h"))]);
    ReachedNext(s0, Begin(0, 0, Finding("h")), s1);
    var s2 := s0.(calls := map[0 := Call(0, Preparing("h"))]);
    ReachedNext(s1, Find(0), s2);
    ReachedNext(s2, Prepare(0, 7), s);
  }

  /** Reconciliation has read "no record" while the owner of the candidate lives. */
  lemma OrphanSeen(s: State)
    requires s == State(
               Absent, None, map[7 := Candidate("h", 0)], {}, {},
               map[0 := Call(0, Prepared("h", 7)), 1 := Call(1, SawNoRecord(7, false))], {}, map[7 := Maker(0, 0)])
    ensures Reachable(s)
  {
    hide Reachable, Run, Inv, CallInv;
    var s3 := s.(calls := map[0 := Call(0, Prepared("h", 7))]);
    OrphanPrepared(s3);
    var s4 := s.(calls := map[0 := Call(0, Prepared("h", 7)), 1 := Call(1, Reconciling)]);
    ReachedNext(s3, Begin(1, 1, Reconciling), s4);
    ReachedNext(s4, ReadForReconcile(1, 7), s);
  }

  /** Then the owner finds nothing bound. */
  lemma OrphanClaimed(s: State)
    requires s == State(
               Absent, Some(0), map[7 := Candidate("h", 0)], {}, {},
               map[0 := Call(0, ClaimWriting("h", 7)), 1 := Call(1, SawNoRecord(7, false))], {}, map[7 := Maker(0, 0)])
    ensures Reachable(s)
  {
    hide Reachable, Run, Inv, CallInv;
    var watcher := Call(1, SawNoRecord(7, false));
    var s5 := s.(lock := None, calls := map[0 := Call(0, Prepared("h", 7)), 1 := watcher]);
    OrphanSeen(s5);
    var s6 := s.(calls := map[0 := Call(0, ClaimReading("h", 7)), 1 := watcher]);
    ReachedNext(s5, Acquire(0), s6);
    ReachedNext(s6, ReadForClaim(0), s);
  }

  /** And binds. */
  lemma OrphanBound(s: State)
    requires s == State(
               Binding(7, "h", 0, false), Some(0), map[7 := Candidate("h", 0)], {}, {},
               map[0 := Call(0, ClaimWritten("h", 7)), 1 := Call(1, SawNoRecord(7, false))], {}, map[7 := Maker(0, 0)])
    ensures Reachable(s)
  {
    hide Reachable, Run, Inv, CallInv;
    var s7 := s.(record := Absent, calls := map[0 := Call(0, ClaimWriting("h", 7)), 1 := Call(1, SawNoRecord(7, false))]);
    OrphanClaimed(s7);
    ReachedNext(s7, WriteBinding(0), s);
  }

  /**
   The guard that fails: reconciliation reads "no record", the owner then binds and dies, and
   reconciliation asks only whether the owner is gone.  The binding is left with neither file.
   */
  lemma OrphanRace() returns (s: State)
    ensures Reachable(s) && !Durable(s)
  {
    var watcher := Call(1, SawNoRecord(7, false));
    var s8 := State(
      Binding(7, "h", 0, false), Some(0), map[7 := Candidate("h", 0)], {}, {},
      map[0 := Call(0, ClaimWritten("h", 7)), 1 := watcher], {}, map[7 := Maker(0, 0)]);
    OrphanBound(s8);
    var s9 := s8.(lock := None, gone := {0}, calls := map[1 := watcher]);
    ReachedNext(s8, Die(0), s9);
    s := Do(s9, RemoveOrphan(1));
    ReachedNext(s9, RemoveOrphan(1), s);
  }

  // ---------------------------------------------------------------- the operations under the lock

  datatype AdmissionError = RecordMissing | FencedToken | ConflictingRequest | LaunchBindingChanged | CancelledBeforeLaunch

  /** What a caller learns: the binding, and whether this call created it. */
  datatype Admission = Admission(binding: Record, created: bool)

  predicate RefusalFits(answer: Result<Admission, AdmissionError>, record: Record, hash: Digest) {
    match answer
    case Failure(FencedToken) => record.Fence?
    case Failure(ConflictingRequest) => record.Binding? && record.hash != hash
    case _ => false
  }

  /** The record file of one token; the methods that replace it hold the admission lock. */
  class AdmissionFile {
    var record: Record

    constructor ()
      ensures record == Absent
    {
      record := Absent;
    }

    method ClaimClientStartAdmission(hash: Digest, run: RunId, owner: Proc) returns (answer: Result<Admission, AdmissionError>)
      modifies this
      ensures RecordGrows(old(record), record)
      ensures record == if old(record).Absent? then Binding(run, hash, owner, false) else old(record)
      ensures answer.Success? <==> record.Binding? && record.hash == hash
      ensures answer.Success? ==> answer.value == Admission(record, old(record).Absent?)
      ensures answer.Failure? ==> RefusalFits(answer, record, hash)
    {
      var created := false;
      if record.Fence? {
        return Failure(FencedToken);
      }
      if record.Absent? {
        record := Binding(run, hash, owner, false);
        created := true;
      }
      if record.hash != hash {
        return Failure(ConflictingRequest);
      }
      return Success(Admission(record, created));
    }

    method RequestClientStartContainment() returns (answer: Answer)
      modifies this
      ensures RecordGrows(old(record), record)
      ensures AnswerHolds(record, answer)
      ensures answer.ContainedFenced? <==> !old(record).Binding?
      ensures answer.ContainedFenced? || answer == ContainedBound(old(record).run)
    {
      match record
      case Absent =>
        record := Fence;
        answer := ContainedFenced;
      case Fence =>
        answer := ContainedFenced;
      case Binding(run, hash, owner, cancelled) =>
        if !cancelled {
          record := Binding(run, hash, owner, true);
        }
        answer := ContainedBound(run);
    }

    /** The check a launch makes before its child may be spawned. */
    method GuardLaunch(hash: Digest, run: RunId) returns (refusal: Option<AdmissionError>)
      ensures refusal.None? <==> LaunchAllowed(record, hash, run)
      ensures refusal == Some(RecordMissing) <==> record.Absent?
      ensures refusal == Some(FencedToken) <==> record.Fence?
      ensures refusal == Some(CancelledBeforeLaunch) <==>
                record.Binding? && record.hash == hash && record.run == run && record.cancelled
      ensures refusal == Some(LaunchBindingChanged) <==> record.Binding? && (record.hash != hash || record.run != run)
    {
      if record.Absent? {
        return Some(RecordMissing);
      }
      if record.Fence? {
        return Some(FencedToken);
      }
      if record.hash != hash || record.run != run {
        return Some(LaunchBindingChanged);
      }
      return if record.cancelled then Some(CancelledBeforeLaunch) else None;
    }
  }

  /** A successful claim, followed by the guard: the launch of its run passes exactly while nothing has contained the token. */
  method ClaimThenLaunch(file: AdmissionFile, hash: Digest, run: RunId, owner: Proc, containments: nat)
    returns (answer: Result<Admission, AdmissionError>, refusal: Option<AdmissionError>)
    modifies file
    ensures old(file.record).Absent? ==> answer == Success(Admission(Binding(run, hash, owner, false), true))
    ensures answer.Success? ==>
              answer.value.binding.Binding? &&
              refusal == if containments == 0 && !answer.value.binding.cancelled then None else Some(CancelledBeforeLaunch)
  {
    refusal := None;
    answer := file.ClaimClientStartAdmission(hash, run, owner);
    if answer.Failure? { return; }
    for k := 0 to containments
      invariant file.record.Binding? && file.record.hash == hash && file.record.run == answer.value.binding.run
      invariant file.record.cancelled <==> answer.value.binding.cancelled || k > 0
    {
      var contained := file.RequestClientStartContainment();
    }
    refusal := file.GuardLaunch(hash, answer.value.binding.run);
  }

  /** No order of claims, containments and launches on one record lets a launch pass after containment. */
  method ContainedTokenNeverLaunches(file: AdmissionFile, claims: seq<(Digest, RunId, Proc)>, hash: Digest, run: RunId)
    returns (refusal: Option<AdmissionError>)
    modifies file
    ensures refusal.Some?
  {
    var contained := file.RequestClientStartContainment();
    for k := 0 to |claims|
      invariant file.record.Fence? || (file.record.Binding? && file.record.cancelled)
    {
      var ignored := file.ClaimClientStartAdmission(claims[k].0, claims[k].1, claims[k].2);
      contained := file.RequestClientStartContainment();
    }
    refusal := file.GuardLaunch(hash, run);
  }
}
