/**
 Ownership of the strict primary/packet output pair of one run (src/runTask.ts, src/output.ts,
 src/runSubagent.ts).

 The owner, any number of restart reconciliations and any number of startup cleanups take single
 steps on the four paths and on the run's record; the owner may die between any two.  Record
 writes are atomic and hold the claim lock.  The second liveness check, made under that lock, is
 the one shown in module Capacity not to be fooled; the first check may be, exactly where that
 module says, unless the run is bound to a client start, whose owner's liveness is one fact.
 */
module PairedOutputs {
  import opened Outcomes
  import Capacity

  datatype Role = Primary | Packet
  datatype Path = Staging(role: Role) | Output(role: Role)
  type CallId = nat

  /** The record as far as the pair is concerned: `refs` means its references own the pair. */
  datatype Record = Record(terminal: bool, pending: bool, refs: bool)

  datatype Owner =
    | Preparing(done: set<Role>)
    | Accepted
    | Publishing(done: set<Role>)
    | Failed(todo: set<Path>)
    | Cleaned
    | Discarding(todo: set<Path>)
    | Settled
    | Dead

  datatype Call =
    | Inspecting(fooled: bool)
    | Cleaning(todo: set<Path>, fooled: bool)
    | Deciding(pendingSeen: bool, cleaned: bool, fooled: bool)
    | CleaningTerminal(todo: set<Path>)
    | Finished

  datatype State = State(
    files: set<Path>,
    record: Record,
    owner: Owner,
    accepted: bool,
    clientStart: bool,
    calls: map<CallId, Call>)

  const ALL_PATHS := {Staging(Primary), Staging(Packet), Output(Primary), Output(Packet)}
  const BOTH := {Primary, Packet}

  datatype Step =
    | Prepare(role: Role)
    | Accept
    | RefuseAccept
    | Publish(role: Role)
    | Fail
    | OwnerClean(path: Path)
    | OwnerClear
    | OwnerSettleRefs
    | OwnerSettleError
    | Discard(path: Path)
    | Die
    | Inspect(id: CallId, fooled: bool)
    | ReadPending(id: CallId)
    | Clean(id: CallId, path: Path)
    | CleanFails(id: CallId)
    | Decide(id: CallId)
    | BeginTerminal(id: CallId)
    | ClearTerminal(id: CallId)

  predicate At(s: State, id: CallId, p: Call -> bool) {
    id in s.calls && p(s.calls[id])
  }

  /** One output after the other, and of each the staged file first. */
  predicate Next(todo: set<Path>, path: Path) {
    && path in todo
    && match path
       case Output(role) => Staging(role) !in todo
       case Staging(role) => forall other :: other != role && Output(other) in todo ==> Staging(other) in todo
  }

  predicate Enabled(s: State, step: Step) {
    match step
    case Prepare(role) => s.owner.Preparing? && role !in s.owner.done
    case Accept => s.owner == Preparing(BOTH) && !s.record.terminal
    case RefuseAccept => s.owner.Preparing? && !s.accepted
    case Publish(role) =>
      (s.owner == Accepted && role == Primary) || (s.owner == Publishing({Primary}) && role == Packet)
    case Fail => s.owner.Accepted? || s.owner.Publishing?
    case OwnerClean(path) => s.owner.Failed? && Next(s.owner.todo, path)
    case OwnerClear => s.owner == Failed({}) && !s.record.terminal
    case OwnerSettleRefs => s.owner == Publishing(BOTH)
    case OwnerSettleError => s.owner.Failed? || s.owner.Cleaned? || s.owner == Discarding({})
    case Discard(path) => s.owner.Discarding? && path in s.owner.todo
    case Die => !s.owner.Dead?
    case Inspect(id, fooled) =>
      id !in s.calls && !s.record.terminal && (if fooled then !s.owner.Dead? && !s.clientStart else s.owner.Dead?)
    case ReadPending(id) => At(s, id, (c: Call) => c.Inspecting?)
    case Clean(id, path) => At(s, id, (c: Call) => (c.Cleaning? || c.CleaningTerminal?) && Next(c.todo, path))
    case CleanFails(id) => At(s, id, (c: Call) => c.Cleaning? || c.CleaningTerminal?)
    case Decide(id) => At(s, id, (c: Call) => c.Deciding? || c == Cleaning({}, true) || c == Cleaning({}, false))
    case BeginTerminal(id) => id !in s.calls && s.record.terminal && s.record.pending
    case ClearTerminal(id) => At(s, id, (c: Call) => c == CleaningTerminal({}))
  }

  function Move(s: State, id: CallId, call: Call): State {
    s.(calls := s.calls[id := call])
  }

  function Do(s: State, step: Step): State
    requires Enabled(s, step)
  {
    match step
    case Prepare(role) => s.(files := s.files + {Staging(role)}, owner := Preparing(s.owner.done + {role}))
    case Accept => s.(record := s.record.(pending := true), owner := Accepted, accepted := true)
    case RefuseAccept => s.(owner := Discarding(ALL_PATHS))
    case Publish(role) =>
      // A rename; it fails when the staged file is gone.
      if Staging(role) in s.files
      then s.(files := s.files - {Staging(role)} + {Output(role)},
              owner := Publishing((if s.owner.Publishing? then s.owner.done else {}) + {role}))
      else s.(owner := Failed(ALL_PATHS))
    case Fail => s.(owner := Failed(ALL_PATHS))
    case OwnerClean(path) => s.(files := s.files - {path}, owner := Failed(s.owner.todo - {path}))
    case OwnerClear => s.(record := s.record.(pending := false), owner := Cleaned)
    case OwnerSettleRefs =>
      if s.record.terminal then s.(owner := Settled)
      else s.(record := Record(true, false, true), owner := Settled)
    case OwnerSettleError =>
      if s.record.terminal then s.(owner := Settled)
      else s.(record := s.record.(terminal := true), owner := Settled)
    case Discard(path) => s.(files := s.files - {path}, owner := Discarding(s.owner.todo - {path}))
    case Die => s.(owner := Dead)
    case Inspect(id, fooled) => Move(s, id, Inspecting(fooled))
    case ReadPending(id) =>
      var fooled := s.calls[id].fooled;
      Move(s, id, if s.record.pending then Cleaning(ALL_PATHS, fooled) else Deciding(false, false, fooled))
    case Clean(id, path) =>
      var call := s.calls[id];
      Move(s, id, if call.Cleaning? then Cleaning(call.todo - {path}, call.fooled) else CleaningTerminal(call.todo - {path})).(
        files := s.files - {path})
    case CleanFails(id) =>
      var call := s.calls[id];
      Move(s, id, if call.Cleaning? then Deciding(true, false, call.fooled) else Finished)
    case Decide(id) =>
      // Under the claim lock: same pending ownership, still active, and the owner really gone.
      var call := s.calls[id];
      var pendingSeen := call.Cleaning? || call.pendingSeen;
      var cleaned := call.Cleaning? || call.cleaned;
      if s.record.pending != pendingSeen || s.record.terminal || !s.owner.Dead? then Move(s, id, Finished)
      else Move(s, id, Finished).(record := Record(true, s.record.pending && !cleaned, false))
    case BeginTerminal(id) => Move(s, id, CleaningTerminal(ALL_PATHS))
    case ClearTerminal(id) =>
      Move(s, id, Finished).(record := if s.record.terminal && s.record.pending then s.record.(pending := false) else s.record)
  }

  predicate Init(s: State) {
    s.files == {} && s.record == Record(false, false, false) && s.owner == Preparing({}) && !s.accepted && s.calls == map[]
  }

  ghost predicate Run(states: seq<State>, steps: seq<Step>) {
    && |states| == |steps| + 1
    && Init(states[0])
    && forall k {:trigger steps[k]} :: 0 <= k < |steps| ==>
         Enabled(states[k], steps[k]) && states[k + 1] == Do(states[k], steps[k])
  }

  // ---------------------------------------------------------------- safety

  /** Once ownership is accepted, every file of the pair that exists is named by the record. */
  predicate Covered(s: State) {
    s.accepted ==> forall path :: path in s.files ==> s.record.pending || (s.record.refs && path.Output?)
  }

  /** Every file that a terminal record references exists. */
  predicate ReferencesExist(s: State) {
    s.record.refs ==> s.record.terminal && Output(Primary) in s.files && Output(Packet) in s.files
  }

  predicate Safe(s: State) {
    Covered(s) && ReferencesExist(s)
  }

  /** A staged file still to be removed has its output still to be removed. */
  predicate Ordered(todo: set<Path>) {
    forall role :: Staging(role) in todo ==> Output(role) in todo
  }

  predicate OwnerInv(s: State) {
    match s.owner
    case Preparing(done) => !s.accepted && s.files <= {Staging(Primary), Staging(Packet)}
    case Accepted => s.accepted && s.record.pending && s.files <= {Staging(Primary), Staging(Packet)}
    case Publishing(done) =>
      && s.accepted && s.record.pending
      && (forall role :: Output(role) in s.files ==> role in done)
      && (forall role :: role in done ==> Staging(role) !in s.files)
    case Failed(todo) => s.accepted && s.record.pending && s.files <= todo && Ordered(todo)
    case Cleaned => s.accepted && s.files == {}
    case Discarding(todo) => !s.accepted
    case Settled => s.record.terminal
    case Dead => true
  }

  /** Only a fooled call may be at work beside a living owner. */
  predicate CallInv(s: State, call: Call) {
    match call
    case Inspecting(fooled) => !fooled ==> s.owner.Dead? && !s.record.refs
    case Cleaning(todo, fooled) =>
      s.accepted && s.files <= todo && Ordered(todo) && (!fooled ==> s.owner.Dead? && !s.record.refs)
    case Deciding(_, cleaned, fooled) => !cleaned && (!fooled ==> s.owner.Dead? && !s.record.refs)
    case CleaningTerminal(todo) => s.accepted && s.record.terminal && !s.record.refs && s.files <= todo && Ordered(todo)
    case Finished => true
  }

  predicate Inv(s: State) {
    && Covered(s)
    && OwnerInv(s)
    && (forall id :: id in s.calls ==> CallInv(s, s.calls[id]))
    && (s.record.terminal ==> s.owner.Settled? || s.owner.Dead?)
    && (s.record.pending ==> s.accepted)
    && (s.record.refs ==> s.record.terminal && !s.record.pending)
    && (forall role :: Output(role) in s.files ==> s.accepted && Staging(role) !in s.files)
    && s.files <= ALL_PATHS
  }

  lemma FourPaths(path: Path)
    ensures path in ALL_PATHS
  {
    match path.role
    case Primary =>
    case Packet =>
  }

  lemma PreparingKeep(s: State, step: Step)
    requires step.Prepare? || step.Accept? || step.RefuseAccept? || step.Discard?
    requires Inv(s) && Enabled(s, step)
    ensures Inv(Do(s, step))
  {
    var s' := Do(s, step);
    if step.Prepare? { FourPaths(Staging(step.role)); }
    forall id | id in s'.calls ensures CallInv(s', s'.calls[id]) { assert CallInv(s, s.calls[id]); }
  }

  lemma PublishKeep(s: State, step: Step)
    requires step.Publish? || step.Fail?
    requires Inv(s) && Enabled(s, step)
    ensures Inv(Do(s, step))
  {
    var s' := Do(s, step);
    if step.Publish? { FourPaths(Output(step.role)); }
    forall id | id in s'.calls ensures CallInv(s', s'.calls[id]) { assert CallInv(s, s.calls[id]); }
  }

  lemma OwnerEndKeep(s: State, step: Step)
    requires step.OwnerClean? || step.OwnerClear? || step.OwnerSettleRefs? || step.OwnerSettleError? || step.Die?
    requires Inv(s) && Enabled(s, step)
    ensures Inv(Do(s, step))
  {
    var s' := Do(s, step);
    forall id | id in s'.calls ensures CallInv(s', s'.calls[id]) { assert CallInv(s, s.calls[id]); }
  }

  lemma InspectKeep(s: State, step: Step)
    requires step.Inspect? || step.ReadPending? || step.CleanFails? || step.BeginTerminal?
    requires Inv(s) && Enabled(s, step)
    ensures Inv(Do(s, step))
  {
    var s' := Do(s, step);
    forall id | id in s'.calls ensures CallInv(s', s'.calls[id]) {
      if id in s.calls { assert CallInv(s, s.calls[id]); }
    }
  }

  lemma CleanKeep(s: State, step: Step)
    requires step.Clean? || step.Decide? || step.ClearTerminal?
    requires Inv(s) && Enabled(s, step)
    ensures Inv(Do(s, step))
  {
    var s' := Do(s, step);
    assert CallInv(s, s.calls[step.id]);
    forall id | id in s'.calls ensures CallInv(s', s'.calls[id]) { assert CallInv(s, s.calls[id]); }
  }

  lemma InvStep(s: State, step: Step)
    requires Inv(s) && Enabled(s, step)
    ensures Inv(Do(s, step))
  {
    match step
    case Prepare(_) | Accept | RefuseAccept | Discard(_) => PreparingKeep(s, step);
    case Publish(_) | Fail => PublishKeep(s, step);
    case OwnerClean(_) | OwnerClear | OwnerSettleRefs | OwnerSettleError | Die => OwnerEndKeep(s, step);
    case Inspect(_, _) | ReadPending(_) | CleanFails(_) | BeginTerminal(_) => InspectKeep(s, step);
    case Clean(_, _) | Decide(_) | ClearTerminal(_) => CleanKeep(s, step);
  }

  lemma {:induction false} InvRun(states: seq<State>, steps: seq<Step>, k: nat)
    requires Run(states, steps) && k < |states|
    ensures Inv(states[k])
  {
    if k > 0 {
      InvRun(states, steps, k - 1);
      InvStep(states[k - 1], steps[k - 1]);
    }
  }

  /**
   What settles an owner's loss: it is written exactly over the ownership that was seen, of a run
   that is active and whose owner is gone.  The record gives up the pair only when nothing is left
   of it, and otherwise keeps it for a later cleanup.
   */
  lemma LossSettles(s: State, id: CallId)
    requires Inv(s) && Enabled(s, Decide(id))
    ensures var call, s' := s.calls[id], Do(s, Decide(id));
            && s'.files == s.files && s'.owner == s.owner && s'.calls[id] == Finished
            && (s'.record != s.record <==> !s.record.terminal && s.owner.Dead? && s.record.pending == (call.Cleaning? || call.pendingSeen))
            && (s'.record != s.record ==>
                  && s'.record.terminal && !s'.record.refs
                  && (s.record.pending && !s'.record.pending <==> call.Cleaning?)
                  && (call.Cleaning? ==> s.files == {}))
  {
    assert CallInv(s, s.calls[id]);
  }

  /**
   At every crash point of every run, also one whose first liveness checks are fooled, each file
   of an accepted pair is named by the record: nothing is orphaned.
   */
  lemma PairIsCovered(states: seq<State>, steps: seq<Step>, k: nat)
    requires Run(states, steps) && k < |states|
    ensures Covered(states[k])
  {
    InvRun(states, steps, k);
  }

  // ---------------------------------------------------------------- every pair can be settled

  /** Some steps lead from the one state to the other. */
  ghost predicate Leads(s: State, t: State) {
    exists states: seq<State>, steps: seq<Step> :: Walks(states, steps) && states[0] == s && states[|steps|] == t
  }

  ghost predicate Walks(states: seq<State>, steps: seq<Step>) {
    && |states| == |steps| + 1
    && forall k {:trigger steps[k]} :: 0 <= k < |steps| ==>
         Enabled(states[k], steps[k]) && states[k + 1] == Do(states[k], steps[k])
  }

  lemma LeadsNowhere(s: State)
    ensures Leads(s, s)
  {
    assert Walks([s], []);
  }

  lemma LeadsFirst(s: State, step: Step, t: State)
    requires Enabled(s, step) && Leads(Do(s, step), t)
    ensures Leads(s, t)
  {
    hide Enabled, Do;
    var states: seq<State>, steps: seq<Step> :| Walks(states, steps) && states[0] == Do(s, step) && states[|steps|] == t;
    var states', steps' := [s] + states, [step] + steps;
    forall k | 0 <= k < |steps'| ensures Enabled(states'[k], steps'[k]) && states'[k + 1] == Do(states'[k], steps'[k]) {
      if k > 0 { assert steps'[k] == steps[k - 1]; }
    }
    assert Walks(states', steps') && states'[|steps'|] == t;
  }

  /** While something is left to remove, something is next. */
  lemma SomethingIsNext(todo: set<Path>) returns (path: Path)
    requires todo != {} && Ordered(todo)
    ensures Next(todo, path)
  {
    var some :| some in todo;
    if role :| Output(role) in todo && Staging(role) !in todo {
      path := Output(role);
    } else {
      path := Staging(some.role);
    }
  }

  /** An owner that failed to publish can remove the pair, give it up and settle. */
  lemma {:induction false} FailureCleans(s: State) returns (t: State)
    requires Inv(s) && s.owner.Failed?
    ensures Leads(s, t) && t.owner.Settled? && t.record.terminal && !t.record.pending && !t.record.refs && t.files == {}
    decreases |s.owner.todo|
  {
    if s.owner.todo == {} {
      var cleared := Do(s, OwnerClear);
      t := Do(cleared, OwnerSettleError);
      LeadsNowhere(t);
      LeadsFirst(cleared, OwnerSettleError, t);
      LeadsFirst(s, OwnerClear, t);
    } else {
      var path := SomethingIsNext(s.owner.todo);
      var next := Do(s, OwnerClean(path));
      InvStep(s, OwnerClean(path));
      t := FailureCleans(next);
      LeadsFirst(s, OwnerClean(path), t);
    }
  }

  /** So can one that was refused the ownership. */
  lemma {:induction false} RefusalDiscards(s: State) returns (t: State)
    requires Inv(s) && s.owner.Discarding? && s.files <= s.owner.todo && !s.record.pending
    ensures Leads(s, t) && t.owner.Settled? && t.record.terminal && !t.record.pending && !t.record.refs && t.files == {}
    decreases |s.owner.todo|
  {
    if s.owner.todo == {} {
      t := Do(s, OwnerSettleError);
      LeadsNowhere(t);
      LeadsFirst(s, OwnerSettleError, t);
    } else {
      var path :| path in s.owner.todo;
      var next := Do(s, Discard(path));
      InvStep(s, Discard(path));
      t := RefusalDiscards(next);
      LeadsFirst(s, Discard(path), t);
    }
  }

  /** Whatever an owner has published, it can still withdraw, and leave neither file nor ownership. */
  lemma OwnerCanWithdraw(s: State) returns (t: State)
    requires Inv(s) && (s.owner.Preparing? || s.owner.Accepted? || s.owner.Publishing?)
    ensures Leads(s, t) && t.owner.Settled? && t.record.terminal && !t.record.pending && !t.record.refs && t.files == {}
  {
    if s.owner.Preparing? {
      InvStep(s, RefuseAccept);
      t := RefusalDiscards(Do(s, RefuseAccept));
      LeadsFirst(s, RefuseAccept, t);
    } else {
      InvStep(s, Fail);
      t := FailureCleans(Do(s, Fail));
      LeadsFirst(s, Fail, t);
    }
  }

  /** A reconciliation behind the owner's death can remove the pair, and settles the loss over what it removed. */
  lemma {:induction false} ReconciliationCleans(s: State, id: CallId) returns (t: State)
    requires Inv(s) && id in s.calls && s.calls[id].Cleaning? && !s.calls[id].fooled && s.record.pending && !s.record.terminal
    ensures Leads(s, t) && t.record == Record(true, false, false) && t.files == {}
    decreases |s.calls[id].todo|
  {
    assert CallInv(s, s.calls[id]);
    if s.calls[id].todo == {} {
      t := Do(s, Decide(id));
      LeadsNowhere(t);
      LeadsFirst(s, Decide(id), t);
    } else {
      var path := SomethingIsNext(s.calls[id].todo);
      var next := Do(s, Clean(id, path));
      InvStep(s, Clean(id, path));
      t := ReconciliationCleans(next, id);
      LeadsFirst(s, Clean(id, path), t);
    }
  }

  /** An owner may die anywhere before it settles: its pair can still be removed, and its loss settled. */
  lemma DeathIsRecovered(s: State, id: CallId) returns (t: State)
    requires Inv(s) && !s.record.terminal && !s.owner.Dead? && s.record.pending && id !in s.calls
    ensures Leads(s, t) && t.record == Record(true, false, false) && t.files == {}
  {
    var dead := Do(s, Die);
    InvStep(s, Die);
    var inspecting := Do(dead, Inspect(id, false));
    InvStep(dead, Inspect(id, false));
    var cleaning := Do(inspecting, ReadPending(id));
    InvStep(inspecting, ReadPending(id));
    t := ReconciliationCleans(cleaning, id);
    LeadsFirst(inspecting, ReadPending(id), t);
    LeadsFirst(dead, Inspect(id, false), t);
    LeadsFirst(s, Die, t);
  }

  /** What a terminal record still owns, a startup cleanup can remove and give up. */
  lemma {:induction false} StartupCleans(s: State, id: CallId) returns (t: State)
    requires Inv(s) && id in s.calls && s.calls[id].CleaningTerminal?
    ensures Leads(s, t) && t.record.terminal && !t.record.pending && t.files == {}
    decreases |s.calls[id].todo|
  {
    assert CallInv(s, s.calls[id]);
    if s.calls[id].todo == {} {
      t := Do(s, ClearTerminal(id));
      LeadsNowhere(t);
      LeadsFirst(s, ClearTerminal(id), t);
    } else {
      var path := SomethingIsNext(s.calls[id].todo);
      var next := Do(s, Clean(id, path));
      InvStep(s, Clean(id, path));
      t := StartupCleans(next, id);
      LeadsFirst(s, Clean(id, path), t);
    }
  }

  lemma LeftoverIsRemoved(s: State, id: CallId) returns (t: State)
    requires Inv(s) && s.record.terminal && s.record.pending && id !in s.calls
    ensures Leads(s, t) && t.record.terminal && !t.record.pending && t.files == {}
  {
    InvStep(s, BeginTerminal(id));
    t := StartupCleans(Do(s, BeginTerminal(id)), id);
    LeadsFirst(s, BeginTerminal(id), t);
  }

  // ---------------------------------------------------------------- when a referenced file is lost

  /** A cleanup whose first liveness check was fooled removes a published output. */
  predicate Strikes(s: State, step: Step, role: Role) {
    step.Clean? && step.path == Output(role) && step.path in s.files
    && At(s, step.id, (c: Call) => c.Cleaning? && c.fooled)
  }

  ghost predicate Struck(states: seq<State>, steps: seq<Step>, k: nat, role: Role)
    requires |states| == |steps| + 1 && k <= |steps|
  {
    exists j :: 0 <= j < k && Strikes(states[j], steps[j], role)
  }

  /** The owner settles its run with references to both outputs. */
  ghost predicate SettledWithRefs(steps: seq<Step>, k: nat)
    requires k <= |steps|
  {
    exists j :: 0 <= j < k && steps[j].OwnerSettleRefs?
  }

  /** The owner counts on this output, or the record does. */
  predicate CountsOn(s: State, role: Role) {
    s.record.refs || (s.owner.Publishing? && role in s.owner.done)
  }

  lemma OnlyStrikesLose(s: State, step: Step, role: Role)
    requires Inv(s) && Enabled(s, step) && !Strikes(s, step, role)
    requires CountsOn(s, role) ==> Output(role) in s.files
    ensures CountsOn(Do(s, step), role) ==> Output(role) in Do(s, step).files
  {
    if step.Clean? { assert CallInv(s, s.calls[step.id]); }
  }

  lemma StruckNext(states: seq<State>, steps: seq<Step>, k: nat, role: Role)
    requires |states| == |steps| + 1 && k < |steps|
    ensures Struck(states, steps, k + 1, role) <==> Struck(states, steps, k, role) || Strikes(states[k], steps[k], role)
  {
    hide Strikes;
  }

  lemma {:induction false} CountedOnExists(states: seq<State>, steps: seq<Step>, k: nat, role: Role)
    requires Run(states, steps) && k < |states| && !Struck(states, steps, k, role)
    ensures CountsOn(states[k], role) ==> Output(role) in states[k].files
  {
    if k > 0 {
      hide Enabled, Do, Inv, Strikes, CountsOn;
      InvRun(states, steps, k - 1);
      StruckNext(states, steps, k - 1, role);
      CountedOnExists(states, steps, k - 1, role);
      OnlyStrikesLose(states[k - 1], steps[k - 1], role);
    }
  }

  /** What has been published and removed never comes back. */
  predicate LostForGood(s: State, role: Role) {
    s.accepted && Output(role) !in s.files && Staging(role) !in s.files
  }

  lemma {:induction false} StruckIsLost(states: seq<State>, steps: seq<Step>, k: nat, role: Role)
    requires Run(states, steps) && k < |states| && Struck(states, steps, k, role)
    ensures LostForGood(states[k], role)
  {
    hide Enabled, Do, Inv, Strikes, LostForGood;
    InvRun(states, steps, k - 1);
    StruckNext(states, steps, k - 1, role);
    if Strikes(states[k - 1], steps[k - 1], role) {
      StrikeLoses(states[k - 1], steps[k - 1], role);
    } else {
      StruckIsLost(states, steps, k - 1, role);
      LostNext(states[k - 1], steps[k - 1], role);
    }
  }

  lemma StrikeLoses(s: State, step: Step, role: Role)
    requires Inv(s) && Enabled(s, step) && Strikes(s, step, role)
    ensures LostForGood(Do(s, step), role)
  {
  }

  lemma LostNext(s: State, step: Step, role: Role)
    requires Inv(s) && Enabled(s, step) && LostForGood(s, role)
    ensures LostForGood(Do(s, step), role)
  {
  }

  lemma {:induction false} RefsExactly(states: seq<State>, steps: seq<Step>, k: nat)
    requires Run(states, steps) && k < |states|
    ensures states[k].record.refs <==> SettledWithRefs(steps, k)
  {
    if k > 0 {
      InvRun(states, steps, k - 1);
      RefsExactly(states, steps, k - 1);
      assert states[k] == Do(states[k - 1], steps[k - 1]);
      assert SettledWithRefs(steps, k) <==> SettledWithRefs(steps, k - 1) || steps[k - 1].OwnerSettleRefs?;
    }
  }

  /**
   At every moment of every run: a file that the record references is missing if and only if a
   fooled cleanup has removed a published output and the owner has settled its run all the same.
   */
  lemma LostExactly(states: seq<State>, steps: seq<Step>, k: nat)
    requires Run(states, steps) && k < |states|
    ensures !ReferencesExist(states[k]) <==>
              SettledWithRefs(steps, k) && (Struck(states, steps, k, Primary) || Struck(states, steps, k, Packet))
  {
    hide Run, Enabled, Do;
    assert |states| == |steps| + 1 by { RunLength(states, steps); }
    InvRun(states, steps, k);
    RefsExactly(states, steps, k);
    forall role
      ensures states[k].record.refs ==> (Output(role) !in states[k].files <==> Struck(states, steps, k, role))
    {
      if Struck(states, steps, k, role) {
        StruckIsLost(states, steps, k, role);
      } else {
        CountedOnExists(states, steps, k, role);
      }
    }
  }

  lemma RunLength(states: seq<State>, steps: seq<Step>)
    requires Run(states, steps)
    ensures |states| == |steps| + 1
  {
  }

  /** A cleanup is fooled only where its own first check was. */
  lemma {:induction false} FooledSinceInspection(states: seq<State>, steps: seq<Step>, k: nat, id: CallId)
    requires Run(states, steps) && k < |states|
    requires At(states[k], id, (c: Call) => (c.Inspecting? || c.Cleaning? || c.Deciding?) && c.fooled)
    ensures exists j :: 0 <= j < k && steps[j] == Inspect(id, true)
  {
    assert k > 0 && Enabled(states[k - 1], steps[k - 1]);
    if steps[k - 1] != Inspect(id, true) {
      FooledSinceInspection(states, steps, k - 1, id);
    }
  }

  /** With no fooled first check the record names every file and every file that it references exists. */
  lemma PairIsSafe(states: seq<State>, steps: seq<Step>, k: nat)
    requires Run(states, steps) && k < |states|
    requires forall j {:trigger steps[j]} :: 0 <= j < k && steps[j].Inspect? ==> !steps[j].fooled
    ensures Safe(states[k])
  {
    hide Run, Struck, Covered, ReferencesExist;
    assert |states| == |steps| + 1 by { RunLength(states, steps); }
    PairIsCovered(states, steps, k);
    LostExactly(states, steps, k);
    UnfooledNeverStrikes(states, steps, k, Primary);
    UnfooledNeverStrikes(states, steps, k, Packet);
  }

  lemma UnfooledNeverStrikes(states: seq<State>, steps: seq<Step>, k: nat, role: Role)
    requires Run(states, steps) && k < |states|
    requires forall j {:trigger steps[j]} :: 0 <= j < k && steps[j].Inspect? ==> !steps[j].fooled
    ensures !Struck(states, steps, k, role)
  {
    hide Run;
    assert |states| == |steps| + 1 by { RunLength(states, steps); }
    if Struck(states, steps, k, role) {
      var j :| 0 <= j < k && Strikes(states[j], steps[j], role);
      FooledSinceInspection(states, steps, j, steps[j].id);
    }
  }

  lemma {:induction false} ClientStartIsConstant(states: seq<State>, steps: seq<Step>, k: nat)
    requires Run(states, steps) && k < |states|
    ensures states[k].clientStart == states[0].clientStart
  {
    if k > 0 {
      ClientStartIsConstant(states, steps, k - 1);
      assert states[k] == Do(states[k - 1], steps[k - 1]);
    }
  }

  /** A run bound to a client start is safe without any such condition. */
  lemma ClientStartPairIsSafe(states: seq<State>, steps: seq<Step>, k: nat)
    requires Run(states, steps) && k < |states| && states[0].clientStart
    ensures Safe(states[k])
  {
    forall j | 0 <= j < k && steps[j].Inspect? ensures !steps[j].fooled {
      ClientStartIsConstant(states, steps, j);
      assert Enabled(states[j], steps[j]);
    }
    PairIsSafe(states, steps, k);
  }

  // ---------------------------------------------------------------- what fools a first check

  /** The first liveness check of a step: the ticket read `step` of the probe `probe` of module Capacity. */
  datatype Look = Look(step: nat, probe: Capacity.CallId)

  /** The check said gone, and the owner lives exactly while it holds its capacity. */
  ghost predicate LooksAt(s: State, look: Look, caps: seq<Capacity.State>, capSteps: seq<Capacity.Step>, run: Capacity.RunId) {
    && |caps| == |capSteps| + 1 && look.step < |capSteps|
    && capSteps[look.step] == Capacity.ByProbe(Capacity.ReadTicket(look.probe))
    && Capacity.FirstRound(caps[look.step], look.probe, run)
    && look.probe in caps[look.step + 1].calls
    && Capacity.At(caps[look.step + 1], look.probe) == Capacity.FirstSaysGone(run)
    && (s.owner.Dead? <==> !Capacity.Held(caps[look.step], run))
  }

  /** The first checks of the pair's run, which is bound to no client start, are those of a run of the capacity files. */
  ghost predicate Follows(
    states: seq<State>, steps: seq<Step>, looks: seq<Look>, caps: seq<Capacity.State>, capSteps: seq<Capacity.Step>,
    limits: Capacity.Limits, run: Capacity.RunId)
  {
    && Run(states, steps) && Capacity.Run(caps, capSteps, limits) && |looks| == |steps|
    && forall k {:trigger steps[k]} :: 0 <= k < |steps| && steps[k].Inspect? ==> LooksAt(states[k], looks[k], caps, capSteps, run)
  }

  ghost predicate OvertakenLook(look: Look, caps: seq<Capacity.State>, capSteps: seq<Capacity.Step>, run: Capacity.RunId) {
    && |caps| == |capSteps| + 1 && look.step < |capSteps|
    && Capacity.Held(caps[look.step], run)
    && Capacity.Overtaken(caps, capSteps, look.step, look.probe, run)
  }

  /** A first check is fooled if and only if the promotion of the held run overtakes it. */
  lemma FooledByPromotion(
    states: seq<State>, steps: seq<Step>, looks: seq<Look>, caps: seq<Capacity.State>, capSteps: seq<Capacity.Step>,
    limits: Capacity.Limits, run: Capacity.RunId, k: nat)
    requires Follows(states, steps, looks, caps, capSteps, limits, run) && k < |steps| && steps[k].Inspect?
    ensures steps[k].fooled <==> OvertakenLook(looks[k], caps, capSteps, run)
  {
    hide Capacity.Run, Capacity.Held, Capacity.Overtaken, Capacity.FirstRound;
    assert Enabled(states[k], steps[k]) && LooksAt(states[k], looks[k], caps, capSteps, run);
    if Capacity.Held(caps[looks[k].step], run) {
      Capacity.FooledExactly(caps, capSteps, limits, looks[k].step, looks[k].probe, run);
    }
  }

  /** The pair is safe unless a promotion overtakes one of the first checks. */
  lemma SafeUnlessOvertaken(
    states: seq<State>, steps: seq<Step>, looks: seq<Look>, caps: seq<Capacity.State>, capSteps: seq<Capacity.Step>,
    limits: Capacity.Limits, run: Capacity.RunId, k: nat)
    requires Follows(states, steps, looks, caps, capSteps, limits, run) && k < |states|
    requires forall j {:trigger steps[j]} :: 0 <= j < k && steps[j].Inspect? ==> !OvertakenLook(looks[j], caps, capSteps, run)
    ensures Safe(states[k])
  {
    hide Capacity.Run, OvertakenLook, LooksAt;
    forall j | 0 <= j < k && steps[j].Inspect? ensures !steps[j].fooled {
      FooledByPromotion(states, steps, looks, caps, capSteps, limits, run, j);
    }
    PairIsSafe(states, steps, k);
  }

  // ---------------------------------------------------------------- the unguarded cleanup

  ghost predicate Reachable(s: State) {
    exists states: seq<State>, steps: seq<Step> :: Run(states, steps) && states[|steps|] == s
  }

  lemma ReachedNext(s: State, step: Step, next: State)
    requires Reachable(s) && Enabled(s, step) && next == Do(s, step)
    ensures Reachable(next)
  {
    var states: seq<State>, steps: seq<Step> :| Run(states, steps) && states[|steps|] == s;
    assert Run(states + [next], steps + [step]);
  }

  /** Both files are staged. */
  lemma BothPrepared(s: State)
    requires s == State({Staging(Primary), Staging(Packet)}, Record(false, false, false), Preparing(BOTH), false, false, map[])
    ensures Reachable(s)
  {
    var s0 := State({}, Record(false, false, false), Preparing({}), false, false, map[]);
    assert Run([s0], []);
    var s1 := s0.(files := {Staging(Primary)}, owner := Preparing({Primary}));
    assert s1.files == Do(s0, Prepare(Primary)).files && s1.owner.done == {} + {Primary};
    ReachedNext(s0, Prepare(Primary), s1);
    assert s.files == Do(s1, Prepare(Packet)).files && s.owner.done == s1.owner.done + {Packet};
    ReachedNext(s1, Prepare(Packet), s);
  }

  /** A fooled first check has read the pending ownership of a living owner. */
  lemma FooledCleaning(s: State)
    requires s == State({Staging(Primary), Staging(Packet)}, Record(false, true, false), Accepted, true, false,
                        map[0 := Cleaning(ALL_PATHS, true)])
    ensures Reachable(s)
  {
    var s2 := s.(record := Record(false, false, false), owner := Preparing(BOTH), accepted := false, calls := map[]);
    BothPrepared(s2);
    var s3 := s2.(calls := map[0 := Inspecting(true)]);
    ReachedNext(s2, Inspect(0, true), s3);
    var s4 := s.(calls := map[0 := Inspecting(true)]);
    ReachedNext(s3, Accept, s4);
    ReachedNext(s4, ReadPending(0), s);
  }

  /**
   Phase one removes the files without a second look at liveness: fooled once, it deletes an
   output that the owner's terminal record references.
   */
  lemma FooledCleanupDeletesReferenced() returns (s: State)
    ensures Reachable(s) && !ReferencesExist(s)
  {
    var call := Cleaning(ALL_PATHS, true);
    var s0 := State({Staging(Primary), Staging(Packet)}, Record(false, true, false), Accepted, true, false, map[0 := call]);
    FooledCleaning(s0);
    var s1 := s0.(files := {Staging(Packet), Output(Primary)}, owner := Publishing({Primary}));
    assert s1.files == Do(s0, Publish(Primary)).files;
    assert s1.owner.done == {} + {Primary};
    ReachedNext(s0, Publish(Primary), s1);
    var s2 := s1.(files := {Output(Primary), Output(Packet)}, owner := Publishing(BOTH));
    assert s2.files == Do(s1, Publish(Packet)).files;
    assert s2.owner.done == s1.owner.done + {Packet};
    ReachedNext(s1, Publish(Packet), s2);
    var s3 := s2.(record := Record(true, false, true), owner := Settled);
    ReachedNext(s2, OwnerSettleRefs, s3);
    var s4 := s3.(calls := map[0 := Cleaning(ALL_PATHS - {Staging(Primary)}, true)]);
    assert s4.files == s3.files - {Staging(Primary)};
    ReachedNext(s3, Clean(0, Staging(Primary)), s4);
    s := Do(s4, Clean(0, Output(Primary)));
    ReachedNext(s4, Clean(0, Output(Primary)), s);
  }
}
