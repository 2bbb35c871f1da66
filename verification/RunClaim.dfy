/**
 The durable run claim (src/runTask.ts): the guarded transition of the record file, and the
 owner whose receipts, events, cancellation and settlement go through it.

 Every write holds the run's claim lock.  Canonical JSON decides equality of fields (module
 CanonicalJson), so equality is equality here.  Of the field-by-field record validator the demand
 for receipts behind a retained prompt is modelled; the rest is the parameter `wellFormed`, which
 may refuse any write.
 */
module RunClaim {
  import opened Outcomes
  import opened RunEvents
  import InputDelivery

  type RunId = string
  type Receipt = string

  datatype Status = Working | InputRequired | Completed | Failed | Cancelled | TimedOut

  datatype InputRequest = InputRequest(requestId: string, pending: bool, body: string)

  /** The claim fields of a run view; `rest` stands for those no check looks at one by one. */
  datatype View = View(
    runId: RunId,
    taskId: RunId,
    status: Status,
    childStarted: Option<bool>,
    events: seq<Event>,
    activation: Option<Receipt>,
    snapshotActivation: Option<Receipt>,
    delegation: Option<Receipt>,
    systemSkill: Option<Receipt>,
    children: seq<RunId>,
    descendants: seq<RunId>,
    inputs: seq<InputRequest>,
    timedOut: Option<bool>,
    errorClass: Option<string>,
    reasonCode: Option<string>,
    hint: Option<string>,
    rest: string)

  /** What a run declared before it was launched, as far as its receipts depend on it. */
  datatype Declarations = Declarations(activation: bool, snapshot: bool, systemSkill: bool, text: string)

  /** `launched`: the record holds the observation of a granted launch. */
  datatype Record = Record(view: View, declarations: Declarations, launched: bool)

  datatype ClaimError =
    | IdentityChanged
    | ChildStartedRegressed
    | StableEventRegressed
    | ReceiptRegressed
    | DirectChildRegressed
    | DescendantRegressed
    | InputRegressed
    | TerminalReplaced
    | DeclarationsChanged
    | Malformed
    | ReceiptConflict
    | SpawnConflict
    | NoExecutionGrant

  predicate IsTerminal(status: Status) {
    status != Working && status != InputRequired
  }

  predicate IsRestartDrift(view: View) {
    view.status == Failed && view.errorClass == Some("restart_drift")
    && view.reasonCode == Some("server_restarted_active_run")
  }

  predicate IsStable(event: Event) {
    event.name == "child_spawned" || event.name == "cancellation_requested" || event.kind == Terminal
  }

  function FilterEvents(events: seq<Event>, p: Event -> bool): (kept: seq<Event>)
    ensures forall event :: event in kept <==> event in events && p(event)
    ensures |kept| <= |events|
  {
    if events == [] then []
    else (if p(events[0]) then [events[0]] else []) + FilterEvents(events[1..], p)
  }

  predicate ClaimKind(event: Event) {
    event.kind != Assistant && event.kind != Warning && event.kind != Problem
  }

  /** `runClaimSnapshot`: an active claim keeps no output events. */
  function Claim(view: View): View {
    if IsTerminal(view.status) then view else view.(events := FilterEvents(view.events, ClaimKind))
  }

  // ---------------------------------------------------------------- the guarded transition

  /** The fixed advice a timed-out run starts with; its wording plays no part. */
  const RECOVERY_HINT: string

  function HintSuffix(runId: RunId): string {
    " Inspect this run with get_run using run_id " + runId + "."
  }

  function HintBase(hint: Option<string>): string {
    if hint.Some? then hint.value else RECOVERY_HINT
  }

  predicate StableEventsKept(existing: View, next: View) {
    forall event :: event in existing.events && IsStable(event) ==> event in next.events
  }

  predicate ReceiptKept(existing: Option<Receipt>, next: Option<Receipt>) {
    existing.Some? ==> next == existing
  }

  predicate ReceiptsKept(existing: View, next: View) {
    && ReceiptKept(existing.activation, next.activation)
    && ReceiptKept(existing.snapshotActivation, next.snapshotActivation)
    && ReceiptKept(existing.delegation, next.delegation)
  }

  predicate IdsKept(existing: seq<RunId>, next: seq<RunId>) {
    forall id :: id in existing ==> id in next
  }

  predicate SettledInputsKept(existing: View, next: View) {
    forall input :: input in existing.inputs && !input.pending ==> input in next.inputs
  }

  predicate TerminalKept(existing: View, next: View) {
    && next.(hint := existing.hint) == existing
    && (|| next.hint == existing.hint
        || (&& (existing.timedOut == Some(true) || existing.errorClass == Some("timeout"))
            && next.hint == Some(HintBase(existing.hint) + HintSuffix(existing.runId))))
  }

  /** `assertOwnerViewTransition`: the first objection, if any. */
  function TransitionError(existing: View, next: View): Option<ClaimError> {
    if existing.runId != next.runId || existing.taskId != next.taskId then Some(IdentityChanged)
    else if existing.childStarted == Some(true) && next.childStarted != Some(true) then Some(ChildStartedRegressed)
    else if !StableEventsKept(existing, next) then Some(StableEventRegressed)
    else if !ReceiptsKept(existing, next) then Some(ReceiptRegressed)
    else if !IdsKept(existing.children, next.children) then Some(DirectChildRegressed)
    else if !IdsKept(existing.descendants, next.descendants) then Some(DescendantRegressed)
    else if !SettledInputsKept(existing, next) then Some(InputRegressed)
    else if IsTerminal(existing.status) && !TerminalKept(existing, next) then Some(TerminalReplaced)
    else None
  }

  /** What is written for a view: a terminal one gets its canonical events first. */
  function Snapshot(view: View): View {
    if IsTerminal(view.status)
    then view.(events := RecentEvents(FilterEvents(view.events, (event: Event) => view.childStarted != Some(false) || event.kind != Child)))
    else view
  }

  /** One attempt to write a claim, by the owner, a reconciler or a restarted server. */
  datatype Attempt = Attempt(view: View, declarations: Declarations, launched: bool, wellFormed: bool)

  /** A launch once observed stays observed. */
  predicate Launched(record: Option<Record>, attempt: Attempt) {
    attempt.launched || (record.Some? && record.value.launched)
  }

  /** What the record validator asks of the receipts: complete behind a retained prompt, once launched. */
  predicate LaunchFits(view: View, declarations: Declarations, launched: bool) {
    if launched then EvidenceHolds(view, declarations) else view.childStarted != Some(true)
  }

  function WriteAnswer(record: Option<Record>, attempt: Attempt): Result<View, ClaimError> {
    var snapshot := Snapshot(attempt.view);
    if record.Some? && IsRestartDrift(record.value.view) && IsTerminal(attempt.view.status) && !IsRestartDrift(attempt.view)
    then Success(record.value.view)
    else if record.Some? && TransitionError(record.value.view, Claim(snapshot)).Some?
    then Failure(TransitionError(record.value.view, Claim(snapshot)).value)
    else if record.Some? && record.value.declarations != attempt.declarations then Failure(DeclarationsChanged)
    else if !attempt.wellFormed || !LaunchFits(Claim(snapshot), attempt.declarations, Launched(record, attempt)) then Failure(Malformed)
    else Success(snapshot)
  }

  function Written(record: Option<Record>, attempt: Attempt): Option<Record> {
    if WriteAnswer(record, attempt).Failure? then record
    else if record.Some? && IsRestartDrift(record.value.view) && IsTerminal(attempt.view.status) && !IsRestartDrift(attempt.view)
    then record
    else Some(Record(Claim(Snapshot(attempt.view)), attempt.declarations, Launched(record, attempt)))
  }

  class ClaimFile {
    var record: Option<Record>

    constructor ()
      ensures record == None
    {
      record := None;
    }

    /** The caller holds the claim lock of the run. */
    method WriteRunClaimOwned(view: View, declarations: Declarations, launched: bool, wellFormed: bool)
      returns (answer: Result<View, ClaimError>)
      modifies this
      ensures answer == WriteAnswer(old(record), Attempt(view, declarations, launched, wellFormed))
      ensures record == Written(old(record), Attempt(view, declarations, launched, wellFormed))
    {
      if record.Some? && IsRestartDrift(record.value.view) && IsTerminal(view.status) && !IsRestartDrift(view) {
        return Success(record.value.view);
      }
      var snapshot := view;
      if IsTerminal(view.status) {
        snapshot := Snapshot(view);
      }
      if record.Some? {
        var objection := TransitionError(record.value.view, Claim(snapshot));
        if objection.Some? { return Failure(objection.value); }
        if record.value.declarations != declarations { return Failure(DeclarationsChanged); }
      }
      var observed := launched || (record.Some? && record.value.launched);
      if !wellFormed || !LaunchFits(Claim(snapshot), declarations, observed) { return Failure(Malformed); }
      record := Some(Record(Claim(snapshot), declarations, observed));
      return Success(snapshot);
    }
  }

  // ---------------------------------------------------------------- claims only grow

  function Repeat(s: string, n: nat): string {
    if n == 0 then "" else Repeat(s, n - 1) + s
  }

  lemma {:induction false} RepeatAdds(s: string, m: nat, n: nat)
    ensures Repeat(s, m) + Repeat(s, n) == Repeat(s, m + n)
  {
    if n == 0 {
    } else {
      RepeatAdds(s, m, n - 1);
      assert Repeat(s, m) + Repeat(s, n) == (Repeat(s, m) + Repeat(s, n - 1)) + s;
    }
  }

  predicate Suffixed(runId: RunId, before: Option<string>, after: Option<string>, n: nat) {
    after == Some(HintBase(before) + Repeat(HintSuffix(runId), n))
  }

  /** The hint is what it was, or a timeout's hint with one or more suffixes that name this run. */
  ghost predicate HintLater(existing: View, hint: Option<string>) {
    hint == existing.hint
    || ((existing.timedOut == Some(true) || existing.errorClass == Some("timeout"))
        && exists n: nat :: n > 0 && Suffixed(existing.runId, existing.hint, hint, n))
  }

  /** Everything that is promised to persist. */
  ghost predicate Later(before: View, after: View) {
    && after.runId == before.runId && after.taskId == before.taskId
    && (before.childStarted == Some(true) ==> after.childStarted == Some(true))
    && (forall event :: event in before.events && IsStable(event) ==> event in after.events)
    && (before.activation.Some? ==> after.activation == before.activation)
    && (before.snapshotActivation.Some? ==> after.snapshotActivation == before.snapshotActivation)
    && (before.delegation.Some? ==> after.delegation == before.delegation)
    && (forall id :: id in before.children ==> id in after.children)
    && (forall id :: id in before.descendants ==> id in after.descendants)
    && (forall input :: input in before.inputs && !input.pending ==> input in after.inputs)
    && (IsTerminal(before.status) ==> after.(hint := before.hint) == before && HintLater(before, after.hint))
  }

  lemma TransitionIsLater(existing: View, next: View)
    requires TransitionError(existing, next).None?
    ensures Later(existing, next)
  {
    if IsTerminal(existing.status) && next.hint != existing.hint {
      var suffix := HintSuffix(existing.runId);
      assert Repeat(suffix, 1) == Repeat(suffix, 0) + suffix == suffix;
      assert Suffixed(existing.runId, existing.hint, next.hint, 1);
    }
  }

  lemma SuffixesAdd(base: string, suffix: string, m: nat, n: nat)
    ensures (base + Repeat(suffix, m)) + Repeat(suffix, n) == base + Repeat(suffix, m + n)
  {
    RepeatAdds(suffix, m, n);
    assert (base + Repeat(suffix, m)) + Repeat(suffix, n) == base + (Repeat(suffix, m) + Repeat(suffix, n));
  }

  lemma HintsCompose(a: View, b: View, hint: Option<string>)
    requires b.(hint := a.hint) == a && HintLater(a, b.hint) && HintLater(b, hint)
    ensures HintLater(a, hint)
  {
    if b.hint != a.hint && hint != b.hint {
      var m: nat :| m > 0 && Suffixed(a.runId, a.hint, b.hint, m);
      var n: nat :| n > 0 && Suffixed(b.runId, b.hint, hint, n);
      SuffixesAdd(HintBase(a.hint), HintSuffix(a.runId), m, n);
      assert Suffixed(a.runId, a.hint, hint, m + n);
    }
  }

  lemma LaterTransitive(a: View, b: View, c: View)
    requires Later(a, b) && Later(b, c)
    ensures Later(a, c)
  {
    if IsTerminal(a.status) {
      HintsCompose(a, b, c.hint);
      assert c.(hint := a.hint) == (c.(hint := b.hint)).(hint := a.hint);
    }
  }

  /** The record after a sequence of attempts, whoever makes them and whether or not they succeed. */
  function After(record: Option<Record>, attempts: seq<Attempt>): Option<Record>
    decreases |attempts|
  {
    if attempts == [] then record else After(Written(record, attempts[0]), attempts[1..])
  }

  lemma WriteIsLater(record: Record, attempt: Attempt)
    ensures Written(Some(record), attempt).Some?
    ensures Later(record.view, Written(Some(record), attempt).value.view)
    ensures Written(Some(record), attempt).value.declarations == record.declarations
    ensures record.launched ==> Written(Some(record), attempt).value.launched
  {
    if Written(Some(record), attempt) != Some(record) {
      TransitionIsLater(record.view, Claim(Snapshot(attempt.view)));
    }
  }

  /** Along every sequence of accepted and refused writes all promised facts persist. */
  lemma {:induction false} ClaimsOnlyGrow(record: Record, attempts: seq<Attempt>)
    ensures After(Some(record), attempts).Some?
    ensures Later(record.view, After(Some(record), attempts).value.view)
    ensures After(Some(record), attempts).value.declarations == record.declarations
    ensures record.launched ==> After(Some(record), attempts).value.launched
    decreases |attempts|
  {
    if attempts != [] {
      WriteIsLater(record, attempts[0]);
      var next := Written(Some(record), attempts[0]).value;
      ClaimsOnlyGrow(next, attempts[1..]);
      LaterTransitive(record.view, next.view, After(Some(record), attempts).value.view);
    }
  }

  /** A record that a write can leave behind. */
  predicate RecordFits(record: Record) {
    LaunchFits(record.view, record.declarations, record.launched)
  }

  /**
   Along every sequence of writes by anyone, from the first on: in the record of a launched run
   retained evidence of the prompt implies every declared receipt, also that of the system skill,
   and in any other record the child has not started.  No transition guards the system skill, so
   each write is asked for it anew: one that drops its receipt is accepted only with the evidence.
   */
  lemma {:induction false} EvidenceAlways(record: Option<Record>, attempts: seq<Attempt>)
    requires record.Some? ==> RecordFits(record.value)
    ensures After(record, attempts).Some? ==> RecordFits(After(record, attempts).value)
    decreases |attempts|
  {
    hide LaunchFits, TransitionError, IsRestartDrift, Claim, Snapshot;
    if attempts != [] { EvidenceAlways(Written(record, attempts[0]), attempts[1..]); }
  }

  /** The first terminal record is final up to its timeout hint, and exactly final without a timeout. */
  lemma FirstTerminalIsFinal(record: Record, attempts: seq<Attempt>)
    requires IsTerminal(record.view.status)
    ensures After(Some(record), attempts).Some?
    ensures var last := After(Some(record), attempts).value;
            && last.view.(hint := record.view.hint) == record.view
            && (record.view.timedOut != Some(true) && record.view.errorClass != Some("timeout") ==> last.(launched := record.launched) == record)
            && (record.launched ==> last.launched)
  {
    ClaimsOnlyGrow(record, attempts);
    var last := After(Some(record), attempts).value;
    assert last.view.hint == record.view.hint ==> last.view == record.view;
  }

  /** A settlement that comes after another one changes nothing, and is answered only by a restart drift. */
  lemma LateSettlement(record: Record, attempt: Attempt)
    requires IsTerminal(record.view.status) && IsTerminal(attempt.view.status) && attempt.view.status != record.view.status
    ensures Written(Some(record), attempt) == Some(record)
    ensures WriteAnswer(Some(record), attempt) == Success(record.view) <==>
              && record.view.status == Failed && record.view.errorClass == Some("restart_drift")
              && record.view.reasonCode == Some("server_restarted_active_run")
    ensures WriteAnswer(Some(record), attempt).Failure? || WriteAnswer(Some(record), attempt).value == record.view
  {
    hide RecentEvents, FilterEvents;
  }

  /** The three write-once receipts are guarded; the receipt of the system skill is not. */
  lemma SystemSkillIsUnguarded(view: View, receipt: Receipt)
    requires !IsTerminal(view.status)
    ensures TransitionError(view.(systemSkill := Some(receipt)), view.(systemSkill := None)) == None
  {
  }

  // ---------------------------------------------------------------- evidence of the prompt

  datatype ReceiptKind = Activation | SnapshotActivation | Delegation | SystemSkill

  function ReceiptOf(view: View, kind: ReceiptKind): Option<Receipt> {
    match kind
    case Activation => view.activation
    case SnapshotActivation => view.snapshotActivation
    case Delegation => view.delegation
    case SystemSkill => view.systemSkill
  }

  function WithReceipt(view: View, kind: ReceiptKind, receipt: Receipt): View {
    match kind
    case Activation => view.(activation := Some(receipt))
    case SnapshotActivation => view.(snapshotActivation := Some(receipt))
    case Delegation => view.(delegation := Some(receipt))
    case SystemSkill => view.(systemSkill := Some(receipt))
  }

  predicate Required(declarations: Declarations, kind: ReceiptKind) {
    match kind
    case Activation => declarations.activation
    case SnapshotActivation => declarations.snapshot
    case Delegation => true
    case SystemSkill => declarations.systemSkill
  }

  /** `hasCompletePrePromptOwnerObservations`. */
  predicate Complete(view: View, declarations: Declarations) {
    && (declarations.activation ==> view.activation.Some?)
    && (declarations.snapshot ==> view.snapshotActivation.Some?)
    && view.delegation.Some?
    && (declarations.systemSkill ==> view.systemSkill.Some?)
  }

  predicate IsPrompt(event: Event) {
    event.kind == Child && event.name == "child_prompt_submitted"
  }

  /** Retained evidence that the prompt was submitted implies every receipt the declarations require. */
  predicate EvidenceHolds(view: View, declarations: Declarations) {
    (exists event :: event in view.events && IsPrompt(event)) ==>
      forall kind :: Required(declarations, kind) ==> ReceiptOf(view, kind).Some?
  }

  /** A stable event of the child exists only once the child was started. */
  predicate SpawnMeansStarted(view: View) {
    forall event :: event in view.events && event.kind == Child && IsStable(event) ==> view.childStarted == Some(true)
  }

  predicate IsLifecycle(event: Event) {
    event.kind == Child
    && event.name in {"child_bridge_started", "child_session_established", "child_prompt_submitted", "activation_confirmed",
                      "skill_snapshot_activation_confirmed", "recursive_delegation_confirmed",
                      "system_skill_activation_confirmed"}
  }

  /** What the owner always carries on: all the transition check asks for but old events and settled inputs. */
  predicate Carries(existing: View, next: View) {
    && next.runId == existing.runId && next.taskId == existing.taskId
    && (existing.childStarted == Some(true) ==> next.childStarted == Some(true))
    && (forall kind :: ReceiptKept(ReceiptOf(existing, kind), ReceiptOf(next, kind)))
    && IdsKept(existing.children, next.children)
    && IdsKept(existing.descendants, next.descendants)
  }

  lemma {:induction false} KeptAreOld(events: seq<Event>, p: nat -> bool, from: nat, event: Event)
    requires from <= |events| && event in Keep(events, p, from)
    ensures event in events
    decreases |events| - from
  {
    if event in Keep(events, p, from + 1) { KeptAreOld(events, p, from + 1, event); }
  }

  lemma ProjectionInvents(events: seq<Event>)
    ensures forall event :: event in RecentEvents(events) ==> event in events
  {
    forall event | event in RecentEvents(events) ensures event in events {
      if |events| > MAX_RECENT_EVENTS { KeptAreOld(events, Retained(events), 0, event); }
    }
  }

  // ---------------------------------------------------------------- closing input requests

  function ClosedInput(input: InputRequest, at: string): InputRequest {
    if input.pending then InputRequest(input.requestId, false, "closed " + at) else input
  }

  function ClosedInputs(inputs: seq<InputRequest>, at: string): seq<InputRequest> {
    seq(|inputs|, k requires 0 <= k < |inputs| => ClosedInput(inputs[k], at))
  }

  function ClosedEvents(inputs: seq<InputRequest>, at: string): (events: seq<Event>)
    ensures forall event :: event in events ==> event.kind == Input && event.name == "input_closed"
    ensures forall event :: event in events <==>
              exists input :: input in inputs && input.pending && event == Event(Input, "input_closed", "[input_closed] " + input.requestId, at)
  {
    if inputs == [] then []
    else
      (if inputs[0].pending then [Event(Input, "input_closed", "[input_closed] " + inputs[0].requestId, at)] else [])
      + ClosedEvents(inputs[1..], at)
  }

  /** The claim written for an active draft carries the draft's evidence, and nothing the draft lacks. */
  lemma ActiveClaimFits(draft: View, declarations: Declarations)
    requires !IsTerminal(draft.status) && EvidenceHolds(draft, declarations) && SpawnMeansStarted(draft)
    ensures EvidenceHolds(Claim(Snapshot(draft)), declarations) && SpawnMeansStarted(Claim(Snapshot(draft)))
    ensures Carries(Claim(Snapshot(draft)), draft)
  {
  }

  lemma NewReceiptFits(view: View, kind: ReceiptKind, receipt: Receipt, declarations: Declarations)
    requires ReceiptOf(view, kind).None? && EvidenceHolds(view, declarations)
    ensures EvidenceHolds(WithReceipt(view, kind, receipt), declarations)
    ensures Carries(view, WithReceipt(view, kind, receipt))
    ensures ReceiptOf(WithReceipt(view, kind, receipt), kind) == Some(receipt)
  {
    var draft := WithReceipt(view, kind, receipt);
    forall other ensures ReceiptKept(ReceiptOf(view, other), ReceiptOf(draft, other)) {}
  }

  lemma CarriesTransitive(a: View, b: View, c: View)
    requires Carries(a, b) && Carries(b, c)
    ensures Carries(a, c)
  {
    forall kind ensures ReceiptKept(ReceiptOf(a, kind), ReceiptOf(c, kind)) {
      assert ReceiptKept(ReceiptOf(a, kind), ReceiptOf(b, kind)) && ReceiptKept(ReceiptOf(b, kind), ReceiptOf(c, kind));
    }
  }

  lemma RelistedFits(view: View, listed: seq<InputRequest>, declarations: Declarations)
    requires EvidenceHolds(view, declarations) && SpawnMeansStarted(view)
    ensures var draft := view.(inputs := listed);
            EvidenceHolds(draft, declarations) && SpawnMeansStarted(draft) && Carries(view, draft)
  {
    forall kind ensures ReceiptOf(view.(inputs := listed), kind) == ReceiptOf(view, kind) {}
  }

  lemma ProjectionNext(told: seq<Event>, more: seq<Event>, k: nat)
    requires k < |more|
    ensures RecentEvents(RecentEvents(told + more[..k]) + [more[k]]) == RecentEvents(told + more[..k + 1])
  {
    hide RecentEvents;
    ProjectionStep(told + more[..k], more[k]);
    assert (told + more[..k]) + [more[k]] == told + more[..k + 1];
  }

  lemma AppendedFits(view: View, event: Event, declarations: Declarations)
    requires EvidenceHolds(view, declarations) && SpawnMeansStarted(view)
    requires IsPrompt(event) ==> forall kind :: Required(declarations, kind) ==> ReceiptOf(view, kind).Some?
    requires event.kind == Child && IsStable(event) ==> view.childStarted == Some(true)
    ensures var draft := view.(events := RecentEvents(view.events + [event]));
            EvidenceHolds(draft, declarations) && SpawnMeansStarted(draft) && Carries(view, draft)
  {
    hide RecentEvents;
    var draft := view.(events := RecentEvents(view.events + [event]));
    ProjectionInvents(view.events + [event]);
    forall kind ensures ReceiptOf(draft, kind) == ReceiptOf(view, kind) {}
  }

  function SpawnEvent(occurredAt: string): Event {
    Event(Child, "child_spawned", "[child_spawned] Pi child process started", occurredAt)
  }

  /** The view that records the spawn of the child, with the requests listed then. */
  function SpawnDraft(view: View, occurredAt: string, listed: seq<InputRequest>): View {
    view.(childStarted := Some(true), events := RecentEvents(view.events + [SpawnEvent(occurredAt)]), inputs := listed)
  }

  /** The view that records an accepted cancellation. */
  ghost function CancelDraft(view: View, told: seq<Event>, at: string): View {
    view.(events := RecentEvents(told + ([CancelEvent(at)] + ClosedEvents(view.inputs, at))),
          inputs := ClosedInputs(view.inputs, at))
  }

  function CancelEvent(at: string): Event {
    Event(Terminal, "cancellation_requested", "[cancellation_requested] cancellation requested", at)
  }

  /** How a run ends: the fields a result or an error puts into the terminal view, and its event. */
  datatype End = End(
    status: Status,
    at: string,
    packet: Option<Event>,
    event: Event,
    timedOut: Option<bool>,
    errorClass: Option<string>,
    reasonCode: Option<string>,
    hint: Option<string>,
    rest: string)

  /** A result with a parsed packet also tells what became of the packet, before the terminal event. */
  function EndEvents(end: End): seq<Event> {
    (if end.packet.Some? then [end.packet.value] else []) + [end.event]
  }

  predicate EndFits(end: End) {
    IsTerminal(end.status) && end.event.kind == Terminal && (end.packet.Some? ==> end.packet.value.kind == Packet)
  }

  lemma StartedFits(view: View, declarations: Declarations)
    requires EvidenceHolds(view, declarations) && SpawnMeansStarted(view)
    ensures var started := view.(childStarted := Some(true));
            EvidenceHolds(started, declarations) && SpawnMeansStarted(started) && Carries(view, started)
  {
    var started := view.(childStarted := Some(true));
    forall kind ensures ReceiptOf(started, kind) == ReceiptOf(view, kind) {}
  }

  lemma ClosingFits(view: View, told: seq<Event>, more: seq<Event>, at: string, declarations: Declarations)
    requires view.events == RecentEvents(told) && EvidenceHolds(view, declarations) && SpawnMeansStarted(view)
    requires forall event :: event in more ==> event.kind != Child
    ensures var draft := view.(events := RecentEvents(told + more), inputs := ClosedInputs(view.inputs, at));
            EvidenceHolds(draft, declarations) && SpawnMeansStarted(draft) && Carries(view, draft)
  {
    var draft := view.(events := RecentEvents(told + more), inputs := ClosedInputs(view.inputs, at));
    forall kind ensures ReceiptOf(draft, kind) == ReceiptOf(view, kind) {}
    LaterWindowInvents(told, more);
  }

  lemma ToldFits(view: View, told: seq<Event>, more: seq<Event>, declarations: Declarations)
    requires view.events == RecentEvents(told) && EvidenceHolds(view, declarations) && SpawnMeansStarted(view)
    requires forall event :: event in more ==> event.kind != Child
    ensures var draft := view.(events := RecentEvents(told + more));
            EvidenceHolds(draft, declarations) && SpawnMeansStarted(draft) && Carries(view, draft)
  {
    hide RecentEvents;
    var draft := view.(events := RecentEvents(told + more));
    forall kind ensures ReceiptOf(draft, kind) == ReceiptOf(view, kind) {}
    LaterWindowInvents(told, more);
  }

  /** An event that has left the window never comes back. */
  lemma {:induction false} LaterWindowInvents(told: seq<Event>, more: seq<Event>)
    ensures forall event :: event in RecentEvents(told + more) ==> event in RecentEvents(told) || event in more
    decreases |more|
  {
    if more == [] {
      assert told + more == told;
    } else {
      var init, last := more[..|more| - 1], more[|more| - 1];
      LaterWindowInvents(told, init);
      ProjectionStep(told + init, last);
      ProjectionInvents(RecentEvents(told + init) + [last]);
      assert (told + init) + [last] == told + more;
    }
  }

  /** The canonical events of a settlement are those the owner retained, but for a child that never started. */
  lemma TerminalSnapshotFits(draft: View, settled: View, declarations: Declarations)
    requires EvidenceHolds(draft, declarations) && SpawnMeansStarted(draft)
    requires IsTerminal(settled.status) && settled.events == draft.events && settled.childStarted == draft.childStarted
    requires forall kind :: ReceiptOf(settled, kind) == ReceiptOf(draft, kind)
    ensures EvidenceHolds(Snapshot(settled), declarations) && SpawnMeansStarted(Snapshot(settled))
  {
    ProjectionInvents(FilterEvents(settled.events, (event: Event) => settled.childStarted != Some(false) || event.kind != Child));
  }

  lemma SettlementObjection(existing: View, draft: View, settled: View)
    requires !IsTerminal(existing.status) && Carries(existing, draft) && SpawnMeansStarted(existing)
    requires |draft.events| <= MAX_RECENT_EVENTS
    requires IsTerminal(settled.status)
    requires settled == draft.(status := settled.status, timedOut := settled.timedOut, errorClass := settled.errorClass,
                               reasonCode := settled.reasonCode, hint := settled.hint, rest := settled.rest)
    ensures TransitionError(existing, Claim(Snapshot(settled))).None? <==>
              StableEventsKept(existing, draft) && SettledInputsKept(existing, draft)
  {
    var claim := Claim(Snapshot(settled));
    assert ReceiptKept(ReceiptOf(existing, Activation), ReceiptOf(draft, Activation));
    assert ReceiptKept(ReceiptOf(existing, SnapshotActivation), ReceiptOf(draft, SnapshotActivation));
    assert ReceiptKept(ReceiptOf(existing, Delegation), ReceiptOf(draft, Delegation));
  }

  lemma CancellationFits(view: View, told: seq<Event>, at: string, declarations: Declarations)
    requires !IsTerminal(view.status) && view.events == RecentEvents(told)
    requires EvidenceHolds(view, declarations) && SpawnMeansStarted(view)
    ensures var more := [CancelEvent(at)] + ClosedEvents(view.inputs, at);
            var draft := view.(events := RecentEvents(told + more), inputs := ClosedInputs(view.inputs, at));
            && EvidenceHolds(draft, declarations) && SpawnMeansStarted(draft) && Carries(view, draft)
            && EvidenceHolds(Claim(Snapshot(draft)), declarations) && SpawnMeansStarted(Claim(Snapshot(draft)))
            && Carries(Claim(Snapshot(draft)), draft)
  {
    var more := [CancelEvent(at)] + ClosedEvents(view.inputs, at);
    ClosingFits(view, told, more, at, declarations);
    ActiveClaimFits(view.(events := RecentEvents(told + more), inputs := ClosedInputs(view.inputs, at)), declarations);
  }

  /** The terminal view of an owner that has told `told` and ends with `end`. */
  ghost function Settled(view: View, told: seq<Event>, end: End): View {
    view.(events := RecentEvents(told + ClosedEvents(view.inputs, end.at) + EndEvents(end)),
          inputs := ClosedInputs(view.inputs, end.at), status := end.status, timedOut := end.timedOut,
          errorClass := end.errorClass, reasonCode := end.reasonCode, hint := end.hint, rest := end.rest)
  }

  lemma SettledFits(view: View, told: seq<Event>, end: End, declarations: Declarations)
    requires view.events == RecentEvents(told) && EvidenceHolds(view, declarations) && SpawnMeansStarted(view)
    requires EndFits(end)
    ensures EvidenceHolds(Snapshot(Settled(view, told, end)), declarations)
    ensures SpawnMeansStarted(Snapshot(Settled(view, told, end)))
  {
    var more := ClosedEvents(view.inputs, end.at) + EndEvents(end);
    assert told + more == told + ClosedEvents(view.inputs, end.at) + EndEvents(end);
    ClosingFits(view, told, more, end.at, declarations);
    var draft := view.(events := RecentEvents(told + more), inputs := ClosedInputs(view.inputs, end.at));
    var settled := Settled(view, told, end);
    forall kind ensures ReceiptOf(settled, kind) == ReceiptOf(draft, kind) {}
    TerminalSnapshotFits(draft, settled, declarations);
  }

  predicate Survives(view: View, event: Event) {
    view.childStarted != Some(false) || event.kind != Child
  }

  /** What a settlement by `end` leaves of the owner's view and of what it has told. */
  ghost predicate SettlesWith(written: View, view: View, told: seq<Event>, end: End) {
    // How the run ended,
    && written.status == end.status && written.timedOut == end.timedOut && written.errorClass == end.errorClass
    && written.reasonCode == end.reasonCode && written.hint == end.hint && written.rest == end.rest
    // who it is, its lineage and its receipts,
    && written.runId == view.runId && written.taskId == view.taskId && written.childStarted == view.childStarted
    && written.children == view.children && written.descendants == view.descendants
    && (forall kind :: ReceiptOf(written, kind) == ReceiptOf(view, kind))
    // the requests, none of them pending,
    && |written.inputs| == |view.inputs|
    && (forall k :: 0 <= k < |view.inputs| ==>
          written.inputs[k] == if view.inputs[k].pending then InputRequest(view.inputs[k].requestId, false, "closed " + end.at)
                               else view.inputs[k])
    // and the window of its events, the closing ones last.
    && written.events == TerminalEvents(view, told, end)
    && (exists head :: written.events == head + EndEvents(end))
    && (forall event :: event in written.events ==>
          (event in told || event in ClosedEvents(view.inputs, end.at) || event in EndEvents(end)) && Survives(view, event))
    && (|told| + |ClosedEvents(view.inputs, end.at)| + |EndEvents(end)| <= MAX_RECENT_EVENTS ==>
          written.events == FilterEvents(told + ClosedEvents(view.inputs, end.at) + EndEvents(end), (event: Event) => Survives(view, event)))
  }

  lemma {:induction false} FilterConcat(a: seq<Event>, b: seq<Event>, p: Event -> bool)
    ensures FilterEvents(a + b, p) == FilterEvents(a, p) + FilterEvents(b, p)
  {
    if a == [] {
      assert a + b == b;
    } else {
      assert (a + b)[0] == a[0] && (a + b)[1..] == a[1..] + b;
      FilterConcat(a[1..], b, p);
    }
  }

  lemma {:induction false} FilterAll(events: seq<Event>, p: Event -> bool)
    requires forall event :: event in events ==> p(event)
    ensures FilterEvents(events, p) == events
  {
    if events != [] { FilterAll(events[1..], p); }
  }

  /** The window with the closing events, without the child's if it never started. */
  ghost function TerminalEvents(view: View, told: seq<Event>, end: End): seq<Event> {
    FilterEvents(RecentEvents(told + ClosedEvents(view.inputs, end.at) + EndEvents(end)), (event: Event) => Survives(view, event))
  }

  lemma SnapshotEvents(view: View, told: seq<Event>, end: End)
    requires EndFits(end)
    ensures Snapshot(Settled(view, told, end)) == Settled(view, told, end).(events := TerminalEvents(view, told, end))
  {
    hide RecentEvents, ClosedEvents, EndEvents;
    var settled := Settled(view, told, end);
    var q := (event: Event) => settled.childStarted != Some(false) || event.kind != Child;
    FilterSame(settled.events, (event: Event) => Survives(view, event), q);
    ProjectionBounded(told + ClosedEvents(view.inputs, end.at) + EndEvents(end));
    ShortIsKept(FilterEvents(settled.events, q));
  }

  lemma ClosingEventsLast(view: View, told: seq<Event>, end: End)
    requires EndFits(end)
    ensures exists head :: TerminalEvents(view, told, end) == head + EndEvents(end)
  {
    hide RecentEvents, ClosedEvents;
    var p := (event: Event) => Survives(view, event);
    TailStays(told + ClosedEvents(view.inputs, end.at), EndEvents(end));
    var head :| RecentEvents(told + ClosedEvents(view.inputs, end.at) + EndEvents(end)) == head + EndEvents(end);
    FilterConcat(head, EndEvents(end), p);
    FilterAll(EndEvents(end), p);
    assert TerminalEvents(view, told, end) == FilterEvents(head, p) + EndEvents(end);
  }

  lemma TerminalEventsWereTold(view: View, told: seq<Event>, end: End)
    ensures var all := told + ClosedEvents(view.inputs, end.at) + EndEvents(end);
            && (forall event :: event in TerminalEvents(view, told, end) ==> event in all && Survives(view, event))
            && (|all| <= MAX_RECENT_EVENTS ==>
                  TerminalEvents(view, told, end) == FilterEvents(all, (event: Event) => Survives(view, event)))
  {
    hide RecentEvents, ClosedEvents, EndEvents;
    var all := told + ClosedEvents(view.inputs, end.at) + EndEvents(end);
    ProjectionInvents(all);
    ShortIsKept(all);
  }

  lemma SettledEvents(view: View, told: seq<Event>, end: End)
    requires EndFits(end)
    ensures SettlesWith(Snapshot(Settled(view, told, end)), view, told, end)
  {
    hide RecentEvents, ClosedEvents, EndEvents, TerminalEvents, Snapshot;
    var written := Snapshot(Settled(view, told, end));
    SnapshotEvents(view, told, end);
    ClosingEventsLast(view, told, end);
    TerminalEventsWereTold(view, told, end);
    forall kind ensures ReceiptOf(written, kind) == ReceiptOf(view, kind) {}
  }

  lemma {:induction false} FilterSame(events: seq<Event>, p: Event -> bool, q: Event -> bool)
    requires forall event :: event in events ==> (p(event) <==> q(event))
    ensures FilterEvents(events, p) == FilterEvents(events, q)
  {
    if events != [] { FilterSame(events[1..], p, q); }
  }

  lemma ShortIsKept(events: seq<Event>)
    ensures |events| <= MAX_RECENT_EVENTS ==> RecentEvents(events) == events
  {
  }

  lemma SettlementExactly(existing: View, view: View, told: seq<Event>, end: End, declarations: Declarations)
    requires view.events == RecentEvents(told) && EvidenceHolds(view, declarations) && SpawnMeansStarted(view)
    requires EndFits(end)
    requires !IsTerminal(existing.status) && Carries(existing, view) && SpawnMeansStarted(existing)
    ensures TransitionError(existing, Claim(Snapshot(Settled(view, told, end)))).None? <==>
              && (forall event :: event in existing.events && IsStable(event) ==>
                    event in RecentEvents(told + ClosedEvents(view.inputs, end.at) + EndEvents(end)))
              && (forall input :: input in existing.inputs && !input.pending ==> input in ClosedInputs(view.inputs, end.at))
  {
    var more := ClosedEvents(view.inputs, end.at) + EndEvents(end);
    assert told + more == told + ClosedEvents(view.inputs, end.at) + EndEvents(end);
    ClosingFits(view, told, more, end.at, declarations);
    var draft := view.(events := RecentEvents(told + more), inputs := ClosedInputs(view.inputs, end.at));
    CarriesTransitive(existing, view, draft);
    ProjectionBounded(told + more);
    SettlementObjection(existing, draft, Settled(view, told, end));
  }

  // ---------------------------------------------------------------- the owner

  /** The in-memory owner of a run; `view` is its active claim. */
  class RunTask {
    const file: ClaimFile
    const declarations: Declarations
    var view: View
    var launchGranted: bool
    var cancelRequested: bool
    var terminalStarted: bool
    /** Every event ever projected. */
    ghost var history: seq<Event>

    constructor (file: ClaimFile, declarations: Declarations, view: View)
      requires !IsTerminal(view.status) && view.events == [] && view.childStarted != Some(true) && file.record == None
      ensures Valid() && this.file == file && this.declarations == declarations && this.view == view
      ensures history == [] && !cancelRequested && !terminalStarted
    {
      this.file, this.declarations, this.view := file, declarations, view;
      launchGranted, cancelRequested, terminalStarted := false, false, false;
      history := [];
    }

    ghost predicate Valid()
      reads this, file
    {
      && !IsTerminal(view.status)
      && view.events == RecentEvents(history)
      && EvidenceHolds(view, declarations)
      && SpawnMeansStarted(view)
      && (view.childStarted == Some(true) ==> launchGranted)
      && (file.record.Some? ==> DurableFits(file.record.value))
    }

    /** The durable record is sound, and while it is active the owner carries all of it but perhaps old events. */
    ghost predicate DurableFits(record: Record)
      reads this
    {
      && record.declarations == declarations && record.launched == launchGranted
      && EvidenceHolds(record.view, declarations)
      && SpawnMeansStarted(record.view)
      && (!IsTerminal(record.view.status) ==> Carries(record.view, view))
    }

    /** Projects events one at a time. */
    static method Project(events: seq<Event>, more: seq<Event>, ghost told: seq<Event>) returns (kept: seq<Event>)
      requires events == RecentEvents(told)
      ensures kept == RecentEvents(told + more)
    {
      kept := events;
      assert told + more[..0] == told;
      for k := 0 to |more|
        invariant kept == RecentEvents(told + more[..k])
      {
        ProjectionNext(told, more, k);
        kept := RecentEvents(kept + [more[k]]);
      }
      assert more[..|more|] == more;
    }

    /**
     `registerRunTaskState`: tells that the run started, with the markers of its request, and makes
     that durable; a record that is already there must accept the view and stays as it is.
     */
    method Register(started: Event, markers: seq<Event>, wellFormed: bool) returns (answer: Result<bool, ClaimError>)
      requires Valid() && IsStart(started) && started.kind == Task
      requires forall event :: event in markers ==> event.kind in {Task, User, Packet}
      modifies this`view, this`history, file
      ensures Valid()
      ensures answer.Success? ==>
                && history == old(history) + ([started] + markers)
                && view == old(view).(events := RecentEvents(history))
                && file.record == if old(file.record).Some? then old(file.record) else Some(Record(Claim(view), declarations, launchGranted))
      ensures answer.Failure? ==> history == old(history) && view == old(view) && file.record == old(file.record)
      ensures answer.Success? <==>
                && wellFormed
                && (old(file.record).Some? ==>
                      TransitionError(old(file.record).value.view,
                                      Claim(old(view).(events := RecentEvents(old(history) + ([started] + markers))))).None?)
    {
      hide RecentEvents, TransitionError;
      var opening := [started] + markers;
      ghost var told := history + opening;
      ToldFits(view, history, opening, declarations);
      var kept := Project(view.events, opening, history);
      var draft := view.(events := kept);
      ActiveClaimFits(draft, declarations);
      if file.record.Some? {
        var objection := TransitionError(file.record.value.view, Claim(draft));
        if objection.Some? { return Result.Failure(objection.value); }
        if !wellFormed || !LaunchFits(Claim(draft), declarations, launchGranted || file.record.value.launched) {
          return Result.Failure(Malformed);
        }
        if !IsTerminal(file.record.value.view.status) { CarriesTransitive(file.record.value.view, view, draft); }
      } else {
        var written := file.WriteRunClaimOwned(draft, declarations, launchGranted, wellFormed);
        if written.Failure? { return Result.Failure(written.error); }
      }
      view, history := draft, told;
      return Success(true);
    }

    method AcceptReceipt(kind: ReceiptKind, receipt: Receipt, wellFormed: bool) returns (answer: Result<bool, ClaimError>)
      requires Valid()
      modifies this`view, file
      ensures Valid()
      ensures ReceiptKept(ReceiptOf(old(view), kind), ReceiptOf(view, kind))
      ensures answer == Success(true) ==>
                && view == WithReceipt(old(view), kind, receipt) && ReceiptOf(view, kind) == Some(receipt)
                && file.record == Some(Record(Claim(view), declarations, launchGranted))
                && ReceiptOf(file.record.value.view, kind) == Some(receipt)
      ensures answer != Success(true) ==> view == old(view) && file.record == old(file.record)
      ensures old(terminalStarted) ==> answer == Success(false)
      ensures !old(terminalStarted) && ReceiptOf(old(view), kind).None? ==>
                (answer.Success? <==>
                   WriteAnswer(old(file.record), Attempt(WithReceipt(old(view), kind, receipt), declarations, launchGranted, wellFormed)).Success?)
      ensures !old(terminalStarted) && ReceiptOf(old(view), kind).Some? ==>
                answer == if ReceiptOf(old(view), kind) == Some(receipt) then Success(false) else Result.Failure(ReceiptConflict)
    {
      if terminalStarted { return Success(false); }
      if ReceiptOf(view, kind).Some? {
        return if ReceiptOf(view, kind).value == receipt then Success(false) else Result.Failure(ReceiptConflict);
      }
      var draft := WithReceipt(view, kind, receipt);
      NewReceiptFits(view, kind, receipt, declarations);
      ActiveClaimFits(draft, declarations);
      var written := file.WriteRunClaimOwned(draft, declarations, launchGranted, wellFormed);
      if written.Failure? { return Result.Failure(written.error); }
      view := draft;
      return Success(true);
    }

    /** A lifecycle marker of the child becomes owner evidence only behind its receipts. */
    method ObserveLifecycle(event: Event) returns (accepted: bool)
      requires Valid() && IsLifecycle(event)
      modifies this`view, this`history
      ensures Valid() && file.record == old(file.record)
      ensures accepted <==>
                && !old(terminalStarted)
                && (event.name == "activation_confirmed" ==> old(view).activation.Some?)
                && (event.name == "skill_snapshot_activation_confirmed" ==> old(view).snapshotActivation.Some?)
                && (event.name == "recursive_delegation_confirmed" ==> old(view).delegation.Some?)
                && (event.name == "system_skill_activation_confirmed" ==> old(view).systemSkill.Some?)
                && (IsPrompt(event) ==> forall kind :: Required(declarations, kind) ==> ReceiptOf(old(view), kind).Some?)
      ensures history == if accepted then old(history) + [event] else old(history)
      ensures view == old(view).(events := RecentEvents(history))
    {
      hide RecentEvents;
      if terminalStarted { return false; }
      if event.name == "activation_confirmed" && view.activation.None? { return false; }
      if event.name == "skill_snapshot_activation_confirmed" && view.snapshotActivation.None? { return false; }
      if event.name == "recursive_delegation_confirmed" && view.delegation.None? { return false; }
      if event.name == "system_skill_activation_confirmed" && view.systemSkill.None? { return false; }
      if event.name == "child_prompt_submitted" && !Complete(view, declarations) {
        CompleteIsEveryReceipt(view, declarations);
        return false;
      }
      CompleteIsEveryReceipt(view, declarations);
      Append(event);
      return true;
    }

    /** What a line of child output can project: never an event of the owner itself. */
    method ObserveOutput(event: Event)
      requires Valid() && event.kind in {User, Input, Assistant, Warning, Problem}
      modifies this`view, this`history
      ensures Valid() && file.record == old(file.record)
      ensures history == if old(terminalStarted) || event.kind == User then old(history) else old(history) + [event]
      ensures view == old(view).(events := RecentEvents(history))
    {
      if terminalStarted || event.kind == User { return; }
      Append(event);
    }

    /** An input event of the child also replaces the owner's requests by what the mailbox lists. */
    method ObserveInputEvent(event: Event, listed: seq<InputRequest>)
      requires Valid() && event.kind == Input
      modifies this`view, this`history
      ensures Valid() && file.record == old(file.record)
      ensures history == if old(terminalStarted) then old(history) else old(history) + [event]
      ensures view == if old(terminalStarted) then old(view) else old(view).(inputs := listed, events := RecentEvents(history))
    {
      if terminalStarted { return; }
      RelistedFits(view, listed, declarations);
      view := view.(inputs := listed);
      Append(event);
    }

    method GrantRunClaim(wellFormed: bool) returns (answer: Result<bool, ClaimError>)
      requires Valid()
      modifies this`launchGranted, file
      ensures Valid()
      ensures launchGranted == (old(launchGranted) || answer == Success(true))
      ensures !terminalStarted ==>
                (answer == Success(true) <==> WriteAnswer(old(file.record), Attempt(view, declarations, true, wellFormed)).Success?)
      ensures old(terminalStarted) ==> answer == Success(false)
      ensures answer == Success(true) ==> file.record == Some(Record(Claim(view), declarations, true))
      ensures answer != Success(true) ==> file.record == old(file.record)
    {
      if terminalStarted { return Success(false); }
      ActiveClaimFits(view, declarations);
      var written := file.WriteRunClaimOwned(view, declarations, true, wellFormed);
      if written.Failure? { return Result.Failure(written.error); }
      launchGranted := true;
      return Success(true);
    }

    method CommitChildSpawn(occurredAt: string, listed: seq<InputRequest>, wellFormed: bool) returns (answer: Result<bool, ClaimError>)
      requires Valid()
      modifies this`view, this`history, file
      ensures Valid()
      ensures answer == Success(true) ==>
                && old(view).childStarted != Some(true) && view.childStarted == Some(true) && old(launchGranted)
                && view.inputs == listed
                && view.(childStarted := old(view).childStarted, inputs := old(view).inputs, events := old(view).events) == old(view)
                && file.record == Some(Record(Claim(view), declarations, true)) && file.record.value.view.childStarted == Some(true)
                && history == old(history) + [SpawnEvent(occurredAt)]
      ensures answer != Success(true) ==> view == old(view) && file.record == old(file.record) && history == old(history)
      ensures old(view).childStarted == Some(true) && answer == Success(false) ==> SpawnEvent(occurredAt) in old(view).events
      ensures old(view).childStarted != Some(true) && !old(launchGranted) ==> answer == Result.Failure(NoExecutionGrant)
      ensures old(view).childStarted != Some(true) && old(launchGranted) ==>
                (answer == Success(true) <==>
                   WriteAnswer(old(file.record), Attempt(SpawnDraft(old(view), occurredAt, listed), declarations, launchGranted, wellFormed)).Success?)
    {
      var spawn := SpawnEvent(occurredAt);
      if view.childStarted == Some(true) {
        // The first retained spawn decides.
        var spawns := FilterEvents(view.events, IsSpawn);
        return if spawns != [] && spawns[0] == spawn then Success(false) else Result.Failure(SpawnConflict);
      }
      if !launchGranted { return Result.Failure(NoExecutionGrant); }
      ghost var told := history + [spawn];
      ProjectionStep(history, spawn);
      var relisted := view.(inputs := listed);
      var started := relisted.(childStarted := Some(true));
      var draft := started.(events := RecentEvents(view.events + [spawn]));
      RelistedFits(view, listed, declarations);
      StartedFits(relisted, declarations);
      CarriesTransitive(view, relisted, started);
      AppendedFits(started, spawn, declarations);
      CarriesTransitive(view, started, draft);
      ActiveClaimFits(draft, declarations);
      var written := file.WriteRunClaimOwned(draft, declarations, launchGranted, wellFormed);
      if written.Failure? { return Result.Failure(written.error); }
      assert Carries(file.record.value.view, draft);
      view, history := draft, told;
      return Success(true);
    }

    method AcceptRunCancellation(at: string, wellFormed: bool) returns (answer: Result<bool, ClaimError>)
      requires Valid()
      modifies this`view, this`history, this`cancelRequested, file
      ensures Valid()
      ensures cancelRequested == (old(cancelRequested) || answer == Success(true))
      ensures terminalStarted || old(cancelRequested) ==> answer == Success(false)
      ensures !terminalStarted && !old(cancelRequested) ==>
                (answer == Success(true) <==>
                   WriteAnswer(old(file.record), Attempt(CancelDraft(old(view), old(history), at), declarations, launchGranted, wellFormed)).Success?)
      ensures answer == Success(true) ==>
                && history == old(history) + ([CancelEvent(at)] + ClosedEvents(old(view).inputs, at))
                && view.inputs == ClosedInputs(old(view).inputs, at)
                && view.(events := old(view).events, inputs := old(view).inputs) == old(view)
                && file.record == Some(Record(Claim(view), declarations, launchGranted))
      ensures answer != Success(true) ==> view == old(view) && file.record == old(file.record) && history == old(history)
    {
      if terminalStarted || cancelRequested { return Success(false); }
      var more := [CancelEvent(at)] + ClosedEvents(view.inputs, at);
      ghost var told := history + more;
      var kept := Project(view.events, more, history);
      var draft := view.(events := kept, inputs := ClosedInputs(view.inputs, at));
      CancellationFits(view, history, at, declarations);
      var written := file.WriteRunClaimOwned(draft, declarations, launchGranted, wellFormed);
      if written.Failure? { return Result.Failure(written.error); }
      view, history, cancelRequested := draft, told, true;
      return Success(true);
    }

    /**
     Settles the run.  An active record accepts a well-formed settlement exactly when every stable
     event of the record is still in the window and every settled input of it is still the owner's;
     a terminal record is never replaced.
     */
    method SettleRunClaim(end: End, wellFormed: bool) returns (answer: Result<bool, ClaimError>)
      requires Valid() && EndFits(end)
      modifies this`terminalStarted, file
      ensures Valid() && terminalStarted == (old(terminalStarted) || answer.Success?)
      ensures old(file.record.Some? && IsTerminal(file.record.value.view.status)) ==>
                answer == Success(false) && file.record == old(file.record)
      ensures answer.Success? && !old(file.record.Some? && IsTerminal(file.record.value.view.status)) ==>
                && answer.value
                && file.record.Some? && IsTerminal(file.record.value.view.status)
                && EvidenceHolds(file.record.value.view, declarations)
                && SettlesWith(file.record.value.view, old(view), old(history), end)
                && file.record.value.declarations == declarations && file.record.value.launched == launchGranted
      ensures answer.Failure? ==> file.record == old(file.record)
      ensures old(file.record.Some? && !IsTerminal(file.record.value.view.status)) && wellFormed ==>
                (answer.Success? <==>
                   && (forall event :: event in old(file.record).value.view.events && IsStable(event) ==>
                         event in RecentEvents(old(history) + ClosedEvents(old(view).inputs, end.at) + EndEvents(end)))
                   && (forall input :: input in old(file.record).value.view.inputs && !input.pending ==>
                         input in ClosedInputs(old(view).inputs, end.at)))
    {
      hide RecentEvents;
      if file.record.Some? && IsTerminal(file.record.value.view.status) {
        terminalStarted := true;
        return Success(false);
      }
      var more := ClosedEvents(view.inputs, end.at) + EndEvents(end);
      var kept := Project(view.events, more, history);
      assert history + more == history + ClosedEvents(view.inputs, end.at) + EndEvents(end);
      var settled := view.(
        events := kept, inputs := ClosedInputs(view.inputs, end.at), status := end.status, timedOut := end.timedOut,
        errorClass := end.errorClass, reasonCode := end.reasonCode, hint := end.hint, rest := end.rest);
      SettledFits(view, history, end, declarations);
      SettledEvents(view, history, end);
      if file.record.Some? { SettlementExactly(file.record.value.view, view, history, end, declarations); }
      var written := file.WriteRunClaimOwned(settled, declarations, launchGranted, wellFormed);
      if written.Failure? { return Result.Failure(written.error); }
      terminalStarted := true;
      return Success(true);
    }

    method Append(event: Event)
      requires Valid()
      requires IsPrompt(event) ==> forall kind :: Required(declarations, kind) ==> ReceiptOf(view, kind).Some?
      requires event.kind == Child && IsStable(event) ==> view.childStarted == Some(true)
      modifies this`view, this`history
      ensures Valid() && history == old(history) + [event]
      ensures view == old(view).(events := RecentEvents(history))
    {
      ProjectionStep(history, event);
      AppendedFits(view, event, declarations);
      ghost var before := view;
      if file.record.Some? && !IsTerminal(file.record.value.view.status) {
        CarriesTransitive(file.record.value.view, view, view.(events := RecentEvents(view.events + [event])));
      }
      view := view.(events := RecentEvents(view.events + [event]));
      history := history + [event];
    }
  }

  lemma CompleteIsEveryReceipt(view: View, declarations: Declarations)
    ensures Complete(view, declarations) <==> forall kind :: Required(declarations, kind) ==> ReceiptOf(view, kind).Some?
  {
    if forall kind :: Required(declarations, kind) ==> ReceiptOf(view, kind).Some? {
      assert Required(declarations, Delegation) && ReceiptOf(view, Delegation).Some?;
      assert Required(declarations, Activation) ==> ReceiptOf(view, Activation).Some?;
      assert Required(declarations, SnapshotActivation) ==> ReceiptOf(view, SnapshotActivation).Some?;
      assert Required(declarations, SystemSkill) ==> ReceiptOf(view, SystemSkill).Some?;
    }
  }

  // ---------------------------------------------------------------- a settlement that is refused

  /** The owner hears the same line of output `n` times. */
  method Hear(task: RunTask, line: Event, n: nat) returns (ghost heard: seq<Event>)
    requires task.Valid() && line.kind == Assistant && !task.terminalStarted
    modifies task`view, task`history
    ensures task.Valid() && task.view == old(task.view).(events := task.view.events)
    ensures |heard| == n && (forall event :: event in heard ==> event == line)
    ensures task.history == old(task.history) + heard
  {
    hide RecentEvents;
    heard := [];
    for k := 0 to n
      invariant task.Valid() && task.view == old(task.view).(events := task.view.events)
      invariant |heard| == k && (forall event :: event in heard ==> event == line)
      invariant task.history == old(task.history) + heard
    {
      task.ObserveOutput(line);
      heard := heard + [line];
    }
  }

  /**
   The acceptance of a cancellation is stable in the record but is no anchor of the window: once
   it, the requests it closed, the child's lines and the terminal event no longer fit beside the
   anchors told before, every settlement fails and the run stays active.
   */
  method TalkingAfterCancellation(task: RunTask, at: string, line: Event, n: nat, end: End)
    returns (accepted: Result<bool, ClaimError>, settled: Result<bool, ClaimError>)
    requires task.Valid() && !task.terminalStarted && CancelEvent(at) !in task.history
    requires line.kind == Assistant && EndFits(end)
    requires end.event.name != "cancellation_requested"
    modifies task, task.file
    ensures accepted == Success(true) ==>
              var closed := |ClosedEvents(old(task.view).inputs, at)|;
              AnchorCount(old(task.history)) + 1 + closed <= MAX_RECENT_EVENTS < AnchorCount(old(task.history)) + 1 + closed + n + |EndEvents(end)| ==>
                settled.Failure? && task.file.record.Some? && !IsTerminal(task.file.record.value.view.status)
  {
    hide RecentEvents, AnchorCount, ClosedEvents, ClosedInputs, TransitionError;
    ghost var told, closed := task.history, ClosedEvents(task.view.inputs, at);
    accepted := task.AcceptRunCancellation(at, true);
    settled := accepted;
    if accepted == Success(true) {
      assert CancelEvent(at) in task.view.events ==> CancelEvent(at) in task.file.record.value.view.events;
      ghost var said := Hear(task, line, n);
      TalkedAway(told, at, closed, said, ClosedEvents(task.view.inputs, end.at), EndEvents(end));
      settled := task.SettleRunClaim(end, true);
    }
  }

  /** What the lines push out: the accepted cancellation was in the window, and is not at the end. */
  lemma TalkedAway(told: seq<Event>, at: string, closed: seq<Event>, said: seq<Event>, closedLater: seq<Event>, ending: seq<Event>)
    requires CancelEvent(at) !in told + closed + said + closedLater + ending
    ensures CancelEvent(at) in RecentEvents(told + ([CancelEvent(at)] + closed)) <==>
              AnchorCount(told) + 1 + |closed| <= MAX_RECENT_EVENTS
    ensures CancelEvent(at) in RecentEvents(told + ([CancelEvent(at)] + closed) + said + closedLater + ending) <==>
              AnchorCount(told) + 1 + |closed| + |said| + |closedLater| + |ending| <= MAX_RECENT_EVENTS
  {
    hide RecentEvents, AnchorCount;
    var cancel, rest := CancelEvent(at), closed + said + closedLater + ending;
    assert told + [cancel] + closed == told + ([cancel] + closed);
    StaysExactly(told, cancel, closed);
    assert told + ([cancel] + closed) + said + closedLater + ending == told + [cancel] + rest;
    StaysExactly(told, cancel, rest);
  }

  // ---------------------------------------------------------------- listings of the mailbox

  /** How the mailbox lists a request that was asked: pending, or as it was settled. */
  function Listed(requestId: string, settled: map<string, InputDelivery.Settlement>): InputRequest {
    if requestId !in settled then InputRequest(requestId, true, "pending")
    else InputRequest(requestId, false, match settled[requestId]
      case AnsweredBy(_, _, at) => "answered " + at
      case TimedOutAt(at) => "timed_out " + at
      case ClosedFor(_, at) => "closed " + at)
  }

  function Listing(asked: seq<string>, settled: map<string, InputDelivery.Settlement>): seq<InputRequest> {
    seq(|asked|, k requires 0 <= k < |asked| => Listed(asked[k], settled))
  }

  /** Closing the mailbox at the time of the acceptance lists what the acceptance recorded. */
  lemma CloseListsRecorded(
    asked: seq<string>, requests: set<string>, before: map<string, InputDelivery.Settlement>,
    after: map<string, InputDelivery.Settlement>, reason: string, at: string)
    requires InputDelivery.ClosesPending(requests, before, after, InputDelivery.ClosedFor(reason, at))
    requires forall requestId :: requestId in asked ==> requestId in requests
    ensures Listing(asked, after) == ClosedInputs(Listing(asked, before), at)
  {
    forall k | 0 <= k < |asked|
      ensures Listing(asked, after)[k] == ClosedInputs(Listing(asked, before), at)[k]
    {
      assert asked[k] in asked;
    }
  }

  predicate Closing(requestId: string, settled: map<string, InputDelivery.Settlement>, at: string, endAt: string) {
    if requestId in settled then settled[requestId].ClosedFor? && settled[requestId].at == at else endAt == at
  }

  /**
   The settlement keeps every input that the acceptance closed if and only if, in the mailbox that
   was listed last, each request that was pending at the acceptance is closed at its very time, or
   is still pending while the run also ends at that time.
   */
  lemma RelistedInputsExactly(
    asked: seq<string>, before: map<string, InputDelivery.Settlement>, later: map<string, InputDelivery.Settlement>,
    at: string, endAt: string)
    requires forall i, j :: 0 <= i < j < |asked| ==> asked[i] != asked[j]
    requires forall requestId :: requestId in before ==> requestId in later && later[requestId] == before[requestId]
    ensures (forall input :: input in ClosedInputs(Listing(asked, before), at) && !input.pending ==>
               input in ClosedInputs(Listing(asked, later), endAt))
       <==> forall requestId :: requestId in asked && requestId !in before ==> Closing(requestId, later, at, endAt)
  {
    var recorded, relisted := ClosedInputs(Listing(asked, before), at), ClosedInputs(Listing(asked, later), endAt);
    forall k | 0 <= k < |asked|
      ensures recorded[k] in relisted <==> recorded[k] == relisted[k]
      ensures recorded[k] == relisted[k] <==> asked[k] in before || Closing(asked[k], later, at, endAt)
    {
      forall j | 0 <= j < |asked| && j != k ensures relisted[j] != recorded[k] {
        assert relisted[j].requestId == asked[j] && recorded[k].requestId == asked[k];
        assert j < k || k < j;
      }
      ListedExactly(asked[k], before, later, at, endAt);
    }
    forall k | 0 <= k < |asked| ensures !recorded[k].pending && recorded[k] in recorded && asked[k] in asked {}
  }

  lemma ListedExactly(
    requestId: string, before: map<string, InputDelivery.Settlement>, later: map<string, InputDelivery.Settlement>,
    at: string, endAt: string)
    requires requestId in before ==> requestId in later && later[requestId] == before[requestId]
    ensures ClosedInput(Listed(requestId, before), at) == ClosedInput(Listed(requestId, later), endAt)
       <==> requestId in before || Closing(requestId, later, at, endAt)
  {
    TimesDiffer("closed ", at, endAt);
    if requestId in later {
      var settlement := later[requestId];
      TimesDiffer("closed ", at, settlement.at);
      assert ("answered " + settlement.at)[0] == 'a' && ("timed_out " + settlement.at)[0] == 't' && ("closed " + at)[0] == 'c';
    }
  }

  lemma TimesDiffer(how: string, a: string, b: string)
    ensures how + a == how + b <==> a == b
  {
    assert (how + a)[|how|..] == a && (how + b)[|how|..] == b;
  }

  /**
   Between the acceptance of a cancellation and the closing of the mailbox an input event lists a
   closed request as pending again: the settlement closes it a second time, at its own time, and
   the record refuses it.  After the closing a listing is what the record has.
   */
  method RelistingAfterCancellation(
    task: RunTask, mailbox: InputDelivery.Mailbox, asked: seq<string>, at: string, closesFirst: bool, event: Event, end: End)
    returns (accepted: Result<bool, ClaimError>, settled: Result<bool, ClaimError>)
    requires task.Valid() && !task.terminalStarted && task.view.inputs == Listing(asked, mailbox.settled)
    requires forall i, j :: 0 <= i < j < |asked| ==> asked[i] != asked[j]
    requires forall requestId :: requestId in asked ==> requestId in mailbox.requests
    requires event.kind == Input && EndFits(end)
    modifies task, task.file, mailbox
    ensures accepted == Success(true) && !closesFirst && end.at != at && (exists requestId :: requestId in asked && requestId !in old(mailbox.settled)) ==>
              settled.Failure? && task.file.record.Some? && !IsTerminal(task.file.record.value.view.status)
    ensures accepted == Success(true) && closesFirst ==>
              task.view.inputs == ClosedInputs(old(task.view).inputs, at)
    // Nothing but a stable event that left the window is then refused.
    ensures accepted == Success(true) && closesFirst ==>
              (settled.Success? <==>
                 forall event :: event in RecentEvents(old(task.history) + ([CancelEvent(at)] + ClosedEvents(old(task.view).inputs, at)))
                                 && IsStable(event) && ClaimKind(event) ==>
                   event in RecentEvents(task.history + ClosedEvents(task.view.inputs, end.at) + EndEvents(end)))
  {
    hide RecentEvents;
    ghost var before := mailbox.settled;
    accepted := task.AcceptRunCancellation(at, true);
    settled := accepted;
    if accepted == Success(true) {
      if closesFirst {
        mailbox.ClosePending("run cancelled", at);
        CloseListsRecorded(asked, mailbox.requests, before, mailbox.settled, "run cancelled", at);
      }
      RelistedInputsExactly(asked, before, mailbox.settled, at, end.at);
      task.ObserveInputEvent(event, Listing(asked, mailbox.settled));
      settled := task.SettleRunClaim(end, true);
    }
  }
}
