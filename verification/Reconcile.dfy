/**
 Restart reconciliation of a tree of runs (src/runTask.ts, src/recursiveControl.ts): the two
 phases of `getPersistedRunTask`, the registration of a recursive child under its ancestors and
 the depth check that bounds them.

 Other processes act on the same records between any two steps: `Interfere` lets them do anything
 that keeps `Valid` and what module RunClaim shows every write keeps.  Liveness, residence and the
 comparison of pending outputs are demonic answers; module Capacity shows that the second liveness
 answer is not fooled.  Every answer is kept in the ghost `heard`, and the runs settled here in the
 ghost `losses`; the ghost `opposed` counts every answer and every interference that stands in the
 way of a settlement.
 */
module Reconcile {
  import opened Outcomes

  type RunId = nat

  datatype Status = Active | Ended | Drifted

  datatype Run = Run(parent: Option<RunId>, depth: nat, status: Status, descendants: seq<RunId>)

  type Runs = map<RunId, Run>

  datatype ReadError = NotFound | LivenessUnknown | Unstable

  predicate Terminal(runs: Runs, id: RunId) {
    id in runs && runs[id].status != Active
  }

  /** Recorded lineage points at recorded runs that are strictly deeper, and depth is bounded. */
  predicate LineageOk(runs: Runs, maxDepth: nat) {
    && (forall id :: id in runs ==> runs[id].depth <= maxDepth)
    && (forall id, d :: id in runs && d in runs[id].descendants ==> d in runs && runs[id].depth < runs[d].depth)
    && (forall id :: id in runs && runs[id].parent.Some? ==>
          runs[id].parent.value in runs && runs[runs[id].parent.value].depth < runs[id].depth)
  }

  /** A run is marked `restart_drift` only over a settled subtree. */
  predicate DriftClosed(runs: Runs) {
    forall id :: id in runs && runs[id].status == Drifted ==> forall d :: d in runs[id].descendants ==> Terminal(runs, d)
  }

  /** What every accepted write keeps: lineage grows, and a terminal record is final. */
  predicate Evolves(before: Runs, after: Runs) {
    forall id :: id in before ==>
      && id in after
      && after[id].depth == before[id].depth && after[id].parent == before[id].parent
      && (forall d :: d in before[id].descendants ==> d in after[id].descendants)
      && (before[id].status != Active ==> after[id] == before[id])
  }

  lemma EvolvesTransitive(a: Runs, b: Runs, c: Runs)
    requires Evolves(a, b) && Evolves(b, c)
    ensures Evolves(a, c)
  {
  }

  /** Recorded lineage never goes deeper than the limit, so no reconciliation recurses further. */
  lemma {:induction false} ChainIsBounded(runs: Runs, maxDepth: nat, chain: seq<RunId>)
    requires LineageOk(runs, maxDepth) && chain != [] && chain[0] in runs
    requires forall k :: 0 <= k < |chain| - 1 ==> chain[k] in runs && chain[k + 1] in runs[chain[k]].descendants
    ensures runs[chain[0]].depth + |chain| <= maxDepth + 1
  {
    if |chain| > 1 {
      assert chain[1] in runs[chain[0]].descendants;
      ChainIsBounded(runs, maxDepth, chain[1..]);
    }
  }

  lemma {:induction false} TerminalIsFinal(trace: seq<Runs>, i: nat, j: nat, id: RunId)
    requires i <= j < |trace| && Terminal(trace[i], id)
    requires forall k {:trigger trace[k]} :: i <= k < j ==> Evolves(trace[k], trace[k + 1])
    ensures id in trace[j] && trace[j][id] == trace[i][id]
  {
    if i < j {
      TerminalIsFinal(trace, i, j - 1, id);
      var before, after := trace[j - 1], trace[j];
      assert Evolves(before, after);
    }
  }

  /** Once drifted, a run keeps its list of descendants for ever, and each of them keeps its terminal record. */
  lemma DriftedForever(trace: seq<Runs>, i: nat, j: nat, id: RunId, d: RunId)
    requires i <= j < |trace|
    requires forall k {:trigger trace[k]} :: i <= k < j ==> Evolves(trace[k], trace[k + 1])
    requires DriftClosed(trace[i]) && id in trace[i] && trace[i][id].status == Drifted && d in trace[i][id].descendants
    ensures id in trace[j] && trace[j][id] == trace[i][id]
    ensures d in trace[i] && d in trace[j] && trace[j][d] == trace[i][d] && trace[j][d].status != Active
  {
    assert Terminal(trace[i], d);
    TerminalIsFinal(trace, i, j, id);
    TerminalIsFinal(trace, i, j, d);
  }

  function WithDescendant(runs: Runs, ancestor: RunId, id: RunId): Runs
    requires ancestor in runs
  {
    runs[ancestor := runs[ancestor].(descendants := runs[ancestor].descendants + [id])]
  }

  lemma DescendantLineage(runs: Runs, maxDepth: nat, ancestor: RunId, id: RunId)
    requires LineageOk(runs, maxDepth) && ancestor in runs && id in runs && runs[ancestor].depth < runs[id].depth
    ensures LineageOk(WithDescendant(runs, ancestor, id), maxDepth)
  {
    var after := WithDescendant(runs, ancestor, id);
    forall a, d | a in after && d in after[a].descendants ensures d in after && after[a].depth < after[d].depth {
      if a != ancestor || d != id { assert d in runs[a].descendants; }
    }
  }

  lemma DescendantClosed(runs: Runs, ancestor: RunId, id: RunId)
    requires DriftClosed(runs) && ancestor in runs && runs[ancestor].status == Active
    ensures DriftClosed(WithDescendant(runs, ancestor, id))
    ensures Evolves(runs, WithDescendant(runs, ancestor, id))
  {
    var after := WithDescendant(runs, ancestor, id);
    forall a, d | a in after && after[a].status == Drifted && d in after[a].descendants ensures Terminal(after, d) {
      assert Terminal(runs, d);
    }
  }

  /** A new run is nobody's descendant yet. */
  lemma NewRunLineage(runs: Runs, maxDepth: nat, id: RunId, run: Run)
    requires LineageOk(runs, maxDepth) && id !in runs && run.descendants == [] && run.depth <= maxDepth
    requires run.parent.Some? ==> run.parent.value in runs && runs[run.parent.value].depth < run.depth
    ensures LineageOk(runs[id := run], maxDepth)
  {
    var after := runs[id := run];
    forall a, d | a in after && d in after[a].descendants ensures d in after && after[a].depth < after[d].depth {
      assert a in runs && d in runs[a].descendants;
    }
  }

  lemma NewRunClosed(runs: Runs, id: RunId, run: Run)
    requires DriftClosed(runs) && id !in runs && run.status == Active
    ensures DriftClosed(runs[id := run]) && Evolves(runs, runs[id := run])
  {
    var after := runs[id := run];
    forall a, d | a in after && after[a].status == Drifted && d in after[a].descendants ensures Terminal(after, d) {
      assert Terminal(runs, d);
    }
  }

  lemma SettledFits(runs: Runs, maxDepth: nat, id: RunId)
    requires LineageOk(runs, maxDepth) && DriftClosed(runs) && id in runs && runs[id].status == Active
    requires forall d :: d in runs[id].descendants ==> Terminal(runs, d)
    ensures var after := runs[id := runs[id].(status := Drifted)];
            LineageOk(after, maxDepth) && DriftClosed(after) && Evolves(runs, after)
  {
    var after := runs[id := runs[id].(status := Drifted)];
    forall a, d | a in after && d in after[a].descendants
      ensures d in after && after[a].depth < after[d].depth
      ensures after[a].status == Drifted ==> Terminal(after, d)
    {
      assert a in runs && d in runs[a].descendants;
    }
  }

  lemma TerminalStays(before: Runs, after: Runs, ids: set<RunId>)
    requires Evolves(before, after) && forall d :: d in ids ==> Terminal(before, d)
    ensures forall d :: d in ids ==> Terminal(after, d)
  {
  }

  lemma StaysKnown(before: Runs, after: Runs, id: RunId)
    requires Evolves(before, after) && id in before
    ensures id in after && after[id].depth == before[id].depth && after[id].parent == before[id].parent
    ensures before[id].status != Active ==> after[id] == before[id]
    ensures forall d :: d in before[id].descendants ==> d in after[id].descendants
  {
  }

  lemma EvolvesReflexive(runs: Runs)
    ensures Evolves(runs, runs) && forall losses :: OnlySettled(runs, runs, losses)
  {
  }

  lemma ListedAreDeeper(runs: Runs, maxDepth: nat, id: RunId)
    requires LineageOk(runs, maxDepth) && id in runs
    ensures runs[id].depth <= maxDepth
    ensures forall d :: d in runs[id].descendants ==> d in runs && runs[id].depth < runs[d].depth
  {
  }

  /** Nothing but statuses differs, and those only of runs settled as lost. */
  predicate OnlySettled(before: Runs, after: Runs, losses: set<RunId>) {
    && before.Keys == after.Keys
    && forall id :: id in before ==>
         && after[id].(status := before[id].status) == before[id]
         && (after[id].status != before[id].status ==> after[id].status == Drifted && id in losses)
  }

  lemma OnlySettledTransitive(a: Runs, b: Runs, c: Runs, some: set<RunId>, more: set<RunId>)
    requires OnlySettled(a, b, some) && OnlySettled(b, c, more) && some <= more
    ensures OnlySettled(a, c, more)
  {
    forall id | id in a
      ensures c[id].(status := a[id].status) == a[id]
      ensures c[id].status != a[id].status ==> c[id].status == Drifted && id in more
    {
      assert b[id].(status := a[id].status) == a[id] && c[id].(status := b[id].status) == b[id];
    }
  }

  lemma SettlesOnly(runs: Runs, losses: set<RunId>, id: RunId)
    requires id in runs && id in losses
    ensures OnlySettled(runs, runs[id := runs[id].(status := Drifted)], losses)
  {
  }

  lemma SameDescendants(before: Runs, after: Runs, losses: set<RunId>, id: RunId)
    requires OnlySettled(before, after, losses) && id in before
    ensures id in after && after[id].descendants == before[id].descendants
  {
    assert after[id].(status := before[id].status) == before[id];
  }

  datatype Liveness = Live | Gone | Unknown

  /** An answer from outside the records, and whether the claim lock of the run was held for it. */
  datatype Answer =
    | OwnerIs(id: RunId, locked: bool, liveness: Liveness)
    | PendingIs(id: RunId, same: bool)
    | ResidentIs(id: RunId, resident: bool)

  /** The owner was answered to be gone, under the claim lock. */
  predicate HeardGone(heard: seq<Answer>, id: RunId) {
    OwnerIs(id, true, Gone) in heard
  }

  predicate ParentsOk(runs: Runs) {
    forall id :: id in runs && runs[id].parent.Some? ==>
      runs[id].parent.value in runs && runs[runs[id].parent.value].depth < runs[id].depth
  }

  /** Nothing but lists of descendants differs, and new runs. */
  predicate SameButLists(before: Runs, after: Runs) {
    forall a :: a in before ==> a in after && after[a].(descendants := before[a].descendants) == before[a]
  }

  lemma SameListsLater(start: Runs, before: Runs, after: Runs, at: RunId)
    requires SameButLists(start, before) && at in start && at in after
    requires after.Keys == before.Keys && forall other :: other in before && other != at ==> after[other] == before[other]
    requires after[at].(descendants := before[at].descendants) == before[at]
    ensures SameButLists(start, after)
  {
  }

  lemma LineageHasParents(runs: Runs, maxDepth: nat)
    requires LineageOk(runs, maxDepth)
    ensures ParentsOk(runs)
  {
  }

  /** The ancestors a delegation reaches, from the parent up, while they are resident. */
  function ResidentChain(runs: Runs, from: Option<RunId>, resident: set<RunId>, depth: nat): seq<RunId>
    requires ParentsOk(runs) && (from.Some? ==> from.value in runs && runs[from.value].depth < depth)
    decreases depth
  {
    if from.None? || from.value !in resident then []
    else [from.value] + ResidentChain(runs, runs[from.value].parent, resident, runs[from.value].depth)
  }

  lemma {:induction false} ChainGoesUp(runs: Runs, from: Option<RunId>, resident: set<RunId>, depth: nat)
    requires ParentsOk(runs) && (from.Some? ==> from.value in runs && runs[from.value].depth < depth)
    ensures forall a :: a in ResidentChain(runs, from, resident, depth) ==> a in runs && runs[a].depth < depth
    decreases depth
  {
    if from.Some? && from.value in resident {
      ChainGoesUp(runs, runs[from.value].parent, resident, runs[from.value].depth);
    }
  }

  lemma NobodyLists(runs: Runs, maxDepth: nat, id: RunId)
    requires LineageOk(runs, maxDepth) && id !in runs
    ensures forall a :: a in runs ==> id !in runs[a].descendants
  {
  }

  class RunStore {
    const maxDepth: nat
    var runs: Runs
    /** The runs this server has settled as lost. */
    ghost var losses: set<RunId>
    ghost var heard: seq<Answer>
    ghost var opposed: nat

    constructor (maxDepth: nat)
      ensures Valid() && this.maxDepth == maxDepth && runs == map[] && losses == {} && heard == []
    {
      this.maxDepth, runs, losses, heard, opposed := maxDepth, map[], {}, [], 0;
    }

    ghost predicate Valid()
      reads this
    {
      && LineageOk(runs, maxDepth) && DriftClosed(runs)
      // Only a run whose owner was answered to be gone, under its lock, is settled as lost.
      && forall id :: id in losses ==> id in runs && runs[id].status == Drifted && HeardGone(heard, id)
    }

    /** Anything the other servers may do meanwhile. */
    method Interfere()
      requires Valid()
      modifies this`runs, this`opposed
      ensures Valid() && Evolves(old(runs), runs)
      ensures opposed >= old(opposed) && (opposed == old(opposed) ==> runs == old(runs))
    {
      var next: Runs := *;
      if LineageOk(next, maxDepth) && DriftClosed(next) && Evolves(runs, next) {
        if next != runs { opposed := opposed + 1; }
        runs := next;
      }
    }

    method AskLiveness(id: RunId, locked: bool) returns (liveness: Liveness)
      requires Valid()
      modifies this`opposed, this`heard
      ensures Valid()
      ensures heard == old(heard) + [OwnerIs(id, locked, liveness)]
      ensures opposed >= old(opposed) && (opposed == old(opposed) ==> liveness == Gone)
    {
      liveness := *;
      heard := heard + [OwnerIs(id, locked, liveness)];
      if liveness != Gone { opposed := opposed + 1; }
    }

    /** Whether this server holds the run in memory. */
    method AskResident(id: RunId) returns (resident: bool)
      requires Valid()
      modifies this`opposed, this`heard
      ensures Valid()
      ensures heard == old(heard) + [ResidentIs(id, resident)]
      ensures opposed >= old(opposed) && (opposed == old(opposed) ==> !resident)
    {
      resident := *;
      heard := heard + [ResidentIs(id, resident)];
      if resident { opposed := opposed + 1; }
    }

    /** Whether the pending outputs of the record are still those of phase one. */
    method AskPending(id: RunId) returns (same: bool)
      requires Valid()
      modifies this`opposed, this`heard
      ensures Valid()
      ensures heard == old(heard) + [PendingIs(id, same)]
      ensures opposed >= old(opposed) && (opposed == old(opposed) ==> same)
    {
      same := *;
      heard := heard + [PendingIs(id, same)];
      if !same { opposed := opposed + 1; }
    }

    /** Top-level registration. */
    method Register(id: RunId)
      requires Valid() && id !in runs
      modifies this`runs
      ensures Valid() && Evolves(old(runs), runs) && runs == old(runs)[id := Run(None, 0, Active, [])]
    {
      NewRunLineage(runs, maxDepth, id, Run(None, 0, Active, []));
      NewRunClosed(runs, id, Run(None, 0, Active, []));
      runs := runs[id := Run(None, 0, Active, [])];
    }

    /** `recordParentChildLineage`: a terminal ancestor is left alone. */
    method RecordDescendant(ancestor: RunId, id: RunId)
      requires Valid() && ancestor in runs && id in runs && runs[ancestor].depth < runs[id].depth
      modifies this`runs
      ensures Valid() && Evolves(old(runs), runs)
      ensures runs[ancestor].status == Active ==> id in runs[ancestor].descendants
      ensures runs.Keys == old(runs).Keys
      ensures forall other :: other in old(runs) && other != ancestor ==> runs[other] == old(runs)[other]
      ensures runs[ancestor].(descendants := old(runs)[ancestor].descendants) == old(runs)[ancestor]
      ensures runs[ancestor].status == Active && id !in old(runs)[ancestor].descendants ==>
                runs[ancestor].descendants == old(runs)[ancestor].descendants + [id]
    {
      hide LineageOk, DriftClosed, Evolves, HeardGone;
      EvolvesReflexive(runs);
      if runs[ancestor].status == Active && id !in runs[ancestor].descendants {
        DescendantLineage(runs, maxDepth, ancestor, id);
        DescendantClosed(runs, ancestor, id);
        runs := WithDescendant(runs, ancestor, id);
      }
    }

    method RegisterChild(parent: RunId, id: RunId)
      requires Valid() && parent in runs && id !in runs && runs[parent].depth < maxDepth
      modifies this`runs
      ensures Valid() && Evolves(old(runs), runs)
      ensures runs == old(runs)[id := Run(Some(parent), old(runs)[parent].depth + 1, Active, [])]
    {
      var child := Run(Some(parent), runs[parent].depth + 1, Active, []);
      NewRunLineage(runs, maxDepth, id, child);
      NewRunClosed(runs, id, child);
      runs := runs[id := child];
    }

    /** A recursive delegation: refused at the depth limit, else recorded under every resident active ancestor. */
    method Delegate(parent: RunId, id: RunId, resident: set<RunId>) returns (refused: bool)
      requires Valid() && parent in runs && id !in runs
      modifies this`runs
      ensures Valid() && Evolves(old(runs), runs)
      ensures refused <==> old(runs)[parent].depth >= maxDepth
      ensures refused ==> runs == old(runs)
      ensures !refused ==> id in runs && runs[id].depth == old(runs)[parent].depth + 1 && runs[id].parent == Some(parent)
      ensures !refused ==> runs.Keys == old(runs).Keys + {id} && runs[id].status == Active && runs[id].descendants == []
      // Every resident active ancestor lists the child last, and no other record changes.
      ensures !refused ==>
                forall a :: a in old(runs) ==>
                  runs[a] == if a in ResidentChain(old(runs), Some(parent), resident, old(runs)[parent].depth + 1)
                                && old(runs)[a].status == Active
                             then old(runs)[a].(descendants := old(runs)[a].descendants + [id])
                             else old(runs)[a]
    {
      hide LineageOk, DriftClosed, Evolves;
      ghost var start := runs;
      EvolvesReflexive(start);
      refused := runs[parent].depth >= maxDepth;
      if refused { return; }
      var depth: nat := runs[parent].depth + 1;
      LineageHasParents(runs, maxDepth);
      RegisterChild(parent, id);
      ghost var chain := ResidentChain(start, Some(parent), resident, depth);
      ChainGoesUp(start, Some(parent), resident, depth);
      NobodyLists(start, maxDepth, id);
      ghost var rest := chain;
      ghost var below: nat := depth;
      var ancestor := Some(parent);
      while ancestor.Some? && ancestor.value in resident
        invariant Valid() && Evolves(start, runs) && SameButLists(start, runs)
        invariant id !in start && runs.Keys == start.Keys + {id} && runs[id] == Run(Some(parent), depth, Active, [])
        invariant ancestor.Some? ==> ancestor.value in start && start[ancestor.value].depth < below
        invariant below <= depth && rest == ResidentChain(start, ancestor, resident, below)
        invariant forall a :: a in rest ==> a in chain && a in start && start[a].depth < below
        invariant forall a :: a in start ==>
                    runs[a] == if a in chain && a !in rest && start[a].status == Active
                               then start[a].(descendants := start[a].descendants + [id])
                               else start[a]
        decreases below
      {
        var at := ancestor.value;
        ghost var before := runs;
        ChainGoesUp(start, start[at].parent, resident, start[at].depth);
        RecordDescendant(at, id);
        EvolvesTransitive(start, before, runs);
        SameListsLater(start, before, runs, at);
        below := start[at].depth;
        ancestor := runs[at].parent;
        rest := ResidentChain(start, ancestor, resident, below);
      }
    }

    /** The one write of owner loss: behind the answer that the owner is gone, and over terminal descendants. */
    method SettleOwnerLoss(id: RunId)
      requires Valid() && id in runs && runs[id].status == Active
      requires heard != [] && heard[|heard| - 1] == OwnerIs(id, true, Gone)
      requires forall d :: d in runs[id].descendants ==> Terminal(runs, d)
      modifies this`runs, this`losses
      ensures Valid() && Evolves(old(runs), runs)
      ensures runs == old(runs)[id := old(runs)[id].(status := Drifted)] && losses == old(losses) + {id}
    {
      hide LineageOk, DriftClosed, Evolves;
      SettledFits(runs, maxDepth, id);
      runs, losses := runs[id := runs[id].(status := Drifted)], losses + {id};
    }

    /** A run this server owns answers from memory. */
    method GetRunTask(id: RunId) returns (answer: Result<Status, ReadError>)
      requires Valid()
      modifies this
      ensures Valid() && Evolves(old(runs), runs) && old(heard) <= heard && old(losses) <= losses
      ensures answer.Success? ==> id in runs && runs[id].status == answer.value
      ensures answer == Failure(NotFound) ==> id !in old(runs)
      ensures exists resident ::
                && old(heard) + [ResidentIs(id, resident)] <= heard
                && (resident && id in old(runs) ==>
                      runs == old(runs) && losses == old(losses) && answer == Success(old(runs)[id].status))
      ensures opposed >= old(opposed) && (answer == Failure(Unstable) ==> opposed >= old(opposed) + 8)
      ensures opposed == old(opposed) ==>
                OnlySettled(old(runs), runs, losses) && (id in old(runs) ==> answer.Success? && answer.value != Active)
      decreases if id in runs then maxDepth + 1 - runs[id].depth else maxDepth + 2, 2
    {
      var resident := AskResident(id);
      if resident && id in runs {
        return Success(runs[id].status);
      }
      answer := GetPersistedRunTask(id);
    }

    /** The descendants that are terminal, each asked for in turn. */
    method InspectDescendants(listed: seq<RunId>, ghost depth: nat) returns (ended: Result<set<RunId>, ReadError>)
      requires Valid() && depth <= maxDepth
      requires forall d :: d in listed ==> d in runs && depth < runs[d].depth
      modifies this
      ensures Valid() && Evolves(old(runs), runs) && old(heard) <= heard && old(losses) <= losses
      ensures ended.Success? ==> forall d :: d in ended.value ==> d in listed && Terminal(runs, d)
      ensures ended != Failure(NotFound)
      ensures opposed >= old(opposed) && (ended == Failure(Unstable) ==> opposed >= old(opposed) + 8)
      ensures opposed == old(opposed) ==>
                OnlySettled(old(runs), runs, losses) && ended.Success? && forall d :: d in listed ==> d in ended.value
      decreases maxDepth - depth, 3
    {
      hide LineageOk, DriftClosed, Evolves, OnlySettled, HeardGone;
      EvolvesReflexive(runs);
      var found: set<RunId> := {};
      for k := 0 to |listed|
        invariant Valid() && Evolves(old(runs), runs) && opposed >= old(opposed)
        invariant old(heard) <= heard && old(losses) <= losses
        invariant forall d :: d in found ==> d in listed && Terminal(runs, d)
        invariant opposed == old(opposed) ==>
                    OnlySettled(old(runs), runs, losses) && forall j :: 0 <= j < k ==> listed[j] in found
      {
        ghost var before, some := runs, losses;
        assert listed[k] in listed;
        StaysKnown(old(runs), runs, listed[k]);
        var status := GetRunTask(listed[k]);
        EvolvesTransitive(old(runs), before, runs);
        TerminalStays(before, runs, found);
        if opposed == old(opposed) { OnlySettledTransitive(old(runs), before, runs, some, losses); }
        if status.Failure? { return Failure(status.error); }
        if status.value != Active { found := found + {listed[k]}; }
      }
      return Success(found);
    }

    /**
     Phase one, under the owner chain: the recorded status of a terminal run or of one whose owner
     is answered to live, or the descendants to ask for.
     */
    method PhaseOne(id: RunId) returns (answer: Option<Result<Status, ReadError>>, listed: seq<RunId>)
      requires Valid()
      modifies this`runs, this`heard, this`opposed
      ensures Valid() && Evolves(old(runs), runs)
      ensures opposed >= old(opposed) && (opposed == old(opposed) ==> runs == old(runs))
      ensures answer.None? ==> id in runs && runs[id].status == Active && listed == runs[id].descendants
      ensures answer.Some? && answer.value.Success? ==> id in runs && runs[id].status == answer.value.value
      ensures answer == Some(Failure(NotFound)) <==> id !in runs
      ensures answer != Some(Failure(Unstable))
      // The owner is asked for exactly while the run is active, and its answer decides.
      ensures if id in runs && runs[id].status == Active
              then exists liveness ::
                     && heard == old(heard) + [OwnerIs(id, false, liveness)]
                     && answer == match liveness
                          case Live => Some(Success(Active))
                          case Unknown => Some(Failure(LivenessUnknown))
                          case Gone => None
              else heard == old(heard) && answer.Some?
      ensures opposed == old(opposed) && id in old(runs) && answer.Some? ==> answer.value.Success? && answer.value.value != Active
    {
      listed := [];
      Interfere();
      if id !in runs { return Some(Failure(NotFound)), []; }
      if runs[id].status != Active { return Some(Success(runs[id].status)), []; }
      var liveness := AskLiveness(id, false);
      if liveness == Unknown { return Some(Failure(LivenessUnknown)), []; }
      if liveness == Live { return Some(Success(Active)), []; }
      return None, runs[id].descendants;
    }

    /**
     Phase two, under the claim lock: an answer, or another attempt.  `seen` is the store as it is
     found under the lock, `same` and `owner` what is answered there.
     */
    method PhaseTwo(id: RunId, listed: seq<RunId>, ended: set<RunId>)
      returns (answer: Option<Result<Status, ReadError>>, ghost seen: Runs, ghost same: bool, ghost owner: Option<Liveness>)
      requires Valid() && id in runs && forall d :: d in ended ==> Terminal(runs, d)
      modifies this
      ensures Valid() && Evolves(old(runs), runs)
      ensures opposed >= old(opposed)
      ensures opposed == old(opposed) && old(runs)[id].descendants == listed && (forall d :: d in listed ==> d in ended) ==>
                OnlySettled(old(runs), runs, losses) && answer.Some? && answer.value.Success? && answer.value.value != Active
      ensures Evolves(old(runs), seen) && id in seen
      ensures opposed == old(opposed) ==> seen == old(runs)
      // What is answered is what was heard, and the owner is asked for exactly while the run is active and its outputs the same.
      ensures heard == old(heard) + [PendingIs(id, same)] + if owner.Some? then [OwnerIs(id, true, owner.value)] else []
      ensures owner.Some? <==> same && seen[id].status == Active
      // The run is settled here exactly when its owner is gone and the unchanged list of descendants is terminal; nothing else is written.
      ensures if owner == Some(Gone) && seen[id].descendants == listed && (forall d :: d in listed ==> d in ended)
              then && answer == Some(Success(Drifted))
                   && (forall d :: d in listed ==> Terminal(seen, d))
                   && runs == seen[id := seen[id].(status := Drifted)] && losses == old(losses) + {id}
              else runs == seen && losses == old(losses)
      // A living owner keeps its run, and no other answer is made up.
      ensures owner == Some(Live) ==> answer == Some(Success(Active))
      ensures owner == Some(Unknown) ==> answer == Some(Failure(LivenessUnknown))
      ensures answer.None? <==> !same || (owner == Some(Gone) && seen[id].descendants != listed)
      ensures answer.Some? && answer.value.Success? ==> runs[id].status == answer.value.value
      ensures answer.Some? && answer.value.Failure? ==> owner == Some(Unknown)
    {
      hide LineageOk, DriftClosed, Evolves, OnlySettled, HeardGone;
      ghost var start := runs;
      Interfere();
      EvolvesReflexive(runs);
      StaysKnown(start, runs, id);
      seen, owner := runs, None;
      TerminalStays(start, runs, ended);
      var asBefore := AskPending(id);
      same := asBefore;
      if !asBefore { return None, seen, same, owner; }
      if runs[id].status != Active { return Some(Success(runs[id].status)), seen, same, owner; }
      var liveness := AskLiveness(id, true);
      owner := Some(liveness);
      if liveness == Unknown { return Some(Failure(LivenessUnknown)), seen, same, owner; }
      if liveness == Live { return Some(Success(Active)), seen, same, owner; }
      if runs[id].descendants != listed { return None, seen, same, owner; }
      if exists d :: d in listed && d !in ended { return Some(Success(Active)), seen, same, owner; }
      SettleOwnerLoss(id);
      EvolvesTransitive(start, seen, runs);
      SettlesOnly(seen, losses, id);
      return Some(Success(Drifted)), seen, same, owner;
    }

    /**
     One attempt of both phases; no answer means that the record changed meanwhile.  Descendants
     are strictly deeper, which is why asking for them ends.
     */
    method ReconcileOnce(id: RunId) returns (answer: Option<Result<Status, ReadError>>)
      requires Valid()
      modifies this
      ensures Valid() && Evolves(old(runs), runs) && old(heard) <= heard && old(losses) <= losses
      ensures answer.Some? && answer.value.Success? ==> id in runs && runs[id].status == answer.value.value
      ensures answer == Some(Failure(NotFound)) ==> id !in old(runs)
      ensures opposed >= old(opposed) && (answer == Some(Failure(Unstable)) ==> opposed >= old(opposed) + 8)
      ensures opposed == old(opposed) ==> OnlySettled(old(runs), runs, losses)
      ensures opposed == old(opposed) && id in old(runs) ==> answer.Some? && answer.value.Success? && answer.value.value != Active
      ensures opposed == old(opposed) ==> answer.Some?
      decreases if id in runs then maxDepth + 1 - runs[id].depth else maxDepth + 2, 0
    {
      hide LineageOk, DriftClosed, Evolves, OnlySettled, HeardGone;
      ghost var start, count := runs, opposed;
      EvolvesReflexive(start);
      var first, listed := PhaseOne(id);
      if id in start { StaysKnown(start, runs, id); }
      if first.Some? { return first; }
      ghost var seen := runs;
      ListedAreDeeper(runs, maxDepth, id);
      // No lock of this run is held while its descendants are entered.
      var ended := InspectDescendants(listed, runs[id].depth);
      EvolvesTransitive(start, seen, runs);
      if ended.Failure? { return Some(Failure(ended.error)); }
      ghost var inspected, more := runs, losses;
      StaysKnown(seen, inspected, id);
      if opposed == count { SameDescendants(seen, inspected, more, id); }
      var second, found, same, owner := PhaseTwo(id, listed, ended.value);
      EvolvesTransitive(start, inspected, runs);
      if opposed == count { OnlySettledTransitive(start, inspected, runs, more, losses); }
      return second;
    }

    /**
     Two phases, at most eight times.  A run is settled only behind the answer that its owner is
     gone and over an unchanged list of terminal descendants; and where nothing opposes it, the
     whole subtree is.
     */
    method GetPersistedRunTask(id: RunId) returns (answer: Result<Status, ReadError>)
      requires Valid()
      modifies this
      ensures Valid() && Evolves(old(runs), runs) && old(heard) <= heard && old(losses) <= losses
      ensures answer.Success? ==> id in runs && runs[id].status == answer.value
      ensures answer == Failure(NotFound) ==> id !in old(runs)
      // It gives up only after eight attempts that something stood in the way of.
      ensures opposed >= old(opposed) && (answer == Failure(Unstable) ==> opposed >= old(opposed) + 8)
      ensures opposed == old(opposed) ==>
                OnlySettled(old(runs), runs, losses) && (id in old(runs) ==> answer.Success? && answer.value != Active)
      decreases if id in runs then maxDepth + 1 - runs[id].depth else maxDepth + 2, 1
    {
      hide LineageOk, DriftClosed, Evolves, OnlySettled, HeardGone;
      ghost var start, count := runs, opposed;
      EvolvesReflexive(start);
      for attempt := 0 to 8
        invariant Valid() && Evolves(start, runs) && opposed >= count
        invariant old(heard) <= heard && old(losses) <= losses
        invariant opposed >= count + attempt && (attempt == 0 ==> runs == start && losses == old(losses))
      {
        ghost var before := runs;
        if id in start { StaysKnown(start, runs, id); }
        var once := ReconcileOnce(id);
        EvolvesTransitive(start, before, runs);
        if once.Some? { return once.value; }
      }
      return Failure(Unstable);
    }
  }
}
