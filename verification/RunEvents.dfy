/**
 The bounded window of public run events (src/runEvents.ts).

 The projection is stated as the source computes it, by find, filter, slice and a set of
 retained positions, and is shown to drop a number of the oldest unanchored events and nothing
 else.  Two events of one list are two objects, so the source's identity sets are sets of
 positions here.
 */
module RunEvents {
  const MAX_RECENT_EVENTS: nat := 25

  datatype Kind = Task | User | Child | Input | Packet | Terminal | Assistant | Warning | Problem

  datatype Event = Event(kind: Kind, name: string, text: string, occurredAt: string)

  predicate IsStart(event: Event) {
    event.name == "run_started"
  }

  predicate IsSpawn(event: Event) {
    event.kind == Child && event.name == "child_spawned"
  }

  // ---------------------------------------------------------------- as the source computes it

  /** The positions from `from` on that satisfy `p`, in order. */
  function Filter(n: nat, p: nat -> bool, from: nat): seq<nat>
    requires from <= n
    decreases n - from
  {
    if from == n then [] else (if p(from) then [from] else []) + Filter(n, p, from + 1)
  }

  function Starts(events: seq<Event>): nat -> bool {
    (i: nat) => i < |events| && IsStart(events[i])
  }

  function Spawns(events: seq<Event>): nat -> bool {
    (i: nat) => i < |events| && IsSpawn(events[i])
  }

  /** `slice(0, n)`. */
  function Take(s: seq<nat>, n: nat): seq<nat> {
    if n == 0 || s == [] then [] else [s[0]] + Take(s[1..], n - 1)
  }

  lemma {:induction false} TakeMembers(s: seq<nat>, n: nat)
    ensures |Take(s, n)| == if n <= |s| then n else |s|
    ensures forall x :: x in Take(s, n) ==> x in s
  {
    if n > 0 && s != [] { TakeMembers(s[1..], n - 1); }
  }

  /** `slice(-n)`. */
  function TakeLast(s: seq<nat>, n: nat): seq<nat> {
    if |s| <= n then s else TakeLast(s[1..], n)
  }

  lemma {:induction false} TakeIsPrefix(s: seq<nat>, n: nat)
    ensures Take(s, n) == if n <= |s| then s[..n] else s
  {
    if n > 0 && s != [] { TakeIsPrefix(s[1..], n - 1); }
  }

  lemma {:induction false} TakeLastIsSuffix(s: seq<nat>, n: nat)
    ensures TakeLast(s, n) == if n <= |s| then s[|s| - n..] else s
  {
    if |s| > n { TakeLastIsSuffix(s[1..], n); }
  }

  function Anchors(events: seq<Event>): (anchors: seq<nat>)
    ensures |anchors| <= 3
  {
    TakeMembers(Filter(|events|, Starts(events), 0), 1);
    TakeMembers(Filter(|events|, Spawns(events), 0), 2);
    Take(Filter(|events|, Starts(events), 0), 1) + Take(Filter(|events|, Spawns(events), 0), 2)
  }

  function Unanchored(events: seq<Event>): nat -> bool {
    (i: nat) => i !in Anchors(events)
  }

  function Tail(events: seq<Event>): seq<nat> {
    TakeLast(Filter(|events|, Unanchored(events), 0), MAX_RECENT_EVENTS - |Anchors(events)|)
  }

  function Retained(events: seq<Event>): nat -> bool {
    (i: nat) => i in Anchors(events) || i in Tail(events)
  }

  function Keep(events: seq<Event>, p: nat -> bool, from: nat): seq<Event>
    requires from <= |events|
    decreases |events| - from
  {
    if from == |events| then [] else (if p(from) then [events[from]] else []) + Keep(events, p, from + 1)
  }

  function RecentEvents(events: seq<Event>): seq<Event> {
    if |events| <= MAX_RECENT_EVENTS then events
    else Keep(events, Retained(events), 0)
  }

  // ---------------------------------------------------------------- what it means

  /** What has been anchored in the events already passed. */
  datatype Seen = Seen(started: bool, spawned: nat)

  predicate Anchored(event: Event, seen: Seen) {
    (IsStart(event) && !seen.started) || (IsSpawn(event) && seen.spawned < 2)
  }

  function See(event: Event, seen: Seen): Seen {
    Seen(seen.started || IsStart(event), if IsSpawn(event) then seen.spawned + 1 else seen.spawned)
  }

  /** The events without the first `drop` of those that are not anchored. */
  function DropOldest(events: seq<Event>, seen: Seen, drop: nat): seq<Event> {
    if events == [] || drop == 0 then events
    else if Anchored(events[0], seen) then [events[0]] + DropOldest(events[1..], See(events[0], seen), drop)
    else DropOldest(events[1..], See(events[0], seen), drop - 1)
  }

  function CountUnanchored(events: seq<Event>, seen: Seen): nat {
    if events == [] then 0
    else (if Anchored(events[0], seen) then 0 else 1) + CountUnanchored(events[1..], See(events[0], seen))
  }

  const FRESH := Seen(false, 0)

  function Window(events: seq<Event>): seq<Event> {
    if |events| <= MAX_RECENT_EVENTS then events else DropOldest(events, FRESH, |events| - MAX_RECENT_EVENTS)
  }

  // ---------------------------------------------------------------- the source's projection is the window

  lemma {:induction false} FilterContains(n: nat, p: nat -> bool, from: nat, i: nat)
    requires from <= n
    ensures i in Filter(n, p, from) <==> from <= i < n && p(i)
    decreases n - from
  {
    if from < n { FilterContains(n, p, from + 1, i); }
  }

  /** A later start of the filter leaves a suffix of it. */
  lemma {:induction false} FilterSuffix(n: nat, p: nat -> bool, i: nat)
    requires i <= n
    ensures |Filter(n, p, i)| <= |Filter(n, p, 0)|
    ensures Filter(n, p, 0)[|Filter(n, p, 0)| - |Filter(n, p, i)|..] == Filter(n, p, i)
    ensures forall k :: 0 <= k < |Filter(n, p, 0)| - |Filter(n, p, i)| ==> Filter(n, p, 0)[k] < i
  {
    if i > 0 {
      FilterSuffix(n, p, i - 1);
      var all, before, here := Filter(n, p, 0), Filter(n, p, i - 1), Filter(n, p, i);
      assert before == (if p(i - 1) then [i - 1] else []) + here;
      var cut := |all| - |before|;
      assert all[cut..] == before;
      if p(i - 1) {
        assert all[cut] == before[0];
        assert all[cut + 1..] == before[1..];
      }
    }
  }

  lemma FilterHead(n: nat, p: nat -> bool, i: nat)
    requires i < n && p(i)
    ensures Filter(n, p, i) != [] && Filter(n, p, i)[0] == i && Filter(n, p, i)[1..] == Filter(n, p, i + 1)
    ensures i !in Filter(n, p, i + 1)
  {
    FilterContains(n, p, i + 1, i);
  }

  /** Where `i` stands among the filtered positions. */
  lemma StandsOnce(n: nat, p: nat -> bool, i: nat)
    requires i < n && p(i)
    ensures var all := Filter(n, p, 0);
            var at := |all| - |Filter(n, p, i)|;
            0 <= at < |all| && forall a :: 0 <= a < |all| ==> (all[a] == i <==> a == at)
  {
    FilterSuffix(n, p, i);
    FilterHead(n, p, i);
    var all, rest := Filter(n, p, 0), Filter(n, p, i);
    var at := |all| - |rest|;
    hide Filter;
    assert all[at] == all[at..][0] == i;
    assert all[at + 1..] == all[at..][1..];
    forall a | at < a < |all| ensures all[a] != i { assert all[a] == all[at + 1..][a - at - 1]; }
    forall a | 0 <= a < at ensures all[a] != i { FilterOrdered(n, p, 0, a, at); }
  }

  lemma AmongFirst(n: nat, p: nat -> bool, i: nat, k: nat)
    requires i < n && p(i)
    ensures i in Take(Filter(n, p, 0), k) <==> |Filter(n, p, 0)| - |Filter(n, p, i)| < k
  {
    hide Filter, Take;
    StandsOnce(n, p, i);
    var all := Filter(n, p, 0);
    TakeIsPrefix(all, k);
    var at := |all| - |Filter(n, p, i)|;
    if at < k { assert Take(all, k)[at] == i; }
  }

  lemma AmongLast(n: nat, p: nat -> bool, i: nat, k: nat)
    requires i < n && p(i)
    ensures i in TakeLast(Filter(n, p, 0), k) <==> |Filter(n, p, i)| <= k
  {
    hide Filter, TakeLast;
    StandsOnce(n, p, i);
    var all := Filter(n, p, 0);
    var at := |all| - |Filter(n, p, i)|;
    var last := TakeLast(all, k);
    TakeLastIsSuffix(all, k);
    var cut := |all| - |last|;
    assert last == all[cut..];
    if at >= cut { assert last[at - cut] == i; }
    if i in last {
      var b :| 0 <= b < |last| && last[b] == i;
      assert all[cut + b] == i;
    }
  }

  function SeenAt(events: seq<Event>, i: nat): Seen
    requires i <= |events|
  {
    FilterSuffix(|events|, Spawns(events), i);
    Seen(|Filter(|events|, Starts(events), i)| < |Filter(|events|, Starts(events), 0)|,
         |Filter(|events|, Spawns(events), 0)| - |Filter(|events|, Spawns(events), i)|)
  }

  lemma SeeNext(events: seq<Event>, i: nat)
    requires i < |events|
    ensures SeenAt(events, i + 1) == See(events[i], SeenAt(events, i))
  {
    FilterSuffix(|events|, Starts(events), i);
  }

  lemma AnchorsAreAnchored(events: seq<Event>, i: nat)
    requires i < |events|
    ensures i in Anchors(events) <==> Anchored(events[i], SeenAt(events, i))
  {
    hide Take, Filter;
    FilterSuffix(|events|, Starts(events), i);
    FilterSuffix(|events|, Spawns(events), i);
    FilterContains(|events|, Starts(events), 0, i);
    FilterContains(|events|, Spawns(events), 0, i);
    TakeMembers(Filter(|events|, Starts(events), 0), 1);
    TakeMembers(Filter(|events|, Spawns(events), 0), 2);
    if IsStart(events[i]) { AmongFirst(|events|, Starts(events), i, 1); }
    if IsSpawn(events[i]) { AmongFirst(|events|, Spawns(events), i, 2); }
  }

  /** How many unanchored events from `i` on are too many. */
  function Excess(events: seq<Event>, i: nat): nat
    requires i <= |events|
  {
    var rest, room := |Filter(|events|, Unanchored(events), i)|, MAX_RECENT_EVENTS - |Anchors(events)|;
    if rest <= room then 0 else rest - room
  }

  lemma ExcessNext(events: seq<Event>, i: nat)
    requires i < |events|
    ensures Excess(events, i + 1) == if i in Anchors(events) || Excess(events, i) == 0 then Excess(events, i) else Excess(events, i) - 1
  {
  }

  lemma RetainedExactly(events: seq<Event>, i: nat)
    requires i < |events|
    ensures Retained(events)(i) <==> i in Anchors(events) || Excess(events, i) == 0
  {
    if i !in Anchors(events) {
      AmongLast(|events|, Unanchored(events), i, MAX_RECENT_EVENTS - |Anchors(events)|);
    }
  }

  lemma {:induction false} KeepIsDrop(events: seq<Event>, i: nat)
    requires i <= |events|
    ensures Keep(events, Retained(events), i) == DropOldest(events[i..], SeenAt(events, i), Excess(events, i))
    decreases |events| - i
  {
    hide Filter, Anchors, Tail, Excess, SeenAt, Retained;
    if i == |events| {
    } else {
      KeepIsDrop(events, i + 1);
      RetainedExactly(events, i);
      ExcessNext(events, i);
      SeeNext(events, i);
      AnchorsAreAnchored(events, i);
      assert events[i..][1..] == events[i + 1..] && events[i..][0] == events[i];
    }
  }

  function AtMost(n: nat, bound: nat): nat {
    if n <= bound then n else bound
  }

  /** Anchors still to come. */
  function AnchorsFrom(events: seq<Event>, i: nat): nat
    requires i <= |events|
  {
    var seen := SeenAt(events, i);
    AtMost(|Filter(|events|, Starts(events), i)|, if seen.started then 0 else 1)
    + AtMost(|Filter(|events|, Spawns(events), i)|, 2 - AtMost(seen.spawned, 2))
  }

  lemma {:induction false} AnchorsCounted(events: seq<Event>, i: nat)
    requires i <= |events|
    ensures |Filter(|events|, Unanchored(events), i)| + AnchorsFrom(events, i) == |events| - i
    decreases |events| - i
  {
    if i < |events| {
      AnchorsCounted(events, i + 1);
      AnchorsAreAnchored(events, i);
      SeeNext(events, i);
    }
  }

  /** The projection by find, filter and slice drops the oldest unanchored events and nothing else. */
  lemma ProjectionIsWindow(events: seq<Event>)
    ensures RecentEvents(events) == Window(events)
  {
    hide Take;
    if |events| > MAX_RECENT_EVENTS {
      TakeMembers(Filter(|events|, Starts(events), 0), 1);
      TakeMembers(Filter(|events|, Spawns(events), 0), 2);
      AnchorsCounted(events, 0);
      KeepIsDrop(events, 0);
      assert events[0..] == events;
    }
  }

  // ---------------------------------------------------------------- laws of the window

  lemma {:induction false} DropLength(events: seq<Event>, seen: Seen, drop: nat)
    requires drop <= CountUnanchored(events, seen)
    ensures |DropOldest(events, seen, drop)| == |events| - drop
  {
    if events == [] || drop == 0 {
    } else if Anchored(events[0], seen) {
      DropLength(events[1..], See(events[0], seen), drop);
    } else {
      DropLength(events[1..], See(events[0], seen), drop - 1);
    }
  }

  /** At most three events are anchored. */
  lemma {:induction false} FewAnchors(events: seq<Event>, seen: Seen)
    ensures |events| <= CountUnanchored(events, seen) + (if seen.started then 0 else 1) + 2 - AtMost(seen.spawned, 2)
    ensures CountUnanchored(events, seen) <= |events|
  {
    if events != [] { FewAnchors(events[1..], See(events[0], seen)); }
  }

  lemma {:induction false} DropAppend(events: seq<Event>, seen: Seen, drop: nat, next: Event)
    requires drop <= CountUnanchored(events, seen)
    ensures DropOldest(events + [next], seen, drop) == DropOldest(events, seen, drop) + [next]
  {
    if events == [] || drop == 0 {
    } else {
      assert (events + [next])[1..] == events[1..] + [next];
      if Anchored(events[0], seen) {
        DropAppend(events[1..], See(events[0], seen), drop, next);
      } else {
        DropAppend(events[1..], See(events[0], seen), drop - 1, next);
      }
    }
  }

  /** What is dropped is never an anchor, so a later drop sees the same anchors. */
  lemma {:induction false} DropTwice(events: seq<Event>, seen: Seen, first: nat, second: nat)
    ensures DropOldest(DropOldest(events, seen, first), seen, second) == DropOldest(events, seen, first + second)
  {
    if events == [] || first == 0 {
    } else if Anchored(events[0], seen) {
      DropTwice(events[1..], See(events[0], seen), first, second);
    } else {
      DropTwice(events[1..], See(events[0], seen), first - 1, second);
      UnanchoredSeen(DropOldest(events[1..], See(events[0], seen), first - 1), events[0], seen, second);
      UnanchoredSeen(events[1..], events[0], seen, first - 1);
      UnanchoredSeen(events[1..], events[0], seen, first + second - 1);
    }
  }

  /** Passing an unanchored event changes no later anchor. */
  lemma {:induction false} UnanchoredSeen(events: seq<Event>, passed: Event, seen: Seen, drop: nat)
    requires !Anchored(passed, seen)
    ensures DropOldest(events, See(passed, seen), drop) == DropOldest(events, seen, drop)
  {
    SameAnchors(events, See(passed, seen), seen, drop);
  }

  predicate Alike(a: Seen, b: Seen) {
    a.started == b.started && AtMost(a.spawned, 2) == AtMost(b.spawned, 2)
  }

  lemma {:induction false} SameAnchors(events: seq<Event>, a: Seen, b: Seen, drop: nat)
    requires Alike(a, b)
    ensures DropOldest(events, a, drop) == DropOldest(events, b, drop)
  {
    if events == [] || drop == 0 {
    } else {
      SameAnchors(events[1..], See(events[0], a), See(events[0], b), if Anchored(events[0], a) then drop else drop - 1);
    }
  }

  /** One step of the owner: projecting the kept events and the next one is projecting the whole history. */
  lemma WindowStep(events: seq<Event>, next: Event)
    ensures Window(Window(events) + [next]) == Window(events + [next])
  {
    if |events| > MAX_RECENT_EVENTS {
      var excess := |events| - MAX_RECENT_EVENTS;
      FewAnchors(events, FRESH);
      DropLength(events, FRESH, excess);
      DropAppend(events, FRESH, excess, next);
      DropTwice(events + [next], FRESH, excess, 1);
    }
  }

  /** What the owner holds after projecting at every event. */
  function Fold(events: seq<Event>): seq<Event> {
    if events == [] then [] else RecentEvents(Fold(events[..|events| - 1]) + [events[|events| - 1]])
  }

  lemma ProjectionStep(events: seq<Event>, next: Event)
    ensures RecentEvents(RecentEvents(events) + [next]) == RecentEvents(events + [next])
  {
    ProjectionIsWindow(events);
    ProjectionIsWindow(Window(events) + [next]);
    ProjectionIsWindow(events + [next]);
    WindowStep(events, next);
  }

  /** The incremental projection is the projection of the full history. */
  lemma {:induction false} IncrementalIsBatch(events: seq<Event>)
    ensures Fold(events) == RecentEvents(events)
  {
    if events != [] {
      var before, next := events[..|events| - 1], events[|events| - 1];
      calc {
        Fold(events);
      ==
        RecentEvents(Fold(before) + [next]);
      == { IncrementalIsBatch(before); }
        RecentEvents(RecentEvents(before) + [next]);
      == { ProjectionStep(before, next); }
        RecentEvents(before + [next]);
      == { assert before + [next] == events; }
        RecentEvents(events);
      }
    }
  }

  lemma ProjectionBounded(events: seq<Event>)
    ensures |RecentEvents(events)| == AtMost(|events|, MAX_RECENT_EVENTS)
    ensures RecentEvents(RecentEvents(events)) == RecentEvents(events)
  {
    ProjectionIsWindow(events);
    if |events| > MAX_RECENT_EVENTS {
      FewAnchors(events, FRESH);
      DropLength(events, FRESH, |events| - MAX_RECENT_EVENTS);
    }
  }

  // ---------------------------------------------------------------- what survives

  lemma {:induction false} FilterOrdered(n: nat, p: nat -> bool, from: nat, a: nat, b: nat)
    requires from <= n && a < b < |Filter(n, p, from)|
    ensures from <= Filter(n, p, from)[a] < Filter(n, p, from)[b] < n
    decreases n - from
  {
    var rest, all := Filter(n, p, from + 1), Filter(n, p, from);
    if p(from) {
      if a > 0 {
        FilterOrdered(n, p, from + 1, a - 1, b - 1);
      } else {
        assert rest[b - 1] in rest;
        FilterContains(n, p, from + 1, rest[b - 1]);
        assert all[b] == rest[b - 1];
      }
    } else {
      FilterOrdered(n, p, from + 1, a, b);
    }
  }

  /** The kept events are those at the kept positions, which increase: a subsequence of the history. */
  lemma {:induction false} KeepsInOrder(events: seq<Event>, p: nat -> bool, from: nat, k: nat)
    requires from <= |events| && k < |Filter(|events|, p, from)|
    ensures |Keep(events, p, from)| == |Filter(|events|, p, from)|
    ensures Filter(|events|, p, from)[k] < |events|
    ensures Keep(events, p, from)[k] == events[Filter(|events|, p, from)[k]]
    decreases |events| - from
  {
    if p(from) {
      if k > 0 { KeepsInOrder(events, p, from + 1, k - 1); } else { KeepLength(events, p, from + 1); }
    } else {
      KeepsInOrder(events, p, from + 1, k);
    }
  }

  lemma {:induction false} KeepLength(events: seq<Event>, p: nat -> bool, from: nat)
    requires from <= |events|
    ensures |Keep(events, p, from)| == |Filter(|events|, p, from)|
    decreases |events| - from
  {
    if from < |events| { KeepLength(events, p, from + 1); }
  }

  /**
   Exactly which event of a long history is kept: the first `run_started`, the first two
   `child_spawned`, and any other one only while fewer unanchored events follow it than there is
   room for.
   */
  lemma KeptExactly(events: seq<Event>, i: nat)
    requires |events| > MAX_RECENT_EVENTS && i < |events|
    ensures Retained(events)(i) <==>
              || (IsStart(events[i]) && forall j :: 0 <= j < i ==> !IsStart(events[j]))
              || (IsSpawn(events[i]) && |Filter(|events|, Spawns(events), 0)| - |Filter(|events|, Spawns(events), i)| < 2)
              || |Filter(|events|, Unanchored(events), i)| <= MAX_RECENT_EVENTS - |Anchors(events)|
  {
    RetainedExactly(events, i);
    AnchorsAreAnchored(events, i);
    FirstStart(events, i);
  }

  lemma FirstStart(events: seq<Event>, i: nat)
    requires i < |events|
    ensures SeenAt(events, i).started <==> exists j :: 0 <= j < i && IsStart(events[j])
  {
    if SeenAt(events, i).started { StartBefore(events, i); }
    if j: nat :| j < i && IsStart(events[j]) { StartCounts(events, i, j); }
  }

  lemma StartBefore(events: seq<Event>, i: nat)
    requires i < |events| && SeenAt(events, i).started
    ensures exists j :: 0 <= j < i && IsStart(events[j])
  {
    var p := Starts(events);
    FilterSuffix(|events|, p, i);
    var first := Filter(|events|, p, 0)[0];
    FilterContains(|events|, p, 0, first);
    assert first < i && IsStart(events[first]);
  }

  lemma StartCounts(events: seq<Event>, i: nat, j: nat)
    requires j < i < |events| && IsStart(events[j])
    ensures SeenAt(events, i).started
  {
    var p := Starts(events);
    FilterSuffix(|events|, p, i);
    FilterContains(|events|, p, 0, j);
    FilterContains(|events|, p, i, j);
  }

  // ---------------------------------------------------------------- how long one event stays

  lemma {:induction false} DropInvents(events: seq<Event>, seen: Seen, drop: nat)
    ensures forall event :: event in DropOldest(events, seen, drop) ==> event in events
  {
    if events == [] || drop == 0 {
    } else if Anchored(events[0], seen) {
      DropInvents(events[1..], See(events[0], seen), drop);
    } else {
      DropInvents(events[1..], See(events[0], seen), drop - 1);
    }
  }

  /** An event is dropped exactly when every unanchored event before it is, and one more. */
  lemma {:induction false} DroppedExactly(told: seq<Event>, event: Event, rest: seq<Event>, seen: Seen, drop: nat)
    requires event !in told && event !in rest && !IsStart(event) && !IsSpawn(event)
    ensures event in DropOldest(told + [event] + rest, seen, drop) <==> drop <= CountUnanchored(told, seen)
    decreases |told|
  {
    var all := told + [event] + rest;
    if drop == 0 {
      assert all[|told|] == event;
    } else if told == [] {
      assert all[1..] == rest;
      DropInvents(rest, See(event, seen), drop - 1);
    } else {
      assert all[0] == told[0] && all[1..] == told[1..] + [event] + rest;
      DroppedExactly(told[1..], event, rest, See(told[0], seen), if Anchored(told[0], seen) then drop else drop - 1);
    }
  }

  /** How many events are anchored: at most the first start and the first two spawns. */
  function AnchorCount(events: seq<Event>): (n: nat)
    ensures n <= 3
  {
    FewAnchors(events, FRESH);
    |events| - CountUnanchored(events, FRESH)
  }

  /** An event that is no anchor stays exactly as long as it, the events after it and the anchors before it fit. */
  lemma StaysExactly(told: seq<Event>, event: Event, rest: seq<Event>)
    requires event !in told && event !in rest && !IsStart(event) && !IsSpawn(event)
    ensures event in RecentEvents(told + [event] + rest) <==> AnchorCount(told) + 1 + |rest| <= MAX_RECENT_EVENTS
  {
    hide RecentEvents;
    var all := told + [event] + rest;
    ProjectionIsWindow(all);
    if |all| > MAX_RECENT_EVENTS {
      DroppedExactly(told, event, rest, FRESH, |all| - MAX_RECENT_EVENTS);
    } else {
      assert all[|told|] == event;
    }
  }

  lemma {:induction false} DropAppendAll(told: seq<Event>, seen: Seen, drop: nat, tail: seq<Event>)
    requires drop <= CountUnanchored(told, seen)
    ensures DropOldest(told + tail, seen, drop) == DropOldest(told, seen, drop) + tail
    decreases |told|
  {
    if told == [] {
      assert told + tail == tail;
    } else if drop > 0 {
      assert (told + tail)[0] == told[0] && (told + tail)[1..] == told[1..] + tail;
      DropAppendAll(told[1..], See(told[0], seen), if Anchored(told[0], seen) then drop else drop - 1, tail);
    }
  }

  /** The last events are kept, as they are. */
  lemma TailStays(told: seq<Event>, tail: seq<Event>)
    requires |tail| <= MAX_RECENT_EVENTS - 3
    ensures exists head :: RecentEvents(told + tail) == head + tail
  {
    hide RecentEvents;
    ProjectionIsWindow(told + tail);
    if |told + tail| > MAX_RECENT_EVENTS {
      FewAnchors(told, FRESH);
      DropAppendAll(told, FRESH, |told + tail| - MAX_RECENT_EVENTS, tail);
      assert RecentEvents(told + tail) == DropOldest(told, FRESH, |told + tail| - MAX_RECENT_EVENTS) + tail;
    } else {
      assert RecentEvents(told + tail) == told + tail;
    }
  }
}
