/**
 How evenly the rotating strategies spread selections. Only the ids and weights of the
 candidates matter, so loads, health records, statuses and the targets themselves may change
 between the selections, as they do when the dispatcher counts each message it sends.
 */
module Fairness {
  import opened Prelude
  import opened StableHashing
  import opened Router
  import opened BalancerSpec
  import opened Selection
  import opened TargetHistory

  /** What the rotating strategies look at in a candidate. */
  datatype Slot = Slot(id: Id, weight: nat)

  function SlotsOf(ts: seq<Target>): (r: seq<Slot>)
    ensures |r| == |ts| && forall i :: 0 <= i < |ts| ==> r[i] == Slot(ts[i].id, ts[i].weight)
  {
    seq(|ts|, i requires 0 <= i < |ts| => Slot(ts[i].id, ts[i].weight))
  }

  function IdsOf(ts: seq<Target>): (r: seq<Id>)
    ensures |r| == |ts| && forall i :: 0 <= i < |ts| ==> r[i] == ts[i].id
  {
    seq(|ts|, i requires 0 <= i < |ts| => ts[i].id)
  }

  function SlotIds(slots: seq<Slot>): (r: seq<Id>)
    ensures |r| == |slots| && forall i :: 0 <= i < |slots| ==> r[i] == slots[i].id
  {
    seq(|slots|, i requires 0 <= i < |slots| => slots[i].id)
  }

  /** Each id as often as its weight says, and at least once. */
  function Spread(slots: seq<Slot>): seq<Id> {
    if slots == [] then [] else
      var last := |slots| - 1;
      Spread(slots[..last]) + seq(Max(slots[last].weight, 1), _ => slots[last].id)
  }

  /** The ring a rotating strategy walks. */
  function Ring(strategy: Strategy, slots: seq<Slot>): seq<Id> {
    if strategy == Weighted then Spread(slots) else SlotIds(slots)
  }

  /** A candidate's share of one turn of the ring. */
  function Share(strategy: Strategy, weight: nat): nat {
    if strategy == Weighted then Max(weight, 1) else 1
  }

  predicate Rotating(strategy: Strategy) {
    strategy == RoundRobin || strategy == Weighted
  }

  // ── Shares ─────────────────────────────────────────────────────────

  lemma {:induction false} CopiesCount(x: Id, n: nat, id: Id)
    ensures multiset(seq(n, _ => x))[id] == if id == x then n else 0
  {
    if n == 0 {
    } else {
      CopiesCount(x, n - 1, id);
      assert seq(n, _ => x) == seq(n - 1, _ => x) + [x];
    }
  }

  lemma FrontIds(slots: seq<Slot>)
    requires slots != [] && NoDup(SlotIds(slots))
    ensures var front, last := slots[..|slots| - 1], slots[|slots| - 1];
      slots == front + [last] && NoDup(SlotIds(front)) && forall s :: s in front ==> s.id != last.id
  {
    var ids := SlotIds(slots);
    forall i, j | 0 <= i < j < |slots| ensures slots[i].id != slots[j].id {
      assert ids[i] != ids[j];
    }
  }

  ghost predicate HasId(slots: seq<Slot>, id: Id) {
    exists s :: s in slots && s.id == id
  }

  lemma {:induction false} SpreadShares(slots: seq<Slot>, s: Slot)
    requires NoDup(SlotIds(slots))
    ensures s in slots ==> multiset(Spread(slots))[s.id] == Max(s.weight, 1)
    ensures !HasId(slots, s.id) ==> multiset(Spread(slots))[s.id] == 0
    decreases |slots|
  {
    if slots == [] {
    } else {
      var front, last := slots[..|slots| - 1], slots[|slots| - 1];
      FrontIds(slots);
      SpreadShares(front, s);
      CopiesCount(last.id, Max(last.weight, 1), s.id);
      assert last in slots && (forall x :: x in front ==> x in slots);
    }
  }

  lemma {:induction false} OnceEach(slots: seq<Slot>, s: Slot)
    requires NoDup(SlotIds(slots))
    ensures s in slots ==> multiset(SlotIds(slots))[s.id] == 1
    ensures !HasId(slots, s.id) ==> multiset(SlotIds(slots))[s.id] == 0
    decreases |slots|
  {
    if slots == [] {
    } else {
      var front, last := slots[..|slots| - 1], slots[|slots| - 1];
      FrontIds(slots);
      OnceEach(front, s);
      assert SlotIds(slots) == SlotIds(front) + [last.id];
      assert last in slots && (forall x :: x in front ==> x in slots);
    }
  }

  lemma RingShares(strategy: Strategy, slots: seq<Slot>, s: Slot)
    requires NoDup(SlotIds(slots)) && s in slots
    ensures multiset(Ring(strategy, slots))[s.id] == Share(strategy, s.weight)
  {
    if strategy == Weighted { SpreadShares(slots, s); } else { OnceEach(slots, s); }
  }

  // ── The ring of targets and the ring of ids ────────────────────────

  lemma {:induction false} ExpandIds(ts: seq<Target>)
    ensures IdsOf(Expand(ts)) == Spread(SlotsOf(ts))
    decreases |ts|
  {
    if ts == [] {
    } else {
      var front, last := ts[..|ts| - 1], ts[|ts| - 1];
      ExpandIds(front);
      assert SlotsOf(ts)[..|ts| - 1] == SlotsOf(front);
      var n := Max(last.weight, 1);
      assert IdsOf(seq(n, _ => last)) == seq(n, _ => last.id);
      IdsConcat(Expand(front), seq(n, _ => last));
    }
  }

  lemma IdsConcat(a: seq<Target>, b: seq<Target>)
    ensures IdsOf(a + b) == IdsOf(a) + IdsOf(b)
  {
  }

  lemma RingNotEmpty(strategy: Strategy, slots: seq<Slot>)
    requires slots != []
    ensures Ring(strategy, slots) != []
  {
    if strategy == Weighted {
      var last := |slots| - 1;
      assert |Spread(slots)| == |Spread(slots[..last])| + Max(slots[last].weight, 1);
    }
  }

  /** A rotating strategy picks the id in the next place of the ring and leaves the cursor there. */
  lemma PickTakesNext(strategy: Strategy, ts: seq<Target>, cursor: Option<nat>, key: Option<Bytes>)
    requires Rotating(strategy) && ts != []
    ensures Ring(strategy, SlotsOf(ts)) != []
    ensures var ring := Ring(strategy, SlotsOf(ts)); var (next, t) := Pick(strategy, ts, cursor, key);
      next == RoundRobinIndex(cursor, |ring|) && t.Some? && t.value.id == ring[next.value]
  {
    RingNotEmpty(strategy, SlotsOf(ts));
    if strategy == Weighted {
      ExpandIds(ts);
      assert |Expand(ts)| == |Spread(SlotsOf(ts))|;
    } else {
      assert SlotIds(SlotsOf(ts)) == IdsOf(ts);
    }
  }

  // ── Runs ───────────────────────────────────────────────────────────

  /** The candidates a selection at `now` would choose from. */
  function SlotsAt(b: Balancer, now: nat): seq<Slot> {
    SlotsOf(CandidateTargets(Refreshed(b, now), now))
  }

  /** A selection finds the candidates `slots`, in this order; a removal does not clamp the cursor. Anything else may happen. */
  ghost predicate SteadyStep(b: Balancer, op: Op, slots: seq<Slot>)
    requires Ordered(b)
  {
    && (op.OpSelect? ==> SlotsAt(b, op.now) == slots)
    && (op.OpRemove? ==> Step(b, op).0.cursor == b.cursor)
  }

  ghost predicate Steady(b: Balancer, ops: seq<Op>, slots: seq<Slot>)
    requires Ordered(b)
    decreases |ops|
  {
    ops == [] ||
      (SteadyStep(b, ops[0], slots) && (StepKeepsOrder(b, ops[0]); Steady(Step(b, ops[0]).0, ops[1..], slots)))
  }

  /** The ids a run selects, in order. */
  ghost function Picked(b: Balancer, ops: seq<Op>): seq<Id>
    requires Ordered(b)
    decreases |ops|
  {
    if ops == [] then []
    else
      StepKeepsOrder(b, ops[0]);
      var t := Step(b, ops[0]).1;
      (if t.Some? then [t.value.id] else []) + Picked(Step(b, ops[0]).0, ops[1..])
  }

  lemma SelectTakesNext(b: Balancer, key: Option<Bytes>, now: nat, slots: seq<Slot>)
    requires Ordered(b) && Rotating(b.strategy) && slots != [] && SlotsAt(b, now) == slots
    ensures Ring(b.strategy, slots) != []
    ensures var ring := Ring(b.strategy, slots); var next := RoundRobinIndex(b.cursor, |ring|); var (after, t) := Select(b, key, now);
      t.Some? && t.value.id == ring[next.value] && after.cursor == next
  {
    RefreshKeepsTargets(b, now);
    var c := Refreshed(b, now);
    PickTakesNext(c.strategy, CandidateTargets(c, now), c.cursor, key);
    hide CandidateTargets;
    hide Pick;
    hide Diagnose;
  }

  /** Nothing but a selection moves the cursor of a steady run. */
  lemma OthersKeepCursor(b: Balancer, op: Op, slots: seq<Slot>)
    requires Ordered(b) && SteadyStep(b, op, slots) && !op.OpSelect?
    ensures Step(b, op).0.cursor == b.cursor && Step(b, op).1 == None
  {
    if op.OpRefreshAll? { RefreshSomeKeepsTargets(b, b.ids, op.now); }
  }

  lemma VisitsCons(last: Option<nat>, ring: seq<Id>, k: nat)
    requires ring != []
    ensures var next := RoundRobinIndex(last, |ring|);
      Visits(last, ring, k + 1) == [ring[next.value]] + Visits(next, ring, k)
  {
    var next := RoundRobinIndex(last, |ring|);
    var walk, rest := Walk(last, |ring|, k + 1), Walk(next, |ring|, k);
    assert walk == [next.value] + rest;
    var left, right := Visits(last, ring, k + 1), [ring[next.value]] + Visits(next, ring, k);
    forall i | 0 <= i <= k ensures left[i] == right[i] {
      assert i > 0 ==> walk[i] == rest[i - 1];
    }
  }

  /** The selections of a steady run read the ring place after place, whatever happens between them. */
  lemma {:induction false} SelectionsWalkTheRing(b: Balancer, ops: seq<Op>, slots: seq<Slot>)
    requires Ordered(b) && Rotating(b.strategy) && slots != [] && Steady(b, ops, slots)
    ensures Ring(b.strategy, slots) != []
    ensures Picked(b, ops) == Visits(b.cursor, Ring(b.strategy, slots), Selections(ops))
    decreases |ops|
  {
    hide Ring;
    hide Step;
    hide SteadyStep;
    RingNotEmpty(b.strategy, slots);
    if ops == [] {
    } else {
      var ring, op, k := Ring(b.strategy, slots), ops[0], Selections(ops[1..]);
      StepKeepsOrder(b, op);
      var (after, t) := Step(b, op);
      SelectionsWalkTheRing(after, ops[1..], slots);
      if op.OpSelect? {
        StepWalks(b, op, slots);
        VisitsCons(b.cursor, ring, k);
        assert Picked(b, ops) == [t.value.id] + Picked(after, ops[1..]);
      } else {
        OthersKeepCursor(b, op, slots);
        assert Picked(b, ops) == [] + Picked(after, ops[1..]);
      }
    }
  }

  lemma StepWalks(b: Balancer, op: Op, slots: seq<Slot>)
    requires Ordered(b) && Rotating(b.strategy) && slots != [] && op.OpSelect? && SteadyStep(b, op, slots)
    ensures Ring(b.strategy, slots) != []
    ensures var ring := Ring(b.strategy, slots); var next := RoundRobinIndex(b.cursor, |ring|); var (after, t) := Step(b, op);
      t.Some? && t.value.id == ring[next.value] && after.cursor == next
  {
    SelectTakesNext(b, op.key, op.now, slots);
    hide Ring;
    hide Select;
    hide SlotsAt;
  }

  lemma {:induction false} UpWithNoDup(b: Balancer, ids: seq<Id>, now: nat, circuit: CircuitState)
    requires NoDup(ids)
    ensures NoDup(UpWith(b, ids, now, circuit))
    decreases |ids|
  {
    if ids == [] {
    } else {
      var last := |ids| - 1;
      UpWithNoDup(b, ids[..last], now, circuit);
      UpWithMembers(b, ids[..last], now, circuit);
      assert ids[last] !in ids[..last];
    }
  }

  lemma SlotsDistinct(b: Balancer, now: nat)
    requires Ordered(b)
    ensures NoDup(SlotIds(SlotsAt(b, now)))
  {
    RefreshKeepsTargets(b, now);
    var c := Refreshed(b, now);
    UpWithNoDup(c, c.ids, now, Closed);
    UpWithNoDup(c, c.ids, now, HalfOpen);
    CandidatesKnown(c, now);
    assert SlotIds(SlotsAt(b, now)) == Candidates(c, now);
  }

  /** A run that selects at all has found its candidates, and they are distinct. */
  lemma {:induction false} SteadyDistinct(b: Balancer, ops: seq<Op>, slots: seq<Slot>)
    requires Ordered(b) && Steady(b, ops, slots) && Selections(ops) > 0
    ensures NoDup(SlotIds(slots))
    decreases |ops|
  {
    hide Step;
    hide SlotsAt;
    StepKeepsOrder(b, ops[0]);
    if ops[0].OpSelect? {
      SlotsDistinct(b, ops[0].now);
    } else {
      SteadyDistinct(Step(b, ops[0]).0, ops[1..], slots);
    }
  }

  // ── Fairness ───────────────────────────────────────────────────────

  lemma NoTurns(turns: nat, places: nat, rest: nat)
    requires places > 0 && turns * places + rest == 0
    ensures turns == 0 && rest == 0
  {
    assert turns > 0 ==> turns * places >= places;
  }

  /** What a steady run picks is counted on the ring, where each candidate has its share. */
  lemma {:induction false} PicksAreVisits(b: Balancer, ops: seq<Op>, slots: seq<Slot>, s: Slot)
    requires Ordered(b) && Rotating(b.strategy) && Steady(b, ops, slots) && s in slots && Selections(ops) > 0
    ensures var ring := Ring(b.strategy, slots);
      ring != [] && Picked(b, ops) == Visits(b.cursor, ring, Selections(ops)) && multiset(ring)[s.id] == Share(b.strategy, s.weight)
  {
    SelectionsWalkTheRing(b, ops, slots);
    SteadyDistinct(b, ops, slots);
    RingShares(b.strategy, slots, s);
  }

  lemma {:induction false} NothingPicked(b: Balancer, ops: seq<Op>, slots: seq<Slot>)
    requires Ordered(b) && Rotating(b.strategy) && slots != [] && Steady(b, ops, slots) && Selections(ops) == 0
    ensures Picked(b, ops) == []
  {
    SelectionsWalkTheRing(b, ops, slots);
  }

  /**
   In a run whose selections all find the same candidate ids and weights, `turns` full turns of
   the ring, begun at any cursor, in range or not, select each candidate exactly `turns` times
   its share: its weight (at least one) under the weighted strategy, one under round robin.
   */
  lemma {:induction false} FullTurnsAreFair(b: Balancer, ops: seq<Op>, slots: seq<Slot>, turns: nat, s: Slot)
    requires Ordered(b) && Rotating(b.strategy) && Steady(b, ops, slots) && s in slots
    requires Selections(ops) == turns * |Ring(b.strategy, slots)|
    ensures multiset(Picked(b, ops))[s.id] == turns * Share(b.strategy, s.weight)
  {
    hide Steady;
    hide Picked;
    hide Ring;
    RingNotEmpty(b.strategy, slots);
    var ring := Ring(b.strategy, slots);
    if Selections(ops) == 0 {
      NothingPicked(b, ops, slots);
      NoTurns(turns, |ring|, 0);
    } else {
      PicksAreVisits(b, ops, slots, s);
      TurnsVisitEvenly(b.cursor, ring, turns, s.id);
    }
  }

  /** Any number of selections, full turns or not, gives each candidate its share per turn and at most one share more. */
  lemma {:induction false} EveryRunIsNearlyFair(b: Balancer, ops: seq<Op>, slots: seq<Slot>, turns: nat, rest: nat, s: Slot)
    requires Ordered(b) && Rotating(b.strategy) && Steady(b, ops, slots) && s in slots
    requires Selections(ops) == turns * |Ring(b.strategy, slots)| + rest && rest <= |Ring(b.strategy, slots)|
    ensures turns * Share(b.strategy, s.weight) <= multiset(Picked(b, ops))[s.id] <= turns * Share(b.strategy, s.weight) + Share(b.strategy, s.weight)
  {
    hide Steady;
    hide Picked;
    hide Ring;
    RingNotEmpty(b.strategy, slots);
    var ring := Ring(b.strategy, slots);
    if Selections(ops) == 0 {
      NothingPicked(b, ops, slots);
      NoTurns(turns, |ring|, rest);
    } else {
      PicksAreVisits(b, ops, slots, s);
      VisitsAreShared(b.cursor, ring, turns, rest, s.id);
    }
  }

  // ── Runs that are steady ───────────────────────────────────────────

  /** The calls the dispatcher makes while the fleet stays as it is. */
  predicate Routine(op: Op) {
    op.OpSelect? || op.OpLoad? || op.OpRecord? || op.OpRefreshAll?
  }

  /** The same targets, in the same order, with the same weights and statuses. */
  ghost predicate SameFleet(b: Balancer, c: Balancer) {
    && b.runtime.None? && c.runtime.None? && c.ids == b.ids && c.targets.Keys == b.targets.Keys
    && forall i :: i in b.targets ==>
         c.targets[i].id == b.targets[i].id && c.targets[i].weight == b.targets[i].weight && c.targets[i].status == b.targets[i].status
  }

  lemma {:induction false} SameFleetUp(b: Balancer, c: Balancer, ids: seq<Id>, now: nat, later: nat, circuit: CircuitState)
    requires SameFleet(b, c)
    ensures UpWith(c, ids, later, circuit) == UpWith(b, ids, now, circuit)
    decreases |ids|
  {
    if ids == [] {
    } else {
      SameFleetUp(b, c, ids[..|ids| - 1], now, later, circuit);
    }
  }

  lemma SameFleetSlots(b: Balancer, c: Balancer, now: nat, later: nat)
    requires SameFleet(b, c)
    ensures SlotsAt(c, later) == SlotsAt(b, now)
  {
    SameFleetUp(b, c, b.ids, now, later, Closed);
    SameFleetUp(b, c, b.ids, now, later, HalfOpen);
    CandidatesKnown(b, now);
    CandidatesKnown(c, later);
  }

  lemma RoutineKeepsFleet(b: Balancer, c: Balancer, op: Op)
    requires SameFleet(b, c) && Ordered(c) && Routine(op)
    ensures SameFleet(b, Step(c, op).0)
  {
    match op
    case OpSelect(key, now) => RefreshKeepsTargets(c, now);
    case OpRefreshAll(now) => RefreshSomeKeepsTargets(c, c.ids, now);
    case _ =>
  }

  lemma {:induction false} RoutineIsSteadyFrom(b: Balancer, c: Balancer, ops: seq<Op>, now: nat)
    requires SameFleet(b, c) && Ordered(c) && forall i :: 0 <= i < |ops| ==> Routine(ops[i])
    ensures Steady(c, ops, SlotsAt(b, now))
    decreases |ops|
  {
    hide SlotsAt;
    hide Step;
    hide SameFleet;
    if ops == [] {
    } else {
      StepKeepsOrder(c, ops[0]);
      RoutineKeepsFleet(b, c, ops[0]);
      if ops[0].OpSelect? { SameFleetSlots(b, c, now, ops[0].now); }
      RoutineIsSteadyFrom(b, Step(c, ops[0]).0, ops[1..], now);
    }
  }

  /** Without a runtime, selections, load updates, records and refreshes never change the candidates. */
  lemma {:induction false} RoutineIsSteady(b: Balancer, ops: seq<Op>, now: nat)
    requires Ordered(b) && b.runtime.None? && forall i :: 0 <= i < |ops| ==> Routine(ops[i])
    ensures Steady(b, ops, SlotsAt(b, now))
  {
    RoutineIsSteadyFrom(b, b, ops, now);
  }

  /**
   So a dispatcher over a fixed fleet without a runtime is fair whatever it reports about load
   and health in between: full turns select each available target exactly its share per turn.
   */
  lemma {:induction false} DispatchingIsFair(b: Balancer, ops: seq<Op>, turns: nat, id: Id)
    requires Ordered(b) && b.runtime.None? && Rotating(b.strategy) && IsAvailable(b, id)
    requires forall i :: 0 <= i < |ops| ==> Routine(ops[i])
    requires Selections(ops) == turns * |Ring(b.strategy, SlotsAt(b, 0))|
    ensures multiset(Picked(b, ops))[id] == turns * Share(b.strategy, b.targets[id].weight)
  {
    RoutineIsSteady(b, ops, 0);
    AvailableHasSlot(b, id);
    FullTurnsAreFair(b, ops, SlotsAt(b, 0), turns, Slot(id, b.targets[id].weight));
  }

  lemma AvailableHasSlot(b: Balancer, id: Id)
    requires Ordered(b) && b.runtime.None? && IsAvailable(b, id)
    ensures Slot(id, b.targets[id].weight) in SlotsAt(b, 0)
  {
    CandidatesAreEligible(b, 0);
    WithoutRuntimeAvailableIsEligible(b, 0);
    var ids := Candidates(b, 0);
    assert id in ids;
    var i :| 0 <= i < |ids| && ids[i] == id;
    assert SlotsAt(b, 0)[i] == Slot(id, b.targets[id].weight);
  }

  // ── The order of the targets ───────────────────────────────────────

  /** Every target is up: no runtime watches them and all are available. */
  ghost predicate AllUp(b: Balancer) {
    b.runtime.None? && forall i :: i in b.targets ==> b.targets[i].status == Available
  }

  lemma {:induction false} AllUpListed(b: Balancer, ids: seq<Id>, now: nat)
    requires AllUp(b) && forall i :: i in ids ==> i in b.targets
    ensures UpWith(b, ids, now, Closed) == ids
    decreases |ids|
  {
    if ids == [] {
    } else {
      AllUpListed(b, ids[..|ids| - 1], now);
      assert ids == ids[..|ids| - 1] + [ids[|ids| - 1]];
    }
  }

  lemma AllUpSlots(b: Balancer, now: nat)
    requires Ordered(b) && AllUp(b)
    ensures SlotIds(SlotsAt(b, now)) == b.ids
  {
    AllUpListed(b, b.ids, now);
    assert Refreshed(b, now) == b;
    CandidatesKnown(b, now);
    assert Candidates(b, now) == b.ids;
  }

  /** Round robin over targets that are all up picks the one after the cursor, or the first without one, in the order of the ids. */
  lemma NextInOrder(b: Balancer, key: Option<Bytes>, now: nat)
    requires Ordered(b) && AllUp(b) && b.strategy == RoundRobin && b.ids != []
    ensures var (after, t) := Select(b, key, now); var next := RoundRobinIndex(b.cursor, |b.ids|);
      t.Some? && t.value.id == b.ids[next.value] && after.cursor == next && after == b.(cursor := after.cursor, stats := after.stats, diagnostics := after.diagnostics)
  {
    AllUpSlots(b, now);
    SelectTakesNext(b, key, now, SlotsAt(b, now));
    assert Refreshed(b, now) == b;
    hide Pick;
    hide Diagnose;
  }

  function Adding(ts: seq<Target>): seq<Op> {
    seq(|ts|, i requires 0 <= i < |ts| => OpAdd(ts[i], 0))
  }

  /** The balancer holds these targets in this order, and nothing has been selected yet. */
  ghost predicate Lists(b: Balancer, ts: seq<Target>) {
    && b.ids == IdsOf(ts) && b.runtime == None && b.cursor == None
    && forall i :: 0 <= i < |ts| ==> ts[i].id in b.targets && b.targets[ts[i].id] == ts[i]
  }

  lemma AddOne(b: Balancer, ts: seq<Target>, t: Target)
    requires Ordered(b) && Lists(b, ts) && forall i :: 0 <= i < |ts| ==> ts[i].id != t.id
    ensures Lists(Step(b, OpAdd(t, 0)).0, ts + [t])
  {
    assert t.id !in b.ids;
    var c := AddTarget(b, t, 0);
    assert c.ids == b.ids + [t.id] == IdsOf(ts + [t]);
  }

  /** Targets with ids of their own stand in the order they were added. */
  lemma {:induction false} AddedInOrder(strategy: Strategy, ts: seq<Target>)
    requires NoDup(IdsOf(ts))
    ensures Lists(After(strategy, None, Adding(ts)), ts) && After(strategy, None, Adding(ts)).strategy == strategy
    decreases |ts|
  {
    hide Lists;
    hide Step;
    if ts == [] {
      NothingAdded(strategy);
    } else {
      var front, last := ts[..|ts| - 1], ts[|ts| - 1];
      assert IdsOf(front) == IdsOf(ts)[..|ts| - 1];
      AddedInOrder(strategy, front);
      assert Adding(ts) == Adding(front) + [OpAdd(last, 0)];
      AfterSnoc(strategy, None, Adding(front), OpAdd(last, 0));
      forall i | 0 <= i < |front| ensures front[i].id != last.id { assert IdsOf(ts)[i] != IdsOf(ts)[|ts| - 1]; }
      hide After;
      AddOne(After(strategy, None, Adding(front)), front, last);
      StepKeepsOrder(After(strategy, None, Adding(front)), OpAdd(last, 0));
      assert front + [last] == ts;
    }
  }

  lemma NothingAdded(strategy: Strategy)
    ensures Lists(After(strategy, None, Adding([])), []) && After(strategy, None, Adding([])).strategy == strategy
  {
  }

  lemma AddedAllUp(ts: seq<Target>)
    requires NoDup(IdsOf(ts)) && forall i :: 0 <= i < |ts| ==> ts[i].status == Available
    ensures AllUp(After(RoundRobin, None, Adding(ts)))
  {
    var b := After(RoundRobin, None, Adding(ts));
    AddedInOrder(RoundRobin, ts);
    hide After;
    forall i | i in b.targets ensures b.targets[i].status == Available {
      assert i in b.ids;
      var k :| 0 <= k < |ts| && b.ids[k] == i;
      assert b.targets[ts[k].id] == ts[k];
    }
  }

  /** The first turn of a new round-robin balancer takes its targets in the order they were added. */
  lemma {:induction false} FirstTurnAsAdded(ts: seq<Target>, asks: seq<Op>)
    requires ts != [] && NoDup(IdsOf(ts)) && forall i :: 0 <= i < |ts| ==> ts[i].status == Available
    requires |asks| == |ts| && forall i :: 0 <= i < |asks| ==> asks[i].OpSelect?
    ensures Picked(After(RoundRobin, None, Adding(ts)), asks) == IdsOf(ts)
  {
    hide After;
    hide Picked;
    hide SlotsAt;
    hide AllUp;
    hide Adding;
    hide Steady;
    var b := After(RoundRobin, None, Adding(ts));
    AddedInOrder(RoundRobin, ts);
    AddedAllUp(ts);
    AllUpSlots(b, 0);
    AllUpUnwatched(b);
    RoutineIsSteady(b, asks, 0);
    SelectionsWalkTheRing(b, asks, SlotsAt(b, 0));
    AllSelections(asks);
    FirstTurnInOrder(IdsOf(ts));
  }

  lemma AllUpUnwatched(b: Balancer)
    requires AllUp(b)
    ensures b.runtime.None?
  {
  }

  lemma {:induction false} AllSelections(ops: seq<Op>)
    requires forall i :: 0 <= i < |ops| ==> ops[i].OpSelect?
    ensures Selections(ops) == |ops|
  {
    if ops == [] {
    } else {
      AllSelections(ops[1..]);
    }
  }

  /** After a removal round robin goes on after the cursor, or starts over if the cursor stood at the end or beyond. */
  lemma {:induction false} RemovalGoesOn(b: Balancer, id: Id, key: Option<Bytes>, now: nat)
    requires Ordered(b) && AllUp(b) && b.strategy == RoundRobin && id in b.targets && |b.ids| > 1
    ensures var c := Step(b, OpRemove(id)).0;
      Ordered(c) && c.ids == Without(b.ids, id) && c.ids != []
      && Select(c, key, now).1.Some?
      && Select(c, key, now).1.value.id == c.ids[if b.cursor.Some? && b.cursor.value + 1 < |c.ids| then b.cursor.value + 1 else 0]
  {
    hide Step;
    hide Select;
    hide AllUp;
    var c := Step(b, OpRemove(id)).0;
    RemovalLeaves(b, id);
    NextInOrder(c, key, now);
    if c.cursor.Some? { NextInRing(c.cursor.value, |c.ids|); }
  }

  lemma {:induction false} RemovalLeaves(b: Balancer, id: Id)
    requires Ordered(b) && AllUp(b) && id in b.targets && |b.ids| > 1
    ensures var c := Step(b, OpRemove(id)).0;
      && Ordered(c) && AllUp(c) && c.ids == Without(b.ids, id) && c.ids != [] && c.strategy == b.strategy
      && c.cursor == if b.cursor.Some? then Some(Min(b.cursor.value, |c.ids| - 1)) else None
  {
    StepKeepsOrder(b, OpRemove(id));
    WithoutNoDup(b.ids, id);
  }
}
