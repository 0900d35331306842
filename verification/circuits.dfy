/** The circuit of each target over timed runs: how it opens, stays unused, and closes again. */
module Circuits {
  import opened Prelude
  import opened StableHashing
  import opened Router
  import opened BalancerSpec
  import opened Selection

  /** What every health record keeps. */
  ghost predicate Sound(rt: Runtime, h: Health) {
    && (h.circuit == Open <==> h.openedAt.Some?)
    && (h.circuit == Closed ==> h.failures < FailureThreshold(rt))
  }

  lemma EventKeepsSound(rt: Runtime, h: Health, e: HealthEvent, now: nat)
    requires Sound(rt, h)
    ensures Sound(rt, OnEvent(rt, h, e, now))
  {
  }

  lemma InitialSound(rt: Runtime, now: nat)
    ensures Sound(rt, InitialHealth(rt, now))
  {
  }

  ghost predicate AllSound(b: Balancer) {
    b.runtime.Some? ==> forall i :: i in b.health ==> Sound(b.runtime.value, b.health[i])
  }

  lemma RecordKeepsSound(b: Balancer, id: Id, e: HealthEvent, now: nat)
    requires AllSound(b)
    ensures AllSound(Record(b, id, e, now))
  {
    if b.runtime.Some? {
      InitialSound(b.runtime.value, now);
      EventKeepsSound(b.runtime.value, Entry(b.runtime.value, b.health, id, now), e, now);
    }
  }

  lemma {:induction false} RefreshSomeKeepsSound(b: Balancer, ids: seq<Id>, now: nat)
    requires AllSound(b)
    ensures AllSound(RefreshSome(b, ids, now))
    decreases |ids|
  {
    if ids == [] {
    } else {
      RefreshSomeKeepsSound(b, ids[..|ids| - 1], now);
      RecordKeepsSound(RefreshSome(b, ids[..|ids| - 1], now), ids[|ids| - 1], Refresh, now);
    }
  }

  lemma StepKeepsSound(b: Balancer, op: Op)
    requires Ordered(b) && AllSound(b)
    ensures AllSound(Step(b, op).0)
  {
    match op
    case OpAdd(t, now) => if b.runtime.Some? { InitialSound(b.runtime.value, now); }
    case OpRecord(id, e, now) => RecordKeepsSound(b, id, e, now);
    case OpRefreshAll(now) => RefreshSomeKeepsSound(b, b.ids, now);
    case OpSelect(key, now) =>
      RefreshKeepsTargets(b, now);
      RefreshSomeKeepsSound(b, b.ids, now);
    case _ =>
  }

  /** In every run: a circuit is open exactly when its opening time is set, and closed only below the failure threshold. */
  lemma {:induction false} RunKeepsSound(b: Balancer, ops: seq<Op>)
    requires Ordered(b) && AllSound(b)
    ensures AllSound(Run(b, ops))
    decreases |ops|
  {
    if ops == [] {
    } else {
      StepKeepsOrder(b, ops[0]);
      StepKeepsSound(b, ops[0]);
      RunKeepsSound(Step(b, ops[0]).0, ops[1..]);
    }
  }

  // ── One target's record under one call ─────────────────────────────

  /** Recording an event on one target changes that target's record and no other. */
  lemma RecordAt(b: Balancer, x: Id, e: HealthEvent, now: nat, id: Id)
    requires b.runtime.Some? && x in b.targets
    ensures var c, rt := Record(b, x, e, now), b.runtime.value;
      && (id == x ==> id in c.health && c.health[id] == OnEvent(rt, Entry(rt, b.health, id, now), e, now))
      && (id != x ==> (id in c.health <==> id in b.health) && (id in b.health ==> c.health[id] == b.health[id]))
  {
    hide OnEvent;
  }

  lemma {:induction false} RefreshSomeAt(b: Balancer, ids: seq<Id>, now: nat, id: Id)
    requires NoDup(ids) && b.runtime.Some? && forall i :: i in ids ==> i in b.targets
    ensures var c, rt := RefreshSome(b, ids, now), b.runtime.value;
      && (id in ids ==> id in c.health && c.health[id] == OnEvent(rt, Entry(rt, b.health, id, now), Refresh, now))
      && (id !in ids ==> (id in c.health <==> id in b.health) && (id in b.health ==> c.health[id] == b.health[id]))
    decreases |ids|
  {
    hide OnEvent;
    hide Record;
    if ids == [] {
    } else {
      var front, x := ids[..|ids| - 1], ids[|ids| - 1];
      assert ids == front + [x] && x !in front;
      RefreshSomeAt(b, front, now, id);
      RefreshSomeKeepsTargets(b, front, now);
      RecordAt(RefreshSome(b, front, now), x, Refresh, now, id);
      if id == x { RefreshSomeAt(b, front, now, x); }
    }
  }

  /** The call refreshes the target, and at what time. */
  function RefreshTime(b: Balancer, op: Op, id: Id): Option<nat> {
    if id !in b.targets || b.runtime.None? then None
    else match op
      case OpRecord(i, Refresh, now) => if i == id then Some(now) else None
      case OpRefreshAll(now) => Some(now)
      case OpSelect(_, now) => if b.runtime.value.health.Some? && b.runtime.value.health.value.checkOnSelect then Some(now) else None
      case _ => None
  }

  /** How any call but a removal changes the record of a target: an event on it, or nothing. */
  lemma StepAt(b: Balancer, op: Op, id: Id)
    requires Ordered(b) && b.runtime.Some? && id in b.targets && id in b.health && op != OpRemove(id)
    ensures var c, rt, h := Step(b, op).0, b.runtime.value, b.health[id];
      && id in c.targets && id in c.health
      && c.health[id] == (if RefreshTime(b, op, id).Some? then OnRefresh(rt, h, RefreshTime(b, op, id).value)
                          else if op.OpRecord? && op.id == id then OnEvent(rt, h, op.event, op.now)
                          else h)
  {
    match op
    case OpRefreshAll(now) =>
      RefreshSomeAt(b, b.ids, now, id);
      RefreshSomeKeepsTargets(b, b.ids, now);
    case OpSelect(key, now) =>
      RefreshKeepsTargets(b, now);
      RefreshSomeAt(b, b.ids, now, id);
    case _ =>
  }

  // ── Open circuits stay unused ──────────────────────────────────────

  predicate OpenSince(b: Balancer, id: Id, since: nat) {
    id in b.targets && id in b.health && b.health[id].circuit == Open && b.health[id].openedAt == Some(since)
  }

  /** A refresh ends the open state exactly when the cooldown has passed. */
  lemma RefreshEndsOpenExactly(rt: Runtime, h: Health, now: nat)
    requires h.circuit == Open && h.openedAt.Some? && rt.breaker.Some?
    ensures OnRefresh(rt, h, now).circuit == (if SatSub(now, h.openedAt.value) >= rt.breaker.value.cooldown then HalfOpen else Open)
  {
  }

  /** The target is not removed and not refreshed at or after the end of the cooldown. */
  predicate Untimely(b: Balancer, op: Op, id: Id, since: nat)
    requires b.runtime.Some? && b.runtime.value.breaker.Some?
  {
    && op != OpRemove(id)
    && (RefreshTime(b, op, id).Some? ==> SatSub(RefreshTime(b, op, id).value, since) < b.runtime.value.breaker.value.cooldown)
  }

  lemma OpenStepStaysUnused(b: Balancer, op: Op, id: Id, since: nat)
    requires Ordered(b) && b.runtime.Some? && b.runtime.value.breaker.Some? && OpenSince(b, id, since) && Untimely(b, op, id, since)
    ensures OpenSince(Step(b, op).0, id, since)
    ensures Step(b, op).1.Some? ==> Step(b, op).1.value.id != id
  {
    OpenStepStaysOpen(b, op, id, since);
    hide OpenSince;
    if op.OpSelect? {
      RefreshedStaysOpen(b, op.now, id, since);
      SelectionSkipsOpen(b, op.key, op.now, id);
      hide Select;
    }
  }

  lemma OpenStepStaysOpen(b: Balancer, op: Op, id: Id, since: nat)
    requires Ordered(b) && b.runtime.Some? && b.runtime.value.breaker.Some? && OpenSince(b, id, since) && Untimely(b, op, id, since)
    ensures OpenSince(Step(b, op).0, id, since)
  {
    StepAt(b, op, id);
    hide Step;
  }

  lemma SelectionSkipsOpen(b: Balancer, key: Option<Bytes>, now: nat, id: Id)
    requires Ordered(b) && b.runtime.Some? && HealthOf(Refreshed(b, now), id).circuit == Open
    ensures Select(b, key, now).1.Some? ==> Select(b, key, now).1.value.id != id
  {
    SelectionAgreesWithDiagnosis(b, key, now);
    RefreshKeepsTargets(b, now);
    hide Select;
    hide HealthOf;
    hide Refreshed;
  }

  lemma RefreshedStaysOpen(b: Balancer, now: nat, id: Id, since: nat)
    requires Ordered(b) && b.runtime.Some? && b.runtime.value.breaker.Some? && OpenSince(b, id, since)
    requires Untimely(b, OpSelect(None, now), id, since)
    ensures HealthOf(Refreshed(b, now), id).circuit == Open
  {
    RefreshKeepsTargets(b, now);
    RefreshSomeAt(b, b.ids, now, id);
  }

  ghost predicate UntimelyRun(b: Balancer, ops: seq<Op>, id: Id, since: nat)
    requires Ordered(b) && b.runtime.Some? && b.runtime.value.breaker.Some?
    decreases |ops|
  {
    ops == [] || (Untimely(b, ops[0], id, since) && (StepKeepsOrder(b, ops[0]); UntimelyRun(Step(b, ops[0]).0, ops[1..], id, since)))
  }

  ghost function Chosen(b: Balancer, ops: seq<Op>): (r: seq<Option<Target>>)
    requires Ordered(b)
    ensures |r| == |ops|
    decreases |ops|
  {
    if ops == [] then []
    else
      StepKeepsOrder(b, ops[0]);
      [Step(b, ops[0]).1] + Chosen(Step(b, ops[0]).0, ops[1..])
  }

  /**
   A target whose circuit opened is chosen by no selection of any run that neither removes it
   nor refreshes it once the cooldown is over, whatever else is recorded meanwhile.
   */
  lemma {:induction false} OpenStaysUnused(b: Balancer, ops: seq<Op>, id: Id, since: nat)
    requires Ordered(b) && b.runtime.Some? && b.runtime.value.breaker.Some?
    requires OpenSince(b, id, since) && UntimelyRun(b, ops, id, since)
    ensures OpenSince(Run(b, ops), id, since)
    ensures forall i :: 0 <= i < |ops| && Chosen(b, ops)[i].Some? ==> Chosen(b, ops)[i].value.id != id
    decreases |ops|
  {
    if ops == [] {
    } else {
      StepKeepsOrder(b, ops[0]);
      OpenStepStaysUnused(b, ops[0], id, since);
      OpenStaysUnused(Step(b, ops[0]).0, ops[1..], id, since);
    }
  }

  // ── The way back ───────────────────────────────────────────────────

  /** Only a success recorded while half-open closes a circuit, and only a refresh makes it half-open. */
  lemma WayBackToClosed(b: Balancer, op: Op, id: Id)
    requires Ordered(b) && b.runtime.Some? && id in b.targets && id in b.health && op != OpRemove(id)
    ensures id in Step(b, op).0.health
    ensures var h, h' := b.health[id], Step(b, op).0.health[id];
      && (h.circuit != Closed && h'.circuit == Closed ==>
            h.circuit == HalfOpen && op == OpRecord(id, Success, op.now) && h.successes + 1 >= SuccessThreshold(b.runtime.value))
      && (h.circuit != HalfOpen && h'.circuit == HalfOpen ==> h.circuit == Open && RefreshTime(b, op, id).Some?)
      && (h.circuit == HalfOpen && h'.circuit == Open ==> op == OpRecord(id, Failure, op.now) && h'.openedAt == Some(op.now))
  {
    StepAt(b, op, id);
  }

  function Heartbeats(rt: Runtime, h: Health, n: nat, now: nat): Health {
    if n == 0 then h else OnHeartbeat(Heartbeats(rt, h, n - 1, now), true, now)
  }

  /**
   The success threshold is not a number of recorded successes: healthy heartbeats count too,
   so a freshly half-open circuit closes at the first success after `n` of them exactly when
   they and it together reach the threshold.
   */
  lemma {:induction false} HeartbeatsCountAsSuccesses(rt: Runtime, h: Health, n: nat, now: nat)
    requires h.circuit == HalfOpen
    ensures var g := Heartbeats(rt, h, n, now);
      && g.circuit == HalfOpen && g.successes == h.successes + n
      && (OnSuccess(rt, g, now).circuit == Closed <==> h.successes + n + 1 >= SuccessThreshold(rt))
    decreases n
  {
    if n == 0 {
    } else {
      HeartbeatsCountAsSuccesses(rt, h, n - 1, now);
    }
  }
}
