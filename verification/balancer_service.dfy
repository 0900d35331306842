/** The balancer as the program has it: fields updated in place, proved against `BalancerSpec`. */
module BalancerService {
  import opened Prelude
  import opened StableHashing
  import opened Router
  import opened BalancerSpec

  class LoadBalancer {
    const strategy: Strategy
    const runtime: Option<Runtime>
    var ids: seq<Id>
    var targets: map<Id, Target>
    var health: map<Id, Health>
    var cursor: Option<nat>
    var stats: Stats
    var diagnostics: Diagnostics

    function State(): Balancer
      reads this
    {
      Balancer(strategy, runtime, ids, targets, health, cursor, stats, diagnostics)
    }

    ghost predicate Valid()
      reads this
    {
      Ordered(State())
    }

    constructor (strategy: Strategy, runtime: Option<Runtime>)
      ensures Valid() && State() == New(strategy, runtime)
    {
      this.strategy := strategy;
      this.runtime :=
        if runtime.Some? && (runtime.value.breaker.Some? || runtime.value.health.Some?) then runtime else None;
      ids, targets, health, cursor := [], map[], map[], None;
      stats, diagnostics := Stats(0, 0), Diagnostics(multiset{}, multiset{}, None);
    }

    method Add(t: Target, now: nat)
      requires Valid()
      modifies this
      ensures Valid() && State() == AddTarget(old(State()), t, now)
    {
      if t.id !in targets { ids := ids + [t.id]; }
      targets := targets[t.id := t];
      if runtime.Some? && t.id !in health { health := health[t.id := InitialHealth(runtime.value, now)]; }
    }

    method Remove(id: Id) returns (removed: Option<Target>)
      requires Valid()
      modifies this
      ensures Valid() && (State(), removed) == RemoveTarget(old(State()), id)
    {
      if id !in targets { return None; }
      WithoutNoDup(ids, id);
      WithoutMembers(ids, id);
      removed := Some(targets[id]);
      ids := Without(ids, id);
      targets := targets - {id};
      cursor := if |ids| == 0 || cursor.None? then None else Some(Min(cursor.value, |ids| - 1));
      health := health - {id};
    }

    method UpdateTargetLoad(id: Id, op: LoadUpdate, now: nat) returns (load: Option<Load>)
      requires Valid()
      modifies this`targets
      ensures Valid() && State() == UpdateLoad(old(State()), id, op, now)
      ensures load == if id in targets then Some(targets[id].load) else None
    {
      if id !in targets { return None; }
      var l := targets[id].load;
      match op {
        case Inc => l := l.(active := l.active + 1, total := l.total + 1);
        case Dec => l := l.(active := SatSub(l.active, 1));
        case Error => l := l.(active := SatSub(l.active, 1), errors := l.errors + 1, lastErrorAt := Some(now));
        case Reset => l := l.(active := 0);
      }
      targets := targets[id := targets[id].(load := l)];
      load := Some(l);
    }

    method SetTargetStatus(id: Id, status: Status) returns (now: Option<Status>)
      requires Valid()
      modifies this`targets
      ensures Valid() && State() == SetStatus(old(State()), id, status)
      ensures now == if id in targets then Some(targets[id].status) else None
    {
      if id !in targets { return None; }
      targets := targets[id := targets[id].(status := status)];
      now := Some(status);
    }

    /** The record of a target, made on first use. */
    method HealthEntry(id: Id, now: nat) returns (h: Health)
      requires runtime.Some?
      ensures h == Entry(runtime.value, health, id, now)
    {
      h := if id in health then health[id] else InitialHealth(runtime.value, now);
    }

    method RecordSuccess(id: Id, now: nat) returns (reported: Option<Health>)
      modifies this`health
      ensures State() == Record(old(State()), id, Success, now)
      ensures reported == if id in targets then TargetHealth(State(), id) else None
    {
      if id !in targets { return None; }
      if runtime.None? { return Some(DEFAULT_HEALTH); }
      var h := HealthEntry(id, now);
      h := h.(lastCheckedAt := Some(now), healthy := true, failures := 0, successes := h.successes + 1);
      if h.circuit == HalfOpen && h.successes >= SuccessThreshold(runtime.value) {
        h := h.(circuit := Closed, openedAt := None, failures := 0);
      }
      health := health[id := h];
      reported := Some(h);
    }

    method RecordFailure(id: Id, now: nat) returns (reported: Option<Health>)
      modifies this`health
      ensures State() == Record(old(State()), id, Failure, now)
      ensures reported == if id in targets then TargetHealth(State(), id) else None
    {
      if id !in targets { return None; }
      if runtime.None? { return Some(DEFAULT_HEALTH); }
      var h := HealthEntry(id, now);
      h := h.(lastCheckedAt := Some(now), failures := h.failures + 1, successes := 0);
      match h.circuit {
        case HalfOpen => h := OpenCircuit(h, now);
        case Closed => if h.failures >= FailureThreshold(runtime.value) { h := OpenCircuit(h, now); }
        case Open =>
      }
      health := health[id := h];
      reported := Some(h);
    }

    method RecordHeartbeat(id: Id, healthy: bool, now: nat) returns (reported: Option<Health>)
      modifies this`health
      ensures State() == Record(old(State()), id, Heartbeat(healthy), now)
      ensures reported ==
        if id !in targets then None
        else if runtime.None? then Some(DEFAULT_HEALTH.(healthy := healthy, lastCheckedAt := Some(now), lastHeartbeatAt := Some(now)))
        else TargetHealth(State(), id)
    {
      if id !in targets { return None; }
      if runtime.None? {
        return Some(DEFAULT_HEALTH.(healthy := healthy, lastCheckedAt := Some(now), lastHeartbeatAt := Some(now)));
      }
      var h := HealthEntry(id, now);
      h := h.(healthy := healthy, lastCheckedAt := Some(now), lastHeartbeatAt := Some(now));
      h := h.(successes := if healthy then h.successes + 1 else 0);
      health := health[id := h];
      reported := Some(h);
    }

    method RefreshTarget(id: Id, now: nat) returns (reported: Option<Health>)
      modifies this`health
      ensures State() == Record(old(State()), id, Refresh, now)
      ensures reported == if id in targets then TargetHealth(State(), id) else None
    {
      if id !in targets { return None; }
      if runtime.None? { return Some(DEFAULT_HEALTH); }
      var h := HealthEntry(id, now);
      h := h.(lastCheckedAt := Some(now));
      if h.circuit == Open && CooldownElapsed(runtime.value, h, now) {
        h := h.(circuit := HalfOpen, openedAt := None, successes := 0);
      }
      if Expired(runtime.value, h, now) { h := h.(healthy := false); }
      health := health[id := h];
      reported := Some(h);
    }

    method RefreshTargets(now: nat)
      modifies this`health
      ensures State() == RefreshAll(old(State()), now)
    {
      if runtime.None? { return; }
      for i := 0 to |ids|
        invariant State() == RefreshSome(old(State()), ids[..i], now)
      {
        assert ids[..i + 1][..i] == ids[..i];
        var _ := RefreshTarget(ids[i], now);
      }
      assert ids[..|ids|] == ids;
    }

    /** `is_target_routable`: refreshes the target on the way. */
    method IsRoutable(id: Id, now: nat) returns (routable: bool)
      modifies this`health
      ensures State() == if id in targets && targets[id].status == Available then Record(old(State()), id, Refresh, now) else old(State())
      ensures routable <==> id in targets && targets[id].status == Available && HealthOf(State(), id).healthy && HealthOf(State(), id).circuit != Open
    {
      if id !in targets || targets[id].status != Available { return false; }
      var _ := RefreshTarget(id, now);
      var h := HealthOf(State(), id);
      routable := h.circuit != Open && h.healthy;
    }

    /** The loop of `compute_selection` that sorts the targets by circuit and counts them. */
    method SortTargets(now: nat) returns (available: nat, up: nat, open: nat, closed: seq<Id>, halfOpen: seq<Id>)
      requires Valid()
      ensures available == |AvailableIds(State(), ids)| && up == |Up(State(), ids, now)|
      ensures open == |UpWith(State(), ids, now, Open)|
      ensures closed == UpWith(State(), ids, now, Closed) && halfOpen == UpWith(State(), ids, now, HalfOpen)
    {
      available, up, open, closed, halfOpen := 0, 0, 0, [], [];
      for i := 0 to |ids|
        invariant available == |AvailableIds(State(), ids[..i])| && up == |Up(State(), ids[..i], now)|
        invariant open == |UpWith(State(), ids[..i], now, Open)|
        invariant closed == UpWith(State(), ids[..i], now, Closed) && halfOpen == UpWith(State(), ids[..i], now, HalfOpen)
      {
        assert ids[..i + 1][..i] == ids[..i];
        var id := ids[i];
        if !IsAvailable(State(), id) { continue; }
        available := available + 1;
        var h := HealthOf(State(), id);
        if !IsHealthy(State(), h, now) { continue; }
        up := up + 1;
        match h.circuit {
          case Closed => closed := closed + [id];
          case HalfOpen => halfOpen := halfOpen + [id];
          case Open => open := open + 1;
        }
      }
      assert ids[..|ids|] == ids;
    }

    /** The strategies: the two rotating ones move the cursor. */
    method Choose(ts: seq<Target>, key: Option<Bytes>) returns (t: Option<Target>)
      modifies this`cursor
      ensures (cursor, t) == Pick(strategy, ts, old(cursor), key)
    {
      t := None;
      match strategy
      case RoundRobin =>
        var next := RoundRobinIndex(cursor, |ts|);
        if next.Some? { cursor, t := next, Some(ts[next.value]); }
      case Weighted =>
        var ring := [];
        for i := 0 to |ts|
          invariant ring == Expand(ts[..i])
        {
          assert ts[..i + 1][..i] == ts[..i];
          ring := ring + seq(Max(ts[i].weight, 1), _ => ts[i]);
        }
        assert ts[..|ts|] == ts;
        var next := RoundRobinIndex(cursor, |ring|);
        if next.Some? { cursor, t := next, Some(ring[next.value]); }
      case LeastConnections =>
        if ts != [] {
          var least := 0;
          for i := 1 to |ts|
            invariant least == LeastLoaded(ts[..i])
          {
            assert ts[..i + 1][..i] == ts[..i];
            if ts[i].load.active < ts[least].load.active { least := i; }
          }
          assert ts[..|ts|] == ts;
          t := Some(ts[least]);
        }
      case Hashing =>
        if key.Some? {
          var index := HashingIndex(key.value, |ts|);
          if index.Some? { t := Some(ts[index.value]); }
        }
    }

    /** `BalancerDiagnosticsState::record`. */
    method Note(d: Diagnostic)
      requires forall i :: i in ids ==> i in d.reasons
      modifies this`diagnostics
      ensures diagnostics == Noted(old(diagnostics), ids, d)
    {
      var excludes := diagnostics.excludes;
      for i := 0 to |ids|
        invariant excludes == diagnostics.excludes + AllReasons(ids[..i], d.reasons)
      {
        assert ids[..i + 1][..i] == ids[..i];
        excludes := excludes + multiset(d.reasons[ids[i]]);
      }
      assert ids[..|ids|] == ids;
      var misses := diagnostics.misses + (if d.miss.Some? then multiset{d.miss.value} else multiset{});
      diagnostics := Diagnostics(misses, excludes, Some(d));
    }

    /** The sorting, the per-target reasons, the choice and the diagnostic of `compute_selection`. */
    method ComputeSelection(key: Option<Bytes>, now: nat) returns (t: Option<Target>, d: Diagnostic)
      requires Valid()
      modifies this`cursor
      ensures var c := old(State());
        && (cursor, t) == Pick(c.strategy, CandidateTargets(c, now), c.cursor, key)
        && d == Diagnose(c, key, now, t)
    {
      var available, up, open, closed, halfOpen := SortTargets(now);
      var candidates := if closed != [] then closed else halfOpen;
      CandidatesKnown(State(), now);
      var missing := KeyIsMissing(State(), key, candidates);
      var reasons := map i | i in targets :: Reasons(State(), i, now, closed, candidates, missing);
      var ts := Resolve(State(), candidates);
      var b := State();
      t := Choose(ts, key);
      var miss := if t.Some? then None else Some(Miss(b, |ids|, available, up, open, candidates, key));
      d := Diagnostic(key, candidates, if t.Some? then Some(t.value.id) else None, reasons, miss);
    }

    /** The bookkeeping of `select_target` once a selection is made. */
    method Finish(d: Diagnostic)
      requires forall i :: i in ids ==> i in d.reasons
      modifies this`stats, this`diagnostics
      ensures State() == Recorded(old(State()), cursor, d)
    {
      if d.selected.Some? {
        stats := stats.(selections := stats.selections + 1);
      } else {
        stats := stats.(failures := stats.failures + 1);
      }
      Note(d);
    }

    method SelectWithoutRefresh(key: Option<Bytes>, now: nat) returns (t: Option<Target>)
      requires Valid()
      modifies this
      ensures Valid() && (State(), t) == SelectNow(old(State()), key, now)
    {
      ghost var c := State();
      var d;
      t, d := ComputeSelection(key, now);
      ghost var moved := State();
      assert moved == c.(cursor := cursor);
      Finish(d);
    }

    method SelectTarget(key: Option<Bytes>, now: nat) returns (t: Option<Target>)
      requires Valid()
      modifies this
      ensures Valid() && (State(), t) == Select(old(State()), key, now)
    {
      RefreshKeepsTargets(State(), now);
      if runtime.Some? && runtime.value.health.Some? && runtime.value.health.value.checkOnSelect { RefreshTargets(now); }
      t := SelectWithoutRefresh(key, now);
    }
  }
}
