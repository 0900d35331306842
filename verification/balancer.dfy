/**
 The load balancer: targets in insertion order, a health record per target with its circuit,
 a cursor shared by the rotating strategies, counters and the last diagnostic. `Balancer` is
 the abstract value; the class in balancer_service.dfy is proved against the functions here.
 Metadata and the free-form configuration value are left out; `now` stands for the clock.
 */
module BalancerSpec {
  import opened Prelude
  import opened StableHashing
  import opened Router

  type Id = string

  datatype Status = Available | Busy | Offline

  datatype Load = Load(active: nat, total: nat, errors: nat, lastErrorAt: Option<nat>)

  datatype Target = Target(id: Id, weight: nat, capacity: nat, status: Status, load: Load)

  datatype Strategy = RoundRobin | Weighted | LeastConnections | Hashing

  datatype CircuitState = Closed | Open | HalfOpen

  datatype BreakerConfig = BreakerConfig(failureThreshold: nat, successThreshold: nat, cooldown: nat)

  datatype HealthPolicy = HealthPolicy(heartbeatTtl: nat, checkOnSelect: bool)

  datatype Runtime = Runtime(breaker: Option<BreakerConfig>, health: Option<HealthPolicy>)

  datatype Health = Health(healthy: bool, lastCheckedAt: Option<nat>, lastHeartbeatAt: Option<nat>,
    failures: nat, successes: nat, circuit: CircuitState, openedAt: Option<nat>)

  datatype LoadUpdate = Inc | Dec | Error | Reset

  datatype ExcludeReason =
    | StatusBusy | StatusOffline | Unhealthy | HeartbeatExpired | CircuitOpen | PreferClosedOverHalfOpen | KeyMissing

  datatype MissReason =
    | NoTargetsConfigured | NoAvailableTargets | NoHealthyTargets | AllCircuitsOpen | HashingKeyMissing
    | NoEligibleTargets | StrategyReturnedNone

  /** `reasons` holds each target's exclusion reasons; a target is diagnosed eligible when it has none. */
  datatype Diagnostic = Diagnostic(key: Option<Bytes>, candidates: seq<Id>, selected: Option<Id>,
    reasons: map<Id, seq<ExcludeReason>>, miss: Option<MissReason>)

  /** The per-reason counters only ever go up by one, so they are multisets of reasons. */
  datatype Diagnostics = Diagnostics(misses: multiset<MissReason>, excludes: multiset<ExcludeReason>, last: Option<Diagnostic>)

  datatype Stats = Stats(selections: nat, failures: nat)

  datatype Balancer = Balancer(strategy: Strategy, runtime: Option<Runtime>,
    ids: seq<Id>, targets: map<Id, Target>, health: map<Id, Health>, cursor: Option<nat>,
    stats: Stats, diagnostics: Diagnostics)

  const USIZE_MAX: nat := 0xffff_ffff_ffff_ffff

  /** The map and its insertion order agree, and every target is filed under its own id. */
  ghost predicate Ordered(b: Balancer) {
    && NoDup(b.ids) && (forall i :: i in b.ids <==> i in b.targets)
    && (forall i :: i in b.targets ==> b.targets[i].id == i)
  }

  // ── Configuration ──────────────────────────────────────────────────

  /** A runtime with neither part is dropped on construction. */
  function New(strategy: Strategy, runtime: Option<Runtime>): Balancer {
    var enabled := runtime.Some? && (runtime.value.breaker.Some? || runtime.value.health.Some?);
    Balancer(strategy, if enabled then runtime else None, [], map[], map[], None,
      Stats(0, 0), Diagnostics(multiset{}, multiset{}, None))
  }

  function FailureThreshold(rt: Runtime): nat {
    if rt.breaker.Some? then Max(rt.breaker.value.failureThreshold, 1) else USIZE_MAX
  }

  function SuccessThreshold(rt: Runtime): nat {
    if rt.breaker.Some? then Max(rt.breaker.value.successThreshold, 1) else USIZE_MAX
  }

  const DEFAULT_HEALTH := Health(true, None, None, 0, 0, Closed, None)

  function InitialHealth(rt: Runtime, now: nat): Health {
    DEFAULT_HEALTH.(lastCheckedAt := Some(now), lastHeartbeatAt := if rt.health.Some? then Some(now) else None)
  }

  function Entry(rt: Runtime, health: map<Id, Health>, id: Id, now: nat): Health {
    if id in health then health[id] else InitialHealth(rt, now)
  }

  predicate Expired(rt: Runtime, h: Health, now: nat) {
    && rt.health.Some? && h.lastHeartbeatAt.Some?
    && var at := if h.lastCheckedAt.Some? then Max(h.lastCheckedAt.value, now) else now;
       SatSub(at, h.lastHeartbeatAt.value) > rt.health.value.heartbeatTtl
  }

  predicate CooldownElapsed(rt: Runtime, h: Health, now: nat) {
    rt.breaker.Some? && h.openedAt.Some? && SatSub(now, h.openedAt.value) >= rt.breaker.value.cooldown
  }

  // ── One target's health ────────────────────────────────────────────

  function OpenCircuit(h: Health, now: nat): Health {
    h.(circuit := Open, openedAt := Some(now), successes := 0)
  }

  function OnSuccess(rt: Runtime, h: Health, now: nat): Health {
    var g := h.(lastCheckedAt := Some(now), healthy := true, failures := 0, successes := h.successes + 1);
    if h.circuit == HalfOpen && g.successes >= SuccessThreshold(rt) then g.(circuit := Closed, openedAt := None, failures := 0) else g
  }

  function OnFailure(rt: Runtime, h: Health, now: nat): Health {
    var g := h.(lastCheckedAt := Some(now), failures := h.failures + 1, successes := 0);
    if h.circuit == HalfOpen || (h.circuit == Closed && g.failures >= FailureThreshold(rt)) then OpenCircuit(g, now) else g
  }

  function OnHeartbeat(h: Health, healthy: bool, now: nat): Health {
    h.(healthy := healthy, lastCheckedAt := Some(now), lastHeartbeatAt := Some(now),
       successes := if healthy then h.successes + 1 else 0)
  }

  function OnRefresh(rt: Runtime, h: Health, now: nat): Health {
    var g := h.(lastCheckedAt := Some(now));
    var g' := if g.circuit == Open && CooldownElapsed(rt, g, now) then g.(circuit := HalfOpen, openedAt := None, successes := 0) else g;
    if Expired(rt, g', now) then g'.(healthy := false) else g'
  }

  // ── Calls that change targets and health ───────────────────────────

  function AddTarget(b: Balancer, t: Target, now: nat): Balancer {
    b.(ids := if t.id in b.targets then b.ids else b.ids + [t.id],
       targets := b.targets[t.id := t],
       health := if b.runtime.Some? then b.health[t.id := Entry(b.runtime.value, b.health, t.id, now)] else b.health)
  }

  /** `realign_cursor`: none without targets, otherwise clamped to the last of them. */
  function Realign(cursor: Option<nat>, len: nat): Option<nat> {
    if len == 0 || cursor.None? then None else Some(Min(cursor.value, len - 1))
  }

  function RemoveTarget(b: Balancer, id: Id): (Balancer, Option<Target>) {
    if id !in b.targets then (b, None)
    else
      var ids := Without(b.ids, id);
      (b.(ids := ids, targets := b.targets - {id}, health := b.health - {id}, cursor := Realign(b.cursor, |ids|)),
       Some(b.targets[id]))
  }

  function OnLoad(l: Load, op: LoadUpdate, now: nat): Load {
    match op
    case Inc => l.(active := l.active + 1, total := l.total + 1)
    case Dec => l.(active := SatSub(l.active, 1))
    case Error => l.(active := SatSub(l.active, 1), errors := l.errors + 1, lastErrorAt := Some(now))
    case Reset => l.(active := 0)
  }

  function UpdateLoad(b: Balancer, id: Id, op: LoadUpdate, now: nat): Balancer {
    if id !in b.targets then b
    else b.(targets := b.targets[id := b.targets[id].(load := OnLoad(b.targets[id].load, op, now))])
  }

  function SetStatus(b: Balancer, id: Id, status: Status): Balancer {
    if id !in b.targets then b else b.(targets := b.targets[id := b.targets[id].(status := status)])
  }

  datatype HealthEvent = Success | Failure | Heartbeat(healthy: bool) | Refresh

  function OnEvent(rt: Runtime, h: Health, e: HealthEvent, now: nat): Health {
    match e
    case Success => OnSuccess(rt, h, now)
    case Failure => OnFailure(rt, h, now)
    case Heartbeat(healthy) => OnHeartbeat(h, healthy, now)
    case Refresh => OnRefresh(rt, h, now)
  }

  /** `record_target_success`, `record_target_failure`, `record_target_heartbeat` and `refresh_target_health`. */
  function Record(b: Balancer, id: Id, e: HealthEvent, now: nat): Balancer {
    if id !in b.targets || b.runtime.None? then b
    else b.(health := b.health[id := OnEvent(b.runtime.value, Entry(b.runtime.value, b.health, id, now), e, now)])
  }

  /** `target_health`: without a runtime every known target looks healthy. */
  function TargetHealth(b: Balancer, id: Id): Option<Health> {
    if b.runtime.None? then if id in b.targets then Some(DEFAULT_HEALTH) else None
    else if id in b.health then Some(b.health[id]) else None
  }

  function RefreshSome(b: Balancer, ids: seq<Id>, now: nat): Balancer
    decreases |ids|
  {
    if ids == [] then b else Record(RefreshSome(b, ids[..|ids| - 1], now), ids[|ids| - 1], Refresh, now)
  }

  function RefreshAll(b: Balancer, now: nat): Balancer {
    if b.runtime.None? then b else RefreshSome(b, b.ids, now)
  }

  // ── Selection ──────────────────────────────────────────────────────

  /** What a target's health looks like to a selection. */
  function HealthOf(b: Balancer, id: Id): Health {
    if b.runtime.Some? && id in b.health then b.health[id] else DEFAULT_HEALTH
  }

  predicate IsHealthy(b: Balancer, h: Health, now: nat) {
    b.runtime.Some? ==> h.healthy && !Expired(b.runtime.value, h, now)
  }

  predicate IsAvailable(b: Balancer, id: Id) {
    id in b.targets && b.targets[id].status == Available
  }

  predicate IsUp(b: Balancer, id: Id, now: nat) {
    IsAvailable(b, id) && IsHealthy(b, HealthOf(b, id), now)
  }

  predicate IsUpWith(b: Balancer, id: Id, now: nat, circuit: CircuitState) {
    IsUp(b, id, now) && HealthOf(b, id).circuit == circuit
  }

  function AvailableIds(b: Balancer, ids: seq<Id>): seq<Id> {
    if ids == [] then [] else
      var last := |ids| - 1;
      AvailableIds(b, ids[..last]) + if IsAvailable(b, ids[last]) then [ids[last]] else []
  }

  function Up(b: Balancer, ids: seq<Id>, now: nat): seq<Id> {
    if ids == [] then [] else
      var last := |ids| - 1;
      Up(b, ids[..last], now) + if IsUp(b, ids[last], now) then [ids[last]] else []
  }

  /** The healthy, available targets whose circuit is in one state, in order. */
  function UpWith(b: Balancer, ids: seq<Id>, now: nat, circuit: CircuitState): seq<Id> {
    if ids == [] then [] else
      var last := |ids| - 1;
      UpWith(b, ids[..last], now, circuit) + if IsUpWith(b, ids[last], now, circuit) then [ids[last]] else []
  }

  function Candidates(b: Balancer, now: nat): seq<Id> {
    var closed := UpWith(b, b.ids, now, Closed);
    if closed != [] then closed else UpWith(b, b.ids, now, HalfOpen)
  }

  predicate KeyIsMissing(b: Balancer, key: Option<Bytes>, candidates: seq<Id>) {
    b.strategy == Hashing && key.None? && candidates != []
  }

  /** `target_excluded_reasons`. */
  function Reasons(b: Balancer, id: Id, now: nat, closed: seq<Id>, candidates: seq<Id>, keyMissing: bool): seq<ExcludeReason>
    requires id in b.targets
  {
    var status, h := b.targets[id].status, HealthOf(b, id);
    (match status case Busy => [StatusBusy] case Offline => [StatusOffline] case Available => [])
    + (if status == Available && b.runtime.Some? then
         (if Expired(b.runtime.value, h, now) then [HeartbeatExpired] else if !h.healthy then [Unhealthy] else [])
         + (if h.circuit == Open then [CircuitOpen] else [])
         + (if closed != [] && h.circuit == HalfOpen && id !in closed then [PreferClosedOverHalfOpen] else [])
       else [])
    + (if status == Available && keyMissing && id in candidates then [KeyMissing] else [])
  }

  /** `determine_miss_reason`, on the counts the selection loop keeps. */
  function Miss(b: Balancer, total: nat, available: nat, up: nat, open: nat, candidates: seq<Id>, key: Option<Bytes>): MissReason {
    if total == 0 then NoTargetsConfigured
    else if b.strategy == Hashing && key.None? && candidates != [] then HashingKeyMissing
    else if available == 0 then NoAvailableTargets
    else if b.runtime.Some? then
      if up == 0 then NoHealthyTargets
      else if candidates == [] && open > 0 then AllCircuitsOpen
      else if candidates == [] then NoEligibleTargets
      else StrategyReturnedNone
    else if candidates == [] then NoAvailableTargets
    else StrategyReturnedNone
  }

  function Resolve(b: Balancer, ids: seq<Id>): (r: seq<Target>)
    requires forall i :: i in ids ==> i in b.targets
    ensures |r| == |ids| && forall i :: 0 <= i < |ids| ==> r[i] == b.targets[ids[i]]
  {
    seq(|ids|, i requires 0 <= i < |ids| => b.targets[ids[i]])
  }

  /** Each target repeated as often as its weight says, and at least once. */
  function Expand(ts: seq<Target>): seq<Target> {
    if ts == [] then [] else
      var last := |ts| - 1;
      Expand(ts[..last]) + seq(Max(ts[last].weight, 1), _ => ts[last])
  }

  /** The first of the targets with the fewest active requests. */
  function LeastLoaded(ts: seq<Target>): (i: nat)
    requires ts != []
    ensures i < |ts|
  {
    if |ts| == 1 then 0
    else
      var last := |ts| - 1;
      var i := LeastLoaded(ts[..last]);
      if ts[last].load.active < ts[i].load.active then last else i
  }

  /** The strategy's choice, and the cursor after it. */
  function Pick(strategy: Strategy, ts: seq<Target>, cursor: Option<nat>, key: Option<Bytes>): (Option<nat>, Option<Target>) {
    match strategy
    case RoundRobin =>
      var next := RoundRobinIndex(cursor, |ts|);
      if next.Some? then (next, Some(ts[next.value])) else (cursor, None)
    case Weighted =>
      var ring := Expand(ts);
      var next := RoundRobinIndex(cursor, |ring|);
      if next.Some? then (next, Some(ring[next.value])) else (cursor, None)
    case LeastConnections =>
      (cursor, if ts == [] then None else Some(ts[LeastLoaded(ts)]))
    case Hashing =>
      (cursor, if key.None? || ts == [] then None else Some(ts[HashingIndex(key.value, |ts|).value]))
  }

  function Refreshed(b: Balancer, now: nat): Balancer {
    if b.runtime.Some? && b.runtime.value.health.Some? && b.runtime.value.health.value.checkOnSelect then RefreshAll(b, now) else b
  }

  function AllReasons(ids: seq<Id>, reasons: map<Id, seq<ExcludeReason>>): multiset<ExcludeReason>
    requires forall i :: i in ids ==> i in reasons
  {
    if ids == [] then multiset{} else
      var last := |ids| - 1;
      AllReasons(ids[..last], reasons) + multiset(reasons[ids[last]])
  }

  function Diagnose(b: Balancer, key: Option<Bytes>, now: nat, selected: Option<Target>): Diagnostic
    requires Ordered(b)
  {
    var closed, candidates := UpWith(b, b.ids, now, Closed), Candidates(b, now);
    var missing := KeyIsMissing(b, key, candidates);
    Diagnostic(key, candidates, if selected.Some? then Some(selected.value.id) else None,
      map i | i in b.targets :: Reasons(b, i, now, closed, candidates, missing),
      if selected.Some? then None
      else Some(Miss(b, |b.ids|, |AvailableIds(b, b.ids)|, |Up(b, b.ids, now)|, |UpWith(b, b.ids, now, Open)|, candidates, key)))
  }

  lemma {:induction false} UpWithMembers(b: Balancer, ids: seq<Id>, now: nat, circuit: CircuitState)
    ensures forall i :: i in UpWith(b, ids, now, circuit) <==> i in ids && IsUpWith(b, i, now, circuit)
    decreases |ids|
  {
    if ids == [] {
    } else {
      UpWithMembers(b, ids[..|ids| - 1], now, circuit);
      assert ids == ids[..|ids| - 1] + [ids[|ids| - 1]];
    }
  }

  lemma CandidatesKnown(b: Balancer, now: nat)
    ensures forall i :: i in Candidates(b, now) ==> i in b.targets
  {
    UpWithMembers(b, b.ids, now, Closed);
    UpWithMembers(b, b.ids, now, HalfOpen);
  }

  /** `BalancerDiagnosticsState::record`. */
  function Noted(s: Diagnostics, ids: seq<Id>, d: Diagnostic): Diagnostics
    requires forall i :: i in ids ==> i in d.reasons
  {
    Diagnostics(s.misses + (if d.miss.Some? then multiset{d.miss.value} else multiset{}),
                s.excludes + AllReasons(ids, d.reasons),
                Some(d))
  }

  function Counted(s: Stats, d: Diagnostic): Stats {
    if d.selected.Some? then s.(selections := s.selections + 1) else s.(failures := s.failures + 1)
  }

  function Recorded(b: Balancer, cursor: Option<nat>, d: Diagnostic): Balancer
    requires forall i :: i in b.ids ==> i in d.reasons
  {
    b.(cursor := cursor, stats := Counted(b.stats, d), diagnostics := Noted(b.diagnostics, b.ids, d))
  }

  lemma RefreshKeepsTargets(b: Balancer, now: nat)
    ensures var c := Refreshed(b, now); c == b.(health := c.health)
  {
    RefreshSomeKeepsTargets(b, b.ids, now);
  }

  lemma {:induction false} RefreshSomeKeepsTargets(b: Balancer, ids: seq<Id>, now: nat)
    ensures var c := RefreshSome(b, ids, now); c == b.(health := c.health)
    decreases |ids|
  {
    if ids == [] {
    } else {
      RefreshSomeKeepsTargets(b, ids[..|ids| - 1], now);
    }
  }

  /** The targets a selection chooses from. */
  function CandidateTargets(b: Balancer, now: nat): seq<Target> {
    CandidatesKnown(b, now);
    Resolve(b, Candidates(b, now))
  }

  /** `select_target` once health is refreshed: choose among the candidates, count and record the diagnostic. */
  function SelectNow(c: Balancer, key: Option<Bytes>, now: nat): (Balancer, Option<Target>)
    requires Ordered(c)
  {
    var (cursor, picked) := Pick(c.strategy, CandidateTargets(c, now), c.cursor, key);
    (Recorded(c, cursor, Diagnose(c, key, now, picked)), picked)
  }

  function Select(b: Balancer, key: Option<Bytes>, now: nat): (Balancer, Option<Target>)
    requires Ordered(b)
  {
    RefreshKeepsTargets(b, now);
    SelectNow(Refreshed(b, now), key, now)
  }
}
