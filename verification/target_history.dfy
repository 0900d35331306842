/**
 What the calls made so far say about one target: its circuit, its health, its load and its
 status, each told from the calls alone. The balancer's records turn out to say the same.
 */
module TargetHistory {
  import opened Prelude
  import opened StableHashing
  import opened Router
  import opened BalancerSpec
  import opened Selection
  import opened Circuits

  // ── What the calls say ─────────────────────────────────────────────

  predicate Adds(op: Op, id: Id) {
    op.OpAdd? && op.target.id == id
  }

  predicate Reports(op: Op, id: Id, e: HealthEvent) {
    op.OpRecord? && op.id == id && op.event == e
  }

  /** The target was added and not removed since. */
  predicate Registered(ops: seq<Op>, id: Id)
    decreases |ops|
  {
    ops != [] &&
      var last, before := ops[|ops| - 1], ops[..|ops| - 1];
      Adds(last, id) || (last != OpRemove(id) && Registered(before, id))
  }

  /** Failures recorded since the last recorded success. */
  function Streak(ops: seq<Op>, id: Id): nat
    decreases |ops|
  {
    if ops == [] then 0
    else
      var last, before := ops[|ops| - 1], ops[..|ops| - 1];
      if last == OpRemove(id) || Reports(last, id, Success) then 0
      else Streak(before, id) + if Reports(last, id, Failure) && Registered(before, id) then 1 else 0
  }

  /** The time of the last heartbeat; being added counts as one if heartbeats are watched. */
  function LastBeat(rt: Runtime, ops: seq<Op>, id: Id): Option<nat>
    decreases |ops|
  {
    if ops == [] then None
    else
      var last, before := ops[|ops| - 1], ops[..|ops| - 1];
      if Adds(last, id) && !Registered(before, id) then if rt.health.Some? then Some(last.now) else None
      else if last.OpRecord? && last.id == id && last.event.Heartbeat? && Registered(before, id) then Some(last.now)
      else LastBeat(rt, before, id)
  }

  /** When a call refreshes the targets there are. */
  function Refreshes(rt: Runtime, op: Op, id: Id): Option<nat> {
    match op
    case OpRecord(i, Refresh, now) => if i == id then Some(now) else None
    case OpRefreshAll(now) => Some(now)
    case OpSelect(_, now) => if rt.health.Some? && rt.health.value.checkOnSelect then Some(now) else None
    case _ => None
  }

  /** The last time anything was recorded of the target, or it was refreshed. */
  function LastCheck(rt: Runtime, ops: seq<Op>, id: Id): nat
    decreases |ops|
  {
    if ops == [] then 0
    else
      var last, before := ops[|ops| - 1], ops[..|ops| - 1];
      if Registered(before, id) && Refreshes(rt, last, id).Some? then Refreshes(rt, last, id).value
      else if Registered(before, id) && last.OpRecord? && last.id == id then last.now
      else if !Registered(before, id) && Adds(last, id) then last.now
      else LastCheck(rt, before, id)
  }

  /** The last heartbeat is too long ago. */
  predicate Silent(rt: Runtime, ops: seq<Op>, id: Id, now: nat) {
    rt.health.Some? && LastBeat(rt, ops, id).Some? && SatSub(now, LastBeat(rt, ops, id).value) > rt.health.value.heartbeatTtl
  }

  /** The last thing heard of the target is good: a success or a healthy heartbeat, and no refresh found it silent since. */
  predicate Well(rt: Runtime, ops: seq<Op>, id: Id)
    decreases |ops|
  {
    ops != [] &&
      var last, before := ops[|ops| - 1], ops[..|ops| - 1];
      var refresh := Refreshes(rt, last, id);
      if !Registered(before, id) then Adds(last, id)
      else if Reports(last, id, Success) || Reports(last, id, Heartbeat(true)) then true
      else Well(rt, before, id) && !Reports(last, id, Heartbeat(false)) && !(refresh.Some? && Silent(rt, before, id, refresh.value))
  }

  /** The balancer after some calls. */
  ghost function After(strategy: Strategy, runtime: Option<Runtime>, ops: seq<Op>): (b: Balancer)
    ensures Ordered(b)
  {
    Run(New(strategy, runtime), ops)
  }

  /** Whether and how a target's circuit stands. */
  function Standing(b: Balancer, id: Id): Option<CircuitState> {
    if id in b.health then Some(b.health[id].circuit) else None
  }

  /** The time of the call that opened the circuit. */
  ghost function Opened(strategy: Strategy, rt: Runtime, ops: seq<Op>, id: Id): nat
    decreases |ops|
  {
    if ops == [] then 0
    else
      var last, before := ops[|ops| - 1], ops[..|ops| - 1];
      if Standing(After(strategy, Some(rt), before), id) != Some(Open) && last.OpRecord? then last.now
      else Opened(strategy, rt, before, id)
  }

  /** Good reports in a row, successes or healthy heartbeats; a circuit that becomes half-open starts over. */
  ghost function Goods(strategy: Strategy, rt: Runtime, ops: seq<Op>, id: Id): nat
    decreases |ops|
  {
    if ops == [] then 0
    else
      var last, before := ops[|ops| - 1], ops[..|ops| - 1];
      var standing := Standing(After(strategy, Some(rt), before), id);
      if standing.None? || (standing != Some(HalfOpen) && Standing(After(strategy, Some(rt), ops), id) == Some(HalfOpen))
         || Reports(last, id, Failure) || Reports(last, id, Heartbeat(false)) then 0
      else Goods(strategy, rt, before, id) + if Reports(last, id, Success) || Reports(last, id, Heartbeat(true)) then 1 else 0
  }

  // ── The records agree ──────────────────────────────────────────────

  /** A record says what the calls say. */
  ghost predicate Agrees(strategy: Strategy, rt: Runtime, ops: seq<Op>, id: Id, h: Health) {
    && h.lastCheckedAt == Some(LastCheck(rt, ops, id))
    && h.failures == Streak(ops, id) && h.lastHeartbeatAt == LastBeat(rt, ops, id) && h.healthy == Well(rt, ops, id)
    && (h.circuit == Open ==> h.openedAt == Some(Opened(strategy, rt, ops, id)))
    && h.successes == Goods(strategy, rt, ops, id)
  }

  ghost predicate Tracked(strategy: Strategy, rt: Runtime, ops: seq<Op>, id: Id) {
    var b := After(strategy, Some(rt), ops);
    && b.runtime == Some(rt) && (Registered(ops, id) <==> id in b.targets) && (Registered(ops, id) <==> id in b.health)
    && (Registered(ops, id) ==> Agrees(strategy, rt, ops, id, b.health[id]))
  }

  predicate Watching(rt: Runtime) {
    rt.breaker.Some? || rt.health.Some?
  }

  lemma {:induction false} RunSnoc(b: Balancer, ops: seq<Op>, op: Op)
    requires Ordered(b)
    ensures Run(b, ops + [op]) == Step(Run(b, ops), op).0
    decreases |ops|
  {
    hide Step;
    if ops == [] {
      assert [] + [op] == [op] && [op][1..] == [];
      StepKeepsOrder(b, op);
    } else {
      StepKeepsOrder(b, ops[0]);
      RunSnoc(Step(b, ops[0]).0, ops[1..], op);
      assert (ops + [op])[0] == ops[0] && (ops + [op])[1..] == ops[1..] + [op];
    }
  }

  lemma AfterSnoc(strategy: Strategy, runtime: Option<Runtime>, ops: seq<Op>, op: Op)
    ensures After(strategy, runtime, ops + [op]) == Step(After(strategy, runtime, ops), op).0
    ensures (ops + [op])[..|ops|] == ops
  {
    RunSnoc(New(strategy, runtime), ops, op);
  }

  /** Which targets there are after a call. */
  lemma StepTargets(b: Balancer, op: Op, id: Id)
    requires Ordered(b)
    ensures id in Step(b, op).0.targets <==> Adds(op, id) || (op != OpRemove(id) && id in b.targets)
  {
    match op
    case OpRefreshAll(now) => RefreshSomeKeepsTargets(b, b.ids, now);
    case OpSelect(key, now) => RefreshKeepsTargets(b, now);
    case _ =>
  }

  /** A target that is new, or gone, after a call. */
  lemma StepComesOrGoes(b: Balancer, op: Op, id: Id, rt: Runtime)
    requires Ordered(b) && b.runtime == Some(rt) && (id in b.targets <==> id in b.health)
    requires op == OpRemove(id) || id !in b.targets
    ensures var c := Step(b, op).0;
      if Adds(op, id) then id in c.health && c.health[id] == InitialHealth(rt, op.now) else id !in c.health
  {
    match op
    case OpRefreshAll(now) => RefreshSomeAt(b, b.ids, now, id);
    case OpSelect(key, now) =>
      RefreshKeepsTargets(b, now);
      RefreshSomeAt(b, b.ids, now, id);
    case _ =>
  }

  lemma {:induction false} NewRecordAgrees(strategy: Strategy, rt: Runtime, ops: seq<Op>, op: Op, id: Id)
    requires Adds(op, id) && !Registered(ops, id) && Standing(After(strategy, Some(rt), ops), id) == None
    ensures Agrees(strategy, rt, ops + [op], id, InitialHealth(rt, op.now))
  {
    assert (ops + [op])[..|ops|] == ops;
    UnknownStreak(ops, id);
  }

  lemma {:induction false} UnknownStreak(ops: seq<Op>, id: Id)
    requires !Registered(ops, id)
    ensures Streak(ops, id) == 0
    decreases |ops|
  {
    if ops == [] {
    } else if ops[|ops| - 1] != OpRemove(id) {
      UnknownStreak(ops[..|ops| - 1], id);
    }
  }

  /** What a call makes of the record of a target that is there before and after. */
  function Next(rt: Runtime, h: Health, op: Op, id: Id): Health {
    if Refreshes(rt, op, id).Some? then OnRefresh(rt, h, Refreshes(rt, op, id).value)
    else if op.OpRecord? && op.id == id then OnEvent(rt, h, op.event, op.now)
    else h
  }

  lemma {:induction false} NextCounts(rt: Runtime, ops: seq<Op>, op: Op, id: Id, h: Health)
    requires Registered(ops, id) && op != OpRemove(id) && h.failures == Streak(ops, id)
    ensures Next(rt, h, op, id).failures == Streak(ops + [op], id)
  {
    assert (ops + [op])[..|ops|] == ops;
  }

  lemma {:induction false} NextBeats(rt: Runtime, ops: seq<Op>, op: Op, id: Id, h: Health)
    requires Registered(ops, id) && op != OpRemove(id) && h.lastHeartbeatAt == LastBeat(rt, ops, id)
    ensures Next(rt, h, op, id).lastHeartbeatAt == LastBeat(rt, ops + [op], id)
  {
    assert (ops + [op])[..|ops|] == ops;
  }

  lemma {:induction false} NextIsWell(rt: Runtime, ops: seq<Op>, op: Op, id: Id, h: Health)
    requires Registered(ops, id) && op != OpRemove(id) && h.lastHeartbeatAt == LastBeat(rt, ops, id) && h.healthy == Well(rt, ops, id)
    ensures Next(rt, h, op, id).healthy == Well(rt, ops + [op], id)
  {
    assert (ops + [op])[..|ops|] == ops;
  }

  lemma {:induction false} NextChecks(rt: Runtime, ops: seq<Op>, op: Op, id: Id, h: Health)
    requires Registered(ops, id) && op != OpRemove(id) && h.lastCheckedAt == Some(LastCheck(rt, ops, id))
    ensures Next(rt, h, op, id).lastCheckedAt == Some(LastCheck(rt, ops + [op], id))
  {
    assert (ops + [op])[..|ops|] == ops;
  }

  lemma {:induction false} NextOpened(strategy: Strategy, rt: Runtime, ops: seq<Op>, op: Op, id: Id, h: Health)
    requires h.circuit == Open ==> h.openedAt == Some(Opened(strategy, rt, ops, id))
    requires op != OpRemove(id) && Standing(After(strategy, Some(rt), ops), id) == Some(h.circuit)
    ensures var g := Next(rt, h, op, id); g.circuit == Open ==> g.openedAt == Some(Opened(strategy, rt, ops + [op], id))
  {
    assert (ops + [op])[..|ops|] == ops;
    hide After;
    hide Standing;
  }

  lemma NextSuccesses(rt: Runtime, h: Health, op: Op, id: Id)
    ensures var g := Next(rt, h, op, id);
      g.successes ==
        if (h.circuit != HalfOpen && g.circuit == HalfOpen) || Reports(op, id, Failure) || Reports(op, id, Heartbeat(false)) then 0
        else h.successes + if Reports(op, id, Success) || Reports(op, id, Heartbeat(true)) then 1 else 0
  {
  }

  lemma {:induction false} NextGoods(strategy: Strategy, rt: Runtime, ops: seq<Op>, op: Op, id: Id, h: Health)
    requires h.successes == Goods(strategy, rt, ops, id) && op != OpRemove(id)
    requires Standing(After(strategy, Some(rt), ops), id) == Some(h.circuit)
    requires Standing(After(strategy, Some(rt), ops + [op]), id) == Some(Next(rt, h, op, id).circuit)
    ensures Next(rt, h, op, id).successes == Goods(strategy, rt, ops + [op], id)
  {
    assert (ops + [op])[..|ops|] == ops;
    NextSuccesses(rt, h, op, id);
    hide Next;
    hide After;
    hide Standing;
  }

  lemma {:induction false} NextAgrees(strategy: Strategy, rt: Runtime, ops: seq<Op>, op: Op, id: Id, h: Health)
    requires Registered(ops, id) && op != OpRemove(id) && Agrees(strategy, rt, ops, id, h)
    requires Standing(After(strategy, Some(rt), ops), id) == Some(h.circuit)
    requires Standing(After(strategy, Some(rt), ops + [op]), id) == Some(Next(rt, h, op, id).circuit)
    ensures Agrees(strategy, rt, ops + [op], id, Next(rt, h, op, id))
  {
    NextCounts(rt, ops, op, id, h);
    NextBeats(rt, ops, op, id, h);
    NextIsWell(rt, ops, op, id, h);
    NextChecks(rt, ops, op, id, h);
    NextOpened(strategy, rt, ops, op, id, h);
    NextGoods(strategy, rt, ops, op, id, h);
    hide Next;
  }

  lemma StepIsNext(b: Balancer, op: Op, id: Id, rt: Runtime)
    requires Ordered(b) && b.runtime == Some(rt) && id in b.targets && id in b.health && op != OpRemove(id)
    ensures id in Step(b, op).0.health && Step(b, op).0.health[id] == Next(rt, b.health[id], op, id)
  {
    StepAt(b, op, id);
    hide OnEvent;
    hide OnRefresh;
    hide Step;
    assert OnEvent(rt, b.health[id], Refresh, 0) == OnRefresh(rt, b.health[id], 0);
  }

  /** In every run the records say what the calls say. */
  lemma {:induction false} RecordsAgree(strategy: Strategy, rt: Runtime, ops: seq<Op>, id: Id)
    requires Watching(rt)
    ensures Tracked(strategy, rt, ops, id)
    decreases |ops|
  {
    if ops == [] {
    } else {
      var op, before := ops[|ops| - 1], ops[..|ops| - 1];
      assert ops == before + [op];
      RecordsAgree(strategy, rt, before, id);
      CallKeepsTrack(strategy, rt, before, op, id);
    }
  }

  lemma CallKeepsTrack(strategy: Strategy, rt: Runtime, ops: seq<Op>, op: Op, id: Id)
    requires Tracked(strategy, rt, ops, id)
    ensures Tracked(strategy, rt, ops + [op], id)
  {
    hide Step;
    hide Next;
    hide Agrees;
    var b := After(strategy, Some(rt), ops);
    AfterSnoc(strategy, Some(rt), ops, op);
    hide After;
    StepKeepsOrder(b, op);
    StepTargets(b, op, id);
    if op == OpRemove(id) || id !in b.targets {
      StepComesOrGoes(b, op, id, rt);
      if Adds(op, id) { NewRecordAgrees(strategy, rt, ops, op, id); }
    } else {
      StepIsNext(b, op, id, rt);
      NextAgrees(strategy, rt, ops, op, id, b.health[id]);
    }
  }

  // ── The circuit ────────────────────────────────────────────────────

  /** Failures in a row that open a circuit; without a breaker, more than any run will see. */
  function FailuresTaken(rt: Runtime): nat {
    if rt.breaker.Some? then Max(rt.breaker.value.failureThreshold, 1) else 0xffff_ffff_ffff_ffff
  }

  function GoodsNeeded(rt: Runtime): nat {
    if rt.breaker.Some? then Max(rt.breaker.value.successThreshold, 1) else 0xffff_ffff_ffff_ffff
  }

  lemma NextCircuit(rt: Runtime, h: Health, op: Op, id: Id)
    requires h.circuit == Open ==> h.openedAt.Some?
    ensures Next(rt, h, op, id).circuit ==
      match h.circuit
      case Closed => if Reports(op, id, Failure) && h.failures + 1 >= FailuresTaken(rt) then Open else Closed
      case Open =>
        var refresh := Refreshes(rt, op, id);
        if refresh.Some? && rt.breaker.Some? && SatSub(refresh.value, h.openedAt.value) >= rt.breaker.value.cooldown then HalfOpen else Open
      case HalfOpen =>
        if Reports(op, id, Failure) then Open
        else if Reports(op, id, Success) && h.successes + 1 >= GoodsNeeded(rt) then Closed else HalfOpen
  {
  }

  /**
   Where each call leaves a target's circuit, counted from the calls. Closed, it opens exactly
   at a recorded failure that makes the failures since the last recorded success reach the
   threshold. Open, it becomes half-open exactly at a refresh once the cooldown has passed since
   it opened. Half-open, a failure opens it again, and it closes exactly at a recorded success
   that makes the good reports since it became half-open, none bad between, reach theirs.
   */
  lemma {:induction false} CircuitExactly(strategy: Strategy, rt: Runtime, ops: seq<Op>, op: Op, id: Id)
    requires Watching(rt) && Registered(ops, id) && op != OpRemove(id)
    ensures var before, after := Standing(After(strategy, Some(rt), ops), id), Standing(After(strategy, Some(rt), ops + [op]), id);
      && before.Some?
      && after == Some(
           match before.value
           case Closed => if Reports(op, id, Failure) && Streak(ops, id) + 1 >= FailuresTaken(rt) then Open else Closed
           case Open =>
             var refresh := Refreshes(rt, op, id);
             if refresh.Some? && rt.breaker.Some? && SatSub(refresh.value, Opened(strategy, rt, ops, id)) >= rt.breaker.value.cooldown then HalfOpen else Open
           case HalfOpen =>
             if Reports(op, id, Failure) then Open
             else if Reports(op, id, Success) && Goods(strategy, rt, ops, id) + 1 >= GoodsNeeded(rt) then Closed else HalfOpen)
  {
    RecordsAgree(strategy, rt, ops, id);
    AfterSnoc(strategy, Some(rt), ops, op);
    hide After;
    hide Streak;
    hide Opened;
    hide Goods;
    hide Well;
    hide LastBeat;
    hide LastCheck;
    hide Next;
    var b := After(strategy, Some(rt), ops);
    StepIsNext(b, op, id, rt);
    NextCircuit(rt, b.health[id], op, id);
    hide Step;
    hide Refreshes;
    hide Reports;
  }

  /** A target starts out closed. */
  lemma {:induction false} AddedClosed(strategy: Strategy, rt: Runtime, ops: seq<Op>, op: Op, id: Id)
    requires Watching(rt) && !Registered(ops, id) && Adds(op, id)
    ensures Standing(After(strategy, Some(rt), ops + [op]), id) == Some(Closed)
  {
    RecordsAgree(strategy, rt, ops, id);
    AfterSnoc(strategy, Some(rt), ops, op);
    hide After;
    StepComesOrGoes(After(strategy, Some(rt), ops), op, id, rt);
  }

  /** The balancer watches its targets exactly if its runtime has something to watch with. */
  lemma WatchedExactly(strategy: Strategy, rt: Runtime, ops: seq<Op>)
    ensures After(strategy, Some(rt), ops).runtime == if rt.breaker.Some? || rt.health.Some? then Some(rt) else None
  {
  }

  /** A registered target has a health record, the default one if nothing watches; any other has none. */
  lemma {:induction false} HealthIsReported(strategy: Strategy, runtime: Option<Runtime>, ops: seq<Op>, id: Id)
    ensures var reported := TargetHealth(After(strategy, runtime, ops), id);
      && (reported.Some? <==> Registered(ops, id))
      && (reported.Some? && (runtime.None? || !Watching(runtime.value)) ==> reported.value == Health(true, None, None, 0, 0, Closed, None))
  {
    RegisteredIsThere(strategy, runtime, ops, id);
    if runtime.Some? && Watching(runtime.value) { RecordsAgree(strategy, runtime.value, ops, id); }
  }

  // ── Health ─────────────────────────────────────────────────────────

  /** A target is healthy exactly when the last thing heard of it was good and it has not been silent for too long since. */
  lemma {:induction false} HealthyExactly(strategy: Strategy, rt: Runtime, ops: seq<Op>, id: Id, now: nat)
    requires Watching(rt) && Registered(ops, id)
    ensures var b := After(strategy, Some(rt), ops);
      IsHealthy(b, HealthOf(b, id), now) <==> Well(rt, ops, id) && !Silent(rt, ops, id, Max(LastCheck(rt, ops, id), now))
  {
    RecordsAgree(strategy, rt, ops, id);
    hide After;
    hide Well;
    hide LastBeat;
    hide LastCheck;
    hide Streak;
    hide Opened;
    hide Goods;
  }

  /** Nothing good is heard of the target, and it is not removed. */
  predicate NothingGood(ops: seq<Op>, id: Id) {
    forall i :: 0 <= i < |ops| ==> ops[i] != OpRemove(id) && !Reports(ops[i], id, Success) && !Reports(ops[i], id, Heartbeat(true))
  }

  predicate Unwell(b: Balancer, id: Id) {
    b.runtime.Some? && id in b.targets && id in b.health && !b.health[id].healthy
  }

  lemma UnwellStep(b: Balancer, op: Op, id: Id)
    requires Ordered(b) && Unwell(b, id) && NothingGood([op], id)
    ensures Unwell(Step(b, op).0, id) && (Step(b, op).1.Some? ==> Step(b, op).1.value.id != id)
  {
    assert [op][0] == op;
    StepTargets(b, op, id);
    StepIsNext(b, op, id, b.runtime.value);
    StepKeepsOrder(b, op);
    if op.OpSelect? {
      RefreshKeepsTargets(b, op.now);
      RefreshSomeAt(b, b.ids, op.now, id);
      SelectionAgreesWithDiagnosis(b, op.key, op.now);
      assert !HealthOf(Refreshed(b, op.now), id).healthy;
    }
  }

  /**
   After an unhealthy heartbeat a target is selected by no call of any run, until a success or a
   healthy heartbeat is recorded of it or it is removed.
   */
  lemma {:induction false} UnwellStaysUnused(b: Balancer, ops: seq<Op>, id: Id)
    requires Ordered(b) && Unwell(b, id) && NothingGood(ops, id)
    ensures Unwell(Run(b, ops), id)
    ensures forall i :: 0 <= i < |ops| && Chosen(b, ops)[i].Some? ==> Chosen(b, ops)[i].value.id != id
    decreases |ops|
  {
    hide Step;
    hide Unwell;
    if ops == [] {
    } else {
      StepKeepsOrder(b, ops[0]);
      assert NothingGood([ops[0]], id) && NothingGood(ops[1..], id);
      UnwellStep(b, ops[0], id);
      UnwellStaysUnused(Step(b, ops[0]).0, ops[1..], id);
    }
  }

  lemma BadHeartbeat(b: Balancer, id: Id, healthy: bool, now: nat)
    requires Ordered(b) && b.runtime.Some? && id in b.targets
    ensures Unwell(Step(b, OpRecord(id, Heartbeat(healthy), now)).0, id) <==> !healthy
  {
  }

  // ── The target itself ──────────────────────────────────────────────

  /** The target as it was last added. */
  function Added(ops: seq<Op>, id: Id): Target
    requires Registered(ops, id)
    decreases |ops|
  {
    var last, before := ops[|ops| - 1], ops[..|ops| - 1];
    if Adds(last, id) then last.target else Added(before, id)
  }

  /** The status last given to it. */
  function StatusBy(ops: seq<Op>, id: Id): Status
    requires Registered(ops, id)
    decreases |ops|
  {
    var last, before := ops[|ops| - 1], ops[..|ops| - 1];
    if Adds(last, id) then last.target.status
    else if last.OpStatus? && last.id == id then last.status
    else StatusBy(before, id)
  }

  /** Requests begun less requests ended or failed, on top of what the target came with or since the last reset. */
  function Balance(ops: seq<Op>, id: Id): int
    requires Registered(ops, id)
    decreases |ops|
  {
    var last, before := ops[|ops| - 1], ops[..|ops| - 1];
    if Adds(last, id) then last.target.load.active
    else if last.OpLoad? && last.id == id then
      match last.update
      case Inc => Balance(before, id) + 1
      case Dec => Balance(before, id) - 1
      case Error => Balance(before, id) - 1
      case Reset => 0
    else Balance(before, id)
  }

  /** How often a load update was reported, on top of what the target came with. */
  function Tally(ops: seq<Op>, id: Id, update: LoadUpdate, base: nat): nat
    requires Registered(ops, id)
    decreases |ops|
  {
    var last, before := ops[|ops| - 1], ops[..|ops| - 1];
    if Adds(last, id) then base
    else Tally(before, id, update, base) + if last.OpLoad? && last.id == id && last.update == update then 1 else 0
  }

  /** When an error was last reported, or what the target came with. */
  function LastError(ops: seq<Op>, id: Id): Option<nat>
    requires Registered(ops, id)
    decreases |ops|
  {
    var last, before := ops[|ops| - 1], ops[..|ops| - 1];
    if Adds(last, id) then last.target.load.lastErrorAt
    else if last.OpLoad? && last.id == id && last.update == Error then Some(last.now)
    else LastError(before, id)
  }

  /** What a call makes of a target that is there before and after. */
  lemma StepTarget(b: Balancer, op: Op, id: Id)
    requires Ordered(b) && id in b.targets && op != OpRemove(id)
    ensures id in Step(b, op).0.targets
    ensures var t, u := b.targets[id], Step(b, op).0.targets[id];
      if Adds(op, id) then u == op.target
      else u == t.(status := if op.OpStatus? && op.id == id then op.status else t.status,
                   load := if op.OpLoad? && op.id == id then OnLoad(t.load, op.update, op.now) else t.load)
  {
    match op
    case OpRefreshAll(now) => RefreshSomeKeepsTargets(b, b.ids, now);
    case OpSelect(key, now) => RefreshKeepsTargets(b, now);
    case _ =>
  }

  lemma {:induction false} RegisteredIsThere(strategy: Strategy, runtime: Option<Runtime>, ops: seq<Op>, id: Id)
    ensures Registered(ops, id) <==> id in After(strategy, runtime, ops).targets
    decreases |ops|
  {
    if ops == [] {
    } else {
      var op, before := ops[|ops| - 1], ops[..|ops| - 1];
      assert ops == before + [op];
      RegisteredIsThere(strategy, runtime, before, id);
      AfterSnoc(strategy, runtime, before, op);
      StepTargets(After(strategy, runtime, before), op, id);
      hide After;
      hide Step;
    }
  }

  /** In every run a target has the weight and capacity it was last added with, and the status last given to it. */
  lemma {:induction false} TargetExactly(strategy: Strategy, runtime: Option<Runtime>, ops: seq<Op>, id: Id)
    requires Registered(ops, id)
    ensures id in After(strategy, runtime, ops).targets
    ensures var t, added := After(strategy, runtime, ops).targets[id], Added(ops, id);
      && t == added.(status := StatusBy(ops, id), load := t.load)
      && t.load.total == Tally(ops, id, Inc, added.load.total) && t.load.errors == Tally(ops, id, Error, added.load.errors)
      && t.load.lastErrorAt == LastError(ops, id)
    decreases |ops|
  {
    var op, before := ops[|ops| - 1], ops[..|ops| - 1];
    assert ops == before + [op];
    AfterSnoc(strategy, runtime, before, op);
    var b := After(strategy, runtime, before);
    hide After;
    RegisteredIsThere(strategy, runtime, before, id);
    if Registered(before, id) {
      TargetExactly(strategy, runtime, before, id);
      StepTarget(b, op, id);
      hide Step;
    }
  }

  /** A removal returns the target as it was, if it was there. */
  lemma {:induction false} RemovalReturns(strategy: Strategy, runtime: Option<Runtime>, ops: seq<Op>, id: Id)
    ensures var b := After(strategy, runtime, ops); var removed := RemoveTarget(b, id).1;
      && (removed.Some? <==> Registered(ops, id))
      && (removed.Some? ==> removed.value == b.targets[id] && removed.value == Added(ops, id).(status := StatusBy(ops, id), load := removed.value.load))
  {
    RegisteredIsThere(strategy, runtime, ops, id);
    if Registered(ops, id) { TargetExactly(strategy, runtime, ops, id); }
    hide After;
  }

  /** A registered target's number of active requests. */
  ghost function Active(strategy: Strategy, runtime: Option<Runtime>, ops: seq<Op>, id: Id): nat
    requires Registered(ops, id)
  {
    RegisteredIsThere(strategy, runtime, ops, id);
    After(strategy, runtime, ops).targets[id].load.active
  }

  /** So far no request was reported ended that had not begun. */
  ghost predicate NeverBelow(ops: seq<Op>, id: Id) {
    forall k :: 0 <= k <= |ops| && Registered(ops[..k], id) ==> Balance(ops[..k], id) >= 0
  }

  lemma {:induction false} ActiveFollowsBalance(strategy: Strategy, runtime: Option<Runtime>, ops: seq<Op>, id: Id)
    requires Registered(ops, id)
    ensures Active(strategy, runtime, ops, id) >= Balance(ops, id)
    ensures NeverBelow(ops, id) ==> Active(strategy, runtime, ops, id) == Balance(ops, id)
    decreases |ops|
  {
    var op, before := ops[|ops| - 1], ops[..|ops| - 1];
    assert ops == before + [op] && ops[..|ops|] == ops;
    AfterSnoc(strategy, runtime, before, op);
    var b := After(strategy, runtime, before);
    RegisteredIsThere(strategy, runtime, before, id);
    RegisteredIsThere(strategy, runtime, ops, id);
    if Registered(before, id) {
      ActiveFollowsBalance(strategy, runtime, before, id);
      StepTarget(b, op, id);
      if NeverBelow(ops, id) { BeforeNeverBelow(ops, id); }
    }
    hide After;
    hide Step;
  }

  lemma BeforeNeverBelow(ops: seq<Op>, id: Id)
    requires ops != [] && NeverBelow(ops, id)
    ensures NeverBelow(ops[..|ops| - 1], id)
  {
    var before := ops[..|ops| - 1];
    forall k | 0 <= k <= |before| && Registered(before[..k], id) ensures Balance(before[..k], id) >= 0 {
      assert before[..k] == ops[..k];
    }
  }

  /**
   The number of active requests is at all times of a run what the reports add up to, exactly
   when at no time more requests were reported ended than begun.
   */
  lemma {:induction false} ActiveIsBalanceExactly(strategy: Strategy, runtime: Option<Runtime>, ops: seq<Op>, id: Id)
    ensures NeverBelow(ops, id) <==>
      forall k :: 0 <= k <= |ops| && Registered(ops[..k], id) ==> Active(strategy, runtime, ops[..k], id) == Balance(ops[..k], id)
  {
    if NeverBelow(ops, id) {
      forall k | 0 <= k <= |ops| && Registered(ops[..k], id) ensures Active(strategy, runtime, ops[..k], id) == Balance(ops[..k], id) {
        assert NeverBelow(ops[..k], id) by {
          forall j | 0 <= j <= k && Registered(ops[..k][..j], id) ensures Balance(ops[..k][..j], id) >= 0 { assert ops[..k][..j] == ops[..j]; }
        }
        ActiveFollowsBalance(strategy, runtime, ops[..k], id);
      }
    }
  }
}
