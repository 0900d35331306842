/**
 The three-state circuit breaker that guards calls to a downstream service.
 `now` stands for the clock at the call; `outcome` for what the protected closure returns.
 */
module Breaker {
  import opened Prelude

  datatype CircuitState = Closed | Open | HalfOpen

  datatype Config = Config(failureThreshold: nat, successThreshold: nat, timeout: nat, halfOpenMaxCalls: nat)

  datatype Stats = Stats(failures: nat, successes: nat, rejections: nat,
    lastFailure: Option<nat>, lastSuccess: Option<nat>, trippedAt: Option<nat>)

  datatype Circuit = Circuit(config: Config, state: CircuitState, failureCount: nat, successCount: nat, stats: Stats)

  datatype Outcome = Succeeds | Fails

  datatype Reply = Ok | Rejected(retryAfter: Option<nat>) | Failed

  // ── What each call does ────────────────────────────────────────────

  function New(config: Config): Circuit {
    Circuit(config, Closed, 0, 0, Stats(0, 0, 0, None, None, None))
  }

  predicate AllowsRequest(b: Circuit) {
    match b.state
    case Closed => true
    case HalfOpen => b.successCount < b.config.halfOpenMaxCalls
    case Open => false
  }

  predicate TimedOut(b: Circuit, now: nat) {
    b.state == Open && b.stats.trippedAt.Some? && SatSub(now, b.stats.trippedAt.value) > b.config.timeout
  }

  function CheckTimeout(b: Circuit, now: nat): Circuit {
    if TimedOut(b, now) then b.(state := HalfOpen, successCount := 0) else b
  }

  function RecordFailure(b: Circuit, now: nat): Circuit {
    var st := b.stats.(failures := b.stats.failures + 1, lastFailure := Some(now));
    var c := b.(failureCount := b.failureCount + 1, stats := st);
    match b.state
    case Closed =>
      if c.failureCount >= b.config.failureThreshold then c.(state := Open, stats := st.(trippedAt := Some(now))) else c
    case HalfOpen => c.(state := Open, successCount := 0, stats := st.(trippedAt := Some(now)))
    case Open => c
  }

  function RecordSuccess(b: Circuit, now: nat): Circuit {
    var c := b.(stats := b.stats.(successes := b.stats.successes + 1, lastSuccess := Some(now)));
    match b.state
    case Closed => c.(failureCount := 0)
    case HalfOpen =>
      if b.successCount + 1 >= b.config.successThreshold then c.(state := Closed, failureCount := 0, successCount := 0)
      else c.(successCount := b.successCount + 1)
    case Open => c
  }

  function RetryAfter(b: Circuit, now: nat): Option<nat> {
    if b.stats.trippedAt.None? then None
    else Some(SatSub(b.config.timeout, SatSub(now, b.stats.trippedAt.value)))
  }

  function Execute(b: Circuit, outcome: Outcome, now: nat): (Circuit, Reply) {
    var c := CheckTimeout(b, now);
    if !AllowsRequest(c) then
      (c.(stats := c.stats.(rejections := c.stats.rejections + 1)), Rejected(RetryAfter(c, now)))
    else
      match outcome
      case Succeeds => (RecordSuccess(c, now), Ok)
      case Fails => (RecordFailure(c, now), Failed)
  }

  function Trip(b: Circuit, now: nat): Circuit {
    if b.state == Closed then b.(state := Open, stats := b.stats.(trippedAt := Some(now))) else b
  }

  function Reset(b: Circuit): Circuit {
    b.(state := Closed, failureCount := 0, successCount := 0)
  }

  // ── Runs ───────────────────────────────────────────────────────────

  datatype Op = OpExecute(outcome: Outcome, now: nat) | OpTrip(now: nat) | OpReset

  function Step(b: Circuit, op: Op): Circuit {
    match op
    case OpExecute(outcome, now) => Execute(b, outcome, now).0
    case OpTrip(now) => Trip(b, now)
    case OpReset => Reset(b)
  }

  function Run(b: Circuit, ops: seq<Op>): Circuit
    decreases |ops|
  {
    if ops == [] then b else Run(Step(b, ops[0]), ops[1..])
  }

  lemma {:induction false} RunConcat(b: Circuit, ops: seq<Op>, more: seq<Op>)
    ensures Run(b, ops + more) == Run(Run(b, ops), more)
    decreases |ops|
  {
    if ops == [] {
      assert ops + more == more;
    } else {
      RunConcat(Step(b, ops[0]), ops[1..], more);
      assert (ops + more)[1..] == ops[1..] + more;
    }
  }

  /** A threshold of 0 acts as 1: the comparison comes after the increment. */
  ghost predicate Inv(b: Circuit) {
    && (b.state == Closed ==> b.failureCount < Max(b.config.failureThreshold, 1))
    && (b.state == HalfOpen ==> b.successCount < Max(b.config.successThreshold, 1))
    && (b.state == Open ==> b.stats.trippedAt.Some?)
  }

  /** In every run: Closed is below its failure threshold, HalfOpen below its success threshold, Open has a trip time. */
  lemma {:induction false} RunKeepsInv(b: Circuit, ops: seq<Op>)
    requires Inv(b)
    ensures Inv(Run(b, ops)) && Run(b, ops).config == b.config
    decreases |ops|
  {
    if ops == [] {
    } else {
      RunKeepsInv(Step(b, ops[0]), ops[1..]);
    }
  }

  /** Closed is left only by reaching the threshold or a manual trip, and re-entered only from HalfOpen or by a reset. */
  lemma Transitions(b: Circuit, op: Op)
    requires Inv(b)
    ensures var c := Step(b, op);
      && (b.state == Closed && c.state != Closed ==>
            c.state == Open && (op.OpTrip? || (op == OpExecute(Fails, op.now) && b.failureCount + 1 >= b.config.failureThreshold)))
      && (b.state == Open && c.state == Closed ==>
            op.OpReset? || (op == OpExecute(Succeeds, op.now) && TimedOut(b, op.now) && b.config.successThreshold <= 1))
      && (b.state == HalfOpen && c.state == Closed ==>
            op.OpReset? || (op == OpExecute(Succeeds, op.now) && b.successCount + 1 >= b.config.successThreshold))
      && (b.state == HalfOpen && c.state == Open ==> op == OpExecute(Fails, op.now) && c.stats.trippedAt == Some(op.now))
  {
  }

  // ── When HalfOpen can always let a call through ────────────────────

  ghost predicate Reachable(config: Config, b: Circuit) {
    exists ops :: b == Run(New(config), ops)
  }

  predicate EnoughTrialCalls(config: Config) {
    Max(config.successThreshold, 1) <= config.halfOpenMaxCalls
  }

  /** `k` successful calls in a row. */
  function Successes(k: nat, now: nat): seq<Op> {
    seq(k, _ => OpExecute(Succeeds, now))
  }

  lemma {:induction false} SuccessesCount(b: Circuit, k: nat, now: nat)
    requires b.state == HalfOpen && b.successCount + k < b.config.successThreshold
    requires b.successCount + k <= b.config.halfOpenMaxCalls
    ensures var c := Run(b, Successes(k, now));
      c.state == HalfOpen && c.successCount == b.successCount + k && c.config == b.config
    decreases k
  {
    if k == 0 {
    } else {
      assert Successes(k, now)[1..] == Successes(k - 1, now);
      SuccessesCount(Step(b, OpExecute(Succeeds, now)), k - 1, now);
    }
  }

  ghost predicate Stuck(b: Circuit) {
    b.state == HalfOpen && b.config.halfOpenMaxCalls <= b.successCount
  }

  /** Once stuck, calls and trips are all in vain: only a reset leaves the state. */
  lemma {:induction false} StuckStays(b: Circuit, ops: seq<Op>)
    requires Stuck(b) && forall i :: 0 <= i < |ops| ==> !ops[i].OpReset?
    ensures Stuck(Run(b, ops)) && Run(b, ops).stats.successes == b.stats.successes && Run(b, ops).stats.failures == b.stats.failures
    decreases |ops|
  {
    if ops == [] {
    } else {
      StuckStays(Step(b, ops[0]), ops[1..]);
    }
  }

  /** A run into the stuck state: trip, wait out the timeout, then as many successes as trial calls are allowed. */
  lemma ReachStuck(config: Config) returns (b: Circuit)
    requires !EnoughTrialCalls(config)
    ensures Reachable(config, b) && Stuck(b)
  {
    var later := config.timeout + 1;
    var tripped := Run(New(config), [OpTrip(0)]);
    assert tripped == Step(New(config), OpTrip(0));
    var k := config.halfOpenMaxCalls;
    if k == 0 {
      b := Step(tripped, OpExecute(Succeeds, later));
      assert b == Run(tripped, [OpExecute(Succeeds, later)]);
      RunConcat(New(config), [OpTrip(0)], [OpExecute(Succeeds, later)]);
    } else {
      var half := Step(tripped, OpExecute(Succeeds, later));
      assert half.state == HalfOpen && half.successCount == 1;
      SuccessesCount(half, k - 1, later);
      b := Run(half, Successes(k - 1, later));
      assert Successes(k, later)[1..] == Successes(k - 1, later);
      assert b == Run(tripped, Successes(k, later));
      RunConcat(New(config), [OpTrip(0)], Successes(k, later));
    }
  }

  /**
   A half-open breaker admits a call in every reachable state exactly when the success
   threshold is within the number of trial calls allowed.
   */
  lemma HalfOpenAlwaysAdmitsExactly(config: Config)
    ensures EnoughTrialCalls(config) <==>
      forall b :: Reachable(config, b) && b.state == HalfOpen ==> AllowsRequest(b)
  {
    if EnoughTrialCalls(config) {
      forall b | Reachable(config, b) && b.state == HalfOpen ensures AllowsRequest(b) {
        var ops :| b == Run(New(config), ops);
        RunKeepsInv(New(config), ops);
      }
    } else {
      var b := ReachStuck(config);
    }
  }

  /**
   The waiting time handed out with a rejection is one millisecond short: a call made after
   waiting exactly that long is rejected again, and one made any later is let through.
   */
  lemma RetryHintIsOneShort(b: Circuit, outcome: Outcome, now: nat, later: nat)
    requires Inv(b) && Execute(b, outcome, now).1.Rejected? && Execute(b, outcome, now).0.state == Open
    requires now <= later && b.config.halfOpenMaxCalls > 0 && b.stats.trippedAt.value <= now
    ensures var (c, reply) := Execute(b, outcome, now);
      && reply.retryAfter.Some?
      && (Execute(c, outcome, later).1.Rejected? <==> later - now <= reply.retryAfter.value)
  {
  }
}

/** The breaker as the program has it, proved against `Breaker`. */
module CircuitBreakers {
  import opened Prelude
  import opened Breaker

  class CircuitBreaker {
    const config: Config
    var state: CircuitState
    var failureCount: nat
    var successCount: nat
    var stats: Stats

    function State(): Circuit
      reads this
    {
      Circuit(config, state, failureCount, successCount, stats)
    }

    constructor (config: Config)
      ensures State() == New(config)
    {
      this.config, state, failureCount, successCount := config, Closed, 0, 0;
      stats := Stats(0, 0, 0, None, None, None);
    }

    predicate ValidTransition(to: CircuitState)
      reads this
    {
      match state
      case Closed => to == Open
      case Open => to == HalfOpen
      case HalfOpen => to == Closed || to == Open
    }

    method TransitionTo(to: CircuitState) returns (moved: bool)
      modifies this`state
      ensures moved == old(ValidTransition(to)) && state == if moved then to else old(state)
    {
      moved := ValidTransition(to);
      if moved { state := to; }
    }

    method CheckTimeout(now: nat)
      modifies this
      ensures State() == Breaker.CheckTimeout(old(State()), now)
    {
      if state != Open || stats.trippedAt.None? { return; }
      if SatSub(now, stats.trippedAt.value) > config.timeout {
        var moved := TransitionTo(HalfOpen);
        if moved { successCount := 0; }
      }
    }

    method RecordFailure(now: nat)
      modifies this
      ensures State() == Breaker.RecordFailure(old(State()), now)
    {
      failureCount := failureCount + 1;
      stats := stats.(failures := stats.failures + 1, lastFailure := Some(now));
      match state
      case Closed =>
        if failureCount >= config.failureThreshold {
          var moved := TransitionTo(Open);
          if moved { stats := stats.(trippedAt := Some(now)); }
        }
      case HalfOpen =>
        var _ := TransitionTo(Open);
        successCount := 0;
        stats := stats.(trippedAt := Some(now));
      case Open =>
    }

    method RecordSuccess(now: nat)
      modifies this
      ensures State() == Breaker.RecordSuccess(old(State()), now)
    {
      stats := stats.(successes := stats.successes + 1, lastSuccess := Some(now));
      match state
      case Closed => failureCount := 0;
      case HalfOpen =>
        successCount := successCount + 1;
        if successCount >= config.successThreshold {
          var moved := TransitionTo(Closed);
          if moved { failureCount, successCount := 0, 0; }
        }
      case Open =>
    }

    method Execute(outcome: Outcome, now: nat) returns (reply: Reply)
      modifies this
      ensures (State(), reply) == Breaker.Execute(old(State()), outcome, now)
    {
      CheckTimeout(now);
      if !AllowsRequest(State()) {
        stats := stats.(rejections := stats.rejections + 1);
        return Rejected(RetryAfter(State(), now));
      }
      match outcome
      case Succeeds =>
        RecordSuccess(now);
        reply := Ok;
      case Fails =>
        RecordFailure(now);
        reply := Failed;
    }

    method Trip(now: nat)
      modifies this
      ensures State() == Breaker.Trip(old(State()), now)
    {
      if state == Closed {
        var _ := TransitionTo(Open);
        stats := stats.(trippedAt := Some(now));
      }
    }

    method Reset()
      modifies this
      ensures State() == Breaker.Reset(old(State()))
    {
      state, failureCount, successCount := Closed, 0, 0;
    }
  }
}
