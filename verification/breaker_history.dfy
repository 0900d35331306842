/** The breaker told from the replies it gave: what each call does, counted from those before it. */
module BreakerHistory {
  import opened Prelude
  import opened Breaker

  /** What a caller hears: a reply to a call, nothing to a trip or a reset. */
  function Heard(b: Circuit, op: Op): Option<Reply> {
    if op.OpExecute? then Some(Execute(b, op.outcome, op.now).1) else None
  }

  function After(config: Config, ops: seq<Op>): Circuit {
    Run(New(config), ops)
  }

  /** Failures in a row: failed replies since the last good one or the last reset. */
  function Streak(config: Config, ops: seq<Op>): nat
    decreases |ops|
  {
    if ops == [] then 0
    else
      var last, before := ops[|ops| - 1], ops[..|ops| - 1];
      var heard := Heard(After(config, before), last);
      if last.OpReset? || heard == Some(Ok) then 0
      else Streak(config, before) + if heard == Some(Failed) then 1 else 0
  }

  /** Good replies since the breaker became half-open. */
  function Trials(config: Config, ops: seq<Op>): nat
    decreases |ops|
  {
    if ops == [] then 0
    else
      var last, before := ops[|ops| - 1], ops[..|ops| - 1];
      var b := After(config, before);
      (if b.state == HalfOpen then Trials(config, before) else 0) + if Heard(b, last) == Some(Ok) then 1 else 0
  }

  /** The time of the call that failed, or tripped by hand, and left the breaker open. */
  function Tripped(config: Config, ops: seq<Op>): Option<nat>
    decreases |ops|
  {
    if ops == [] then None
    else
      var last, before := ops[|ops| - 1], ops[..|ops| - 1];
      var b := After(config, before);
      if After(config, ops).state == Open && (Heard(b, last) == Some(Failed) || (last.OpTrip? && b.state == Closed)) then Some(last.now)
      else Tripped(config, before)
  }

  /** How often a kind of reply was given. */
  function Count(config: Config, ops: seq<Op>, good: bool, bad: bool): nat
    decreases |ops|
  {
    if ops == [] then 0
    else
      var last, before := ops[|ops| - 1], ops[..|ops| - 1];
      var heard := Heard(After(config, before), last);
      Count(config, before, good, bad) + if heard.Some? && (heard.value == Ok) == good && (heard.value == Failed) == bad then 1 else 0
  }

  /** When a good reply was last given, or a failed one. */
  function LastTime(config: Config, ops: seq<Op>, reply: Reply): Option<nat>
    decreases |ops|
  {
    if ops == [] then None
    else
      var last, before := ops[|ops| - 1], ops[..|ops| - 1];
      if last.OpExecute? && Heard(After(config, before), last) == Some(reply) then Some(last.now) else LastTime(config, before, reply)
  }

  ghost predicate Agrees(config: Config, ops: seq<Op>, b: Circuit) {
    && b.config == config && b.stats.trippedAt == Tripped(config, ops)
    && (b.state == Closed ==> b.failureCount == Streak(config, ops))
    && (b.state == HalfOpen ==> b.successCount == Trials(config, ops))
    && (b.state != Closed ==> b.stats.trippedAt.Some?)
  }

  lemma AfterSnoc(config: Config, ops: seq<Op>, op: Op)
    ensures After(config, ops + [op]) == Step(After(config, ops), op) && (ops + [op])[..|ops|] == ops
  {
    RunConcat(New(config), ops, [op]);
    assert [op][1..] == [];
  }

  lemma StepAgrees(config: Config, ops: seq<Op>, op: Op)
    requires Agrees(config, ops, After(config, ops))
    ensures Agrees(config, ops + [op], After(config, ops + [op]))
  {
    AfterSnoc(config, ops, op);
    hide After;
  }

  lemma {:induction false} CountersAgree(config: Config, ops: seq<Op>)
    ensures Agrees(config, ops, After(config, ops))
    decreases |ops|
  {
    if ops == [] {
    } else {
      CountersAgree(config, ops[..|ops| - 1]);
      StepAgrees(config, ops[..|ops| - 1], ops[|ops| - 1]);
      assert ops == ops[..|ops| - 1] + [ops[|ops| - 1]];
    }
  }

  function OrZero(t: Option<nat>): nat {
    if t.Some? then t.value else 0
  }

  /**
   Every call, from the replies before it. A closed breaker lets it through and opens exactly at
   the failure that makes the failures in a row reach the threshold. An open one rejects it until
   more than the timeout has passed since it opened. From then on it is half-open: it lets
   through as long as fewer trial calls have succeeded than are allowed, closes exactly at the
   success that reaches the threshold, and opens at any failure.
   */
  lemma {:induction false} CallExactly(config: Config, ops: seq<Op>, outcome: Outcome, now: nat)
    ensures var (b, (c, reply)) := (After(config, ops), Execute(After(config, ops), outcome, now));
      var since, trials := SatSub(now, OrZero(Tripped(config, ops))), if b.state == HalfOpen then Trials(config, ops) else 0;
      var half := b.state == HalfOpen || (b.state == Open && since > config.timeout);
      && c == After(config, ops + [OpExecute(outcome, now)])
      && if b.state == Closed then
           && reply == (if outcome == Succeeds then Ok else Failed)
           && c.state == (if outcome == Fails && Streak(config, ops) + 1 >= Max(config.failureThreshold, 1) then Open else Closed)
         else if half && trials < config.halfOpenMaxCalls then
           && reply == (if outcome == Succeeds then Ok else Failed)
           && c.state == (if outcome == Fails then Open else if trials + 1 >= Max(config.successThreshold, 1) then Closed else HalfOpen)
         else
           reply == Rejected(Some(SatSub(config.timeout, since))) && c.state == if half then HalfOpen else Open
  {
    CountersAgree(config, ops);
    AfterSnoc(config, ops, OpExecute(outcome, now));
    hide After;
    hide Streak;
    hide Trials;
    hide Tripped;
  }

  /** The counters of the statistics are the replies given, and the times those of the last good and the last failed one. */
  lemma {:induction false} RepliesAreCounted(config: Config, ops: seq<Op>)
    ensures var s := After(config, ops).stats;
      s.successes == Count(config, ops, true, false) && s.failures == Count(config, ops, false, true) && s.rejections == Count(config, ops, false, false)
      && s.lastSuccess == LastTime(config, ops, Ok) && s.lastFailure == LastTime(config, ops, Failed)
    decreases |ops|
  {
    if ops == [] {
    } else {
      var before, last := ops[..|ops| - 1], ops[|ops| - 1];
      RepliesAreCounted(config, before);
      AfterSnoc(config, before, last);
      assert ops == before + [last];
      hide After;
    }
  }

  // ── Reset ──────────────────────────────────────────────────────────

  function Replies(b: Circuit, ops: seq<Op>): seq<Option<Reply>>
    decreases |ops|
  {
    if ops == [] then [] else [Heard(b, ops[0])] + Replies(Step(b, ops[0]), ops[1..])
  }

  /** Two breakers no caller can tell apart: the statistics may differ, and the trip time of a closed one. */
  predicate Alike(b: Circuit, c: Circuit) {
    && b.config == c.config && b.state == c.state && b.failureCount == c.failureCount && b.successCount == c.successCount
    && (b.state != Closed ==> b.stats.trippedAt == c.stats.trippedAt)
  }

  lemma {:induction false} AlikeReply(b: Circuit, c: Circuit, ops: seq<Op>)
    requires Alike(b, c)
    ensures Replies(b, ops) == Replies(c, ops)
    decreases |ops|
  {
    if ops == [] {
    } else {
      AlikeReply(Step(b, ops[0]), Step(c, ops[0]), ops[1..]);
    }
  }

  /** From any state, a breaker that is reset replies to every later run as a new one does. */
  lemma {:induction false} ResetIsNew(b: Circuit, ops: seq<Op>)
    ensures Replies(b, [OpReset] + ops) == [None] + Replies(New(b.config), ops)
  {
    assert ([OpReset] + ops)[1..] == ops;
    AlikeReply(Reset(b), New(b.config), ops);
  }

  /** A closed breaker tripped by hand rejects every call up to the timeout; tripping one that is not closed does nothing. */
  lemma TripOpensExactly(b: Circuit, outcome: Outcome, tripped: nat, now: nat)
    ensures var c := Trip(b, tripped);
      if b.state == Closed then
        && c.state == Open
        && (Execute(c, outcome, now).1.Rejected? <==> SatSub(now, tripped) <= b.config.timeout || b.config.halfOpenMaxCalls == 0)
      else c == b
  {
  }
}
