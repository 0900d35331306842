/**
 The bounded bus channel, used by one caller at a time: a shared queue of capacity + 1 slots,
 with a sender that checks the length first and either drops the new message or pops old ones.
 */
module BoundedQueue {
  import opened Prelude

  datatype Strategy = Dropping(cap: nat) | Sliding(cap: nat)

  datatype Channel<M> = Channel(strategy: Strategy, queue: seq<M>, dropped: nat)

  // ── What each call does ────────────────────────────────────────────

  function New<M>(strategy: Strategy): Channel<M> {
    Channel(strategy, [], 0)
  }

  /** The slots of the underlying buffer: one more than the capacity. */
  function Slots(strategy: Strategy): nat {
    strategy.cap + 1
  }

  /** The Sliding sender's loop: pop and count while the queue is at capacity and not empty. */
  function SlideOut<M>(c: Channel<M>): Channel<M>
    decreases |c.queue|
  {
    if |c.queue| < c.strategy.cap || c.queue == [] then c
    else SlideOut(c.(queue := c.queue[1..], dropped := c.dropped + 1))
  }

  function Send<M>(c: Channel<M>, m: M): Channel<M> {
    match c.strategy
    case Dropping(cap) =>
      if |c.queue| >= cap then c.(dropped := c.dropped + 1) else c.(queue := c.queue + [m])
    case Sliding(_) =>
      var d := SlideOut(c);
      d.(queue := d.queue + [m])
  }

  function TryRecv<M>(c: Channel<M>): (Channel<M>, Option<M>) {
    if c.queue == [] then (c, None) else (c.(queue := c.queue[1..]), Some(c.queue[0]))
  }

  // ── Lengths ────────────────────────────────────────────────────────

  /** How many messages the queue holds at most: a Sliding capacity of 0 still keeps one. */
  function Bound(strategy: Strategy): nat {
    match strategy
    case Dropping(cap) => cap
    case Sliding(cap) => Max(cap, 1)
  }

  /** How many messages the popping loop leaves of `len`. */
  function Left(len: nat, cap: nat): (n: nat)
    ensures n <= len
  {
    if len < cap then len else if cap == 0 then 0 else cap - 1
  }

  /** The loop pops from the front and counts what it pops. */
  lemma {:induction false} SlideOutFacts<M>(c: Channel<M>)
    ensures var k := |c.queue| - Left(|c.queue|, c.strategy.cap);
      SlideOut(c) == c.(queue := c.queue[k..], dropped := c.dropped + k)
    decreases |c.queue|
  {
    var len := |c.queue|;
    if len < c.strategy.cap || len == 0 {
      assert c.queue[0..] == c.queue;
    } else {
      var e := c.(queue := c.queue[1..], dropped := c.dropped + 1);
      SlideOutFacts(e);
      var k := len - 1 - Left(len - 1, c.strategy.cap);
      assert Left(len - 1, c.strategy.cap) == Left(len, c.strategy.cap);
      assert c.queue[1..][k..] == c.queue[k + 1..];
    }
  }

  lemma SlidingSend<M>(c: Channel<M>, m: M)
    requires c.strategy.Sliding? && |c.queue| <= Bound(c.strategy)
    ensures Send(c, m) ==
      if |c.queue| < Bound(c.strategy) then c.(queue := c.queue + [m])
      else c.(queue := c.queue[1..] + [m], dropped := c.dropped + 1)
  {
    SlideOutFacts(c);
    if |c.queue| < Bound(c.strategy) {
      assert c.queue[0..] == c.queue;
      assert SlideOut(c) == c;
    } else {
      assert SlideOut(c) == c.(queue := c.queue[1..], dropped := c.dropped + 1);
    }
  }

  /** One send, in closed form. */
  lemma SendFacts<M>(c: Channel<M>, m: M)
    requires |c.queue| <= Bound(c.strategy)
    ensures var d := Send(c, m);
      && d.strategy == c.strategy
      && |d.queue| == Min(|c.queue| + 1, Bound(c.strategy))
      && d.dropped == c.dropped + (if |c.queue| < Bound(c.strategy) then 0 else 1)
      && d.queue == (if |c.queue| < Bound(c.strategy) then c.queue + [m]
                     else if c.strategy.Dropping? then c.queue
                     else c.queue[1..] + [m])
  {
    if c.strategy.Sliding? { SlidingSend(c, m); }
  }

  // ── Runs ───────────────────────────────────────────────────────────

  datatype Op<M> = OpSend(msg: M) | OpRecv

  /** A run's bookkeeping: the channel, and what went in and came out of it so far. */
  datatype Run<M> = Run(chan: Channel<M>, sent: seq<M>, received: seq<M>)

  ghost function Step<M>(r: Run<M>, op: Op<M>): Run<M> {
    match op
    case OpSend(m) => Run(Send(r.chan, m), r.sent + [m], r.received)
    case OpRecv =>
      var (c, got) := TryRecv(r.chan);
      Run(c, r.sent, if got.Some? then r.received + [got.value] else r.received)
  }

  ghost function Execute<M>(r: Run<M>, ops: seq<Op<M>>): Run<M>
    decreases |ops|
  {
    if ops == [] then r else Execute(Step(r, ops[0]), ops[1..])
  }

  ghost predicate Conserved<M>(r: Run<M>) {
    && |r.chan.queue| <= Bound(r.chan.strategy)
    && |r.sent| == |r.received| + |r.chan.queue| + r.chan.dropped
    && Subseq(r.received + r.chan.queue, r.sent)
  }

  lemma StepConserves<M>(r: Run<M>, op: Op<M>)
    requires Conserved(r)
    ensures Conserved(Step(r, op)) && Step(r, op).chan.strategy == r.chan.strategy
  {
    var q, got := r.chan.queue, r.received;
    match op
    case OpSend(m) =>
      SendFacts(r.chan, m);
      if |q| < Bound(r.chan.strategy) {
        SubseqSnoc(got + q, r.sent, m);
        assert got + q + [m] == got + (q + [m]);
      } else if r.chan.strategy.Dropping? {
        SubseqExtend(got + q, r.sent, m);
      } else {
        assert got + q == got + [q[0]] + q[1..];
        SubseqOmit(got, q[0], q[1..], r.sent);
        SubseqSnoc(got + q[1..], r.sent, m);
        assert got + q[1..] + [m] == got + (q[1..] + [m]);
      }
    case OpRecv =>
      if q != [] {
        assert got + [q[0]] + q[1..] == got + q;
      }
  }

  /**
   After any run of sends and receives: every message sent was received, is still queued or
   was counted as dropped; received followed by queued is an order-preserving part of what
   was sent; and the queue is within its bound.
   */
  lemma {:induction false} RunConserves<M>(r: Run<M>, ops: seq<Op<M>>)
    requires Conserved(r)
    ensures Conserved(Execute(r, ops)) && Execute(r, ops).chan.strategy == r.chan.strategy
    decreases |ops|
  {
    if ops == [] {
    } else {
      StepConserves(r, ops[0]);
      RunConserves(Step(r, ops[0]), ops[1..]);
    }
  }

  /** As many receives as there are messages queued bring them all, in order, and leave nothing. */
  lemma {:induction false} ReceivesDrain<M>(r: Run<M>, ops: seq<Op<M>>)
    requires |ops| == |r.chan.queue| && forall i :: 0 <= i < |ops| ==> ops[i].OpRecv?
    ensures var e := Execute(r, ops); e.received == r.received + r.chan.queue && e.chan == r.chan.(queue := []) && e.sent == r.sent
    decreases |ops|
  {
    if ops == [] {
      assert r.received + [] == r.received;
    } else {
      var q := r.chan.queue;
      assert r.received + [q[0]] + q[1..] == r.received + q;
      var next := Step(r, ops[0]);
      assert next == Run(r.chan.(queue := q[1..]), r.sent, r.received + [q[0]]);
      hide Step;
      ReceivesDrain(next, ops[1..]);
    }
  }

  ghost function SendAll<M>(c: Channel<M>, msgs: seq<M>): Channel<M>
    decreases |msgs|
  {
    if msgs == [] then c else Send(SendAll(c, msgs[..|msgs| - 1]), msgs[|msgs| - 1])
  }

  /** What a channel that only sent `msgs` holds: the oldest or the newest of them. */
  function Kept<M>(strategy: Strategy, msgs: seq<M>): seq<M> {
    var n := Min(|msgs|, Bound(strategy));
    if strategy.Dropping? then msgs[..n] else msgs[|msgs| - n..]
  }

  lemma KeptGrows<M>(strategy: Strategy, msgs: seq<M>, m: M)
    ensures Kept(strategy, msgs + [m]) ==
      if |msgs| < Bound(strategy) then Kept(strategy, msgs) + [m]
      else if strategy.Dropping? then Kept(strategy, msgs)
      else Kept(strategy, msgs)[1..] + [m]
  {
    var b, n, all := Bound(strategy), |msgs|, msgs + [m];
    if n < b {
      assert Kept(strategy, msgs) == msgs && Kept(strategy, all) == all;
    } else if strategy.Dropping? {
      assert all[..b] == msgs[..b];
    } else {
      assert msgs[n - b..][1..] == msgs[n - b + 1..];
      assert all[n + 1 - b..] == msgs[n - b + 1..] + [m];
    }
  }

  /** With nobody receiving, Dropping keeps the oldest messages and Sliding the newest. */
  lemma {:induction false} WithoutReceives<M>(strategy: Strategy, msgs: seq<M>)
    ensures SendAll(New(strategy), msgs) == Channel(strategy, Kept(strategy, msgs), |msgs| - Min(|msgs|, Bound(strategy)))
    decreases |msgs|
  {
    if msgs == [] {
    } else {
      var front, m := msgs[..|msgs| - 1], msgs[|msgs| - 1];
      WithoutReceives(strategy, front);
      assert msgs == front + [m];
      KeptGrows(strategy, front, m);
      SendFacts(SendAll(New(strategy), front), m);
    }
  }
}

/** The channel as the program has it, proved against `BoundedQueue`. */
module BoundedChannels {
  import opened Prelude
  import opened BoundedQueue

  class Bounded<M> {
    const strategy: Strategy
    var queue: seq<M>
    var dropped: nat

    ghost function State(): Channel<M>
      reads this
    {
      Channel(strategy, queue, dropped)
    }

    constructor (strategy: Strategy)
      ensures State() == New(strategy)
    {
      this.strategy, queue, dropped := strategy, [], 0;
    }

    /** The send into the buffer. The precondition is that no caller ever waits for a slot. */
    method Push(m: M)
      requires |queue| < Slots(strategy)
      modifies this`queue
      ensures queue == old(queue) + [m]
    {
      queue := queue + [m];
    }

    method TryRecv() returns (m: Option<M>)
      modifies this`queue
      ensures (State(), m) == BoundedQueue.TryRecv(old(State()))
    {
      if queue == [] { return None; }
      m := Some(queue[0]);
      queue := queue[1..];
    }

    method Send(m: M)
      modifies this
      ensures State() == BoundedQueue.Send(old(State()), m)
      ensures |old(queue)| <= Bound(strategy) ==> |queue| <= Bound(strategy)
    {
      if |queue| <= Bound(strategy) { SendFacts(State(), m); }
      match strategy
      case Dropping(cap) =>
        if |queue| >= cap {
          dropped := dropped + 1;
          return;
        }
        Push(m);
      case Sliding(cap) =>
        while |queue| >= cap
          invariant SlideOut(State()) == SlideOut(old(State()))
          decreases |queue|
        {
          var popped := TryRecv();
          if popped.None? { break; }
          dropped := dropped + 1;
        }
        assert SlideOut(State()) == State();
        Push(m);
    }
  }
}
