/**
 The bounded channel used by several senders at once. A send is not atomic: the length check,
 each pop of an old message and the final push into the buffer are separate steps, and other
 senders and the receiver may move between them.
 */
module ChannelInterleaving {
  import opened Prelude
  import opened BoundedQueue

  /** Where one sender stands inside `send`. */
  datatype Phase<M> =
    | Idle
    | Checking(m: M)  // about to compare the length with the capacity
    | Popping(m: M)   // saw a full queue, about to `try_recv` an old message
    | Ready(m: M)     // past the check, about to push

  /** `pushed` and `taken` are what went into the buffer and what left it at the front, in order. */
  datatype World<M> = World(strategy: Strategy, queue: seq<M>, senders: seq<Phase<M>>, started: nat, received: nat, dropped: nat,
    pushed: seq<M>, taken: seq<M>)

  datatype Action<M> = Begin(i: nat, m: M) | Check(i: nat) | Pop(i: nat) | Push(i: nat) | Receive

  ghost predicate Enabled<M>(w: World<M>, a: Action<M>) {
    match a
    case Begin(i, _) => i < |w.senders| && w.senders[i].Idle?
    case Check(i) => i < |w.senders| && w.senders[i].Checking?
    case Pop(i) => i < |w.senders| && w.senders[i].Popping?
    case Push(i) => i < |w.senders| && w.senders[i].Ready? && |w.queue| < Slots(w.strategy)
    case Receive => w.queue != []
  }

  /** Moves sender `i` to phase `p`. */
  function To<M>(w: World<M>, i: nat, p: Phase<M>): World<M>
    requires i < |w.senders|
  {
    w.(senders := w.senders[i := p])
  }

  ghost function Apply<M>(w: World<M>, a: Action<M>): World<M>
    requires Enabled(w, a)
  {
    match a
    case Begin(i, m) => To(w, i, Checking(m)).(started := w.started + 1)
    case Check(i) =>
      if |w.queue| < w.strategy.cap then To(w, i, Ready(w.senders[i].m))
      else if w.strategy.Dropping? then To(w, i, Idle).(dropped := w.dropped + 1)
      else To(w, i, Popping(w.senders[i].m))
    case Pop(i) =>
      if w.queue == [] then To(w, i, Ready(w.senders[i].m))
      else To(w, i, Checking(w.senders[i].m)).(queue := w.queue[1..], dropped := w.dropped + 1, taken := w.taken + [w.queue[0]])
    case Push(i) => To(w, i, Idle).(queue := w.queue + [w.senders[i].m], pushed := w.pushed + [w.senders[i].m])
    case Receive => w.(queue := w.queue[1..], received := w.received + 1, taken := w.taken + [w.queue[0]])
  }

  function Init<M>(strategy: Strategy, n: nat): World<M> {
    World(strategy, [], seq(n, _ => Idle), 0, 0, 0, [], [])
  }

  /** `acts` can be performed one after the other from the start, and lead to `w`. */
  ghost predicate Leads<M(!new)>(strategy: Strategy, n: nat, acts: seq<Action<M>>, w: World<M>)
    decreases |acts|
  {
    if acts == [] then w == Init(strategy, n)
    else
      var last := |acts| - 1;
      exists v :: Leads(strategy, n, acts[..last], v) && Enabled(v, acts[last]) && w == Apply(v, acts[last])
  }

  ghost predicate Reachable<M(!new)>(strategy: Strategy, n: nat, w: World<M>) {
    exists acts :: Leads(strategy, n, acts, w)
  }

  /** A sender past its check finds every slot taken and has to wait. */
  ghost predicate Blocked<M>(w: World<M>, i: nat) {
    i < |w.senders| && w.senders[i].Ready? && |w.queue| >= Slots(w.strategy)
  }

  // ── Counting senders by phase ──────────────────────────────────────

  ghost function Readies<M>(s: seq<Phase<M>>): nat {
    if s == [] then 0 else (if s[0].Ready? then 1 else 0) + Readies(s[1..])
  }

  ghost function Busy<M>(s: seq<Phase<M>>): nat {
    if s == [] then 0 else (if s[0].Idle? then 0 else 1) + Busy(s[1..])
  }

  lemma {:induction false} UpdateCounts<M>(s: seq<Phase<M>>, i: nat, p: Phase<M>)
    requires i < |s|
    ensures Readies(s[i := p]) == Readies(s) - (if s[i].Ready? then 1 else 0) + (if p.Ready? then 1 else 0)
    ensures Busy(s[i := p]) == Busy(s) - (if s[i].Idle? then 0 else 1) + (if p.Idle? then 0 else 1)
    ensures (if s[i].Ready? then 1 else 0) <= Readies(s) <= |s|
  {
    if i == 0 {
      ReadiesBound(s[1..]);
      assert s[i := p][1..] == s[1..];
    } else {
      UpdateCounts(s[1..], i - 1, p);
      assert s[i := p][1..] == s[1..][i - 1 := p];
    }
  }

  lemma {:induction false} ReadiesBound<M>(s: seq<Phase<M>>)
    ensures Readies(s) <= |s|
  {
    if s == [] {
    } else {
      ReadiesBound(s[1..]);
    }
  }

  lemma {:induction false} AllIdle<M>(s: seq<Phase<M>>)
    requires forall i :: 0 <= i < |s| ==> s[i].Idle?
    ensures Readies(s) == Busy(s) == 0
  {
    if s == [] {
    } else {
      AllIdle(s[1..]);
    }
  }

  // ── What every step keeps ──────────────────────────────────────────

  /** Messages leave the buffer in the order they were pushed into it. */
  ghost predicate InOrder<M>(w: World<M>) {
    w.pushed == w.taken + w.queue
  }

  lemma StepKeepsOrder<M>(w: World<M>, a: Action<M>)
    requires InOrder(w) && Enabled(w, a)
    ensures InOrder(Apply(w, a))
  {
    if w.queue != [] { assert w.taken + [w.queue[0]] + w.queue[1..] == w.taken + w.queue; }
    if a.Push? { assert w.taken + w.queue + [w.senders[a.i].m] == w.taken + (w.queue + [w.senders[a.i].m]); }
  }

  ghost predicate Inv<M>(w: World<M>, n: nat) {
    && |w.senders| == n
    && |w.queue| + Readies(w.senders) <= Max(w.strategy.cap, 1) - 1 + n
    && w.started == Busy(w.senders) + |w.queue| + w.received + w.dropped
    && InOrder(w)
    && (w.strategy == Dropping(0) ==> forall i :: 0 <= i < n ==> w.senders[i].Idle? || w.senders[i].Checking?)
  }

  lemma StepKeepsInv<M>(w: World<M>, n: nat, a: Action<M>)
    requires Inv(w, n) && Enabled(w, a)
    ensures Inv(Apply(w, a), n) && Apply(w, a).strategy == w.strategy
  {
    StepKeepsOrder(w, a);
    hide InOrder;
    if !a.Receive? {
      var w' := Apply(w, a);
      UpdateCounts(w.senders, a.i, w'.senders[a.i]);
      ReadiesBound(w'.senders);
    }
  }

  lemma {:induction false} LeadsKeepsInv<M(!new)>(strategy: Strategy, n: nat, acts: seq<Action<M>>, w: World<M>)
    requires Leads(strategy, n, acts, w)
    ensures Inv(w, n) && w.strategy == strategy
    decreases |acts|
  {
    if acts == [] {
      AllIdle(w.senders);
    } else {
      var last := |acts| - 1;
      var v :| Leads(strategy, n, acts[..last], v) && Enabled(v, acts[last]) && w == Apply(v, acts[last]);
      LeadsKeepsInv(strategy, n, acts[..last], v);
      StepKeepsInv(v, n, acts[last]);
    }
  }

  /**
   In every interleaving, queued messages and senders past their check together number at
   most capacity - 1 + senders, and no message is lost uncounted: each send begun is still
   in progress, queued, received or counted as dropped; and messages leave the buffer in the
   order they were pushed into it.
   */
  lemma QueueAndReadyBounded<M(!new)>(strategy: Strategy, n: nat, w: World<M>)
    requires Reachable(strategy, n, w)
    ensures |w.queue| + Readies(w.senders) <= Max(strategy.cap, 1) - 1 + n
    ensures w.started == Busy(w.senders) + |w.queue| + w.received + w.dropped
    ensures w.pushed == w.taken + w.queue
  {
    var acts :| Leads(strategy, n, acts, w);
    LeadsKeepsInv(strategy, n, acts, w);
  }

  // ── Exactly how many senders the spare slot is good for ────────────

  /** At most two senders for any capacity of one or more; one for Sliding(0). */
  predicate SpareSlotSuffices(strategy: Strategy, n: nat) {
    strategy == Dropping(0) || n <= if strategy.cap == 0 then 1 else 2
  }

  lemma NeverBlocks<M(!new)>(strategy: Strategy, n: nat, w: World<M>, i: nat)
    requires SpareSlotSuffices(strategy, n) && Reachable(strategy, n, w)
    ensures !Blocked(w, i)
  {
    var acts :| Leads(strategy, n, acts, w);
    LeadsKeepsInv(strategy, n, acts, w);
    if i < |w.senders| { UpdateCounts(w.senders, i, Idle); }
  }

  lemma Extend<M(!new)>(strategy: Strategy, n: nat, v: World<M>, a: Action<M>) returns (w: World<M>)
    requires Reachable(strategy, n, v) && Enabled(v, a)
    ensures w == Apply(v, a) && Reachable(strategy, n, w)
  {
    var acts :| Leads(strategy, n, acts, v);
    w := Apply(v, a);
    var longer := acts + [a];
    assert longer[..|longer| - 1] == acts && longer[|longer| - 1] == a;
    assert Leads(strategy, n, longer, w);
  }

  /** Sender `i` can always walk from Idle past its check while the queue is one below the bound. */
  lemma WalkToReady<M(!new)>(strategy: Strategy, n: nat, v: World<M>, i: nat, m: M) returns (w: World<M>)
    requires Reachable(strategy, n, v) && v.strategy == strategy != Dropping(0)
    requires i < |v.senders| && v.senders[i].Idle? && |v.queue| < Max(strategy.cap, 1)
    ensures Reachable(strategy, n, w)
    ensures w.strategy == v.strategy && w.queue == v.queue && w.senders == v.senders[i := Ready(m)]
  {
    w := Extend(strategy, n, v, Begin(i, m));
    w := Extend(strategy, n, w, Check(i));
    if w.senders[i].Popping? { w := Extend(strategy, n, w, Pop(i)); }
    assert w.senders == v.senders[i := Ready(m)];
  }

  /** One sender alone can fill the queue to just below the bound. */
  lemma {:induction false} Fill<M(!new)>(strategy: Strategy, n: nat, k: nat, m: M) returns (w: World<M>)
    requires strategy != Dropping(0) && n > 0 && k < Max(strategy.cap, 1)
    ensures Reachable(strategy, n, w) && w.strategy == strategy && |w.queue| == k
    ensures |w.senders| == n && forall i :: 0 <= i < n ==> w.senders[i].Idle?
  {
    if k == 0 {
      w := Init(strategy, n);
      assert Leads(strategy, n, [], w);
    } else {
      w := Fill(strategy, n, k - 1, m);
      w := WalkToReady(strategy, n, w, 0, m);
      w := Extend(strategy, n, w, Push(0));
    }
  }

  lemma CanBlock<M(!new)>(strategy: Strategy, n: nat, m: M) returns (w: World<M>, i: nat)
    requires !SpareSlotSuffices(strategy, n)
    ensures Reachable(strategy, n, w) && Blocked(w, i)
  {
    w := Fill(strategy, n, Max(strategy.cap, 1) - 1, m);
    w := WalkToReady(strategy, n, w, 0, m);
    w := WalkToReady(strategy, n, w, 1, m);
    if strategy.cap == 0 {
      w := Extend(strategy, n, w, Push(0));
      i := 1;
    } else {
      w := WalkToReady(strategy, n, w, 2, m);
      w := Extend(strategy, n, w, Push(0));
      w := Extend(strategy, n, w, Push(1));
      i := 2;
    }
  }

  /** No interleaving of `n` senders ever waits for a slot exactly when `n` is small enough. */
  lemma SpareSlotSufficesExactly<M(!new)>(strategy: Strategy, n: nat, m: M)
    ensures SpareSlotSuffices(strategy, n) <==>
      forall w: World<M>, i: nat :: Reachable(strategy, n, w) ==> !Blocked(w, i)
  {
    if SpareSlotSuffices(strategy, n) {
      forall w: World<M>, i: nat | Reachable(strategy, n, w) ensures !Blocked(w, i) {
        NeverBlocks(strategy, n, w, i);
      }
    } else {
      var w, i := CanBlock(strategy, n, m);
    }
  }
}
