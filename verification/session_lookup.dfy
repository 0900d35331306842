/** Which session a caller gets, told from the live sessions and from the calls made. */
module SessionLookup {
  import opened Prelude
  import opened Sessions

  // ── Finding ────────────────────────────────────────────────────────

  ghost predicate Carries(s: Store, id: Id, key: string) {
    id in s.sessions && s.sessions[id].routingKey == key
  }

  /** The live session a caller asks for: the one named, else the one carrying the routing key, else the one the key spells. */
  ghost predicate AskedFor(s: Store, opts: FindOptions, id: Id) {
    id in s.sessions &&
      if opts.sessionId.Some? && opts.sessionId.value in s.sessions then id == opts.sessionId.value
      else if opts.routingKey.None? then false
      else if exists i :: Carries(s, i, opts.routingKey.value) then Carries(s, id, opts.routingKey.value)
      else opts.routingKey.value == "anima.session." + id
  }

  lemma SpelledExactly(key: string, id: Id)
    ensures ExtractId(key) == Some(id) <==> key == "anima.session." + id
  {
    if key == "anima.session." + id {
      assert SESSION_PREFIX <= key;
      assert key[|SESSION_PREFIX|..] == id;
    }
  }

  lemma KeyIsCarried(s: Store, key: string)
    requires Inv(s)
    ensures ByRoutingKey(s, key).Some? <==> exists i :: Carries(s, i, key)
    ensures forall i :: Carries(s, i, key) ==> ByRoutingKey(s, key) == Some(s.sessions[i])
  {
    if ByRoutingKey(s, key).Some? { assert Carries(s, s.byRoutingKey[key], key); }
  }

  /** There is never more than one session asked for, and the lookup finds it. */
  lemma FindsAskedFor(s: Store, opts: FindOptions, id: Id)
    requires Inv(s)
    ensures AskedFor(s, opts, id) <==> Find(s, opts).Some? && Find(s, opts).value.id == id && id in s.sessions && Find(s, opts).value == s.sessions[id]
  {
    if opts.routingKey.Some? {
      var key := opts.routingKey.value;
      KeyIsCarried(s, key);
      SpelledExactly(key, id);
      if ExtractId(key).Some? { SpelledExactly(key, ExtractId(key).value); }
    }
  }

  /** The new session stands in its own account's list, at the end, and no other list changes. */
  ghost predicate Listed(s: Store, t: Store, channel: string, account: string, id: Id) {
    forall c, a :: ListAt(t, c, a) == if c == channel && a == account then ListAt(s, c, a) + [id] else ListAt(s, c, a)
  }

  /**
   A session that is asked for is returned and nothing changes. Otherwise one is made: with the
   id drawn, the routing key asked for or the one that spells its id, and a place in the list of
   the account asked for or the default one; every other session stays as it is.
   */
  lemma FindsOrCreatesExactly(s: Store, channel: string, opts: FindOptions, newId: Id, now: nat)
    requires Inv(s) && FreshId(s, newId)
    ensures var (t, r) := FindOrCreate(s, channel, opts, newId, now);
      if exists id :: AskedFor(s, opts, id) then AskedFor(s, opts, r.id) && r == s.sessions[r.id] && t == s
      else
        && r == Session(newId, channel, if opts.routingKey.Some? then opts.routingKey.value else "anima.session." + newId, now, now)
        && t.sessions == s.sessions[newId := r]
        && Listed(s, t, channel, if opts.account.Some? then opts.account.value else "default", newId)
  {
    var found := Find(s, opts);
    if found.Some? {
      FindIsLive(s, opts);
      FindsAskedFor(s, opts, found.value.id);
    } else {
      forall id ensures !AskedFor(s, opts, id) { FindsAskedFor(s, opts, id); }
    }
  }

  lemma FindIsLive(s: Store, opts: FindOptions)
    requires Inv(s) && Find(s, opts).Some?
    ensures var r := Find(s, opts).value; r.id in s.sessions && s.sessions[r.id] == r
  {
  }

  // ── Times ──────────────────────────────────────────────────────────

  /** The call makes a session of this id. */
  predicate Makes(s: Store, op: Op, id: Id) {
    op.OpFindOrCreate? && op.newId == id && Find(s, op.opts).None?
  }

  /** When the session was made, and when it was last touched or made. */
  function Times(ops: seq<Op>, id: Id): (nat, nat)
    decreases |ops|
  {
    if ops == [] then (0, 0)
    else
      var last, before := ops[|ops| - 1], ops[..|ops| - 1];
      if Makes(Run(EMPTY, before), last, id) then (last.now, last.now)
      else if last.OpTouch? && last.id == id then (Times(before, id).0, last.now)
      else Times(before, id)
  }

  lemma {:induction false} RunSnoc(s: Store, ops: seq<Op>, op: Op)
    ensures Run(s, ops + [op]) == Step(Run(s, ops), op)
    decreases |ops|
  {
    hide Step;
    if ops == [] {
      assert [] + [op] == [op] && [op][1..] == [];
    } else {
      RunSnoc(Step(s, ops[0]), ops[1..], op);
      assert (ops + [op])[0] == ops[0] && (ops + [op])[1..] == ops[1..] + [op];
    }
  }

  /** In every run a live session bears the time it was made and the time it was last touched. */
  lemma {:induction false} TimesAreKept(ops: seq<Op>, id: Id)
    ensures var s := Run(EMPTY, ops).sessions; id in s ==> (s[id].createdAt, s[id].lastActive) == Times(ops, id)
    decreases |ops|
  {
    if ops == [] {
    } else {
      var last, before := ops[|ops| - 1], ops[..|ops| - 1];
      assert ops == before + [last];
      TimesAreKept(before, id);
      RunSnoc(EMPTY, before, last);
      if id in Run(EMPTY, ops).sessions { StepTimes(Run(EMPTY, before), last, id); }
      hide Step;
      hide Makes;
    }
  }

  lemma StepTimes(s: Store, op: Op, id: Id)
    requires id in Step(s, op).sessions
    ensures var t := Step(s, op).sessions[id];
      if Makes(s, op, id) then (t.createdAt, t.lastActive) == (op.now, op.now)
      else
        && id in s.sessions && t.createdAt == s.sessions[id].createdAt
        && t.lastActive == if op.OpTouch? && op.id == id then op.now else s.sessions[id].lastActive
  {
  }

  // ── Account lists ──────────────────────────────────────────────────

  ghost predicate NoEmptyLists(s: Store) {
    forall c, a :: c in s.byChannel && a in s.byChannel[c] ==> s.byChannel[c][a] != []
  }

  /** In every run an account list that becomes empty is gone. */
  lemma {:induction false} EmptyListsGo(s: Store, ops: seq<Op>)
    requires NoEmptyLists(s)
    ensures NoEmptyLists(Run(s, ops))
    decreases |ops|
  {
    if ops == [] {
    } else {
      StepLeavesNone(s, ops[0]);
      hide Step;
      hide NoEmptyLists;
      EmptyListsGo(Step(s, ops[0]), ops[1..]);
    }
  }

  lemma StepLeavesNone(s: Store, op: Op)
    requires NoEmptyLists(s)
    ensures NoEmptyLists(Step(s, op))
  {
  }
}
