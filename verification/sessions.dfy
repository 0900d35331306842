/**
 The channel session store: sessions by id, and two indexes over them, by routing key and by
 channel and account. Contexts and metadata are opaque and left out; ids the program draws
 at random are arguments.
 */
module Sessions {
  import opened Prelude

  type Id = string

  datatype Session = Session(id: Id, channel: string, routingKey: string, createdAt: nat, lastActive: nat)

  datatype Store = Store(
    sessions: map<Id, Session>,
    byRoutingKey: map<string, Id>,
    byChannel: map<string, map<string, seq<Id>>>)

  datatype FindOptions = FindOptions(sessionId: Option<Id>, routingKey: Option<string>, account: Option<string>)

  // ── What each call does ────────────────────────────────────────────

  const EMPTY := Store(map[], map[], map[])

  const SESSION_PREFIX := "anima.session."

  function SessionKey(id: Id): string {
    SESSION_PREFIX + id
  }

  function ExtractId(key: string): Option<Id> {
    if SESSION_PREFIX <= key then Some(key[|SESSION_PREFIX|..]) else None
  }

  function OrElse<T>(o: Option<T>, d: T): T {
    if o.Some? then o.value else d
  }

  function Accounts(s: Store, channel: string): map<string, seq<Id>> {
    if channel in s.byChannel then s.byChannel[channel] else map[]
  }

  function ListAt(s: Store, channel: string, account: string): seq<Id> {
    var accounts := Accounts(s, channel);
    if account in accounts then accounts[account] else []
  }

  function Create(s: Store, channel: string, id: Id, routingKey: Option<string>, account: Option<string>, now: nat): (Store, Session) {
    var key := OrElse(routingKey, SessionKey(id));
    var acc := OrElse(account, "default");
    var session := Session(id, channel, key, now, now);
    (Store(s.sessions[id := session],
           s.byRoutingKey[key := id],
           s.byChannel[channel := Accounts(s, channel)[acc := ListAt(s, channel, acc) + [id]]]),
     session)
  }

  /** An account list without one id; lists that become empty are removed. */
  function Purged(accounts: map<string, seq<Id>>, id: Id): map<string, seq<Id>> {
    map a | a in accounts && Without(accounts[a], id) != [] :: Without(accounts[a], id)
  }

  function Close(s: Store, id: Id): (Store, Option<Session>) {
    if id !in s.sessions then (s, None)
    else
      var session := s.sessions[id];
      var c := session.channel;
      (Store(s.sessions - {id},
             s.byRoutingKey - {session.routingKey},
             if c in s.byChannel then s.byChannel[c := Purged(s.byChannel[c], id)] else s.byChannel),
       Some(session))
  }

  function ByRoutingKey(s: Store, key: string): Option<Session> {
    if key in s.byRoutingKey && s.byRoutingKey[key] in s.sessions then Some(s.sessions[s.byRoutingKey[key]]) else None
  }

  function ById(s: Store, id: Id): Option<Session> {
    if id in s.sessions then Some(s.sessions[id]) else None
  }

  /** The lookups of `find_or_create_session`, in order: id, routing key, id spelled in the routing key. */
  function Find(s: Store, opts: FindOptions): Option<Session> {
    if opts.sessionId.Some? && ById(s, opts.sessionId.value).Some? then ById(s, opts.sessionId.value)
    else if opts.routingKey.None? then None
    else if ByRoutingKey(s, opts.routingKey.value).Some? then ByRoutingKey(s, opts.routingKey.value)
    else
      var spelled := ExtractId(opts.routingKey.value);
      if spelled.Some? then ById(s, spelled.value) else None
  }

  function FindOrCreate(s: Store, channel: string, opts: FindOptions, newId: Id, now: nat): (Store, Session) {
    var found := Find(s, opts);
    if found.Some? then (s, found.value) else Create(s, channel, newId, opts.routingKey, opts.account, now)
  }

  function TouchSession(s: Store, id: Id, now: nat): Store {
    if id in s.sessions then s.(sessions := s.sessions[id := s.sessions[id].(lastActive := now)]) else s
  }

  // ── The three indexes agree ────────────────────────────────────────

  /** Every routing key leads to a live session carrying it, and every live session is led to by its key. */
  ghost predicate KeysAgree(s: Store) {
    && (forall id :: id in s.sessions ==>
          s.sessions[id].id == id && s.sessions[id].routingKey in s.byRoutingKey && s.byRoutingKey[s.sessions[id].routingKey] == id)
    && (forall k :: k in s.byRoutingKey ==> s.byRoutingKey[k] in s.sessions && s.sessions[s.byRoutingKey[k]].routingKey == k)
  }

  type Lists = (string, string) -> seq<Id>

  function ListsOf(s: Store): Lists {
    (c: string, a: string) => ListAt(s, c, a)
  }

  ghost predicate NoRepeats(lists: Lists) {
    forall c, a :: NoDup(lists(c, a))
  }

  ghost predicate OnlyOwn(live: map<Id, Session>, lists: Lists) {
    forall c, a, id :: id in lists(c, a) ==> id in live && live[id].channel == c
  }

  ghost predicate OneAccount(lists: Lists) {
    forall c, a, a', id :: id in lists(c, a) && id in lists(c, a') ==> a == a'
  }

  ghost predicate AllPlaced(live: map<Id, Session>, lists: Lists) {
    forall id :: id in live ==> Placed(lists, live[id].channel, id)
  }

  ghost predicate Placed(lists: Lists, c: string, id: Id) {
    exists a :: id in lists(c, a)
  }

  /** Every live id stands exactly once in exactly one account list, and that list is of its own channel. */
  ghost predicate ListsAgree(live: map<Id, Session>, lists: Lists) {
    NoRepeats(lists) && OnlyOwn(live, lists) && OneAccount(lists) && AllPlaced(live, lists)
  }

  ghost predicate Inv(s: Store) {
    KeysAgree(s) && ListsAgree(s.sessions, ListsOf(s))
  }

  /** `more` is `lists` with `id` pushed onto one account list. */
  ghost predicate Pushed(lists: Lists, more: Lists, c: string, a: string, id: Id) {
    forall c', a' :: more(c', a') == if c' == c && a' == a then lists(c', a') + [id] else lists(c', a')
  }

  lemma PushFreshOneAccount(live: map<Id, Session>, lists: Lists, session: Session, more: Lists, a: string)
    requires OnlyOwn(live, lists) && OneAccount(lists) && session.id !in live && Pushed(lists, more, session.channel, a, session.id)
    ensures OneAccount(more)
  {
    forall c, x, y, i | i in more(c, x) && i in more(c, y) ensures x == y {
      if i == session.id {
        assert i !in lists(c, x) && i !in lists(c, y);
      } else {
        assert i in lists(c, x) && i in lists(c, y);
      }
    }
  }

  lemma PushFresh(live: map<Id, Session>, lists: Lists, session: Session, more: Lists, a: string)
    requires ListsAgree(live, lists) && session.id !in live && Pushed(lists, more, session.channel, a, session.id)
    ensures ListsAgree(live[session.id := session], more)
  {
    var live' := live[session.id := session];
    PushFreshOneAccount(live, lists, session, more, a);
    forall c, x ensures NoDup(more(c, x)) {
      assert NoDup(lists(c, x)) && session.id !in lists(c, x);
    }
    forall c, x, i | i in more(c, x) ensures i in live' && live'[i].channel == c {
      assert i in lists(c, x) || i == session.id;
    }
    forall id | id in live' ensures Placed(more, live'[id].channel, id) {
      if id == session.id {
        assert id in more(session.channel, a);
      } else {
        assert Placed(lists, live[id].channel, id);
        var b :| id in lists(live[id].channel, b);
        assert id in more(live[id].channel, b);
      }
    }
  }

  lemma PushStale(live: map<Id, Session>, lists: Lists, session: Session, more: Lists, a: string)
    requires ListsAgree(live, lists) && session.id in live && Pushed(lists, more, session.channel, a, session.id)
    ensures !ListsAgree(live[session.id := session], more)
  {
    var id, c := session.id, live[session.id].channel;
    assert Placed(lists, c, id);
    var b :| id in lists(c, b);
    assert id in more(session.channel, a) && id in more(c, b);
    if c != session.channel {
      var live' := live[id := session];
      assert id in more(c, b) && live'[id].channel != c;
      assert !OnlyOwn(live', more);
    } else if a != b {
      assert !OneAccount(more);
    } else {
      var l := lists(c, a);
      var i :| 0 <= i < |l| && l[i] == id;
      assert more(c, a)[i] == more(c, a)[|l|];
      assert !NoDup(more(c, a));
    }
  }

  lemma CreatePushes(s: Store, channel: string, id: Id, routingKey: Option<string>, account: Option<string>, now: nat)
    ensures Pushed(ListsOf(s), ListsOf(Create(s, channel, id, routingKey, account, now).0), channel, OrElse(account, "default"), id)
  {
  }

  lemma CreateKeys(s: Store, channel: string, id: Id, routingKey: Option<string>, account: Option<string>, now: nat)
    requires KeysAgree(s) && id !in s.sessions
    ensures KeysAgree(Create(s, channel, id, routingKey, account, now).0) <==> OrElse(routingKey, SessionKey(id)) !in s.byRoutingKey
  {
    var t, key := Create(s, channel, id, routingKey, account, now).0, OrElse(routingKey, SessionKey(id));
    if key in s.byRoutingKey {
      var other := s.byRoutingKey[key];
      assert t.sessions[other].routingKey == key && t.byRoutingKey[key] == id != other;
    }
  }

  /** Creating a session keeps the indexes in agreement exactly when its id and its routing key are both new. */
  lemma CreateKeepsInvExactly(s: Store, channel: string, id: Id, routingKey: Option<string>, account: Option<string>, now: nat)
    requires Inv(s)
    ensures Inv(Create(s, channel, id, routingKey, account, now).0) <==>
      id !in s.sessions && OrElse(routingKey, SessionKey(id)) !in s.byRoutingKey
  {
    var (t, session) := Create(s, channel, id, routingKey, account, now);
    CreatePushes(s, channel, id, routingKey, account, now);
    if id in s.sessions {
      PushStale(s.sessions, ListsOf(s), session, ListsOf(t), OrElse(account, "default"));
    } else {
      PushFresh(s.sessions, ListsOf(s), session, ListsOf(t), OrElse(account, "default"));
      CreateKeys(s, channel, id, routingKey, account, now);
    }
  }

  /** `fewer` is `lists` without one id. */
  ghost predicate Pulled(lists: Lists, fewer: Lists, id: Id) {
    forall c, a :: fewer(c, a) == Without(lists(c, a), id)
  }

  lemma PullKeepsAgreement(live: map<Id, Session>, lists: Lists, fewer: Lists, id: Id)
    requires ListsAgree(live, lists) && Pulled(lists, fewer, id)
    ensures ListsAgree(live - {id}, fewer)
  {
    forall c, a ensures NoDup(fewer(c, a)) { WithoutNoDup(lists(c, a), id); }
    forall c, a, i ensures i in fewer(c, a) <==> i in lists(c, a) && i != id { WithoutMembers(lists(c, a), id); }
    forall i | i in live - {id} ensures Placed(fewer, live[i].channel, i) {
      assert Placed(lists, live[i].channel, i);
      var a :| i in lists(live[i].channel, a);
      assert i in fewer(live[i].channel, a);
    }
  }

  lemma ClosePulls(s: Store, id: Id)
    requires ListsAgree(s.sessions, ListsOf(s)) && id in s.sessions
    ensures Pulled(ListsOf(s), ListsOf(Close(s, id).0), id)
  {
    forall c, a ensures ListAt(Close(s, id).0, c, a) == Without(ListAt(s, c, a), id) {
      assert id in ListsOf(s)(c, a) ==> s.sessions[id].channel == c;
      WithoutMembers(ListAt(s, c, a), id);
    }
  }

  lemma CloseKeys(s: Store, id: Id)
    requires KeysAgree(s) && id in s.sessions
    ensures KeysAgree(Close(s, id).0)
  {
  }

  lemma CloseKeepsInv(s: Store, id: Id)
    requires Inv(s)
    ensures Inv(Close(s, id).0)
  {
    if id in s.sessions {
      ClosePulls(s, id);
      PullKeepsAgreement(s.sessions, ListsOf(s), ListsOf(Close(s, id).0), id);
      CloseKeys(s, id);
    }
  }

  // ── Runs ───────────────────────────────────────────────────────────

  datatype Op =
    | OpFindOrCreate(channel: string, opts: FindOptions, newId: Id, now: nat)
    | OpClose(id: Id)
    | OpCloseAll
    | OpTouch(id: Id, now: nat)

  function Step(s: Store, op: Op): Store {
    match op
    case OpFindOrCreate(channel, opts, newId, now) => FindOrCreate(s, channel, opts, newId, now).0
    case OpClose(id) => Close(s, id).0
    case OpCloseAll => EMPTY
    case OpTouch(id, now) => TouchSession(s, id, now)
  }

  /** A freshly drawn id names no session, and its own routing key is taken by none. */
  predicate FreshId(s: Store, id: Id) {
    id !in s.sessions && SessionKey(id) !in s.byRoutingKey
  }

  ghost predicate FreshRun(s: Store, ops: seq<Op>)
    decreases |ops|
  {
    ops == [] || ((ops[0].OpFindOrCreate? ==> FreshId(s, ops[0].newId)) && FreshRun(Step(s, ops[0]), ops[1..]))
  }

  function Run(s: Store, ops: seq<Op>): Store
    decreases |ops|
  {
    if ops == [] then s else Run(Step(s, ops[0]), ops[1..])
  }

  lemma FindOrCreateKeepsInv(s: Store, channel: string, opts: FindOptions, newId: Id, now: nat)
    requires Inv(s) && FreshId(s, newId)
    ensures Inv(FindOrCreate(s, channel, opts, newId, now).0)
  {
    CreateKeepsInvExactly(s, channel, newId, opts.routingKey, opts.account, now);
  }

  lemma TouchKeepsInv(s: Store, id: Id, now: nat)
    requires Inv(s)
    ensures Inv(TouchSession(s, id, now))
  {
    var lists, lists' := ListsOf(s), ListsOf(TouchSession(s, id, now));
    assert forall c, a :: lists'(c, a) == lists(c, a);
    TouchKeepsLists(s.sessions, lists, TouchSession(s, id, now).sessions, lists');
  }

  lemma TouchKeepsLists(live: map<Id, Session>, lists: Lists, live': map<Id, Session>, lists': Lists)
    requires ListsAgree(live, lists) && forall c, a :: lists'(c, a) == lists(c, a)
    requires live'.Keys == live.Keys && forall id :: id in live ==> live'[id].channel == live[id].channel
    ensures ListsAgree(live', lists')
  {
    forall id | id in live' ensures Placed(lists', live'[id].channel, id) {
      assert Placed(lists, live[id].channel, id);
      var a :| id in lists(live[id].channel, a);
      assert id in lists'(live'[id].channel, a);
    }
  }

  lemma EmptyAgrees()
    ensures Inv(EMPTY)
  {
    assert forall c, a :: ListsOf(EMPTY)(c, a) == [];
  }

  /** Any run of lookups, creations, touches and closes from the empty store keeps all three indexes in agreement. */
  lemma {:induction false} RunKeepsInv(s: Store, ops: seq<Op>)
    requires Inv(s) && FreshRun(s, ops)
    ensures Inv(Run(s, ops))
    decreases |ops|
  {
    if ops == [] {
    } else {
      match ops[0] {
        case OpFindOrCreate(channel, opts, newId, now) => FindOrCreateKeepsInv(s, channel, opts, newId, now);
        case OpClose(id) => CloseKeepsInv(s, id);
        case OpCloseAll => EmptyAgrees();
        case OpTouch(id, now) => TouchKeepsInv(s, id, now);
      }
      RunKeepsInv(Step(s, ops[0]), ops[1..]);
    }
  }

  /** A routing key sticks to its session: asking again, even for another channel, returns the one made first. */
  lemma RoutingKeySticks(s: Store, channel: string, opts: FindOptions, newId: Id, now: nat,
      channel': string, account': Option<string>, newId': Id, now': nat)
    requires Inv(s) && FreshId(s, newId) && opts.routingKey.Some? && opts.sessionId.None?
    ensures var (t, first) := FindOrCreate(s, channel, opts, newId, now);
      FindOrCreate(t, channel', FindOptions(None, opts.routingKey, account'), newId', now') == (t, first)
  {
    FindOrCreateKeepsInv(s, channel, opts, newId, now);
  }

  /** After closing, neither the id nor the routing key finds the session, and every other session is found as before. */
  lemma ClosedIsGone(s: Store, id: Id)
    requires Inv(s) && id in s.sessions
    ensures var t, key := Close(s, id).0, s.sessions[id].routingKey;
      && ById(t, id) == None && ByRoutingKey(t, key) == None
      && Close(s, id).1 == ById(s, id)
      && (forall i :: i != id ==> ById(t, i) == ById(s, i))
      && (forall k :: k != key ==> ByRoutingKey(t, k) == ByRoutingKey(s, k))
  {
    CloseKeepsInv(s, id);
  }

  // ── Counting ───────────────────────────────────────────────────────

  function OfChannel(s: Store, channel: string): set<Id> {
    set id | id in s.sessions && s.sessions[id].channel == channel
  }

  /** The ids listed under some of a channel's accounts. */
  function Listed(accounts: map<string, seq<Id>>, some: set<string>): set<Id> {
    set a, id | a in some && a in accounts && id in accounts[a] :: id
  }

  lemma AllListed(s: Store, channel: string)
    requires Inv(s)
    ensures Listed(Accounts(s, channel), Accounts(s, channel).Keys) == OfChannel(s, channel)
  {
    var accounts, lists := Accounts(s, channel), ListsOf(s);
    forall id | id in Listed(accounts, accounts.Keys) ensures id in OfChannel(s, channel) {
      var a :| a in accounts && id in accounts[a];
      assert id in lists(channel, a);
    }
    forall id | id in OfChannel(s, channel) ensures id in Listed(accounts, accounts.Keys) {
      assert Placed(lists, channel, id);
      var a :| id in lists(channel, a);
      assert id in accounts[a];
    }
  }

  lemma ListedGrows(s: Store, channel: string, done: set<string>, a: string)
    requires Inv(s) && a in Accounts(s, channel) && a !in done
    ensures |Listed(Accounts(s, channel), done + {a})| ==
      |Listed(Accounts(s, channel), done)| + |Accounts(s, channel)[a]|
  {
    var accounts, lists := Accounts(s, channel), ListsOf(s);
    var more := set id | id in accounts[a];
    assert lists(channel, a) == accounts[a];
    NoDupCardinality(accounts[a]);
    forall id, b | b in done && b in accounts && id in accounts[b] ensures id !in more {
      assert id in lists(channel, b);
    }
    assert Listed(accounts, done + {a}) == Listed(accounts, done) + more;
  }

  function InChannel(sessions: map<Id, Session>, some: set<Id>, channel: string): set<Id> {
    set id | id in some && id in sessions && sessions[id].channel == channel
  }

  function ActiveSince(sessions: map<Id, Session>, some: set<Id>, since: nat): set<Id> {
    set id | id in some && id in sessions && sessions[id].lastActive > since
  }

  /** `m` counts the channels of some of the sessions. */
  ghost predicate Tallies(m: multiset<string>, sessions: map<Id, Session>, some: set<Id>) {
    |m| == |some| && forall c :: m[c] == |InChannel(sessions, some, c)|
  }

  lemma TallyGrows(m: multiset<string>, sessions: map<Id, Session>, done: set<Id>, id: Id)
    requires Tallies(m, sessions, done) && id in sessions && id !in done
    ensures Tallies(m + multiset{sessions[id].channel}, sessions, done + {id})
  {
    forall c ensures (m + multiset{sessions[id].channel})[c] == |InChannel(sessions, done + {id}, c)| {
      InChannelGrows(sessions, done, id, c);
    }
  }

  lemma TallyOfAll(m: multiset<string>, s: Store)
    requires Tallies(m, s.sessions, s.sessions.Keys)
    ensures |m| == |s.sessions| && forall c :: m[c] == |OfChannel(s, c)|
  {
    forall c ensures m[c] == |OfChannel(s, c)| {
      assert InChannel(s.sessions, s.sessions.Keys, c) == OfChannel(s, c);
    }
  }

  lemma InChannelGrows(sessions: map<Id, Session>, done: set<Id>, id: Id, channel: string)
    requires id in sessions && id !in done
    ensures |InChannel(sessions, done + {id}, channel)| ==
      |InChannel(sessions, done, channel)| + (if sessions[id].channel == channel then 1 else 0)
  {
    assert InChannel(sessions, done + {id}, channel) ==
      InChannel(sessions, done, channel) + (if sessions[id].channel == channel then {id} else {});
  }

  lemma ActiveSinceGrows(sessions: map<Id, Session>, done: set<Id>, id: Id, since: nat)
    requires id in sessions && id !in done
    ensures |ActiveSince(sessions, done + {id}, since)| ==
      |ActiveSince(sessions, done, since)| + (if sessions[id].lastActive > since then 1 else 0)
  {
    assert ActiveSince(sessions, done + {id}, since) ==
      ActiveSince(sessions, done, since) + (if sessions[id].lastActive > since then {id} else {});
  }
}

/** The session store as the program has it: three indexes updated in place. */
module SessionStores {
  import opened Prelude
  import opened Sessions

  class SessionStore {
    var sessions: map<Id, Session>
    var byRoutingKey: map<string, Id>
    var byChannel: map<string, map<string, seq<Id>>>

    function State(): Store
      reads this
    {
      Store(sessions, byRoutingKey, byChannel)
    }

    constructor ()
      ensures State() == EMPTY
    {
      sessions, byRoutingKey, byChannel := map[], map[], map[];
    }

    method CreateSession(channel: string, id: Id, routingKey: Option<string>, account: Option<string>, now: nat)
      returns (session: Session)
      modifies this
      ensures (State(), session) == Create(old(State()), channel, id, routingKey, account, now)
    {
      var key := OrElse(routingKey, SessionKey(id));
      var acc := OrElse(account, "default");
      session := Session(id, channel, key, now, now);
      sessions := sessions[id := session];
      byRoutingKey := byRoutingKey[key := id];
      var accounts := if channel in byChannel then byChannel[channel] else map[];
      var ids := if acc in accounts then accounts[acc] else [];
      byChannel := byChannel[channel := accounts[acc := ids + [id]]];
    }

    method CloseSession(id: Id) returns (closed: Option<Session>)
      modifies this
      ensures (State(), closed) == Close(old(State()), id)
    {
      if id !in sessions { return None; }
      var session := sessions[id];
      sessions := sessions - {id};
      byRoutingKey := byRoutingKey - {session.routingKey};
      if session.channel in byChannel {
        byChannel := byChannel[session.channel := Purged(byChannel[session.channel], id)];
      }
      closed := Some(session);
    }

    method FindOrCreateSession(channel: string, opts: FindOptions, newId: Id, now: nat) returns (session: Session)
      modifies this
      ensures (State(), session) == FindOrCreate(old(State()), channel, opts, newId, now)
    {
      if opts.sessionId.Some? && opts.sessionId.value in sessions {
        return sessions[opts.sessionId.value];
      }
      if opts.routingKey.Some? {
        var byKey := ByRoutingKey(State(), opts.routingKey.value);
        if byKey.Some? { return byKey.value; }
        var spelled := ExtractId(opts.routingKey.value);
        if spelled.Some? && spelled.value in sessions { return sessions[spelled.value]; }
      }
      session := CreateSession(channel, newId, opts.routingKey, opts.account, now);
    }

    /** With the indexes in agreement, the lengths of a channel's lists add up to its live sessions. */
    method SessionCountByChannel(channel: string, account: Option<string>) returns (n: nat)
      ensures account.Some? ==> n == |ListAt(State(), channel, account.value)|
      ensures account.None? && Inv(State()) ==> n == |OfChannel(State(), channel)|
    {
      var accounts := Accounts(State(), channel);
      if account.Some? {
        return if account.value in accounts then |accounts[account.value]| else 0;
      }
      n := 0;
      var rest, done := accounts.Keys, {};
      while rest != {}
        invariant done + rest == accounts.Keys && done !! rest
        invariant Inv(State()) ==> n == |Listed(accounts, done)|
        decreases |rest|
      {
        var a :| a in rest;
        if Inv(State()) { ListedGrows(State(), channel, done, a); }
        n := n + |accounts[a]|;
        rest, done := rest - {a}, done + {a};
      }
      assert done == accounts.Keys;
      if Inv(State()) { AllListed(State(), channel); }
    }

    /** How many sessions each channel has, as a multiset of channel names. */
    method CountPerChannel() returns (perChannel: multiset<string>)
      ensures |perChannel| == |sessions|
      ensures forall c :: perChannel[c] == |OfChannel(State(), c)|
    {
      perChannel := multiset{};
      var rest, done := sessions.Keys, {};
      while rest != {}
        invariant done + rest == sessions.Keys && done !! rest
        invariant Tallies(perChannel, sessions, done)
        decreases |rest|
      {
        var id :| id in rest;
        TallyGrows(perChannel, sessions, done, id);
        perChannel := perChannel + multiset{sessions[id].channel};
        rest, done := rest - {id}, done + {id};
      }
      assert done == sessions.Keys;
      TallyOfAll(perChannel, State());
    }

    method GetStats(now: nat) returns (total: nat, perChannel: multiset<string>, activeLastHour: nat)
      ensures total == |sessions| == |perChannel|
      ensures forall c :: perChannel[c] == |OfChannel(State(), c)|
      ensures activeLastHour == |ActiveSince(sessions, sessions.Keys, SatSub(now, 3_600_000))|
    {
      perChannel := CountPerChannel();
      total, activeLastHour := |sessions|, 0;
      var since := SatSub(now, 3_600_000);
      var rest, done := sessions.Keys, {};
      while rest != {}
        invariant done + rest == sessions.Keys && done !! rest
        invariant activeLastHour == |ActiveSince(sessions, done, since)|
        decreases |rest|
      {
        var id :| id in rest;
        ActiveSinceGrows(sessions, done, id, since);
        if sessions[id].lastActive > since { activeLastHour := activeLastHour + 1; }
        rest, done := rest - {id}, done + {id};
      }
      assert done == sessions.Keys;
    }
  }
}
