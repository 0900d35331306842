/**
 Selection and diagnosis are computed by separate code; these lemmas show that they agree
 with each other, with one plain definition of an eligible target, and with the counters.
 */
module Selection {
  import opened Prelude
  import opened StableHashing
  import opened Router
  import opened BalancerSpec

  /** Someone with a closed circuit is up. */
  ghost predicate SomeClosedIsUp(b: Balancer, now: nat) {
    exists i :: i in b.targets && IsUpWith(b, i, now, Closed)
  }

  /** What it means for a target to be eligible, said without lists or reasons. */
  ghost predicate Eligible(b: Balancer, id: Id, now: nat) {
    && IsAvailable(b, id)
    && (b.runtime.Some? ==>
          var h := HealthOf(b, id);
          h.healthy && !Expired(b.runtime.value, h, now) && h.circuit != Open
          && (h.circuit == HalfOpen ==> !SomeClosedIsUp(b, now)))
  }

  lemma {:induction false} ClosedListMeaning(b: Balancer, now: nat)
    requires Ordered(b)
    ensures UpWith(b, b.ids, now, Closed) != [] <==> SomeClosedIsUp(b, now)
  {
    var closed := UpWith(b, b.ids, now, Closed);
    UpWithMembers(b, b.ids, now, Closed);
    if closed != [] { assert closed[0] in closed; }
  }

  /** The selection loop's candidates are the eligible targets. */
  lemma CandidatesAreEligible(b: Balancer, now: nat)
    requires Ordered(b)
    ensures forall i :: i in Candidates(b, now) <==> Eligible(b, i, now)
  {
    ClosedListMeaning(b, now);
    UpWithMembers(b, b.ids, now, Closed);
    UpWithMembers(b, b.ids, now, HalfOpen);
  }

  /** A target is diagnosed without reasons exactly when it is eligible and no hashing key is missing. */
  lemma {:induction false} NoReasonsMeansEligible(b: Balancer, id: Id, key: Option<Bytes>, now: nat)
    requires Ordered(b) && id in b.targets
    ensures var candidates := Candidates(b, now);
      Reasons(b, id, now, UpWith(b, b.ids, now, Closed), candidates, KeyIsMissing(b, key, candidates)) == []
      <==> Eligible(b, id, now) && !(b.strategy == Hashing && key.None?)
  {
    ClosedListMeaning(b, now);
    UpWithMembers(b, b.ids, now, Closed);
    CandidatesAreEligible(b, now);
    assert Eligible(b, id, now) ==> id in Candidates(b, now);
  }

  // ── What is picked ─────────────────────────────────────────────────

  lemma {:induction false} ExpandMembers(ts: seq<Target>)
    ensures forall t :: t in Expand(ts) <==> t in ts
    ensures |Expand(ts)| >= |ts|
    decreases |ts|
  {
    if ts == [] {
    } else {
      var last := |ts| - 1;
      ExpandMembers(ts[..last]);
      assert ts == ts[..last] + [ts[last]];
      var copies := seq(Max(ts[last].weight, 1), _ => ts[last]);
      assert copies[0] == ts[last];
    }
  }

  /** Every strategy picks one of the targets offered; it picks none only when there is none, or no key to hash. */
  lemma PickFromOffered(strategy: Strategy, ts: seq<Target>, cursor: Option<nat>, key: Option<Bytes>)
    ensures var (_, t) := Pick(strategy, ts, cursor, key);
      && (t.None? <==> ts == [] || (strategy == Hashing && key.None?))
      && (t.Some? ==> t.value in ts)
  {
    ExpandMembers(ts);
  }

  lemma {:induction false} LeastLoadedIsLeast(ts: seq<Target>)
    requires ts != []
    ensures var i := LeastLoaded(ts);
      forall j :: 0 <= j < |ts| ==> ts[i].load.active <= ts[j].load.active && (j < i ==> ts[i].load.active < ts[j].load.active)
    decreases |ts|
  {
    if |ts| > 1 { LeastLoadedIsLeast(ts[..|ts| - 1]); }
  }

  /** Least-connections picks a candidate with the fewest active requests. */
  lemma LeastConnectionsPicksLeast(b: Balancer, key: Option<Bytes>, now: nat)
    requires Ordered(b) && b.strategy == LeastConnections && Select(b, key, now).1.Some?
    ensures var c, t := Refreshed(b, now), Select(b, key, now).1.value;
      forall i :: Eligible(c, i, now) ==> t.load.active <= c.targets[i].load.active
  {
    RefreshKeepsTargets(b, now);
    var c := Refreshed(b, now);
    var ts := CandidateTargets(c, now);
    LeastLoadedIsLeast(ts);
    CandidatesAreEligible(c, now);
    forall i | Eligible(c, i, now) ensures ts[LeastLoaded(ts)].load.active <= c.targets[i].load.active {
      var j :| 0 <= j < |Candidates(c, now)| && Candidates(c, now)[j] == i;
      assert ts[j] == c.targets[i];
    }
  }

  /** The key's hash, modulo the number of candidates, is the place of the one picked. */
  lemma HashingPicks(b: Balancer, key: Bytes, now: nat) returns (q: nat, i: nat)
    requires Ordered(b) && b.strategy == Hashing && Candidates(Refreshed(b, now), now) != []
    ensures var ids, t := Candidates(Refreshed(b, now), now), Select(b, Some(key), now).1;
      i < |ids| && Fnv1a(key) == q * |ids| + i && t.Some? && t.value.id == ids[i]
  {
    hide Fnv1a;
    hide HashingIndex;
    RefreshKeepsTargets(b, now);
    var c := Refreshed(b, now);
    CandidatesKnown(c, now);
    q, i := HashingIndexMeans(key, |Candidates(c, now)|);
    PickHashed(CandidateTargets(c, now), c.cursor, key);
    assert Candidates(c, now)[i] in Candidates(c, now);
    hide Refreshed;
    hide Diagnose;
  }

  lemma PickHashed(ts: seq<Target>, cursor: Option<nat>, key: Bytes)
    requires ts != []
    ensures Pick(Hashing, ts, cursor, Some(key)) == (cursor, Some(ts[HashingIndex(key, |ts|).value]))
  {
  }

  /** Of two candidates, the key `a` goes to the first and the key `b` to the second. */
  lemma KeysAreSpread(b: Balancer, now: nat)
    requires Ordered(b) && b.strategy == Hashing && |Candidates(Refreshed(b, now), now)| == 2
    ensures var ids, first, second := Candidates(Refreshed(b, now), now), Select(b, Some([0x61]), now).1, Select(b, Some([0x62]), now).1;
      first.Some? && first.value.id == ids[0] && second.Some? && second.value.id == ids[1]
  {
    hide *;
    OneByteHashes();
    StableHashIsFnv1a([0x61]);
    StableHashIsFnv1a([0x62]);
    var q, i := HashingPicks(b, [0x61], now);
    var p, j := HashingPicks(b, [0x62], now);
  }

  // ── The main agreement ─────────────────────────────────────────────

  /** A target as the last diagnostic judged it. */
  ghost predicate DiagnosedEligible(d: Diagnostic, id: Id) {
    id in d.reasons && d.reasons[id] == []
  }

  lemma NonEmptyHasMember<T>(s: seq<T>)
    ensures s != [] <==> exists x :: x in s
  {
    if s != [] { assert s[0] in s; }
  }

  lemma DiagnosisMeaning(c: Balancer, key: Option<Bytes>, now: nat, selected: Option<Target>)
    requires Ordered(c)
    ensures var d := Diagnose(c, key, now, selected);
      forall i :: DiagnosedEligible(d, i) <==> Eligible(c, i, now) && !(c.strategy == Hashing && key.None?)
  {
    var d := Diagnose(c, key, now, selected);
    forall i ensures DiagnosedEligible(d, i) <==> Eligible(c, i, now) && !(c.strategy == Hashing && key.None?) {
      if i in c.targets { NoReasonsMeansEligible(c, i, key, now); }
    }
  }

  lemma PickMeaning(c: Balancer, key: Option<Bytes>, now: nat)
    requires Ordered(c)
    ensures var t := Pick(c.strategy, CandidateTargets(c, now), c.cursor, key).1;
      && (t.Some? <==> (exists i :: Eligible(c, i, now)) && !(c.strategy == Hashing && key.None?))
      && (t.Some? ==> Eligible(c, t.value.id, now) && c.targets[t.value.id] == t.value)
  {
    var ts := CandidateTargets(c, now);
    PickFromOffered(c.strategy, ts, c.cursor, key);
    CandidatesAreEligible(c, now);
    NonEmptyHasMember(Candidates(c, now));
    forall t | t in ts ensures Eligible(c, t.id, now) && c.targets[t.id] == t {
      var j :| 0 <= j < |ts| && ts[j] == t;
      assert Candidates(c, now)[j] in Candidates(c, now);
    }
  }

  /** The diagnostic a selection leaves is the one computed from the refreshed targets. */
  lemma LastDiagnostic(b: Balancer, key: Option<Bytes>, now: nat)
    requires Ordered(b)
    ensures var c := Refreshed(b, now); var (after, t) := Select(b, key, now);
      && Ordered(c) && t == Pick(c.strategy, CandidateTargets(c, now), c.cursor, key).1
      && after.diagnostics.last == Some(Diagnose(c, key, now, t))
  {
    RefreshKeepsTargets(b, now);
  }

  /**
   A selection returns a target exactly when it diagnoses some target as eligible, and the
   one returned is diagnosed eligible and is eligible.
   */
  lemma SelectionAgreesWithDiagnosis(b: Balancer, key: Option<Bytes>, now: nat)
    requires Ordered(b)
    ensures var (after, t) := Select(b, key, now); var c := Refreshed(b, now);
      && after.diagnostics.last.Some?
      && (t.Some? <==> exists i :: DiagnosedEligible(after.diagnostics.last.value, i))
      && (t.Some? ==> DiagnosedEligible(after.diagnostics.last.value, t.value.id) && Eligible(c, t.value.id, now) && c.targets[t.value.id] == t.value)
      && after.diagnostics.last.value.selected == (if t.Some? then Some(t.value.id) else None)
      && after.diagnostics.last.value.key == key
  {
    LastDiagnostic(b, key, now);
    var c := Refreshed(b, now);
    DiagnosisMeaning(c, key, now, Select(b, key, now).1);
    PickMeaning(c, key, now);
  }

  /**
   Every target is diagnosed; the candidates are exactly the eligible targets, and, unless a
   hashing key is missing, exactly the targets without exclusion reasons.
   */
  lemma CandidatesAgreeWithDiagnosis(b: Balancer, key: Option<Bytes>, now: nat)
    requires Ordered(b)
    ensures Select(b, key, now).0.diagnostics.last.Some?
    ensures var c, d := Refreshed(b, now), Select(b, key, now).0.diagnostics.last.value;
      && d.reasons.Keys == b.targets.Keys
      && (forall i :: i in d.candidates <==> Eligible(c, i, now))
      && (!KeyIsMissing(c, key, d.candidates) ==> forall i :: i in d.candidates <==> DiagnosedEligible(d, i))
  {
    LastDiagnostic(b, key, now);
    RefreshKeepsTargets(b, now);
    var c := Refreshed(b, now);
    DiagnosisMeaning(c, key, now, Select(b, key, now).1);
    CandidatesAreEligible(c, now);
    NonEmptyHasMember(Candidates(c, now));
  }

  // ── Miss reasons ───────────────────────────────────────────────────

  /** What each miss reason says about the targets. The last two say nothing that can be true. */
  ghost predicate Means(b: Balancer, key: Option<Bytes>, now: nat, r: MissReason) {
    match r
    case NoTargetsConfigured => b.targets == map[]
    case HashingKeyMissing => b.strategy == Hashing && key.None? && exists i :: Eligible(b, i, now)
    case NoAvailableTargets => b.targets != map[] && !exists i :: IsAvailable(b, i)
    case NoHealthyTargets => b.runtime.Some? && (exists i :: IsAvailable(b, i)) && !exists i :: IsUp(b, i, now)
    case AllCircuitsOpen =>
      b.runtime.Some? && (exists i :: IsUp(b, i, now)) && forall i :: IsUp(b, i, now) ==> HealthOf(b, i).circuit == Open
    case NoEligibleTargets => false
    case StrategyReturnedNone => false
  }

  lemma {:induction false} AvailableMembers(b: Balancer, ids: seq<Id>)
    ensures forall i :: i in AvailableIds(b, ids) <==> i in ids && IsAvailable(b, i)
    decreases |ids|
  {
    if ids == [] {
    } else {
      AvailableMembers(b, ids[..|ids| - 1]);
      assert ids == ids[..|ids| - 1] + [ids[|ids| - 1]];
    }
  }

  lemma {:induction false} UpMembers(b: Balancer, ids: seq<Id>, now: nat)
    ensures forall i :: i in Up(b, ids, now) <==> i in ids && IsUp(b, i, now)
    decreases |ids|
  {
    if ids == [] {
    } else {
      UpMembers(b, ids[..|ids| - 1], now);
      assert ids == ids[..|ids| - 1] + [ids[|ids| - 1]];
    }
  }

  /** What the loop's counts say about the targets. */
  lemma {:induction false} CountsMean(b: Balancer, now: nat)
    requires Ordered(b)
    ensures |AvailableIds(b, b.ids)| > 0 <==> exists i :: IsAvailable(b, i)
    ensures |Up(b, b.ids, now)| > 0 <==> exists i :: IsUp(b, i, now)
    ensures |UpWith(b, b.ids, now, Open)| > 0 <==> exists i :: IsUpWith(b, i, now, Open)
    ensures Candidates(b, now) != [] <==> exists i :: Eligible(b, i, now)
    ensures b.ids == [] <==> b.targets == map[]
  {
    AvailableMembers(b, b.ids);
    UpMembers(b, b.ids, now);
    UpWithMembers(b, b.ids, now, Open);
    CandidatesAreEligible(b, now);
    NonEmptyHasMember(AvailableIds(b, b.ids));
    NonEmptyHasMember(Up(b, b.ids, now));
    NonEmptyHasMember(UpWith(b, b.ids, now, Open));
    NonEmptyHasMember(Candidates(b, now));
    if b.ids != [] { assert b.ids[0] in b.targets; }
  }

  /** If someone is up, someone is eligible unless every circuit among those up is open. */
  lemma UpIsEligibleUnlessOpen(b: Balancer, now: nat)
    ensures (exists i :: Eligible(b, i, now)) <==> exists i :: IsUp(b, i, now) && HealthOf(b, i).circuit != Open
  {
    if i :| IsUp(b, i, now) && HealthOf(b, i).circuit != Open {
      if SomeClosedIsUp(b, now) {
        var j :| j in b.targets && IsUpWith(b, j, now, Closed);
        assert Eligible(b, j, now);
      } else {
        assert Eligible(b, i, now);
      }
    }
    if i :| Eligible(b, i, now) { assert IsUp(b, i, now); }
  }

  lemma WithoutRuntimeAvailableIsEligible(b: Balancer, now: nat)
    requires b.runtime.None?
    ensures forall i :: IsAvailable(b, i) <==> Eligible(b, i, now)
    ensures forall i :: IsAvailable(b, i) <==> IsUp(b, i, now)
  {
  }

  /** The counts of the selection loop decide the reason exactly as its meaning does. */
  lemma MissOfCounts(b: Balancer, key: Option<Bytes>, now: nat, r: MissReason,
      available: nat, up: nat, open: nat, candidates: seq<Id>)
    requires candidates == [] || (b.strategy == Hashing && key.None?)
    requires available > 0 <==> exists i :: IsAvailable(b, i)
    requires up > 0 <==> exists i :: IsUp(b, i, now)
    requires open > 0 <==> exists i :: IsUpWith(b, i, now, Open)
    requires candidates != [] <==> exists i :: Eligible(b, i, now)
    requires b.ids == [] <==> b.targets == map[]
    requires candidates != [] <==> exists i :: IsUp(b, i, now) && HealthOf(b, i).circuit != Open
    requires b.runtime.None? && available > 0 ==> candidates != []
    ensures Miss(b, |b.ids|, available, up, open, candidates, key) == r <==> Means(b, key, now, r)
  {
    if i :| IsUp(b, i, now) {
      assert IsAvailable(b, i);
      assert HealthOf(b, i).circuit == Open ==> IsUpWith(b, i, now, Open);
    }
    if i :| IsUpWith(b, i, now, Open) { assert IsUp(b, i, now); }
  }

  lemma {:induction false} MissMeaning(b: Balancer, key: Option<Bytes>, now: nat, r: MissReason)
    requires Ordered(b) && (Candidates(b, now) == [] || (b.strategy == Hashing && key.None?))
    ensures Miss(b, |b.ids|, |AvailableIds(b, b.ids)|, |Up(b, b.ids, now)|, |UpWith(b, b.ids, now, Open)|, Candidates(b, now), key) == r
      <==> Means(b, key, now, r)
  {
    CountsMean(b, now);
    UpIsEligibleUnlessOpen(b, now);
    if b.runtime.None? { WithoutRuntimeAvailableIsEligible(b, now); }
    MissOfCounts(b, key, now, r, |AvailableIds(b, b.ids)|, |Up(b, b.ids, now)|, |UpWith(b, b.ids, now, Open)|, Candidates(b, now));
  }

  lemma HitMeansNoMiss(b: Balancer, key: Option<Bytes>, now: nat, r: MissReason)
    requires (exists i :: Eligible(b, i, now)) && !(b.strategy == Hashing && key.None?)
    ensures !Means(b, key, now, r)
  {
    var i :| Eligible(b, i, now);
    assert IsAvailable(b, i) && IsUp(b, i, now);
    assert HealthOf(b, i).circuit != Open;
  }

  /**
   A selection reports a miss reason exactly when what the reason says is true of the targets
   it looked at; `NoEligibleTargets` and `StrategyReturnedNone` are never reported.
   */
  lemma MissReasonsAreExact(b: Balancer, key: Option<Bytes>, now: nat, r: MissReason)
    requires Ordered(b)
    ensures Select(b, key, now).0.diagnostics.last.value.miss == Some(r) <==> Means(Refreshed(b, now), key, now, r)
  {
    RefreshKeepsTargets(b, now);
    var c := Refreshed(b, now);
    PickFromOffered(c.strategy, CandidateTargets(c, now), c.cursor, key);
    if Candidates(c, now) == [] || (c.strategy == Hashing && key.None?) {
      MissMeaning(c, key, now, r);
    } else {
      CountsMean(c, now);
      HitMeansNoMiss(c, key, now, r);
    }
  }

  // ── Exclusion reasons ──────────────────────────────────────────────

  /** What each exclusion reason says about a target. */
  ghost predicate Excludes(b: Balancer, id: Id, key: Option<Bytes>, now: nat, r: ExcludeReason)
    requires id in b.targets
  {
    var status, h, watched := b.targets[id].status, HealthOf(b, id), b.runtime.Some? && b.targets[id].status == Available;
    match r
    case StatusBusy => status == Busy
    case StatusOffline => status == Offline
    case HeartbeatExpired => watched && Expired(b.runtime.value, h, now)
    case Unhealthy => watched && !h.healthy && !Expired(b.runtime.value, h, now)
    case CircuitOpen => watched && h.circuit == Open
    case PreferClosedOverHalfOpen => watched && h.circuit == HalfOpen && SomeClosedIsUp(b, now)
    case KeyMissing => b.strategy == Hashing && key.None? && Eligible(b, id, now)
  }

  lemma CountOfTwo<T>(a: seq<T>, b: seq<T>, x: T)
    ensures multiset(a + b)[x] == multiset(a)[x] + multiset(b)[x]
  {
  }

  function Given<T>(given: bool, x: T): seq<T> {
    if given then [x] else []
  }

  lemma CountOfOne<T>(given: bool, y: T, x: T)
    ensures multiset(Given(given, y))[x] == if given && x == y then 1 else 0
  {
  }

  lemma CountOfSeven<T>(a: seq<T>, b: seq<T>, c: seq<T>, d: seq<T>, e: seq<T>, f: seq<T>, g: seq<T>, x: T)
    ensures multiset(a + b + c + d + e + f + g)[x] ==
      multiset(a)[x] + multiset(b)[x] + multiset(c)[x] + multiset(d)[x] + multiset(e)[x] + multiset(f)[x] + multiset(g)[x]
  {
    CountOfTwo(a, b, x);
    CountOfTwo(a + b, c, x);
    CountOfTwo(a + b + c, d, x);
    CountOfTwo(a + b + c + d, e, x);
    CountOfTwo(a + b + c + d + e, f, x);
    CountOfTwo(a + b + c + d + e + f, g, x);
  }

  /** The list of the reasons that are given, in their order. */
  function List(busy: bool, offline: bool, expired: bool, unhealthy: bool, open: bool, prefers: bool, keyless: bool): seq<ExcludeReason> {
    Given(busy, StatusBusy) + Given(offline, StatusOffline) + Given(expired, HeartbeatExpired) + Given(unhealthy, Unhealthy)
    + Given(open, CircuitOpen) + Given(prefers, PreferClosedOverHalfOpen) + Given(keyless, KeyMissing)
  }

  lemma CountInList(busy: bool, offline: bool, expired: bool, unhealthy: bool, open: bool, prefers: bool, keyless: bool, r: ExcludeReason)
    ensures multiset(List(busy, offline, expired, unhealthy, open, prefers, keyless))[r] ==
      if (match r
          case StatusBusy => busy
          case StatusOffline => offline
          case HeartbeatExpired => expired
          case Unhealthy => unhealthy
          case CircuitOpen => open
          case PreferClosedOverHalfOpen => prefers
          case KeyMissing => keyless)
      then 1 else 0
  {
    hide Given;
    CountOfSeven(Given(busy, StatusBusy), Given(offline, StatusOffline), Given(expired, HeartbeatExpired), Given(unhealthy, Unhealthy),
      Given(open, CircuitOpen), Given(prefers, PreferClosedOverHalfOpen), Given(keyless, KeyMissing), r);
    CountOfOne(busy, StatusBusy, r);
    CountOfOne(offline, StatusOffline, r);
    CountOfOne(expired, HeartbeatExpired, r);
    CountOfOne(unhealthy, Unhealthy, r);
    CountOfOne(open, CircuitOpen, r);
    CountOfOne(prefers, PreferClosedOverHalfOpen, r);
    CountOfOne(keyless, KeyMissing, r);
  }

  /** The reasons a target is given, as a list of conditions. */
  lemma ReasonsListed(b: Balancer, id: Id, now: nat, closed: seq<Id>, candidates: seq<Id>, missing: bool)
    requires id in b.targets
    ensures var status, h, watched := b.targets[id].status, HealthOf(b, id), b.runtime.Some? && b.targets[id].status == Available;
      var expired := watched && Expired(b.runtime.value, h, now);
      Reasons(b, id, now, closed, candidates, missing) ==
        List(status == Busy, status == Offline, expired, watched && !h.healthy && !expired, watched && h.circuit == Open,
             watched && closed != [] && h.circuit == HalfOpen && id !in closed, status == Available && missing && id in candidates)
  {
    hide Expired;
  }

  /** Each reason is given exactly when what it says is true, and given once. */
  lemma {:induction false} ReasonsAreExact(b: Balancer, id: Id, key: Option<Bytes>, now: nat, r: ExcludeReason)
    requires Ordered(b) && id in b.targets
    ensures var candidates := Candidates(b, now);
      multiset(Reasons(b, id, now, UpWith(b, b.ids, now, Closed), candidates, KeyIsMissing(b, key, candidates)))[r]
        == if Excludes(b, id, key, now, r) then 1 else 0
  {
    hide Reasons;
    hide SomeClosedIsUp;
    hide List;
    var closed, candidates := UpWith(b, b.ids, now, Closed), Candidates(b, now);
    var status, h, watched := b.targets[id].status, HealthOf(b, id), b.runtime.Some? && b.targets[id].status == Available;
    var expired, missing := watched && Expired(b.runtime.value, h, now), KeyIsMissing(b, key, candidates);
    ReasonsListed(b, id, now, closed, candidates, missing);
    CountInList(status == Busy, status == Offline, expired, watched && !h.healthy && !expired, watched && h.circuit == Open,
      watched && closed != [] && h.circuit == HalfOpen && id !in closed, status == Available && missing && id in candidates, r);
    ClosedListMeaning(b, now);
    UpWithMembers(b, b.ids, now, Closed);
    CandidatesAreEligible(b, now);
    hide UpWith;
    hide Candidates;
    hide Expired;
  }

  /** The targets among some that a reason applies to. */
  ghost function Applies(b: Balancer, ids: seq<Id>, key: Option<Bytes>, now: nat, r: ExcludeReason): set<Id> {
    set i | i in ids && i in b.targets && Excludes(b, i, key, now, r)
  }

  lemma AppliesGrows(b: Balancer, front: seq<Id>, last: Id, key: Option<Bytes>, now: nat, r: ExcludeReason)
    requires last !in front && last in b.targets
    ensures |Applies(b, front + [last], key, now, r)| == |Applies(b, front, key, now, r)| + if Excludes(b, last, key, now, r) then 1 else 0
  {
    hide Excludes;
    var all, some := Applies(b, front + [last], key, now, r), Applies(b, front, key, now, r);
    assert last !in some;
    assert all == if Excludes(b, last, key, now, r) then some + {last} else some;
  }

  lemma {:induction false} ReasonsAddUp(b: Balancer, ids: seq<Id>, key: Option<Bytes>, now: nat, r: ExcludeReason, reasons: map<Id, seq<ExcludeReason>>)
    requires NoDup(ids) && forall i :: i in ids ==> i in b.targets && i in reasons
    requires forall i :: i in ids ==> multiset(reasons[i])[r] == if Excludes(b, i, key, now, r) then 1 else 0
    ensures AllReasons(ids, reasons)[r] == |Applies(b, ids, key, now, r)|
    decreases |ids|
  {
    hide Excludes;
    if ids == [] {
    } else {
      var front, last := ids[..|ids| - 1], ids[|ids| - 1];
      assert ids == front + [last] && last !in front;
      ReasonsAddUp(b, front, key, now, r, reasons);
      AppliesGrows(b, front, last, key, now, r);
      hide Applies;
      assert last in ids;
      assert multiset(reasons[last])[r] == if Excludes(b, last, key, now, r) then 1 else 0;
    }
  }

  /** A selection adds to each exclusion counter the number of targets the reason applies to, and one to the miss reason that is true, if any. */
  lemma SelectionIsTallied(b: Balancer, key: Option<Bytes>, now: nat, r: ExcludeReason, m: MissReason)
    requires Ordered(b)
    ensures var c, d, e := Refreshed(b, now), b.diagnostics, Select(b, key, now).0.diagnostics;
      && e.excludes[r] == d.excludes[r] + |Applies(c, c.ids, key, now, r)|
      && e.misses[m] == d.misses[m] + if Means(c, key, now, m) then 1 else 0
  {
    hide Means;
    hide Diagnose;
    hide Refreshed;
    hide Pick;
    hide CandidateTargets;
    hide AllReasons;
    hide Applies;
    RefreshKeepsTargets(b, now);
    MissReasonsAreExact(b, key, now, m);
    DiagnosisTallied(Refreshed(b, now), key, now, r, Select(b, key, now).1);
  }

  lemma DiagnosisTallied(c: Balancer, key: Option<Bytes>, now: nat, r: ExcludeReason, selected: Option<Target>)
    requires Ordered(c)
    ensures AllReasons(c.ids, Diagnose(c, key, now, selected).reasons)[r] == |Applies(c, c.ids, key, now, r)|
  {
    var d := Diagnose(c, key, now, selected);
    forall i | i in c.ids ensures multiset(d.reasons[i])[r] == if Excludes(c, i, key, now, r) then 1 else 0 {
      ReasonsAreExact(c, i, key, now, r);
    }
    hide Excludes;
    ReasonsAddUp(c, c.ids, key, now, r, d.reasons);
  }

  // ── Runs and the counters ──────────────────────────────────────────

  datatype Op =
    | OpAdd(target: Target, now: nat)
    | OpRemove(id: Id)
    | OpLoad(id: Id, update: LoadUpdate, now: nat)
    | OpStatus(id: Id, status: Status)
    | OpRecord(id: Id, event: HealthEvent, now: nat)
    | OpRefreshAll(now: nat)
    | OpSelect(key: Option<Bytes>, now: nat)

  /** One call, and the target it selected, if it was a selection that found one. */
  ghost function Step(b: Balancer, op: Op): (Balancer, Option<Target>)
    requires Ordered(b)
  {
    match op
    case OpAdd(t, now) => (AddTarget(b, t, now), None)
    case OpRemove(id) => (RemoveTarget(b, id).0, None)
    case OpLoad(id, update, now) => (UpdateLoad(b, id, update, now), None)
    case OpStatus(id, status) => (SetStatus(b, id, status), None)
    case OpRecord(id, e, now) => (Record(b, id, e, now), None)
    case OpRefreshAll(now) => (RefreshAll(b, now), None)
    case OpSelect(key, now) => Select(b, key, now)
  }

  lemma StepKeepsOrder(b: Balancer, op: Op)
    requires Ordered(b)
    ensures Ordered(Step(b, op).0) && Step(b, op).0.runtime == b.runtime && Step(b, op).0.strategy == b.strategy
  {
    match op
    case OpRemove(id) =>
      WithoutNoDup(b.ids, id);
      WithoutMembers(b.ids, id);
    case OpRefreshAll(now) => RefreshSomeKeepsTargets(b, b.ids, now);
    case OpSelect(key, now) => RefreshKeepsTargets(b, now);
    case _ =>
  }

  ghost function Run(b: Balancer, ops: seq<Op>): (r: Balancer)
    requires Ordered(b)
    ensures Ordered(r) && r.runtime == b.runtime && r.strategy == b.strategy
    decreases |ops|
  {
    if ops == [] then b
    else
      StepKeepsOrder(b, ops[0]);
      Run(Step(b, ops[0]).0, ops[1..])
  }

  function Selections(ops: seq<Op>): nat {
    if ops == [] then 0 else (if ops[0].OpSelect? then 1 else 0) + Selections(ops[1..])
  }

  /** As many miss reasons as failures, and never one of the two impossible ones. */
  ghost predicate Tallied(b: Balancer) {
    |b.diagnostics.misses| == b.stats.failures && NoEligibleTargets !in b.diagnostics.misses && StrategyReturnedNone !in b.diagnostics.misses
  }

  lemma SelectCounts(b: Balancer, key: Option<Bytes>, now: nat)
    requires Ordered(b) && Tallied(b)
    ensures var c := Select(b, key, now).0;
      Tallied(c) && c.stats.selections + c.stats.failures == b.stats.selections + b.stats.failures + 1
  {
    RefreshKeepsTargets(b, now);
    MissReasonsAreExact(b, key, now, NoEligibleTargets);
    MissReasonsAreExact(b, key, now, StrategyReturnedNone);
    var c := Refreshed(b, now);
    assert c.diagnostics.misses == b.diagnostics.misses && c.stats.failures == b.stats.failures && c.stats.selections == b.stats.selections;
  }

  /** No call but a selection touches the counters. */
  lemma OthersKeepCounters(b: Balancer, op: Op)
    requires Ordered(b) && !op.OpSelect?
    ensures var c := Step(b, op).0; c.stats == b.stats && c.diagnostics == b.diagnostics
  {
    if op.OpRefreshAll? { RefreshSomeKeepsTargets(b, b.ids, op.now); }
  }

  lemma StepCounts(b: Balancer, op: Op)
    requires Ordered(b) && Tallied(b)
    ensures var c := Step(b, op).0;
      Tallied(c) && c.stats.selections + c.stats.failures == b.stats.selections + b.stats.failures + (if op.OpSelect? then 1 else 0)
  {
    if op.OpSelect? {
      SelectCounts(b, op.key, op.now);
    } else {
      OthersKeepCounters(b, op);
    }
  }

  /** Over any run of calls: as many miss reasons counted as failures, and every selection asked for counted once, as success or failure. */
  lemma {:induction false} CountersAddUp(b: Balancer, ops: seq<Op>)
    requires Ordered(b) && Tallied(b)
    ensures var c := Run(b, ops);
      Tallied(c) && c.stats.selections + c.stats.failures == b.stats.selections + b.stats.failures + Selections(ops)
    decreases |ops|
  {
    if ops == [] {
    } else {
      StepKeepsOrder(b, ops[0]);
      StepCounts(b, ops[0]);
      CountersAddUp(Step(b, ops[0]).0, ops[1..]);
    }
  }
}
