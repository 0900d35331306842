/**
 The agent with its caches does what the ledger does: whatever the caches hold or lose, the
 store and the answers are those of the protocol without caches.
 */
module Refinement {
  import opened Prelude
  import opened RuntimeStore
  import opened SuspensionSpec
  import opened RequirementSpec
  import opened AgentSpec
  import opened OneOpenQuestion
  import opened FollowupBudget
  import A = AgentSpec
  import L = Ledgers
  import opened Ledgers

  /** Resolved and cleared suspensions look the same on the ledger. */
  function CardOf(rec: Suspension): Card {
    if rec.status == Active then Open(rec) else Shut(rec.run, rec.createdAt)
  }

  function CardsOf(suspensions: map<SuspensionId, Suspension>): Cards {
    map i | i in suspensions :: CardOf(suspensions[i])
  }

  function LedgerOf(a: Agent): Ledger {
    Ledger(a.registry, a.snap.runs, a.snap.invocations, a.snap.requirements, CardsOf(a.snap.suspensions), a.log)
  }

  ghost predicate PendingKnown(pending: map<Job, Question>, runs: Runs) {
    forall j :: j in pending ==> RunId(j) in runs
  }

  ghost predicate ToolsKnown(tools: map<QuestionId, Tool>, suspensions: map<SuspensionId, Suspension>) {
    forall q :: q in tools ==> SuspensionId(q) in suspensions
  }

  ghost predicate ProgressKnown(progress: map<Job, Progress>, requirements: map<RequirementId, Requirement>) {
    forall j :: j in progress ==> RequirementId(j) in requirements
  }

  /** What the caches hold is known to the store. */
  ghost predicate Cached(a: Agent) {
    && Indexed(a.snap) && PendingKnown(a.pending, a.snap.runs)
    && ToolsKnown(a.tools, a.snap.suspensions) && ProgressKnown(a.progress, a.snap.requirements)
  }

  /** A question still cached for a job is one of its own, and closed. */
  ghost predicate PendingIsShut(suspensions: map<SuspensionId, Suspension>, pending: map<Job, Question>, job: Job) {
    job in pending ==>
      var q := pending[job];
      && q.inbound.Some? && q.inbound.value.id == job && SuspensionId(q.id) in suspensions
      && suspensions[SuspensionId(q.id)].run == RunId(job) && suspensions[SuspensionId(q.id)].status != Active
  }

  // ── Store writes ───────────────────────────────────────────────────

  lemma UpsertKeepsIndex(s: Snapshot, m: Inbound, q: Question, invocation: Option<InvocationId>, kind: SuspensionKind, status: SuspensionStatus)
    requires Indexed(s) && RunId(m.id) in s.runs
    ensures Indexed(UpsertSuspension(s, m, q, invocation, kind, status))
  {
  }

  lemma UpsertKeepsCached(a: Agent, m: Inbound, q: Question, invocation: Option<InvocationId>, kind: SuspensionKind, status: SuspensionStatus)
    requires Cached(a) && RunId(m.id) in a.snap.runs
    ensures Cached(a.(snap := UpsertSuspension(a.snap, m, q, invocation, kind, status)))
  {
    UpsertKeepsIndex(a.snap, m, q, invocation, kind, status);
  }

  lemma UpsertOpens(s: Snapshot, m: Inbound, q: Question, invocation: Option<InvocationId>, kind: SuspensionKind)
    ensures CardsOf(UpsertSuspension(s, m, q, invocation, kind, Active).suspensions) == Deal(CardsOf(s.suspensions), m, q, invocation, kind)
  {
    var id := SuspensionId(q.id);
    var cards, after := CardsOf(s.suspensions), UpsertSuspension(s, m, q, invocation, kind, Active).suspensions;
    assert id in s.suspensions ==> CreatedAt(cards[id]) == s.suspensions[id].createdAt;
    assert after == s.suspensions[id := after[id]];
    assert CardsOf(after) == cards[id := Open(after[id])];
  }

  lemma UpsertShuts(s: Snapshot, m: Inbound, q: Question, invocation: Option<InvocationId>, kind: SuspensionKind, status: SuspensionStatus)
    requires status != Active && SuspensionId(q.id) in s.suspensions && s.suspensions[SuspensionId(q.id)].run == RunId(m.id)
    ensures CardsOf(UpsertSuspension(s, m, q, invocation, kind, status).suspensions) == ShutCard(CardsOf(s.suspensions), q.id)
  {
    var id := SuspensionId(q.id);
    var cards, after := CardsOf(s.suspensions), UpsertSuspension(s, m, q, invocation, kind, status).suspensions;
    assert CreatedAt(cards[id]) == s.suspensions[id].createdAt && RunOf(cards[id]) == RunId(m.id);
    assert after == s.suspensions[id := after[id]];
    assert CardsOf(after) == cards[id := Shut(RunId(m.id), s.suspensions[id].createdAt)];
  }

  lemma ShuttingShutIsNothing(cards: Cards, q: QuestionId)
    requires SuspensionId(q) in cards ==> cards[SuspensionId(q)].Shut?
    ensures ShutCard(cards, q) == cards
  {
  }

  /** What is rebuilt from the store is what the ledger shows. */
  lemma RebuildsQuestion(a: Agent, job: Job)
    ensures RebuildQuestion(a.snap, job) == QuestionOn(LedgerOf(a), job)
  {
    assert OpenCards(CardsOf(a.snap.suspensions), RunId(job)) == OpenOf(a.snap, RunId(job));
  }

  lemma RebuildsTool(a: Agent, q: QuestionId)
    requires Indexed(a.snap)
    ensures RebuildTool(a.snap, q) == ToolOn(LedgerOf(a), q)
  {
  }

  lemma StoreRefines(a: Agent, m: Inbound, q: Question)
    requires Cached(a) && RunId(m.id) in a.snap.runs && q.inbound == Some(m)
    ensures var b := WithSus(a, StoreQuestion(Sus(a), m.id, q));
      Cached(b) && LedgerOf(b) == Put(LedgerOf(a), m, q)
  {
    UpsertKeepsCached(a, m, q, q.raw.invocation, KindOf(q.source), Active);
    UpsertOpens(a.snap, m, q, q.raw.invocation, KindOf(q.source));
  }

  lemma RunRefines(a: Agent, m: Inbound, status: RunStatus)
    requires Cached(a)
    ensures var b := A.SetRun(a, m, status);
      Cached(b) && LedgerOf(b) == L.SetRun(LedgerOf(a), m, status)
  {
  }

  lemma RequirementRefines(a: Agent, job: Job, p: Progress, status: RequirementStatus)
    requires Cached(a)
    ensures var b := A.SetRequirement(a, job, p, status);
      Cached(b) && LedgerOf(b) == L.SetRequirement(LedgerOf(a), job, p, status)
  {
  }

  lemma EnsureRefines(a: Agent, m: Inbound)
    requires Cached(a)
    ensures var (t, p) := Ensure(Req(a), m); var b := WithReq(a, t);
      Cached(b) && LedgerOf(b) == Ensured(LedgerOf(a), m) && p == ProgressOn(LedgerOf(a), m)
  {
  }

  /** The round reaches the store: the job has a run and a requirement. */
  lemma UpdateRefines(a: Agent, m: Inbound, p: Progress, fingerprint: Fingerprint, reason: string)
    requires Cached(a) && RunId(m.id) in a.snap.runs && RequirementId(m.id) in a.snap.requirements && p == ProgressOn(LedgerOf(a), m)
    ensures var b := WithReq(a, Update(Req(a), m.id, p.attempted + 1, fingerprint, reason));
      Cached(b) && LedgerOf(b) == L.SetRequirement(LedgerOf(a), m.id, NextRound(p, fingerprint, reason), FollowupScheduled)
  {
  }

  lemma PublishRefines(a: Agent, e: Event)
    requires Cached(a)
    ensures Cached(A.Publish(a, e)) && LedgerOf(A.Publish(a, e)) == L.Publish(LedgerOf(a), e)
  {
  }

  lemma ClearRefines(a: Agent, job: Job)
    requires Cached(a)
    ensures var b := WithReq(a, Clear(Req(a), job));
      Cached(b) && LedgerOf(b) == LedgerOf(a)
  {
  }

  lemma LoseRefines(a: Agent, l: Lost)
    requires Cached(a)
    ensures Cached(Lose(a, l)) && LedgerOf(Lose(a, l)) == LedgerOf(a)
  {
  }

  // ── Where a result leads ───────────────────────────────────────────

  lemma AskRefines(a: Agent, m: Inbound, session: string, v: Verdict)
    requires v.NeedsInput? && Cached(a) && RunId(m.id) in a.snap.runs && RequirementId(m.id) in a.snap.requirements
    ensures Cached(A.Ask(a, m, session, v)) && LedgerOf(A.Ask(a, m, session, v)) == L.Ask(LedgerOf(a), m, session, v)
  {
    hide Cached;
    hide CardsOf;
    var q := UpQuestion(m, session, v);
    StoreRefines(a, m, q);
    var b := WithSus(a, StoreQuestion(Sus(a), m.id, q));
    RunRefines(b, m, Running);
    var c := A.SetRun(b, m, Running);
    var p := ProgressOn(LedgerOf(c), m);
    RequirementRefines(c, m.id, p, WaitingUserInput);
    PublishRefines(A.SetRequirement(c, m.id, p, WaitingUserInput), Asked(m.id, v.id));
  }

  lemma QuietFindsNothing(a: Agent, job: Job)
    requires Quiet(CardsOf(a.snap.suspensions), RunId(job))
    ensures RebuildQuestion(a.snap, job) == None
  {
    forall i ensures i !in OpenOf(a.snap, RunId(job)) { assert !IsOpen(CardsOf(a.snap.suspensions), i, RunId(job)); }
    assert OpenOf(a.snap, RunId(job)) == {};
  }

  lemma ClearCachedRefines(a: Agent, job: Job, q: Question, kind: SuspensionKind)
    requires Cached(a) && RunId(job) in a.snap.runs && job in a.pending && q == a.pending[job]
    requires PendingIsShut(a.snap.suspensions, a.pending, job)
    ensures var b := a.(snap := UpsertSuspension(a.snap, q.inbound.value, q, None, kind, Cleared));
      Cached(b) && LedgerOf(b) == LedgerOf(a)
  {
    UpsertKeepsCached(a, q.inbound.value, q, None, kind, Cleared);
    UpsertShuts(a.snap, q.inbound.value, q, None, kind, Cleared);
    ShuttingShutIsNothing(CardsOf(a.snap.suspensions), q.id);
  }

  lemma HydrateRefines(a: Agent, job: Job, q: Question)
    requires Cached(a) && RunId(job) in a.snap.runs
    ensures var b := a.(pending := a.pending[job := q]); Cached(b) && LedgerOf(b) == LedgerOf(a)
  {
  }

  lemma DropRefines(a: Agent, job: Job)
    requires Cached(a)
    ensures var b := a.(pending := a.pending - {job}); Cached(b) && LedgerOf(b) == LedgerOf(a)
  {
  }

  /** Clearing a closed question, or one nobody cached, changes nothing on the ledger. */
  lemma ClearQuestionRefines(a: Agent, job: Job)
    requires Cached(a) && RunId(job) in a.snap.runs
    requires Quiet(CardsOf(a.snap.suspensions), RunId(job)) && PendingIsShut(a.snap.suspensions, a.pending, job)
    ensures var b := WithSus(a, ClearQuestion(Sus(a), job));
      Cached(b) && LedgerOf(b) == LedgerOf(a) && b.tools == a.tools
  {
    var b := WithSus(a, ClearQuestion(Sus(a), job));
    if job in a.pending {
      var q := a.pending[job];
      var kind := if q.source == SubtaskBlocked then OfSubtask else OfQuestion;
      ClearCachedRefines(a, job, q, kind);
      assert q.inbound.Some?;
      hide Cached;
      hide CardsOf;
      var c := a.(snap := UpsertSuspension(a.snap, q.inbound.value, q, None, kind, Cleared));
      DropRefines(c, job);
      assert b == c.(pending := c.pending - {job});
    } else {
      QuietFindsNothing(a, job);
      DropRefines(a, job);
      assert b == a.(pending := a.pending - {job});
    }
  }

  lemma CompleteRefines(a: Agent, m: Inbound)
    requires Cached(a) && Ordered(LedgerOf(a)) && RunId(m.id) in a.snap.runs && RequirementId(m.id) in a.snap.requirements
    requires Quiet(CardsOf(a.snap.suspensions), RunId(m.id)) && PendingIsShut(a.snap.suspensions, a.pending, m.id)
    ensures Cached(A.Complete(a, m)) && LedgerOf(A.Complete(a, m)) == L.Complete(LedgerOf(a), m)
  {
    hide Cached;
    hide CardsOf;
    ClearQuestionRefines(a, m.id);
    var b := WithSus(a, ClearQuestion(Sus(a), m.id));
    ClearRefines(b, m.id);
    var c := WithReq(b, Clear(Req(b), m.id));
    RunRefines(c, m, Completed);
    var d, p := A.SetRun(c, m, Completed), ProgressOn(LedgerOf(a), m);
    RequirementRefines(d, m.id, p, Satisfied);
    PublishRefines(A.SetRequirement(d, m.id, p, Satisfied), Finished(m.id));
  }

  lemma PrepareRefines(a: Agent, m: Inbound)
    requires Cached(a)
    ensures var (b, p) := Prepare(a, m); var l := LedgerOf(a);
      && Cached(b) && p == ProgressOn(l, m)
      && LedgerOf(b) == L.SetRequirement(L.SetRun(l, m, Running), m.id, p, FollowupScheduled)
      && b.snap.suspensions == a.snap.suspensions && b.pending == a.pending
  {
    hide Cached;
    hide CardsOf;
    EnsureRefines(a, m);
    var b := WithReq(a, Ensure(Req(a), m).0);
    RunRefines(b, m, Running);
    RequirementRefines(A.SetRun(b, m, Running), m.id, ProgressOn(LedgerOf(a), m), FollowupScheduled);
  }

  /** Giving up leaves the progress as it was before the round that is not made. */
  lemma ExhaustRefines(a: Agent, m: Inbound, p: Progress, fingerprint: Fingerprint, reason: string)
    requires Cached(a) && RequirementId(m.id) in a.snap.requirements && p == ProgressOn(LedgerOf(a), m)
    requires RunId(m.id) in a.snap.runs && a.snap.runs[RunId(m.id)] == RunRecord(m.id, m.chat, m.channel, Running)
    ensures var b := A.Exhaust(a, m, p, fingerprint, reason);
      Cached(b) && LedgerOf(b) == L.Publish(L.SetRequirement(LedgerOf(a), m.id, p, RequirementStatus.Exhausted), GaveUp(m.id))
  {
    hide Cached;
    hide CardsOf;
    UpdateRefines(a, m, p, fingerprint, reason);
    var b := WithReq(a, Update(Req(a), m.id, p.attempted + 1, fingerprint, reason));
    RequirementRefines(b, m.id, p, RequirementStatus.Exhausted);
    var c := A.SetRequirement(b, m.id, p, RequirementStatus.Exhausted);
    RunRefines(c, m, Running);
    PublishRefines(A.SetRun(c, m, Running), GaveUp(m.id));
  }

  lemma StartRefines(a: Agent, m: Inbound, p: Progress, fingerprint: Fingerprint, reason: string, l: Lost)
    requires Cached(a) && RunId(m.id) in a.snap.runs && RequirementId(m.id) in a.snap.requirements && p == ProgressOn(LedgerOf(a), m)
    ensures var b := Lose(A.Start(a, m, p, fingerprint, reason), l);
      && Cached(b) && LedgerOf(b) == L.Start(LedgerOf(a), m, p, fingerprint, reason)
      && b.snap.suspensions == a.snap.suspensions && (forall j :: j in b.pending ==> j in a.pending && b.pending[j] == a.pending[j])
      && b.snap.runs == a.snap.runs
  {
    hide Cached;
    hide CardsOf;
    UpdateRefines(a, m, p, fingerprint, reason);
    var u := WithReq(a, Update(Req(a), m.id, p.attempted + 1, fingerprint, reason));
    PublishRefines(u, Scheduled(m.id, fingerprint, reason));
    EnsureRefines(A.Publish(u, Scheduled(m.id, fingerprint, reason)), m);
    LoseRefines(A.Start(a, m, p, fingerprint, reason), l);
  }

  /** The result so far is the ledger's, and the agent's invariant holds. */
  ghost predicate Refines(h: Handled, s: Settled) {
    Cached(h.agent) && LedgerOf(h.agent) == s.ledger && h.ok == s.ok && h.next == s.next
  }

  /** No question of the job is open, in the store or in the cache: a result may be handled. */
  ghost predicate Ready(a: Agent, m: Inbound) {
    && Cached(a) && Ordered(LedgerOf(a)) && IsRunning(a.snap.runs, RunId(m.id))
    && Quiet(CardsOf(a.snap.suspensions), RunId(m.id)) && PendingIsShut(a.snap.suspensions, a.pending, m.id)
  }

  lemma ReadyFits(a: Agent, m: Inbound, v: Verdict)
    requires Ready(a, m)
    ensures Fits(LedgerOf(a), m, v)
  {
    if v.NeedsInput? { QuietAllowsAny(CardsOf(a.snap.suspensions), RunId(m.id), SuspensionId(v.id)); }
  }

  lemma PreparedReady(a: Agent, m: Inbound)
    requires Ready(a, m)
    ensures var (b, p) := Prepare(a, m);
      && Ready(b, m) && p == ProgressOn(LedgerOf(b), m) && RequirementId(m.id) in b.snap.requirements
      && RunId(m.id) in b.snap.runs && b.snap.runs[RunId(m.id)] == RunRecord(m.id, m.chat, m.channel, Running)
  {
    hide Cached;
    PrepareRefines(a, m);
    RunKeepsOrder(a.snap.runs, CardsOf(a.snap.suspensions), a.log, m, Running);
  }

  lemma StartedReady(a: Agent, m: Inbound, p: Progress, fingerprint: Fingerprint, reason: string, l: Lost)
    requires Ready(a, m) && RequirementId(m.id) in a.snap.requirements && p == ProgressOn(LedgerOf(a), m)
    ensures Ready(Lose(A.Start(a, m, p, fingerprint, reason), l), m)
  {
    hide Cached;
    StartRefines(a, m, p, fingerprint, reason, l);
    StartKeepsOrder(LedgerOf(a), m, p, fingerprint, reason);
  }

  lemma {:induction false} HandleRefines(a: Agent, m: Inbound, session: string, v: Verdict, script: Script, lost: nat -> Lost, n: nat)
    requires Cached(a) && Fits(LedgerOf(a), m, v)
    requires !v.NeedsInput? ==> PendingIsShut(a.snap.suspensions, a.pending, m.id)
    ensures Refines(A.Handle(a, m, session, v, script, lost, n), L.Handle(LedgerOf(a), m, session, v, script, n))
    decreases Budget(Req(a), m.id), 1
  {
    hide Cached;
    hide CardsOf;
    if v.Blocked? {
      var q := BlockedQuestion(m, v.id, session, v.prompt, v.options, v.askedAt);
      StoreRefines(a, m, q);
      PublishRefines(WithSus(a, StoreQuestion(Sus(a), m.id, q)), Asked(m.id, v.id));
    } else {
      EnsureRefines(a, m);
      var e := WithReq(a, Ensure(Req(a), m).0);
      RunRefines(e, m, Running);
      RunKeepsOrder(a.snap.runs, CardsOf(a.snap.suspensions), a.log, m, Running);
      var b := A.SetRun(e, m, Running);
      if v.Done? {
        CompleteRefines(b, m);
      } else if v.NeedsInput? {
        AskRefines(b, m, session, v);
      } else {
        RunKeepsBudget(a, m);
        FollowupRefines(b, m, session, v.fingerprint, v.reason, script, lost, n);
      }
    }
  }

  lemma {:induction false} FollowupRefines(a: Agent, m: Inbound, session: string, fingerprint: Fingerprint, reason: string,
      script: Script, lost: nat -> Lost, n: nat)
    requires Ready(a, m)
    ensures Refines(A.Followup(a, m, session, fingerprint, reason, script, lost, n),
                    L.Followup(LedgerOf(a), m, session, fingerprint, reason, script, n))
    decreases Budget(Req(a), m.id), 0
  {
    hide Cached;
    hide CardsOf;
    hide Ordered;
    hide Quiet;
    hide PendingIsShut;
    PreparedReady(a, m);
    PrepareRefines(a, m);
    var (b, p) := Prepare(a, m);
    if Hopeless(p, fingerprint) {
      ExhaustRefines(b, m, p, fingerprint, reason);
    } else {
      FollowupShrinksBudget(a, m, fingerprint, reason, lost(n));
      StartedReady(b, m, p, fingerprint, reason, lost(n));
      StartRefines(b, m, p, fingerprint, reason, lost(n));
      var c := Lose(A.Start(b, m, p, fingerprint, reason), lost(n));
      if script(n).Success? {
        ReadyFits(c, m, script(n).verdict);
        HandleRefines(c, m, session, script(n).verdict, script, lost, n + 1);
      } else if !script(n).Unreachable? {
        RunRefines(c, m, Running);
      }
    }
  }
}
