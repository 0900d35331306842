/**
 Every entry point of the agent, caches and all, does what it does on the ledger. So neither a
 reply nor an event depends on what the caches held or lost.
 */
module CacheTransparency {
  import opened Prelude
  import opened RuntimeStore
  import opened SuspensionSpec
  import opened RequirementSpec
  import opened AgentSpec
  import opened OneOpenQuestion
  import opened FollowupBudget
  import opened Refinement
  import A = AgentSpec
  import L = Ledgers
  import opened Ledgers

  // ── Asking for a tool permission ───────────────────────────────────

  lemma StoreToolRefines(a: Agent, id: QuestionId, t: Tool, askedAt: nat)
    requires Cached(a) && RunId(t.inbound.id) in a.snap.runs
    ensures var b, l := WithSus(a, StoreTool(Sus(a), id, t, askedAt)), LedgerOf(a);
      && Cached(b)
      && LedgerOf(b) == l.(cards := Deal(l.cards, t.inbound, ToolQuestion(id, t, askedAt), Some(t.invocation), OfTool),
                           invocations := l.invocations[t.invocation := Invocation(t.toolName, Some(t.toolUse))])
      && b.tools == a.tools[id := t] && b.pending == a.pending
  {
    var q := ToolQuestion(id, t, askedAt);
    UpsertKeepsCached(a, t.inbound, q, Some(t.invocation), OfTool, Active);
    UpsertOpens(a.snap, t.inbound, q, Some(t.invocation), OfTool);
  }

  lemma AskToolRefines(a: Agent, m: Inbound, session: string, id: QuestionId, c: Call, askedAt: nat)
    requires Cached(a) && RunId(m.id) in a.snap.runs
    ensures var b := A.AskTool(a, m.id, m, session, id, c, askedAt);
      && Cached(b) && LedgerOf(b) == L.AskTool(LedgerOf(a), m, session, id, c, askedAt)
      && b.tools == a.tools[id := ToolOf(m, session, c)]
  {
    hide Cached;
    hide CardsOf;
    var q := CallQuestion(m, session, id, c, askedAt);
    StoreRefines(a, m, q);
    var b := WithSus(a, StoreQuestion(Sus(a), m.id, q));
    assert RunId(m.id) in b.snap.runs;
    StoreToolRefines(b, id, ToolOf(m, session, c), askedAt);
  }

  lemma LoseReady(a: Agent, m: Inbound, l: Lost)
    requires Ready(a, m)
    ensures Ready(Lose(a, l), m) && LedgerOf(Lose(a, l)) == LedgerOf(a)
  {
    LoseRefines(a, l);
  }

  lemma ExecuteRefines(a: Agent, m: Inbound, session: string, script: Script, lost: nat -> Lost, n: nat)
    requires Ready(a, m)
    ensures var (b, v) := A.ExecuteInitial(a, m, session, script, lost, n);
      && Cached(b) && (LedgerOf(b), v) == L.ExecuteInitial(LedgerOf(a), m, session, script, n)
      && (v.None? || !v.value.NeedsInput? ==> PendingIsShut(b.snap.suspensions, b.pending, m.id))
  {
    LoseReady(a, m, lost(n));
    var b := Lose(a, lost(n));
    if script(n).Suspends? {
      var id, c, askedAt := script(n).id, script(n).call, script(n).askedAt;
      AskToolRefines(b, m, session, id, c, askedAt);
      PublishRefines(A.AskTool(b, m.id, m, session, id, c, askedAt), Asked(m.id, id));
    }
  }

  // ── A new message ──────────────────────────────────────────────────

  lemma FreshIsReady(a: Agent, m: Inbound)
    requires Cached(a) && Ordered(LedgerOf(a)) && RunId(m.id) !in a.snap.runs
    ensures Ready(A.SetRun(a, m, Running), m) && LedgerOf(A.SetRun(a, m, Running)) == L.SetRun(LedgerOf(a), m, Running)
  {
    RunRefines(a, m, Running);
    RunKeepsOrder(a.snap.runs, CardsOf(a.snap.suspensions), a.log, m, Running);
    UnknownRunIsQuiet(LedgerOf(a), RunId(m.id));
    assert m.id !in a.pending;
  }

  /** A first result is handled after one more look at the requirement. */
  lemma {:induction false} HandleFirstRefines(a: Agent, m: Inbound, session: string, v: Verdict, script: Script, lost: nat -> Lost, n: nat)
    requires Cached(a) && Fits(Ensured(LedgerOf(a), m), m, v)
    requires !v.NeedsInput? ==> PendingIsShut(a.snap.suspensions, a.pending, m.id)
    ensures Refines(A.Handle(WithReq(a, Ensure(Req(a), m).0), m, session, v, script, lost, n),
                    L.Handle(Ensured(LedgerOf(a), m), m, session, v, script, n))
  {
    hide Cached;
    hide Fits;
    EnsureRefines(a, m);
    HandleRefines(WithReq(a, Ensure(Req(a), m).0), m, session, v, script, lost, n);
  }

  lemma SupervisedRefines(a: Agent, m: Inbound, q: Question)
    requires Cached(a) && RunId(m.id) in a.snap.runs && q.inbound == Some(m)
    ensures var b := A.Publish(WithSus(a, StoreQuestion(Sus(a), m.id, q)), Asked(m.id, q.id));
      Cached(b) && LedgerOf(b) == L.Publish(Put(LedgerOf(a), m, q), Asked(m.id, q.id))
  {
    hide Cached;
    StoreRefines(a, m, q);
    PublishRefines(WithSus(a, StoreQuestion(Sus(a), m.id, q)), Asked(m.id, q.id));
  }

  lemma {:induction false} FirstResultRefines(a: Agent, m: Inbound, session: string, script: Script, lost: nat -> Lost, n: nat)
    requires Ready(a, m)
    ensures var (b, v) := A.ExecuteInitial(a, m, session, script, lost, n); var (k, w) := L.ExecuteInitial(LedgerOf(a), m, session, script, n);
      && Cached(b) && LedgerOf(b) == k && v == w
      && (v.Some? ==> Refines(A.Handle(WithReq(b, Ensure(Req(b), m).0), m, session, v.value, script, lost, n + 1),
                              L.Handle(Ensured(k, m), m, session, v.value, script, n + 1)))
  {
    ExecuteRefines(a, m, session, script, lost, n);
    ExecuteKeepsOrder(LedgerOf(a), m, session, script, n);
    hide Cached;
    hide CardsOf;
    hide PendingIsShut;
    hide Ordered;
    hide Quiet;
    hide A.ExecuteInitial;
    hide L.ExecuteInitial;
    hide Fits;
    hide Refines;
    var (b, v) := A.ExecuteInitial(a, m, session, script, lost, n);
    if v.Some? { HandleFirstRefines(b, m, session, v.value, script, lost, n + 1); }
  }

  lemma ReceiveRefines(a: Agent, m: Inbound, route: Route, script: Script, lost: nat -> Lost, n: nat)
    requires Cached(a) && Ordered(LedgerOf(a)) && RunId(m.id) !in a.snap.runs
    ensures Refines(A.Receive(a, m, route, script, lost, n), L.Receive(LedgerOf(a), m, route, script, n))
  {
    FreshIsReady(a, m);
    var b := A.SetRun(a, m, Running);
    match route
    case Supervised(session, id, prompt, askedAt) =>
      SupervisedRefines(b, m, PlanQuestion(m, id, session, prompt, askedAt));
    case Execute(session) =>
      hide Cached;
      hide Ready;
      hide CardsOf;
      hide A.ExecuteInitial;
      hide L.ExecuteInitial;
      hide A.Handle;
      hide L.Handle;
      FirstResultRefines(b, m, session, script, lost, n);
    case _ =>
  }

  // ── Accepting an answer ────────────────────────────────────────────

  lemma KnownJobs(a: Agent, job: Job)
    requires Cached(a)
    ensures job in a.snap.runOfJob <==> RunId(job) in a.snap.runs
    ensures RunId(job) !in a.snap.runs ==> job !in a.pending
  {
  }

  lemma QuestionStateRefines(a: Agent, job: Job, hydrate: bool)
    requires Cached(a)
    ensures var (s, q) := QuestionState(Sus(a), job, hydrate); var b := WithSus(a, s);
      && q == QuestionOn(LedgerOf(a), job) && Cached(b) && LedgerOf(b) == LedgerOf(a) && s.snap == a.snap
  {
    hide Cached;
    hide CardsOf;
    KnownJobs(a, job);
    RebuildsQuestion(a, job);
    var rebuilt := RebuildQuestion(a.snap, job);
    DropRefines(a, job);
    if rebuilt.Some? { HydrateRefines(a, job, rebuilt.value); }
  }

  lemma ToolStateRefines(a: Agent, q: QuestionId)
    requires Cached(a)
    ensures var (s, t) := ToolState(Sus(a), q); var b := WithSus(a, s);
      && t == ToolOn(LedgerOf(a), q) && Cached(b) && LedgerOf(b) == LedgerOf(a)
      && s.snap == a.snap && s.pending == a.pending && (q in s.tools ==> t == Some(s.tools[q]))
  {
    RebuildsTool(a, q);
  }

  /** Caching the answered question and resolving its suspension shuts its card. */
  lemma ResolveRefines(a: Agent, job: Job, q: Question)
    requires Cached(a) && RunId(job) in a.snap.runs && q.inbound.Some? && q.inbound.value.id == job
    requires var id := SuspensionId(q.id); id in a.snap.suspensions && a.snap.suspensions[id].run == RunId(job)
    ensures var b := a.(pending := a.pending[job := q]);
      var c := b.(snap := UpsertSuspension(b.snap, q.inbound.value, q, None, KindOf(q.source), Resolved));
      && Cached(b) && LedgerOf(b) == LedgerOf(a)
      && Cached(c) && LedgerOf(c) == LedgerOf(a).(cards := ShutCard(LedgerOf(a).cards, q.id))
  {
    hide Cached;
    HydrateRefines(a, job, q);
    var b := a.(pending := a.pending[job := q]);
    UpsertKeepsCached(b, q.inbound.value, q, None, KindOf(q.source), Resolved);
    UpsertShuts(b.snap, q.inbound.value, q, None, KindOf(q.source), Resolved);
  }

  lemma OpenIsStored(a: Agent, id: SuspensionId, run: RunId)
    requires IsOpen(CardsOf(a.snap.suspensions), id, run)
    ensures id in a.snap.suspensions && a.snap.suspensions[id].run == run
  {
  }

  lemma SubmitRefines(a: Agent, job: Job, question: QuestionId)
    requires Cached(a) && Ordered(LedgerOf(a))
    ensures var (s, r) := SuspensionSpec.SubmitAnswer(Sus(a), job, question); var b := WithSus(a, s);
      && Cached(b) && (LedgerOf(b), r) == L.SubmitAnswer(LedgerOf(a), job, question)
      && (r.Ok? ==> job in b.pending && b.pending[job] == r.question)
  {
    hide Cached;
    hide CardsOf;
    hide Ordered;
    hide QuestionOn;
    QuestionStateRefines(a, job, true);
    var (t, found) := QuestionState(Sus(a), job, true);
    if found.Some? && found.value.id == question {
      FoundIsOpen(LedgerOf(a), job);
      OpenIsStored(a, SuspensionId(question), RunId(job));
      hide QuestionState;
      ResolveRefines(WithSus(a, t), job, found.value.(answered := true));
    }
  }

  lemma ShutIsStored(a: Agent, id: SuspensionId)
    requires var cards := CardsOf(a.snap.suspensions); id in cards && cards[id].Shut?
    ensures id in a.snap.suspensions && a.snap.suspensions[id].status != Active
    ensures a.snap.suspensions[id].run == RunOf(CardsOf(a.snap.suspensions)[id])
  {
  }

  /** An accepted answer that is no tool permission leaves nothing open. */
  lemma AcceptedReady(a: Agent, job: Job, question: QuestionId)
    requires Cached(a) && Ordered(LedgerOf(a))
    requires var r := L.SubmitAnswer(LedgerOf(a), job, question).1; r.Ok? && r.question.source != ToolPermission
    ensures var s, q := SuspensionSpec.SubmitAnswer(Sus(a), job, question).0, L.SubmitAnswer(LedgerOf(a), job, question).1.question;
      var b := A.Publish(WithSus(a, s), Accepted(job, question, q.source));
      q.inbound.Some? && q.inbound.value.id == job && Ready(b, q.inbound.value)
  {
    hide Cached;
    var (s, r) := SuspensionSpec.SubmitAnswer(Sus(a), job, question);
    var (k, w) := L.SubmitAnswer(LedgerOf(a), job, question);
    SubmitRefines(a, job, question);
    FoundIsOpen(LedgerOf(a), job);
    var id, e := SuspensionId(question), Accepted(job, question, w.question.source);
    ShutKeepsOrder(a.snap.runs, CardsOf(a.snap.suspensions), a.log, question);
    PublishKeepsOrder(k.runs, k.cards, k.log, e);
    PublishRefines(WithSus(a, s), e);
    ShutIsStored(WithSus(a, s), id);
  }

  // ── After a tool permission ────────────────────────────────────────

  /** Clearing a tool call shuts its card, if it is still open. */
  lemma ClearToolRefines(a: Agent, q: QuestionId, now: nat)
    requires Cached(a)
    requires q in a.tools ==> var id := SuspensionId(q); id in a.snap.suspensions && a.snap.suspensions[id].run == RunId(a.tools[q].inbound.id)
    requires q !in a.tools ==> SuspensionId(q) in CardsOf(a.snap.suspensions) && CardsOf(a.snap.suspensions)[SuspensionId(q)].Shut?
    ensures var b, l := WithSus(a, ClearTool(Sus(a), q, now)), LedgerOf(a);
      Cached(b) && LedgerOf(b) == l.(cards := ShutCard(l.cards, q))
  {
    if q in a.tools {
      var t := a.tools[q];
      assert RunId(t.inbound.id) in a.snap.runs;
      var question := ToolQuestion(q, t, now).(raw := ToolRaw(t).(invocation := None));
      UpsertKeepsCached(a, t.inbound, question, Some(t.invocation), OfTool, Cleared);
      UpsertShuts(a.snap, t.inbound, question, Some(t.invocation), OfTool, Cleared);
      DropToolRefines(a.(snap := UpsertSuspension(a.snap, t.inbound, question, Some(t.invocation), OfTool, Cleared)), q);
    } else {
      RebuildsTool(a, q);
      ShuttingShutIsNothing(CardsOf(a.snap.suspensions), q);
      DropToolRefines(a, q);
    }
  }

  lemma DropToolRefines(a: Agent, q: QuestionId)
    requires Cached(a)
    ensures var b := a.(tools := a.tools - {q}); Cached(b) && LedgerOf(b) == LedgerOf(a)
  {
  }

  /** The tool has run and its question is resolved; the caches hold what they held, or less. */
  ghost predicate ToolDone(a: Agent, job: Job, q: QuestionId, t: Tool) {
    && Ready(a, t.inbound) && t.inbound.id == job
    && (var cards, id := CardsOf(a.snap.suspensions), SuspensionId(q); id in cards && cards[id] == Shut(RunId(job), CreatedAt(cards[id])))
    && (q in a.tools ==> a.tools[q].inbound.id == job)
  }

  lemma FinishRefines(a: Agent, job: Job, q: QuestionId, t: Tool, now: nat)
    requires ToolDone(a, job, q, t)
    ensures var b := A.FinishTool(a, job, q, t, now);
      Cached(b) && LedgerOf(b) == L.Publish(L.SetRun(LedgerOf(a), t.inbound, Completed), Finished(job))
  {
    hide Cached;
    ClearQuestionRefines(a, job);
    var b := WithSus(a, ClearQuestion(Sus(a), job));
    ShutIsStored(b, SuspensionId(q));
    ClearToolRefines(b, q, now);
    ShuttingShutIsNothing(CardsOf(b.snap.suspensions), q);
    var c := WithSus(b, ClearTool(Sus(b), q, now));
    RunRefines(c, t.inbound, Completed);
    PublishRefines(A.SetRun(c, t.inbound, Completed), Finished(job));
  }

  lemma ResuspendRefines(a: Agent, job: Job, q: QuestionId, t: Tool, id: QuestionId, c: Call, now: nat)
    requires ToolDone(a, job, q, t)
    ensures var b := A.Resuspend(a, job, q, t, id, c, now);
      Cached(b) && LedgerOf(b) == L.Resuspend(LedgerOf(a), job, q, t, id, c, now)
  {
    hide Cached;
    AskToolRefines(a, t.inbound, t.session, id, c, now);
    var b := A.AskTool(a, job, t.inbound, t.session, id, c, now);
    var cards := CardsOf(b.snap.suspensions);
    if id == q { OpenIsStored(b, SuspensionId(q), RunId(job)); } else { ShutIsStored(b, SuspensionId(q)); }
    ClearToolRefines(b, q, now);
    if id != q { ShuttingShutIsNothing(cards, q); }
    PublishRefines(WithSus(b, ClearTool(Sus(b), q, now)), Asked(job, id));
  }

  lemma LoseToolDone(a: Agent, job: Job, q: QuestionId, t: Tool, l: Lost)
    requires ToolDone(a, job, q, t)
    ensures ToolDone(Lose(a, l), job, q, t) && LedgerOf(Lose(a, l)) == LedgerOf(a)
  {
    LoseReady(a, t.inbound, l);
  }

  /** A tool permission is accepted but not resolved yet: the card is still open. */
  ghost predicate Permitted(a: Agent, job: Job, q: Question) {
    && Cached(a) && Ordered(LedgerOf(a)) && IsOpen(CardsOf(a.snap.suspensions), SuspensionId(q.id), RunId(job))
    && q.inbound.Some? && q.inbound.value.id == job && (job in a.pending ==> a.pending[job] == q)
  }

  lemma ResolvingTool(a: Agent, job: Job, q: Question, t: Tool)
    requires Permitted(a, job, q) && ToolOn(LedgerOf(a), q.id) == Some(t)
    requires q.id in a.tools ==> a.tools[q.id] == t
    ensures var b := ResolveTool(a, q, t);
      ToolDone(b, job, q.id, t) && LedgerOf(b) == LedgerOf(a).(cards := ShutCard(LedgerOf(a).cards, q.id))
  {
    hide Cached;
    var id := SuspensionId(q.id);
    ToolBelongsToRun(LedgerOf(a), q.id);
    OpenIsStored(a, id, RunId(job));
    assert RunId(t.inbound.id) == RunId(job) && RunId(job) in a.snap.runs;
    UpsertKeepsCached(a, t.inbound, q, Some(t.invocation), OfTool, Resolved);
    UpsertShuts(a.snap, t.inbound, q, Some(t.invocation), OfTool, Resolved);
    ShutKeepsOrder(a.snap.runs, CardsOf(a.snap.suspensions), a.log, q.id);
    ShutIsStored(ResolveTool(a, q, t), id);
  }

  lemma LosePermitted(a: Agent, job: Job, q: Question, l: Lost)
    requires Permitted(a, job, q)
    ensures Permitted(Lose(a, l), job, q) && LedgerOf(Lose(a, l)) == LedgerOf(a)
  {
    hide Cached;
    LoseRefines(a, l);
  }

  lemma LookedUpPermitted(a: Agent, job: Job, q: Question)
    requires Permitted(a, job, q)
    ensures Permitted(WithSus(a, ToolState(Sus(a), q.id).0), job, q)
  {
    hide Cached;
    ToolStateRefines(a, q.id);
  }

  lemma AfterToolRefines(a: Agent, job: Job, q: Question, t: Tool, o: Outcome, n: nat)
    requires ToolDone(a, job, q.id, t)
    ensures var (h, e), (s, f) := A.AfterTool(a, job, q, t, o, n), L.AfterTool(LedgerOf(a), job, q, t, o, n);
      Refines(h, s) && e == f
  {
    hide Cached;
    hide CardsOf;
    match o
    case Success(_) => FinishRefines(a, job, q.id, t, q.askedAt);
    case Suspends(id, call, askedAt) => ResuspendRefines(a, job, q.id, t, id, call, askedAt);
    case _ =>
  }

  lemma ContinueToolRefines(a: Agent, job: Job, q: Question, script: Script, lost: nat -> Lost, n: nat)
    requires Permitted(a, job, q)
    ensures var (h, e), (s, f) := A.ContinueTool(a, job, q, script, lost, n), L.ContinueTool(LedgerOf(a), job, q, script, n);
      Refines(h, s) && e == f
  {
    hide CardsOf;
    hide Permitted;
    hide ToolDone;
    hide ToolOn;
    hide ToolState;
    hide ResolveTool;
    hide A.AfterTool;
    hide L.AfterTool;
    PermittedCached(a, job, q);
    ToolStateRefines(a, q.id);
    LookedUpPermitted(a, job, q);
    var (s, t) := ToolState(Sus(a), q.id);
    var b := WithSus(a, s);
    if t.Some? {
      var c := Lose(b, lost(n));
      LosePermitted(b, job, q, lost(n));
      PermittedCached(c, job, q);
      if script(n).Success? {
        ResolvingTool(c, job, q, t.value);
        var d := Lose(ResolveTool(c, q, t.value), lost(n + 1));
        LoseToolDone(ResolveTool(c, q, t.value), job, q.id, t.value, lost(n + 1));
        AfterToolRefines(d, job, q, t.value, script(n + 1), n + 2);
      }
    }
  }

  lemma PermittedCached(a: Agent, job: Job, q: Question)
    requires Permitted(a, job, q)
    ensures Cached(a)
  {
  }

  // ── After any other answer ─────────────────────────────────────────

  lemma ContinueQuestionRefines(a: Agent, m: Inbound, session: string, script: Script, lost: nat -> Lost, n: nat)
    requires Ready(a, m)
    ensures var (h, e), (s, f) := A.ContinueQuestion(a, m, session, script, lost, n), L.ContinueQuestion(LedgerOf(a), m, session, script, n);
      Refines(h, s) && e == f
  {
    EnsuredReady(a, m);
    var b := WithReq(a, Ensure(Req(a), m).0);
    LoseReady(b, m, lost(n));
    hide CardsOf;
    hide Ordered;
    if script(n).Success? {
      ReadyFits(Lose(b, lost(n)), m, script(n).verdict);
      HandleRefines(Lose(b, lost(n)), m, session, script(n).verdict, script, lost, n + 1);
    }
  }

  lemma EnsuredReady(a: Agent, m: Inbound)
    requires Ready(a, m)
    ensures var b := WithReq(a, Ensure(Req(a), m).0); Ready(b, m) && LedgerOf(b) == Ensured(LedgerOf(a), m)
  {
    hide Cached;
    EnsureRefines(a, m);
  }

  lemma ContinuePlanRefines(a: Agent, m: Inbound, q: Question, rejected: bool, script: Script, lost: nat -> Lost, n: nat)
    requires Ready(a, m)
    ensures var (h, e), (s, f) := A.ContinuePlan(a, m, q, rejected, script, lost, n), L.ContinuePlan(LedgerOf(a), m, q, rejected, script, n);
      Refines(h, s) && e == f
  {
    hide CardsOf;
    if !rejected && q.raw.plan {
      ExecuteRefines(a, m, q.session, script, lost, n);
      ExecuteKeepsOrder(LedgerOf(a), m, q.session, script, n);
      var (b, v) := A.ExecuteInitial(a, m, q.session, script, lost, n);
      HandleRefines(b, m, q.session, if v.Some? then v.value else NeedsFollowup(NO_RESULT, "no result"), script, lost, n + 1);
    }
  }

  /** What an accepted answer leads to. */
  lemma ContinueRefines(a: Agent, job: Job, m: Inbound, q: Question, rejected: bool, script: Script, lost: nat -> Lost, n: nat)
    requires if q.source == ToolPermission then Permitted(a, job, q) else Ready(a, m)
    ensures var (h, e), (s, f) := A.Continue(a, job, m, q, rejected, script, lost, n), L.Continue(LedgerOf(a), job, m, q, rejected, script, n);
      Refines(h, s) && e == f
  {
    hide Permitted;
    hide Ready;
    hide A.ContinueTool;
    hide A.ContinuePlan;
    hide A.ContinueQuestion;
    hide L.ContinueTool;
    hide L.ContinuePlan;
    hide L.ContinueQuestion;
    match q.source
    case ToolPermission => ContinueToolRefines(a, job, q, script, lost, n);
    case PlanApproval => ContinuePlanRefines(a, m, q, rejected, script, lost, n);
    case _ => ContinueQuestionRefines(a, m, q.session, script, lost, n);
  }

  lemma AcceptedPermitted(a: Agent, job: Job, question: QuestionId)
    requires Cached(a) && Ordered(LedgerOf(a))
    requires var r := L.SubmitAnswer(LedgerOf(a), job, question).1; r.Ok? && r.question.source == ToolPermission
    ensures var s, q := SuspensionSpec.SubmitAnswer(Sus(a), job, question).0, L.SubmitAnswer(LedgerOf(a), job, question).1.question;
      q.inbound.Some? && Permitted(A.Publish(WithSus(a, s), Accepted(job, question, q.source)), job, q)
  {
    hide Cached;
    var (s, r) := SuspensionSpec.SubmitAnswer(Sus(a), job, question);
    SubmitRefines(a, job, question);
    FoundIsOpen(LedgerOf(a), job);
    var e := Accepted(job, question, r.question.source);
    PublishKeepsOrder(a.snap.runs, CardsOf(a.snap.suspensions), a.log, e);
    PublishRefines(WithSus(a, s), e);
  }

  lemma AnswerRefines(a: Agent, job: Job, question: QuestionId, rejected: bool, script: Script, lost: nat -> Lost, n: nat)
    requires Cached(a) && Ordered(LedgerOf(a))
    ensures var (h, r), (s, w) := A.SubmitQuestionAnswer(a, job, question, rejected, script, lost, n),
                                  L.SubmitQuestionAnswer(LedgerOf(a), job, question, rejected, script, n);
      Refines(h, s) && r == w
  {
    hide Cached;
    hide CardsOf;
    hide Ordered;
    hide Permitted;
    hide Ready;
    hide SuspensionSpec.SubmitAnswer;
    hide L.SubmitAnswer;
    hide A.Continue;
    hide L.Continue;
    SubmitRefines(a, job, question);
    var (s, r) := SuspensionSpec.SubmitAnswer(Sus(a), job, question);
    if r.Ok? {
      var e := Accepted(job, question, r.question.source);
      if r.question.source == ToolPermission { AcceptedPermitted(a, job, question); } else { AcceptedReady(a, job, question); }
      PublishRefines(WithSus(a, s), e);
      ContinueRefines(A.Publish(WithSus(a, s), e), job, r.question.inbound.value, r.question, rejected, script, lost, n);
    }
  }

  // ── Whole runs ─────────────────────────────────────────────────────

  lemma ApplyRefines(a: Agent, step: Step, script: Script, lost: nat -> Lost, n: nat)
    requires Cached(a) && Ordered(LedgerOf(a)) && FreshStep(LedgerOf(a), step)
    ensures var (h, r), (s, w) := A.Apply(a, step, script, lost, n), L.Apply(LedgerOf(a), step, script, n);
      Refines(h, s) && r == w && Ordered(s.ledger)
  {
    hide Cached;
    hide CardsOf;
    hide Ordered;
    hide A.Receive;
    hide L.Receive;
    hide A.SubmitQuestionAnswer;
    hide L.SubmitQuestionAnswer;
    hide QuestionOn;
    hide ToolOn;
    StepKeepsOrder(LedgerOf(a), step, script, n);
    match step
    case OnMessage(m, route) =>
      ReceiveRefines(a, m, route, script, lost, n);
    case OnAnswer(job, question, rejected) =>
      AnswerRefines(a, job, question, rejected, script, lost, n);
    case OnQueryQuestion(job, hydrate) => QuestionStateRefines(a, job, hydrate);
    case OnQueryTool(question) => ToolStateRefines(a, question);
    case OnLoss(l) => LoseRefines(a, l);
  }

  /** In any run the agent's store, its events and its replies are those of the protocol without caches. */
  lemma {:induction false} RunsRefine(a: Agent, steps: seq<Step>, script: Script, lost: nat -> Lost, n: nat)
    requires Cached(a) && Ordered(LedgerOf(a)) && FreshRun(LedgerOf(a), steps, script, n)
    ensures var b := A.Run(a, steps, script, lost, n);
      Cached(b) && Ordered(LedgerOf(b)) && LedgerOf(b) == L.Run(LedgerOf(a), steps, script, n)
    ensures A.Replies(a, steps, script, lost, n) == L.Replies(LedgerOf(a), steps, script, n)
    decreases |steps|
  {
    hide Cached;
    hide CardsOf;
    hide Ordered;
    hide A.Apply;
    hide L.Apply;
    if steps == [] {
    } else {
      ApplyRefines(a, steps[0], script, lost, n);
      var h := A.Apply(a, steps[0], script, lost, n).0;
      RunsRefine(h.agent, steps[1..], script, lost, h.next);
    }
  }

  /** The same calls in the same order; where one forgets cache entries the other may forget different ones, or none. */
  ghost predicate SameButLosses(xs: seq<Step>, ys: seq<Step>) {
    |xs| == |ys| && forall i :: 0 <= i < |xs| ==> xs[i] == ys[i] || (xs[i].OnLoss? && ys[i].OnLoss?)
  }

  lemma {:induction false} LossesDoNotShow(l: Ledger, xs: seq<Step>, ys: seq<Step>, script: Script, n: nat)
    requires SameButLosses(xs, ys)
    ensures FreshRun(l, xs, script, n) <==> FreshRun(l, ys, script, n)
    ensures L.Run(l, xs, script, n) == L.Run(l, ys, script, n)
    ensures L.Replies(l, xs, script, n) == L.Replies(l, ys, script, n)
    decreases |xs|
  {
    if xs == [] {
    } else {
      var (h, r) := L.Apply(l, xs[0], script, n);
      assert xs[0] == ys[0] || (xs[0].OnLoss? && ys[0].OnLoss?);
      assert L.Apply(l, ys[0], script, n) == (h, r);
      assert SameButLosses(xs[1..], ys[1..]) by {
        forall i | 0 <= i < |xs| - 1 ensures xs[1..][i] == ys[1..][i] || (xs[1..][i].OnLoss? && ys[1..][i].OnLoss?) {
          assert xs[i + 1] == ys[i + 1] || (xs[i + 1].OnLoss? && ys[i + 1].OnLoss?);
        }
      }
      LossesDoNotShow(h.ledger, xs[1..], ys[1..], script, h.next);
    }
  }

  /**
   Two agents that agree on the ledger and get the same calls and outcomes reply the same and
   publish the same, whatever their caches hold at the start, lose between the calls, or lose
   during the calls they make themselves.
   */
  lemma {:induction false} CachesDoNotShow(a: Agent, b: Agent, xs: seq<Step>, ys: seq<Step>, script: Script, lostA: nat -> Lost, lostB: nat -> Lost, n: nat)
    requires Cached(a) && Cached(b) && Ordered(LedgerOf(a)) && LedgerOf(a) == LedgerOf(b)
    requires SameButLosses(xs, ys) && FreshRun(LedgerOf(a), xs, script, n)
    ensures A.Replies(a, xs, script, lostA, n) == A.Replies(b, ys, script, lostB, n)
    ensures LedgerOf(A.Run(a, xs, script, lostA, n)) == LedgerOf(A.Run(b, ys, script, lostB, n))
  {
    hide *;
    LossesDoNotShow(LedgerOf(a), xs, ys, script, n);
    RunsRefine(a, xs, script, lostA, n);
    RunsRefine(b, ys, script, lostB, n);
  }
}
