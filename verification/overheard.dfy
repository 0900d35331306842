/** On the ledger: every call does, replies and publishes what the conversation says. */
module Overheard {
  import opened Prelude
  import opened RuntimeStore
  import opened SuspensionSpec
  import opened RequirementSpec
  import opened AgentSpec
  import opened OneOpenQuestion
  import opened FollowupBudget
  import L = Ledgers
  import opened Ledgers
  import C = Conversation
  import opened Conversation

  function PurposeFor(source: Source, raw: Raw): Purpose {
    match source
    case ToolPermission => ForTool
    case PlanApproval => ForPlan(raw.plan)
    case _ => ForWork
  }

  function AskingOf(rec: Suspension): Asking {
    Asking(rec.run.job, Or(rec.raw.session, ""), rec.prompt, rec.options, PurposeFor(SourceOf(rec), rec.raw), rec.invocation)
  }

  function OpenOn(cards: Cards): map<QuestionId, Asking> {
    map i | i in cards && cards[i].Open? :: i.question := AskingOf(cards[i].rec)
  }

  function ToolsOn(invocations: map<InvocationId, Invocation>): map<InvocationId, ToolUse> {
    map i | i in invocations :: ToolUse(invocations[i].toolName, Or(invocations[i].toolUse, ""))
  }

  function NeedsOn(requirements: map<RequirementId, Requirement>): map<Job, RequirementStatus> {
    map r | r in requirements :: r.job := requirements[r].status
  }

  function RunsOn(runs: Runs): map<Job, RunStatus> {
    map r | r in runs :: r.job := runs[r].status
  }

  /** What the ledger shows to the outside. */
  function TalkOf(l: Ledger): Talk {
    Talk(l.registry, OpenOn(l.cards), ToolsOn(l.invocations), NeedsOn(l.requirements), RunsOn(l.runs), l.log)
  }

  function ToldBy(s: Settled): Told {
    Told(TalkOf(s.ledger), s.ok, s.next)
  }

  ghost predicate CardsStamped(cards: Cards) {
    forall i :: i in cards && cards[i].Open? ==> cards[i].rec.invocation == cards[i].rec.raw.invocation
  }

  /** Open cards carry the tool call their raw question names, and a stored tool call its arguments. */
  ghost predicate Stamped(l: Ledger) {
    CardsStamped(l.cards) && (forall i :: i in l.invocations ==> l.invocations[i].toolUse.Some?)
  }

  // ── Single changes ─────────────────────────────────────────────────

  lemma OpenMeans(cards: Cards, x: QuestionId)
    ensures x in OpenOn(cards) <==> SuspensionId(x) in cards && cards[SuspensionId(x)].Open?
    ensures x in OpenOn(cards) ==> OpenOn(cards)[x] == AskingOf(cards[SuspensionId(x)].rec)
  {
    hide AskingOf;
    assert SuspensionId(x).question == x;
  }

  lemma RunsMean(runs: Runs, x: Job)
    ensures x in RunsOn(runs) <==> RunId(x) in runs
    ensures x in RunsOn(runs) ==> RunsOn(runs)[x] == runs[RunId(x)].status
  {
    assert RunId(x).job == x;
  }

  lemma NeedsMean(requirements: map<RequirementId, Requirement>, x: Job)
    ensures x in NeedsOn(requirements) <==> RequirementId(x) in requirements
    ensures x in NeedsOn(requirements) ==> NeedsOn(requirements)[x] == requirements[RequirementId(x)].status
  {
    assert RequirementId(x).job == x;
  }

  lemma DealShows(cards: Cards, m: Inbound, q: Question, invocation: Option<InvocationId>, kind: SuspensionKind, asking: Asking)
    requires AskingOf(Record(m, q, invocation, kind, Active, 0)) == asking
    ensures OpenOn(Deal(cards, m, q, invocation, kind)) == OpenOn(cards)[q.id := asking]
  {
    var dealt, id := Deal(cards, m, q, invocation, kind), SuspensionId(q.id);
    assert AskingOf(dealt[id].rec) == asking;
    hide OpenOn;
    hide AskingOf;
    hide Record;
    var after, shown := OpenOn(dealt), OpenOn(cards)[q.id := asking];
    forall x ensures x in after <==> x in shown { OpenMeans(dealt, x); OpenMeans(cards, x); }
    forall x | x in after ensures after[x] == shown[x] { OpenMeans(dealt, x); OpenMeans(cards, x); }
  }

  lemma ShutShows(cards: Cards, q: QuestionId)
    ensures OpenOn(ShutCard(cards, q)) == OpenOn(cards) - {q}
  {
    hide OpenOn;
    hide AskingOf;
    var after, shown := OpenOn(ShutCard(cards, q)), OpenOn(cards) - {q};
    forall x ensures x in after <==> x in shown { OpenMeans(ShutCard(cards, q), x); OpenMeans(cards, x); }
    forall x | x in after ensures after[x] == shown[x] { OpenMeans(ShutCard(cards, q), x); OpenMeans(cards, x); }
  }

  lemma RunStored(runs: Runs, job: Job, r: RunRecord)
    ensures RunsOn(runs[RunId(job) := r]) == RunsOn(runs)[job := r.status]
  {
    hide RunsOn;
    var after, shown := RunsOn(runs[RunId(job) := r]), RunsOn(runs)[job := r.status];
    forall x ensures x in after <==> x in shown { RunsMean(runs[RunId(job) := r], x); RunsMean(runs, x); }
    forall x | x in after ensures after[x] == shown[x] { RunsMean(runs[RunId(job) := r], x); RunsMean(runs, x); }
  }

  lemma RequirementStored(requirements: map<RequirementId, Requirement>, job: Job, r: Requirement)
    ensures NeedsOn(requirements[RequirementId(job) := r]) == NeedsOn(requirements)[job := r.status]
  {
    hide NeedsOn;
    var more := requirements[RequirementId(job) := r];
    var after, shown := NeedsOn(more), NeedsOn(requirements)[job := r.status];
    forall x ensures x in after <==> x in shown { NeedsMean(more, x); NeedsMean(requirements, x); }
    forall x | x in after ensures after[x] == shown[x] { NeedsMean(more, x); NeedsMean(requirements, x); }
  }

  lemma RunShows(l: Ledger, m: Inbound, status: RunStatus)
    ensures TalkOf(L.SetRun(l, m, status)) == TalkOf(l).(runs := TalkOf(l).runs[m.id := status])
  {
    RunStored(l.runs, m.id, RunRecord(m.id, m.chat, m.channel, status));
    hide RunsOn;
    hide OpenOn;
    hide NeedsOn;
    hide ToolsOn;
  }

  lemma RequirementShows(l: Ledger, job: Job, p: Progress, status: RequirementStatus)
    ensures TalkOf(L.SetRequirement(l, job, p, status)) == TalkOf(l).(needs := TalkOf(l).needs[job := status])
  {
    RequirementStored(l.requirements, job, RequirementOf(job, p, status));
    hide RunsOn;
    hide OpenOn;
    hide NeedsOn;
    hide ToolsOn;
  }

  lemma PutShows(l: Ledger, m: Inbound, q: Question, asking: Asking)
    requires AskingOf(Record(m, q, q.raw.invocation, KindOf(q.source), Active, 0)) == asking
    ensures TalkOf(Put(l, m, q)) == TalkOf(l).(open := TalkOf(l).open[q.id := asking])
  {
    hide RunsOn;
    hide OpenOn;
    hide NeedsOn;
    hide ToolsOn;
    DealShows(l.cards, m, q, q.raw.invocation, KindOf(q.source), asking);
    hide AskingOf;
    hide Deal;
  }

  lemma PublishShows(l: Ledger, e: Event)
    ensures TalkOf(L.Publish(l, e)) == Say(TalkOf(l), e)
  {
    hide RunsOn;
    hide OpenOn;
    hide NeedsOn;
    hide ToolsOn;
  }

  lemma ToolStored(invocations: map<InvocationId, Invocation>, c: Call)
    ensures ToolsOn(invocations[c.invocation := Invocation(c.toolName, Some(c.toolUse))])
      == ToolsOn(invocations)[c.invocation := ToolUse(c.toolName, c.toolUse)]
  {
  }

  function ToolAsking(job: Job, session: string, c: Call): Asking {
    Asking(job, session, c.prompt, ["allow", "deny"], ForTool, Some(c.invocation))
  }

  /** Question and tool record are written under one id, and show the same. */
  lemma ToolRecordsShow(m: Inbound, session: string, id: QuestionId, c: Call, askedAt: nat)
    ensures var t, q, asking := ToolOf(m, session, c), CallQuestion(m, session, id, c, askedAt), ToolAsking(m.id, session, c);
      && AskingOf(Record(m, q, q.raw.invocation, OfTool, Active, 0)) == asking
      && AskingOf(Record(m, ToolQuestion(id, t, askedAt), Some(t.invocation), OfTool, Active, 0)) == asking
  {
  }

  lemma ToolDealtTwice(cards: Cards, m: Inbound, session: string, id: QuestionId, c: Call, askedAt: nat)
    ensures var t, q := ToolOf(m, session, c), CallQuestion(m, session, id, c, askedAt);
      var once := Deal(cards, m, q, q.raw.invocation, OfTool);
      OpenOn(Deal(once, m, ToolQuestion(id, t, askedAt), Some(t.invocation), OfTool)) == OpenOn(cards)[id := ToolAsking(m.id, session, c)]
  {
    var t, q, asking := ToolOf(m, session, c), CallQuestion(m, session, id, c, askedAt), ToolAsking(m.id, session, c);
    var once := Deal(cards, m, q, q.raw.invocation, OfTool);
    ToolRecordsShow(m, session, id, c, askedAt);
    DealShows(cards, m, q, q.raw.invocation, OfTool, asking);
    DealShows(once, m, ToolQuestion(id, t, askedAt), Some(t.invocation), OfTool, asking);
    hide Deal;
    hide AskingOf;
    hide OpenOn;
    assert OpenOn(cards)[id := asking][id := asking] == OpenOn(cards)[id := asking];
  }

  lemma AskToolShows(l: Ledger, m: Inbound, session: string, id: QuestionId, c: Call, askedAt: nat)
    ensures TalkOf(L.Publish(L.AskTool(l, m, session, id, c, askedAt), Asked(m.id, id))) == AsksTool(TalkOf(l), m.id, session, id, c)
  {
    ToolDealtTwice(l.cards, m, session, id, c, askedAt);
    ToolStored(l.invocations, c);
    hide Deal;
    hide RunsOn;
    hide OpenOn;
    hide NeedsOn;
    hide ToolsOn;
    hide CallQuestion;
  }

  // ── The protocol ───────────────────────────────────────────────────

  lemma EnsuredShows(l: Ledger, m: Inbound)
    ensures TalkOf(Ensured(l, m)) == TalkOf(l).(needs := TalkOf(l).needs[m.id := RequirementActive])
  {
    RequirementShows(l, m.id, ProgressOn(l, m), RequirementActive);
  }

  /** A mark replaces the one before. */
  lemma MarkTwice(t: Talk, job: Job, run: RunStatus, need: RequirementStatus, run': RunStatus, need': RequirementStatus)
    ensures Mark(Mark(t, job, run, need), job, run', need') == Mark(t, job, run', need')
  {
    assert t.runs[job := run][job := run'] == t.runs[job := run'];
    assert t.needs[job := need][job := need'] == t.needs[job := need'];
  }

  lemma {:induction false} FollowupOverMark(t: Talk, job: Job, session: string, run: RunStatus, need: RequirementStatus, fingerprint: Fingerprint,
      reason: string, script: Script, n: nat)
    ensures C.Handle(Mark(t, job, run, need), job, session, NeedsFollowup(fingerprint, reason), script, n)
      == C.Handle(t, job, session, NeedsFollowup(fingerprint, reason), script, n)
  {
    var status := if t.registry then FollowupScheduled else RequirementActive;
    MarkTwice(t, job, run, need, Running, status);
    MarkTwice(t, job, run, need, Running, RequirementStatus.Exhausted);
  }

  /** The ledger as every result that is no blocked subtask finds it. */
  function Opened(l: Ledger, m: Inbound): Ledger {
    L.SetRun(Ensured(l, m), m, Running)
  }

  lemma OpenedShows(l: Ledger, m: Inbound)
    ensures TalkOf(Opened(l, m)) == Mark(TalkOf(l), m.id, Running, RequirementActive)
  {
    EnsuredShows(l, m);
    RunShows(Ensured(l, m), m, Running);
  }

  lemma CompleteShows(l: Ledger, m: Inbound)
    ensures TalkOf(L.Complete(l, m)) == Say(Mark(TalkOf(l), m.id, Completed, Satisfied), Finished(m.id))
  {
    hide TalkOf;
    RunShows(l, m, Completed);
    RequirementShows(L.SetRun(l, m, Completed), m.id, ProgressOn(l, m), Satisfied);
    PublishShows(L.SetRequirement(L.SetRun(l, m, Completed), m.id, ProgressOn(l, m), Satisfied), Finished(m.id));
  }

  lemma AskShows(l: Ledger, m: Inbound, session: string, v: Verdict)
    requires v.NeedsInput?
    ensures TalkOf(L.Ask(l, m, session, v)) ==
      Asks(Mark(TalkOf(l), m.id, Running, WaitingUserInput), v.id,
           Asking(m.id, Or(v.raw.session, session), v.prompt, v.options, PurposeOf(v.raw), v.raw.invocation))
  {
    hide TalkOf;
    var q := UpQuestion(m, session, v);
    PutShows(l, m, q, Asking(m.id, Or(v.raw.session, session), v.prompt, v.options, PurposeOf(v.raw), v.raw.invocation));
    RunShows(Put(l, m, q), m, Running);
    var k := L.SetRun(Put(l, m, q), m, Running);
    RequirementShows(k, m.id, ProgressOn(k, m), WaitingUserInput);
    PublishShows(L.SetRequirement(k, m.id, ProgressOn(k, m), WaitingUserInput), Asked(m.id, v.id));
    hide L.SetRequirement;
    hide L.SetRun;
    hide Put;
  }

  lemma RegistryShows(l: Ledger)
    ensures TalkOf(l).registry == l.registry && TalkOf(l).log == l.log
  {
  }

  lemma StartShows(l: Ledger, m: Inbound, p: Progress, fingerprint: Fingerprint, reason: string)
    ensures var status := if l.registry then FollowupScheduled else RequirementActive;
      var t, after := TalkOf(l), TalkOf(L.Start(l, m, p, fingerprint, reason));
      after == Say(t.(needs := t.needs[m.id := status]), Scheduled(m.id, fingerprint, reason))
  {
    hide TalkOf;
    assert TalkOf(l).registry == l.registry by { RegistryShows(l); }
    var next := NextRound(p, fingerprint, reason);
    RequirementShows(l, m.id, next, FollowupScheduled);
    PublishShows(L.SetRequirement(l, m.id, next, FollowupScheduled), Scheduled(m.id, fingerprint, reason));
    var k := L.Publish(L.SetRequirement(l, m.id, next, FollowupScheduled), Scheduled(m.id, fingerprint, reason));
    EnsuredShows(k, m);
    assert TalkOf(l).needs[m.id := FollowupScheduled][m.id := RequirementActive] == TalkOf(l).needs[m.id := RequirementActive];
  }

  lemma {:induction false} HandleShows(l: Ledger, m: Inbound, session: string, v: Verdict, script: Script, n: nat)
    requires Counted(l)
    ensures ToldBy(L.Handle(l, m, session, v, script, n)) == C.Handle(TalkOf(l), m.id, session, v, script, n)
    decreases RoundsLeft(l, m), 1
  {
    hide TalkOf;
    OpenedShows(l, m);
    match v
    case Blocked(id, prompt, options, askedAt) =>
      BlockedShows(l, m, session, id, prompt, options, askedAt);
    case Done =>
      CompleteShows(Opened(l, m), m);
      MarkTwice(TalkOf(l), m.id, Running, RequirementActive, Completed, Satisfied);
    case NeedsInput(id, prompt, options, raw, askedAt) =>
      AskShows(Opened(l, m), m, session, v);
      MarkTwice(TalkOf(l), m.id, Running, RequirementActive, Running, WaitingUserInput);
    case NeedsFollowup(fingerprint, reason) =>
      RequirementKeepsCount(l, m, RequirementActive);
      FollowupShows(Opened(l, m), m, session, fingerprint, reason, script, n);
      FollowupOverMark(TalkOf(l), m.id, session, Running, RequirementActive, fingerprint, reason, script, n);
  }

  lemma BlockedShows(l: Ledger, m: Inbound, session: string, id: QuestionId, prompt: string, options: seq<string>, askedAt: nat)
    ensures TalkOf(L.Publish(Put(l, m, BlockedQuestion(m, id, session, prompt, options, askedAt)), Asked(m.id, id)))
      == Asks(TalkOf(l), id, Asking(m.id, session, prompt, options, ForWork, None))
  {
    hide TalkOf;
    PutShows(l, m, BlockedQuestion(m, id, session, prompt, options, askedAt), Asking(m.id, session, prompt, options, ForWork, None));
    PublishShows(Put(l, m, BlockedQuestion(m, id, session, prompt, options, askedAt)), Asked(m.id, id));
  }

  /** The stored progress says what the log says: rounds used, and the fingerprint last followed up. */
  lemma ProgressIsCounted(l: Ledger, m: Inbound)
    requires Counted(l)
    ensures ProgressOn(l, m).attempted == Rounds(l.log, m.id) <= 3 == ProgressOn(l, m).max
    ensures ProgressOn(l, m).lastFingerprint == LastFingerprint(l.log, m.id)
  {
    assert CountIs(l.requirements, l.log, m.id);
  }

  /** The ledger with a follow-up prepared. */
  function Prepared(l: Ledger, m: Inbound): Ledger {
    L.SetRequirement(L.SetRun(l, m, Running), m.id, ProgressOn(l, m), FollowupScheduled)
  }

  lemma PreparedShows(l: Ledger, m: Inbound)
    requires Counted(l)
    ensures TalkOf(Prepared(l, m)) == Mark(TalkOf(l), m.id, Running, FollowupScheduled)
    ensures Counted(Prepared(l, m)) && Prepared(l, m).log == l.log && Prepared(l, m).registry == l.registry
  {
    hide TalkOf;
    RunShows(l, m, Running);
    RequirementShows(L.SetRun(l, m, Running), m.id, ProgressOn(l, m), FollowupScheduled);
    RequirementKeepsCount(L.SetRun(l, m, Running), m, FollowupScheduled);
  }

  lemma GivingUpShows(l: Ledger, m: Inbound)
    requires Counted(l)
    ensures TalkOf(L.Publish(L.SetRequirement(Prepared(l, m), m.id, ProgressOn(l, m), RequirementStatus.Exhausted), GaveUp(m.id)))
      == Say(Mark(TalkOf(l), m.id, Running, RequirementStatus.Exhausted), GaveUp(m.id))
  {
    hide TalkOf;
    PreparedShows(l, m);
    RequirementShows(Prepared(l, m), m.id, ProgressOn(l, m), RequirementStatus.Exhausted);
    PublishShows(L.SetRequirement(Prepared(l, m), m.id, ProgressOn(l, m), RequirementStatus.Exhausted), GaveUp(m.id));
    MarkTwice(TalkOf(l), m.id, Running, FollowupScheduled, Running, RequirementStatus.Exhausted);
  }

  lemma StartingShows(l: Ledger, m: Inbound, fingerprint: Fingerprint, reason: string)
    requires Counted(l) && !Hopeless(ProgressOn(l, m), fingerprint)
    ensures var c := L.Start(Prepared(l, m), m, ProgressOn(l, m), fingerprint, reason);
      && Counted(c)
      && TalkOf(c) == Say(Mark(TalkOf(l), m.id, Running, if l.registry then FollowupScheduled else RequirementActive), Scheduled(m.id, fingerprint, reason))
  {
    hide TalkOf;
    PreparedShows(l, m);
    assert ProgressOn(Prepared(l, m), m) == ProgressOn(l, m);
    RoundIsCounted(Prepared(l, m), m, fingerprint, reason);
    StartShows(Prepared(l, m), m, ProgressOn(l, m), fingerprint, reason);
    MarkTwice(TalkOf(l), m.id, Running, FollowupScheduled, Running, if l.registry then FollowupScheduled else RequirementActive);
  }

  lemma {:induction false} FollowupShows(l: Ledger, m: Inbound, session: string, fingerprint: Fingerprint, reason: string, script: Script, n: nat)
    requires Counted(l)
    ensures ToldBy(L.Followup(l, m, session, fingerprint, reason, script, n))
      == C.Handle(TalkOf(l), m.id, session, NeedsFollowup(fingerprint, reason), script, n)
    decreases RoundsLeft(l, m), 0
  {
    hide TalkOf;
    RegistryShows(l);
    var p := ProgressOn(l, m);
    ProgressIsCounted(l, m);
    if Hopeless(p, fingerprint) {
      GivingUpShows(l, m);
    } else {
      var c := L.Start(Prepared(l, m), m, p, fingerprint, reason);
      StartingShows(l, m, fingerprint, reason);
      hide Counted;
      hide Prepared;
      if script(n).Success? { HandleShows(c, m, session, script(n).verdict, script, n + 1); }
    }
  }

  // ── Carrying out plans, new messages ───────────────────────────────

  lemma ExecuteShows(l: Ledger, m: Inbound, session: string, script: Script, n: nat)
    requires Counted(l)
    ensures var (k, v), (u, w) := L.ExecuteInitial(l, m, session, script, n), CarryOut(TalkOf(l), m.id, session, script, n);
      Counted(k) && TalkOf(k) == u && v == w
  {
    ExecuteKeepsCount(l, m, session, script, n);
    hide TalkOf;
    hide Counted;
    if script(n).Suspends? { AskToolShows(l, m, session, script(n).id, script(n).call, script(n).askedAt); }
  }

  lemma ReceiveShows(l: Ledger, m: Inbound, route: Route, script: Script, n: nat)
    requires Counted(l)
    ensures ToldBy(L.Receive(l, m, route, script, n)) == C.Receive(TalkOf(l), m.id, route, script, n)
  {
    hide TalkOf;
    var k := L.SetRun(l, m, Running);
    RunShows(l, m, Running);
    match route
    case Supervised(session, id, prompt, askedAt) =>
      var q := PlanQuestion(m, id, session, prompt, askedAt);
      PutShows(k, m, q, Asking(m.id, session, prompt, ["approved", "rejected"], ForPlan(true), None));
      PublishShows(Put(k, m, q), Asked(m.id, id));
    case Execute(session) =>
      assert Counted(k) by { assert forall job :: CountIs(l.requirements, l.log, job) ==> CountIs(k.requirements, k.log, job); }
      ExecuteShows(k, m, session, script, n);
      var (c, v) := L.ExecuteInitial(k, m, session, script, n);
      if v.Some? { FirstResultShows(c, m, session, v.value, script, n + 1); }
    case _ =>
  }

  lemma {:induction false} FirstResultShows(l: Ledger, m: Inbound, session: string, v: Verdict, script: Script, n: nat)
    requires Counted(l)
    ensures ToldBy(L.Handle(Ensured(l, m), m, session, v, script, n))
      == C.Handle(TalkOf(l).(needs := TalkOf(l).needs[m.id := RequirementActive]), m.id, session, v, script, n)
  {
    EnsuredShows(l, m);
    RequirementKeepsCount(l, m, RequirementActive);
    HandleShows(Ensured(l, m), m, session, v, script, n);
  }

  // ── Answers ────────────────────────────────────────────────────────

  lemma OpenForMeans(l: Ledger, job: Job, x: QuestionId)
    ensures x in OpenFor(TalkOf(l), job) <==> IsOpen(l.cards, SuspensionId(x), RunId(job))
  {
    OpenMeans(l.cards, x);
    hide OpenOn;
    hide ToolsOn;
    hide NeedsOn;
    hide RunsOn;
  }

  /** The job's open question, if any, is the one found on the ledger. */
  lemma OpenForJob(l: Ledger, job: Job)
    requires Ordered(l)
    ensures OpenFor(TalkOf(l), job) == if QuestionOn(l, job).None? then {} else {QuestionOn(l, job).value.id}
  {
    var open := OpenFor(TalkOf(l), job);
    forall x ensures x in open <==> IsOpen(l.cards, SuspensionId(x), RunId(job)) { OpenForMeans(l, job, x); }
    if QuestionOn(l, job).None? {
      NothingOpen(l, job);
    } else {
      FoundIsOpen(l, job);
    }
    hide OpenFor;
  }

  lemma NothingOpen(l: Ledger, job: Job)
    requires Ordered(l) && QuestionOn(l, job).None?
    ensures Quiet(l.cards, RunId(job))
  {
    forall i ensures !IsOpen(l.cards, i, RunId(job)) {
      assert IsOpen(l.cards, i, RunId(job)) <==> i in OpenCards(l.cards, RunId(job));
    }
  }

  /** The question found for a job is shown as it was asked. */
  lemma FoundIsShown(l: Ledger, job: Job)
    requires Ordered(l) && Stamped(l) && QuestionOn(l, job).Some?
    ensures var q := QuestionOn(l, job).value; var open := TalkOf(l).open;
      && q.id in open
      && open[q.id] == Asking(job, q.session, q.prompt, q.options, PurposeFor(q.source, q.raw), q.raw.invocation)
  {
    var q := QuestionOn(l, job).value;
    FoundIsOpen(l, job);
    OpenMeans(l.cards, q.id);
    assert First(OpenCards(l.cards, RunId(job))) == SuspensionId(q.id);
  }

  lemma GoOnShows(l: Ledger, m: Inbound, session: string, script: Script, n: nat)
    requires Counted(l)
    ensures var (h, e) := L.ContinueQuestion(l, m, session, script, n); (ToldBy(h), e) == GoOn(TalkOf(l), m.id, session, script, n)
  {
    hide TalkOf;
    EnsuredShows(l, m);
    if script(n).Success? { FirstResultShows(l, m, session, script(n).verdict, script, n + 1); }
  }

  lemma ApproveShows(l: Ledger, m: Inbound, q: Question, rejected: bool, script: Script, n: nat)
    requires Counted(l)
    ensures var (h, e) := L.ContinuePlan(l, m, q, rejected, script, n);
      (ToldBy(h), e) == Approve(TalkOf(l), m.id, q.session, rejected, q.raw.plan, script, n)
  {
    hide TalkOf;
    if !rejected && q.raw.plan {
      ExecuteShows(l, m, q.session, script, n);
      var (k, v) := L.ExecuteInitial(l, m, q.session, script, n);
      HandleShows(k, m, q.session, if v.Some? then v.value else NeedsFollowup(NO_RESULT, "no result"), script, n + 1);
    }
  }

  /** The tool found for an open question is the call it names, if that call is known. */
  lemma ToolOnShows(l: Ledger, q: QuestionId)
    requires Ordered(l) && Stamped(l)
    ensures var found, shown := ToolOn(l, q), ToolAt(TalkOf(l), q);
      && (found.Some? <==> shown.Some?)
      && (found.Some? ==>
            var t := found.value;
            && l.cards[SuspensionId(q)].rec.run == RunId(t.inbound.id) && TalkOf(l).open[q].session == t.session
            && shown.value == (ToolUse(t.toolName, t.toolUse), Asking(t.inbound.id, t.session, t.prompt, t.options, ForTool, Some(t.invocation))))
  {
    OpenMeans(l.cards, q);
    hide OpenOn;
    hide NeedsOn;
    hide RunsOn;
    if ToolOn(l, q).Some? { ToolBelongsToRun(l, q); }
  }

  lemma CardsShow(l: Ledger, q: QuestionId)
    ensures TalkOf(l.(cards := ShutCard(l.cards, q))) == TalkOf(l).(open := TalkOf(l).open - {q})
  {
    ShutShows(l.cards, q);
    hide OpenOn;
    hide ShutCard;
    hide ToolsOn;
    hide NeedsOn;
    hide RunsOn;
  }

  lemma ResuspendShows(l: Ledger, q: QuestionId, t: Tool, id: QuestionId, c: Call, now: nat)
    ensures var w := AsksTool(TalkOf(l), t.inbound.id, t.session, id, c);
      TalkOf(L.Resuspend(l, t.inbound.id, q, t, id, c, now)) == if id == q then w.(open := w.open - {id}) else w
  {
    hide TalkOf;
    var k := L.AskTool(l, t.inbound, t.session, id, c, now);
    var e := Asked(t.inbound.id, id);
    AskToolShows(l, t.inbound, t.session, id, c, now);
    PublishShows(k, e);
    if id == q { 
      CardsShow(L.Publish(k, e), q);
    }
  }

  lemma AfterToolShows(l: Ledger, q: Question, t: Tool, o: Outcome, n: nat)
    ensures var (h, e) := L.AfterTool(l, t.inbound.id, q, t, o, n); var u := TalkOf(l);
      (ToldBy(h), e) ==
        match o
        case Success(_) => (Told(Say(u.(runs := u.runs[t.inbound.id := Completed]), Finished(t.inbound.id)), true, n), None)
        case Suspends(id, c, _) =>
          var w := AsksTool(u, t.inbound.id, t.session, id, c);
          (Told(if id == q.id then w.(open := w.open - {id}) else w, true, n), None)
        case _ => (Told(u, false, n), Some(ContinuationFailed))
  {
    hide TalkOf;
    match o
    case Success(_) =>
      RunShows(l, t.inbound, Completed);
      PublishShows(L.SetRun(l, t.inbound, Completed), Finished(t.inbound.id));
    case Suspends(id, c, askedAt) => ResuspendShows(l, q.id, t, id, c, askedAt);
    case _ =>
  }

  lemma RunToolShows(l: Ledger, job: Job, q: Question, script: Script, n: nat)
    requires Ordered(l) && Stamped(l) && IsOpen(l.cards, SuspensionId(q.id), RunId(job)) && q.id in TalkOf(l).open
    ensures var (h, e) := L.ContinueTool(l, job, q, script, n);
      (ToldBy(h), e) == RunTool(TalkOf(l), job, q.id, TalkOf(l).open[q.id], script, n)
  {
    ToolOnShows(l, q.id);
    hide TalkOf;
    hide Stamped;
    hide Ordered;
    hide ToolOn;
    var t := ToolOn(l, q.id);
    if t.Some? && script(n).Success? {
      CardsShow(l, q.id);
      assert t.value.inbound.id == job;
      AfterToolShows(l.(cards := ShutCard(l.cards, q.id)), q, t.value, script(n + 1), n + 2);
    }
  }

  lemma ContinueShows(l: Ledger, job: Job, m: Inbound, q: Question, a: Asking, rejected: bool, script: Script, n: nat)
    requires Counted(l) && m.id == job && a.session == q.session && a.purpose == PurposeFor(q.source, q.raw) && q.source != SubtaskBlocked
    requires q.source == ToolPermission ==>
      Ordered(l) && Stamped(l) && IsOpen(l.cards, SuspensionId(q.id), RunId(job)) && q.id in TalkOf(l).open && TalkOf(l).open[q.id] == a
    ensures var (h, e) := L.Continue(l, job, m, q, rejected, script, n);
      (ToldBy(h), e) == C.Continue(TalkOf(l), job, q.id, a, rejected, script, n)
  {
    hide TalkOf;
    hide Ordered;
    hide Stamped;
    match q.source
    case ToolPermission => RunToolShows(l, job, q, script, n);
    case PlanApproval => ApproveShows(l, m, q, rejected, script, n);
    case _ => GoOnShows(l, m, q.session, script, n);
  }

  /** What a reply says to the one who called. */
  function Hear(r: Reply): Heard {
    match r
    case Nothing => Silence
    case Answered(Ok(q)) => Taken(q.id)
    case Answered(Err(e)) => Refused(e)
    case QuestionIs(None) => Shows(None)
    case QuestionIs(Some(q)) =>
      Shows(Some((q.id, Asking(q.job, q.session, q.prompt, q.options, PurposeFor(q.source, q.raw), q.raw.invocation))))
    case ToolIs(None) => ShowsTool(None)
    case ToolIs(Some(t)) =>
      ShowsTool(Some((ToolUse(t.toolName, t.toolUse),
                      Asking(t.inbound.id, t.session, t.prompt, t.options, ForTool, Some(t.invocation)))))
  }

  /** The ledger once an answer is accepted. */
  function Accepting(l: Ledger, job: Job, question: QuestionId): Ledger
    requires L.SubmitAnswer(l, job, question).1.Ok?
  {
    var (k, r) := L.SubmitAnswer(l, job, question);
    L.Publish(k, Accepted(job, question, r.question.source))
  }

  lemma AcceptedFacts(l: Ledger, job: Job, question: QuestionId)
    requires Ordered(l) && L.SubmitAnswer(l, job, question).1.Ok?
    ensures var q, c := L.SubmitAnswer(l, job, question).1.question, Accepting(l, job, question);
      && QuestionOn(l, job) == Some(q.(answered := false)) && q.id == question && q.source != SubtaskBlocked
      && q.inbound.Some? && q.inbound.value.id == job && IsOpen(l.cards, SuspensionId(question), RunId(job))
      && c == L.Publish(if q.source == ToolPermission then l else l.(cards := ShutCard(l.cards, question)), Accepted(job, question, q.source))
  {
    FoundIsOpen(l, job);
    hide Ordered;
    hide ShutCard;
  }

  lemma AcceptedKeeps(l: Ledger, job: Job, question: QuestionId)
    requires Ordered(l) && Stamped(l) && Counted(l) && L.SubmitAnswer(l, job, question).1.Ok?
    ensures var q, c := L.SubmitAnswer(l, job, question).1.question, Accepting(l, job, question);
      Counted(c) && (q.source == ToolPermission ==> Ordered(c) && Stamped(c) && c.cards == l.cards)
  {
    AcceptedFacts(l, job, question);
    FoundIsOpen(l, job);
    hide L.SubmitAnswer;
    hide Accepting;
    hide QuestionOn;
    var q := L.SubmitAnswer(l, job, question).1.question;
    var e := Accepted(job, question, q.source);
    if q.source == ToolPermission {
      PublishKeepsCount(l, e);
      PublishKeepsOrder(l.runs, l.cards, l.log, e);
    } else {
      PublishKeepsCount(l.(cards := ShutCard(l.cards, question)), e);
    }
  }

  lemma AcceptedShows(l: Ledger, job: Job, question: QuestionId)
    requires Ordered(l) && Stamped(l) && L.SubmitAnswer(l, job, question).1.Ok?
    ensures var q, t, c := L.SubmitAnswer(l, job, question).1.question, TalkOf(l), Accepting(l, job, question);
      && question in t.open
      && t.open[question] == Asking(job, q.session, q.prompt, q.options, PurposeFor(q.source, q.raw), q.raw.invocation)
      && TalkOf(c) == Accepts(t, job, question, t.open[question].purpose)
      && (q.source == ToolPermission ==> TalkOf(c).open == t.open)
  {
    hide TalkOf;
    hide Ordered;
    hide Stamped;
    hide QuestionOn;
    AcceptedFacts(l, job, question);
    hide L.SubmitAnswer;
    hide Accepting;
    FoundIsShown(l, job);
    CardsShow(l, question);
    var e := Accepted(job, question, L.SubmitAnswer(l, job, question).1.question.source);
    PublishShows(l, e);
    PublishShows(l.(cards := ShutCard(l.cards, question)), e);
  }

  /** Whether an answer is taken, and why not. */
  lemma SubmitShows(l: Ledger, job: Job, question: QuestionId)
    requires Ordered(l)
    ensures var (k, r), open := L.SubmitAnswer(l, job, question), OpenFor(TalkOf(l), job);
      if open == {} then k == l && r == Err(NoPendingQuestion)
      else if question !in open then k == l && r == Err(QuestionIdMismatch(AnyOf(open)))
      else r.Ok?
  {
    OpenForJob(l, job);
    hide TalkOf;
    hide OpenFor;
    hide Ordered;
    hide QuestionOn;
  }

  lemma TakenOnLedger(l: Ledger, job: Job, question: QuestionId, rejected: bool, script: Script, n: nat)
    requires var r := L.SubmitAnswer(l, job, question).1; r.Ok? && r.question.inbound.Some?
    ensures var r := L.SubmitAnswer(l, job, question).1;
      var q := r.question;
      var done := L.Continue(Accepting(l, job, question), job, q.inbound.value, q, rejected, script, n);
      L.SubmitQuestionAnswer(l, job, question, rejected, script, n) == (done.0, if done.1.Some? then Err(done.1.value) else r)
  {
    hide L.SubmitAnswer;
    hide L.Continue;
    hide L.Publish;
  }

  lemma TakenInTalk(t: Talk, job: Job, question: QuestionId, rejected: bool, script: Script, n: nat)
    requires question in OpenFor(t, job)
    ensures var a := t.open[question];
      var done := C.Continue(Accepts(t, job, question, a.purpose), job, question, a, rejected, script, n);
      Answer(t, job, question, rejected, script, n) == (done.0, if done.1.Some? then Refused(done.1.value) else Taken(question))
  {
    hide C.Continue;
    hide Accepts;
  }

  /** What an accepted answer sets off. */
  lemma TakenShows(l: Ledger, job: Job, question: QuestionId, rejected: bool, script: Script, n: nat)
    requires Ordered(l) && Stamped(l) && Counted(l) && L.SubmitAnswer(l, job, question).1.Ok? && question in OpenFor(TalkOf(l), job)
    ensures AnswerTold(l, job, question, rejected, script, n)
  {
    hide TalkOf;
    hide Ordered;
    hide Stamped;
    hide Counted;
    hide L.SubmitAnswer;
    hide L.SubmitQuestionAnswer;
    hide L.Continue;
    hide C.Continue;
    hide Answer;
    hide PurposeFor;
    hide Accepts;
    hide OpenFor;
    AcceptedFacts(l, job, question);
    AcceptedKeeps(l, job, question);
    AcceptedShows(l, job, question);
    var q, a := L.SubmitAnswer(l, job, question).1.question, TalkOf(l).open[question];
    ContinueShows(Accepting(l, job, question), job, q.inbound.value, q, a, rejected, script, n);
    TakenOnLedger(l, job, question, rejected, script, n);
    TakenInTalk(TalkOf(l), job, question, rejected, script, n);
  }

  ghost predicate AnswerTold(l: Ledger, job: Job, question: QuestionId, rejected: bool, script: Script, n: nat) {
    var done, told := L.SubmitQuestionAnswer(l, job, question, rejected, script, n), Answer(TalkOf(l), job, question, rejected, script, n);
    ToldBy(done.0) == told.0 && Hear(Answered(done.1)) == told.1
  }

  lemma RefusedShows(l: Ledger, job: Job, question: QuestionId, rejected: bool, script: Script, n: nat)
    requires Ordered(l) && question !in OpenFor(TalkOf(l), job)
    ensures AnswerTold(l, job, question, rejected, script, n)
  {
    hide TalkOf;
    hide Ordered;
    hide OpenFor;
    hide L.SubmitAnswer;
    hide L.Continue;
    hide C.Continue;
    hide Accepts;
    SubmitShows(l, job, question);
  }

  lemma AnswerShows(l: Ledger, job: Job, question: QuestionId, rejected: bool, script: Script, n: nat)
    requires Ordered(l) && Stamped(l) && Counted(l)
    ensures AnswerTold(l, job, question, rejected, script, n)
  {
    hide *;
    if question in OpenFor(TalkOf(l), job) {
      SubmitShows(l, job, question);
      TakenShows(l, job, question, rejected, script, n);
    } else {
      RefusedShows(l, job, question, rejected, script, n);
    }
  }

  // ── Cards stay stamped ─────────────────────────────────────────────

  lemma DealKeepsStamps(cards: Cards, m: Inbound, q: Question, invocation: Option<InvocationId>, kind: SuspensionKind)
    requires CardsStamped(cards) && invocation == q.raw.invocation
    ensures CardsStamped(Deal(cards, m, q, invocation, kind))
  {
  }

  lemma ShutKeepsStamps(cards: Cards, q: QuestionId)
    requires CardsStamped(cards)
    ensures CardsStamped(ShutCard(cards, q))
  {
  }

  lemma AskToolKeepsStamps(l: Ledger, m: Inbound, session: string, id: QuestionId, c: Call, askedAt: nat)
    requires Stamped(l)
    ensures Stamped(L.AskTool(l, m, session, id, c, askedAt))
  {
    hide CardsStamped;
    hide Deal;
    var q := CallQuestion(m, session, id, c, askedAt);
    DealKeepsStamps(l.cards, m, q, q.raw.invocation, OfTool);
    DealKeepsStamps(Deal(l.cards, m, q, q.raw.invocation, OfTool), m, ToolQuestion(id, ToolOf(m, session, c), askedAt), Some(c.invocation), OfTool);
  }

  lemma {:induction false} HandleKeepsStamps(l: Ledger, m: Inbound, session: string, v: Verdict, script: Script, n: nat)
    requires Stamped(l)
    ensures Stamped(L.Handle(l, m, session, v, script, n).ledger)
    decreases RoundsLeft(l, m), 1
  {
    hide CardsStamped;
    hide Deal;
    match v
    case Blocked(id, prompt, options, askedAt) =>
      DealKeepsStamps(l.cards, m, BlockedQuestion(m, id, session, prompt, options, askedAt), None, OfSubtask);
    case NeedsInput(_, _, _, raw, _) =>
      var q := UpQuestion(m, session, v);
      DealKeepsStamps(l.cards, m, q, raw.invocation, KindOf(q.source));
    case NeedsFollowup(fingerprint, reason) => FollowupKeepsStamps(Opened(l, m), m, session, fingerprint, reason, script, n);
    case Done =>
  }

  lemma {:induction false} FollowupKeepsStamps(l: Ledger, m: Inbound, session: string, fingerprint: Fingerprint, reason: string, script: Script, n: nat)
    requires Stamped(l)
    ensures Stamped(L.Followup(l, m, session, fingerprint, reason, script, n).ledger)
    decreases RoundsLeft(l, m), 0
  {
    hide CardsStamped;
    var p := ProgressOn(l, m);
    if !Hopeless(p, fingerprint) && script(n).Success? {
      HandleKeepsStamps(L.Start(Prepared(l, m), m, p, fingerprint, reason), m, session, script(n).verdict, script, n + 1);
    }
  }

  lemma ExecuteKeepsStamps(l: Ledger, m: Inbound, session: string, script: Script, n: nat)
    requires Stamped(l)
    ensures Stamped(L.ExecuteInitial(l, m, session, script, n).0)
  {
    if script(n).Suspends? { AskToolKeepsStamps(l, m, session, script(n).id, script(n).call, script(n).askedAt); }
  }

  lemma ReceiveKeepsStamps(l: Ledger, m: Inbound, route: Route, script: Script, n: nat)
    requires Stamped(l)
    ensures Stamped(L.Receive(l, m, route, script, n).ledger)
  {
    hide CardsStamped;
    hide Deal;
    var k := L.SetRun(l, m, Running);
    match route
    case Supervised(session, id, prompt, askedAt) =>
      DealKeepsStamps(l.cards, m, PlanQuestion(m, id, session, prompt, askedAt), None, OfApproval);
    case Execute(session) =>
      ExecuteKeepsStamps(k, m, session, script, n);
      var (c, v) := L.ExecuteInitial(k, m, session, script, n);
      if v.Some? { HandleKeepsStamps(Ensured(c, m), m, session, v.value, script, n + 1); }
    case _ =>
  }

  lemma ContinueKeepsStamps(l: Ledger, job: Job, m: Inbound, q: Question, rejected: bool, script: Script, n: nat)
    requires Stamped(l)
    ensures Stamped(L.Continue(l, job, m, q, rejected, script, n).0.ledger)
  {
    hide CardsStamped;
    match q.source
    case ToolPermission => ToolKeepsStamps(l, job, q, script, n);
    case PlanApproval =>
      ExecuteKeepsStamps(l, m, q.session, script, n);
      var (k, v) := L.ExecuteInitial(l, m, q.session, script, n);
      HandleKeepsStamps(k, m, q.session, if v.Some? then v.value else NeedsFollowup(NO_RESULT, "no result"), script, n + 1);
    case _ =>
      if script(n).Success? { HandleKeepsStamps(Ensured(l, m), m, q.session, script(n).verdict, script, n + 1); }
  }

  lemma ToolKeepsStamps(l: Ledger, job: Job, q: Question, script: Script, n: nat)
    requires Stamped(l)
    ensures Stamped(L.ContinueTool(l, job, q, script, n).0.ledger)
  {
    hide CardsStamped;
    var t := ToolOn(l, q.id);
    if t.Some? {
      var k := l.(cards := ShutCard(l.cards, q.id));
      ShutKeepsStamps(l.cards, q.id);
      if script(n + 1).Suspends? {
        var d := L.AskTool(k, t.value.inbound, t.value.session, script(n + 1).id, script(n + 1).call, script(n + 1).askedAt);
        AskToolKeepsStamps(k, t.value.inbound, t.value.session, script(n + 1).id, script(n + 1).call, script(n + 1).askedAt);
        ShutKeepsStamps(d.cards, q.id);
      }
    }
  }

  lemma StepKeepsStamps(l: Ledger, step: Step, script: Script, n: nat)
    requires Stamped(l)
    ensures Stamped(L.Apply(l, step, script, n).0.ledger)
  {
    hide CardsStamped;
    match step
    case OnMessage(m, route) => ReceiveKeepsStamps(l, m, route, script, n);
    case OnAnswer(job, question, rejected) =>
      var (k, r) := L.SubmitAnswer(l, job, question);
      if r.Ok? && r.question.inbound.Some? {
        ShutKeepsStamps(l.cards, question);
        hide QuestionOn;
        hide L.Continue;
        ContinueKeepsStamps(L.Publish(k, Accepted(job, question, r.question.source)), job, r.question.inbound.value, r.question, rejected, script, n);
      }
    case _ =>
  }

  // ── Calls and runs ─────────────────────────────────────────────────

  ghost predicate Sound(l: Ledger) {
    Ordered(l) && Stamped(l) && Counted(l)
  }

  lemma QueryShows(l: Ledger, job: Job)
    requires Sound(l)
    ensures var open := OpenFor(TalkOf(l), job);
      Hear(QuestionIs(QuestionOn(l, job))) == Shows(if open == {} then None else Some((AnyOf(open), TalkOf(l).open[AnyOf(open)])))
  {
    hide TalkOf;
    hide OpenFor;
    hide QuestionOn;
    hide Ordered;
    hide Stamped;
    hide Counted;
    hide PurposeFor;
    OpenForJob(l, job);
    if QuestionOn(l, job).Some? {
      FoundIsShown(l, job);
      FoundIsOpen(l, job);
      assert AnyOf(OpenFor(TalkOf(l), job)) == QuestionOn(l, job).value.id;
    }
  }

  lemma ToolQueryShows(l: Ledger, question: QuestionId)
    requires Sound(l)
    ensures Hear(ToolIs(ToolOn(l, question))) == ShowsTool(ToolAt(TalkOf(l), question))
  {
    hide Ordered;
    hide Stamped;
    hide TalkOf;
    hide ToolOn;
    hide ToolAt;
    ToolOnShows(l, question);
  }

  ghost predicate StepTold(l: Ledger, step: Step, script: Script, n: nat) {
    var done, told := L.Apply(l, step, script, n), C.Apply(TalkOf(l), step, script, n);
    ToldBy(done.0) == told.0 && Hear(done.1) == told.1
  }

  lemma StepShows(l: Ledger, step: Step, script: Script, n: nat)
    requires Sound(l)
    ensures StepTold(l, step, script, n)
  {
    hide TalkOf;
    hide Ordered;
    hide Stamped;
    hide Counted;
    hide OpenFor;
    hide QuestionOn;
    hide ToolOn;
    hide ToolAt;
    hide L.Receive;
    hide C.Receive;
    hide L.SubmitQuestionAnswer;
    hide Answer;
    match step
    case OnMessage(m, route) => ReceiveShows(l, m, route, script, n);
    case OnAnswer(job, question, rejected) => AnswerShows(l, job, question, rejected, script, n);
    case OnQueryQuestion(job, _) => QueryShows(l, job);
    case OnQueryTool(question) => ToolQueryShows(l, question);
    case OnLoss(_) =>
  }

  lemma StepKeepsSound(l: Ledger, step: Step, script: Script, n: nat)
    requires Sound(l) && FreshStep(l, step)
    ensures Sound(L.Apply(l, step, script, n).0.ledger)
  {
    hide Ordered;
    hide Stamped;
    hide Counted;
    hide L.Apply;
    StepKeepsOrder(l, step, script, n);
    StepKeepsStamps(l, step, script, n);
    StepKeepsCount(l, step, script, n);
  }

  function HearAll(replies: seq<Reply>): (r: seq<Heard>)
    ensures |r| == |replies|
  {
    seq(|replies|, i requires 0 <= i < |replies| => Hear(replies[i]))
  }

  /** In every run the ledger shows, publishes and replies what the conversation says. */
  lemma {:induction false} RunsAreTold(l: Ledger, steps: seq<Step>, script: Script, n: nat)
    requires Sound(l) && FreshRun(l, steps, script, n)
    ensures TalkOf(L.Run(l, steps, script, n)) == C.Run(TalkOf(l), steps, script, n) && Sound(L.Run(l, steps, script, n))
    ensures HearAll(L.Replies(l, steps, script, n)) == C.Replies(TalkOf(l), steps, script, n)
    decreases |steps|
  {
    hide TalkOf;
    hide Sound;
    hide L.Apply;
    hide C.Apply;
    hide Hear;
    if steps == [] {
    } else {
      StepShows(l, steps[0], script, n);
      StepKeepsSound(l, steps[0], script, n);
      var (h, r) := L.Apply(l, steps[0], script, n);
      RunsAreTold(h.ledger, steps[1..], script, h.next);
      assert HearAll([r] + L.Replies(h.ledger, steps[1..], script, h.next)) == [Hear(r)] + HearAll(L.Replies(h.ledger, steps[1..], script, h.next));
    }
  }
}
