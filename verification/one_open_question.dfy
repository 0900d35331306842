/** On the ledger: a run has at most one open question, and every asking is answered at most once. */
module OneOpenQuestion {
  import opened Prelude
  import opened RuntimeStore
  import opened SuspensionSpec
  import opened RequirementSpec
  import opened AgentSpec
  import L = Ledgers
  import opened Ledgers

  /** The question the job last asked, unless an answer was accepted since; a tool permission stays awaited. */
  function Awaited(log: seq<Event>, job: Job): Option<QuestionId>
    decreases |log|
  {
    if log == [] then None
    else
      var last, before := log[|log| - 1], log[..|log| - 1];
      if last.Asked? && last.job == job then Some(last.question)
      else if last.Accepted? && last.job == job && last.source != ToolPermission then None
      else Awaited(before, job)
  }

  /** Every accepted answer is one to the question awaited. */
  ghost predicate AnsweredAsAwaited(log: seq<Event>) {
    forall k :: 0 <= k < |log| && log[k].Accepted? ==> Awaited(log[..k], log[k].job) == Some(log[k].question)
  }

  /** A question that is awaited was asked after every answer accepted so far, tool permissions aside. */
  lemma {:induction false} AwaitedWasAsked(log: seq<Event>, job: Job, i: nat) returns (j: nat)
    requires i < |log| && log[i].Accepted? && log[i].job == job && log[i].source != ToolPermission
    requires Awaited(log, job).Some?
    ensures i < j < |log| && log[j] == Asked(job, Awaited(log, job).value)
    decreases |log|
  {
    var n := |log| - 1;
    if log[n].Asked? && log[n].job == job {
      j := n;
    } else {
      assert i < n && log[..n][i] == log[i];
      j := AwaitedWasAsked(log[..n], job, i);
    }
  }

  ghost predicate IsOpen(cards: Cards, i: SuspensionId, run: RunId) {
    i in cards && cards[i].Open? && cards[i].rec.run == run
  }

  ghost predicate OneOpen(cards: Cards) {
    forall i, j, run :: IsOpen(cards, i, run) && IsOpen(cards, j, run) ==> i == j
  }

  ghost predicate OnlyOpen(cards: Cards, run: RunId, id: SuspensionId) {
    forall i :: IsOpen(cards, i, run) ==> i == id
  }

  ghost predicate Quiet(cards: Cards, run: RunId) {
    forall i :: !IsOpen(cards, i, run)
  }

  ghost predicate Known(runs: Runs, cards: Cards) {
    && (forall r :: r in runs ==> runs[r].job == r.job)
    && (forall i :: i in cards ==> RunOf(cards[i]) in runs)
    && (forall i :: i in cards && cards[i].Open? ==> cards[i].rec.question == i.question && cards[i].rec.status == Active)
  }

  /** An open question belongs to a running run and is the one its job awaits an answer to. */
  ghost predicate Expected(runs: Runs, cards: Cards, log: seq<Event>) {
    forall i, run :: IsOpen(cards, i, run) ==> run in runs && runs[run].status == Running && Awaited(log, run.job) == Some(i.question)
  }

  ghost predicate Orderly(runs: Runs, cards: Cards, log: seq<Event>) {
    Known(runs, cards) && OneOpen(cards) && Expected(runs, cards, log) && AnsweredAsAwaited(log)
  }

  ghost predicate Ordered(l: Ledger) {
    Orderly(l.runs, l.cards, l.log)
  }

  ghost predicate IsRunning(runs: Runs, run: RunId) {
    run in runs && runs[run].status == Running
  }

  // ── Single changes ─────────────────────────────────────────────────

  lemma {:induction false} PublishKeepsOrder(runs: Runs, cards: Cards, log: seq<Event>, e: Event)
    requires Orderly(runs, cards, log)
    requires e.Accepted? ==> Awaited(log, e.job) == Some(e.question)
    requires e.Accepted? && e.source != ToolPermission ==> Quiet(cards, RunId(e.job))
    requires e.Asked? ==> OnlyOpen(cards, RunId(e.job), SuspensionId(e.question))
    ensures Orderly(runs, cards, log + [e])
    ensures e.Asked? ==> Awaited(log + [e], e.job) == Some(e.question)
  {
    var after := log + [e];
    assert after[..|log|] == log;
    forall k | 0 <= k < |after| && after[k].Accepted? ensures Awaited(after[..k], after[k].job) == Some(after[k].question) {
      if k < |log| { assert after[..k] == log[..k]; }
    }
    forall i, run | IsOpen(cards, i, run) ensures run in runs && runs[run].status == Running && Awaited(after, run.job) == Some(i.question) {
      assert run == RunId(run.job);
    }
  }

  lemma {:induction false} DealKeepsOrder(runs: Runs, cards: Cards, log: seq<Event>, m: Inbound, q: Question, invocation: Option<InvocationId>, kind: SuspensionKind)
    requires Orderly(runs, cards, log) && Awaited(log, m.id) == Some(q.id)
    requires IsRunning(runs, RunId(m.id)) && OnlyOpen(cards, RunId(m.id), SuspensionId(q.id))
    ensures var after := Deal(cards, m, q, invocation, kind);
      Orderly(runs, after, log) && OnlyOpen(after, RunId(m.id), SuspensionId(q.id))
  {
    var after, id := Deal(cards, m, q, invocation, kind), SuspensionId(q.id);
    assert forall i, run :: IsOpen(after, i, run) ==> if i == id then run == RunId(m.id) else IsOpen(cards, i, run);
  }

  lemma ShutKeepsOrder(runs: Runs, cards: Cards, log: seq<Event>, q: QuestionId)
    requires Orderly(runs, cards, log)
    ensures var after, id := ShutCard(cards, q), SuspensionId(q);
      && Orderly(runs, after, log)
      && (id in cards && cards[id].Open? ==> Quiet(after, cards[id].rec.run))
      && (forall run :: OnlyOpen(cards, run, id) ==> Quiet(after, run))
      && (forall run :: Quiet(cards, run) ==> Quiet(after, run))
  {
    var after, id := ShutCard(cards, q), SuspensionId(q);
    assert forall i, run :: IsOpen(after, i, run) ==> i != id && IsOpen(cards, i, run);
    if id in cards && cards[id].Open? { assert IsOpen(cards, id, cards[id].rec.run); }
  }

  lemma RunKeepsOrder(runs: Runs, cards: Cards, log: seq<Event>, m: Inbound, status: RunStatus)
    requires Orderly(runs, cards, log)
    requires status == Completed ==> Quiet(cards, RunId(m.id))
    ensures Orderly(runs[RunId(m.id) := RunRecord(m.id, m.chat, m.channel, status)], cards, log)
  {
    var after := runs[RunId(m.id) := RunRecord(m.id, m.chat, m.channel, status)];
    forall i, run | IsOpen(cards, i, run) ensures run in after && after[run].status == Running && Awaited(log, run.job) == Some(i.question) {
    }
  }

  // ── The protocol ───────────────────────────────────────────────────

  /** What a result may find: nothing open in the run but the question it asks itself. */
  ghost predicate Fits(l: Ledger, m: Inbound, v: Verdict) {
    && Ordered(l) && IsRunning(l.runs, RunId(m.id))
    && if v.NeedsInput? then OnlyOpen(l.cards, RunId(m.id), SuspensionId(v.id)) else Quiet(l.cards, RunId(m.id))
  }

  lemma QuietAllowsAny(cards: Cards, run: RunId, id: SuspensionId)
    requires Quiet(cards, run)
    ensures OnlyOpen(cards, run, id)
  {
  }

  lemma PutKeepsOrder(l: Ledger, m: Inbound, q: Question)
    requires Ordered(l) && IsRunning(l.runs, RunId(m.id)) && OnlyOpen(l.cards, RunId(m.id), SuspensionId(q.id))
    ensures Ordered(L.Publish(Put(l, m, q), Asked(m.id, q.id)))
  {
    PublishKeepsOrder(l.runs, l.cards, l.log, Asked(m.id, q.id));
    DealKeepsOrder(l.runs, l.cards, l.log + [Asked(m.id, q.id)], m, q, q.raw.invocation, KindOf(q.source));
  }

  lemma AskKeepsOrder(l: Ledger, m: Inbound, session: string, v: Verdict)
    requires v.NeedsInput? && Fits(l, m, v)
    ensures Ordered(L.Ask(l, m, session, v))
  {
    PutKeepsOrder(l, m, UpQuestion(m, session, v));
    var k := L.Publish(Put(l, m, UpQuestion(m, session, v)), Asked(m.id, v.id));
    RunKeepsOrder(k.runs, k.cards, k.log, m, Running);
  }

  lemma AskToolKeepsOrder(l: Ledger, m: Inbound, session: string, id: QuestionId, c: Call, askedAt: nat)
    requires Ordered(l) && IsRunning(l.runs, RunId(m.id)) && Quiet(l.cards, RunId(m.id))
    ensures var k := L.Publish(L.AskTool(l, m, session, id, c, askedAt), Asked(m.id, id));
      Ordered(k) && OnlyOpen(k.cards, RunId(m.id), SuspensionId(id)) && k.runs == l.runs
  {
    var t, q := ToolOf(m, session, c), CallQuestion(m, session, id, c, askedAt);
    var log := l.log + [Asked(m.id, id)];
    QuietAllowsAny(l.cards, RunId(m.id), SuspensionId(id));
    PublishKeepsOrder(l.runs, l.cards, l.log, Asked(m.id, id));
    DealKeepsOrder(l.runs, l.cards, log, m, q, q.raw.invocation, OfTool);
    var cards := Deal(l.cards, m, q, q.raw.invocation, OfTool);
    DealKeepsOrder(l.runs, cards, log, m, ToolQuestion(id, t, askedAt), Some(t.invocation), OfTool);
  }

  lemma StartKeepsOrder(l: Ledger, m: Inbound, p: Progress, fingerprint: Fingerprint, reason: string)
    requires Ordered(l)
    ensures var c := L.Start(l, m, p, fingerprint, reason);
      Ordered(c) && c.runs == l.runs && c.cards == l.cards
  {
    PublishKeepsOrder(l.runs, l.cards, l.log, Scheduled(m.id, fingerprint, reason));
  }

  lemma {:induction false} HandleKeepsOrder(l: Ledger, m: Inbound, session: string, v: Verdict, script: Script, n: nat)
    requires Fits(l, m, v)
    ensures Ordered(L.Handle(l, m, session, v, script, n).ledger)
    decreases RoundsLeft(l, m), 1
  {
    if v.Blocked? {
      QuietAllowsAny(l.cards, RunId(m.id), SuspensionId(v.id));
      PutKeepsOrder(l, m, BlockedQuestion(m, v.id, session, v.prompt, v.options, v.askedAt));
    } else {
      var k := L.SetRun(Ensured(l, m), m, Running);
      RunKeepsOrder(l.runs, l.cards, l.log, m, Running);
      if v.Done? {
        RunKeepsOrder(k.runs, k.cards, k.log, m, Completed);
        PublishKeepsOrder(k.runs[RunId(m.id) := RunRecord(m.id, m.chat, m.channel, Completed)], k.cards, k.log, Finished(m.id));
      } else if v.NeedsInput? {
        AskKeepsOrder(k, m, session, v);
      } else {
        FollowupKeepsOrder(k, m, session, v.fingerprint, v.reason, script, n);
      }
    }
  }

  lemma {:induction false} FollowupKeepsOrder(l: Ledger, m: Inbound, session: string, fingerprint: Fingerprint, reason: string, script: Script, n: nat)
    requires Ordered(l) && IsRunning(l.runs, RunId(m.id)) && Quiet(l.cards, RunId(m.id))
    ensures Ordered(L.Followup(l, m, session, fingerprint, reason, script, n).ledger)
    decreases RoundsLeft(l, m), 0
  {
    var p := ProgressOn(l, m);
    var k := L.SetRequirement(L.SetRun(l, m, Running), m.id, p, FollowupScheduled);
    RunKeepsOrder(l.runs, l.cards, l.log, m, Running);
    if Hopeless(p, fingerprint) {
      PublishKeepsOrder(k.runs, k.cards, k.log, GaveUp(m.id));
    } else {
      var c := L.Start(k, m, p, fingerprint, reason);
      StartKeepsOrder(k, m, p, fingerprint, reason);
      if script(n).Success? {
        if script(n).verdict.NeedsInput? { QuietAllowsAny(c.cards, RunId(m.id), SuspensionId(script(n).verdict.id)); }
        HandleKeepsOrder(c, m, session, script(n).verdict, script, n + 1);
      }
    }
  }

  /** The first execution leaves a result that fits, if any. */
  lemma ExecuteKeepsOrder(l: Ledger, m: Inbound, session: string, script: Script, n: nat)
    requires Ordered(l) && IsRunning(l.runs, RunId(m.id)) && Quiet(l.cards, RunId(m.id))
    ensures var (k, v) := L.ExecuteInitial(l, m, session, script, n);
      && Ordered(k) && k.runs == l.runs && (v.None? ==> k == l)
      && (v.Some? ==> Fits(k, m, v.value) && Fits(Ensured(k, m), m, v.value))
  {
    match script(n)
    case Success(v) =>
      if v.NeedsInput? { QuietAllowsAny(l.cards, RunId(m.id), SuspensionId(v.id)); }
    case Suspends(id, c, askedAt) => AskToolKeepsOrder(l, m, session, id, c, askedAt);
    case _ =>
  }

  lemma UnknownRunIsQuiet(l: Ledger, run: RunId)
    requires Ordered(l) && run !in l.runs
    ensures Quiet(l.cards, run)
  {
    forall i ensures !IsOpen(l.cards, i, run) {
      assert i in l.cards ==> RunOf(l.cards[i]) in l.runs;
    }
  }

  /** Nothing of the message's job may be open, as with a new job. */
  lemma ReceiveKeepsOrder(l: Ledger, m: Inbound, route: Route, script: Script, n: nat)
    requires Ordered(l) && Quiet(l.cards, RunId(m.id))
    ensures Ordered(L.Receive(l, m, route, script, n).ledger)
  {
    var k := L.SetRun(l, m, Running);
    RunKeepsOrder(l.runs, l.cards, l.log, m, Running);
    match route
    case Supervised(session, id, prompt, askedAt) =>
      QuietAllowsAny(k.cards, RunId(m.id), SuspensionId(id));
      PutKeepsOrder(k, m, PlanQuestion(m, id, session, prompt, askedAt));
    case Execute(session) =>
      ExecuteKeepsOrder(k, m, session, script, n);
      var (c, v) := L.ExecuteInitial(k, m, session, script, n);
      if v.Some? { HandleKeepsOrder(Ensured(c, m), m, session, v.value, script, n + 1); }
    case _ =>
  }

  /**
   Why message ids must not repeat: a message whose plan needs approval leaves one open question
   exactly when its job had none open, or only one of the same id.
   */
  lemma SupervisedKeepsOrderExactly(l: Ledger, m: Inbound, session: string, id: QuestionId, prompt: string, askedAt: nat, script: Script, n: nat)
    requires Ordered(l)
    ensures Ordered(L.Receive(l, m, Supervised(session, id, prompt, askedAt), script, n).ledger)
      <==> OnlyOpen(l.cards, RunId(m.id), SuspensionId(id))
  {
    var k, q := L.SetRun(l, m, Running), PlanQuestion(m, id, session, prompt, askedAt);
    if OnlyOpen(l.cards, RunId(m.id), SuspensionId(id)) {
      RunKeepsOrder(l.runs, l.cards, l.log, m, Running);
      PutKeepsOrder(k, m, q);
    } else {
      var i :| IsOpen(l.cards, i, RunId(m.id)) && i != SuspensionId(id);
      var after := Put(k, m, q).cards;
      assert IsOpen(after, i, RunId(m.id)) && IsOpen(after, SuspensionId(id), RunId(m.id));
    }
  }

  /** The question found is the run's one open card. */
  lemma {:induction false} FoundIsOpen(l: Ledger, job: Job)
    requires Ordered(l) && QuestionOn(l, job).Some?
    ensures var q, id := QuestionOn(l, job).value, SuspensionId(QuestionOn(l, job).value.id);
      && IsOpen(l.cards, id, RunId(job)) && IsRunning(l.runs, RunId(job)) && Awaited(l.log, job) == Some(q.id)
      && q.inbound.Some? && q.inbound.value.id == job && q.job == job && !q.answered
      && OpenCards(l.cards, RunId(job)) == {id}
  {
    var open := OpenCards(l.cards, RunId(job));
    var i := First(open);
    assert IsOpen(l.cards, i, RunId(job));
    assert i == SuspensionId(l.cards[i].rec.question);
    forall j | j in open ensures j == i { assert IsOpen(l.cards, j, RunId(job)); }
  }

  lemma ToolBelongsToRun(l: Ledger, q: QuestionId)
    requires Ordered(l) && ToolOn(l, q).Some?
    ensures var id := SuspensionId(q);
      id in l.cards && IsOpen(l.cards, id, l.cards[id].rec.run) && RunId(ToolOn(l, q).value.inbound.id) == l.cards[id].rec.run
  {
  }

  lemma AfterToolKeepsOrder(l: Ledger, job: Job, q: Question, t: Tool, o: Outcome, n: nat)
    requires Ordered(l) && IsRunning(l.runs, RunId(job)) && Quiet(l.cards, RunId(job)) && t.inbound.id == job
    ensures Ordered(L.AfterTool(l, job, q, t, o, n).0.ledger)
  {
    match o
    case Success(_) =>
      RunKeepsOrder(l.runs, l.cards, l.log, t.inbound, Completed);
      PublishKeepsOrder(L.SetRun(l, t.inbound, Completed).runs, l.cards, l.log, Finished(job));
    case Suspends(id, c, askedAt) =>
      AskToolKeepsOrder(l, t.inbound, t.session, id, c, askedAt);
      var d := L.Publish(L.AskTool(l, t.inbound, t.session, id, c, askedAt), Asked(job, id));
      ShutKeepsOrder(d.runs, d.cards, d.log, q.id);
    case _ =>
  }

  lemma ContinueToolKeepsOrder(l: Ledger, job: Job, q: Question, script: Script, n: nat)
    requires Ordered(l) && IsOpen(l.cards, SuspensionId(q.id), RunId(job))
    ensures Ordered(L.ContinueTool(l, job, q, script, n).0.ledger)
  {
    var t := ToolOn(l, q.id);
    if t.Some? {
      ToolBelongsToRun(l, q.id);
      ShutKeepsOrder(l.runs, l.cards, l.log, q.id);
      AfterToolKeepsOrder(l.(cards := ShutCard(l.cards, q.id)), job, q, t.value, script(n + 1), n + 2);
    }
  }

  /** An accepted tool permission stays open, and may be answered again, exactly when the tool could not be resumed. */
  lemma ToolPermissionStaysOpenExactly(l: Ledger, job: Job, q: Question, script: Script, n: nat)
    requires Ordered(l) && IsOpen(l.cards, SuspensionId(q.id), RunId(job))
    ensures IsOpen(L.ContinueTool(l, job, q, script, n).0.ledger.cards, SuspensionId(q.id), RunId(job))
      <==> ToolOn(l, q.id).None? || !script(n).Success?
  {
    var t := ToolOn(l, q.id);
    if t.Some? && script(n).Success? {
      ToolBelongsToRun(l, q.id);
      var k := l.(cards := ShutCard(l.cards, q.id));
      ShutStaysShut(k, job, q, t.value, script(n + 1), n + 2);
    }
  }

  lemma ShutStaysShut(l: Ledger, job: Job, q: Question, t: Tool, o: Outcome, n: nat)
    requires SuspensionId(q.id) in l.cards && l.cards[SuspensionId(q.id)].Shut?
    ensures !IsOpen(L.AfterTool(l, job, q, t, o, n).0.ledger.cards, SuspensionId(q.id), RunId(job))
  {
  }

  lemma ContinueKeepsOrder(l: Ledger, job: Job, m: Inbound, q: Question, rejected: bool, script: Script, n: nat)
    requires Ordered(l) && m.id == job && IsRunning(l.runs, RunId(job))
    requires if q.source == ToolPermission then IsOpen(l.cards, SuspensionId(q.id), RunId(job)) else Quiet(l.cards, RunId(job))
    ensures Ordered(L.Continue(l, job, m, q, rejected, script, n).0.ledger)
  {
    match q.source
    case ToolPermission => ContinueToolKeepsOrder(l, job, q, script, n);
    case PlanApproval =>
      if !rejected && q.raw.plan {
        ExecuteKeepsOrder(l, m, q.session, script, n);
        var (k, v) := L.ExecuteInitial(l, m, q.session, script, n);
        HandleKeepsOrder(k, m, q.session, if v.Some? then v.value else NeedsFollowup(NO_RESULT, "no result"), script, n + 1);
      }
    case _ =>
      if script(n).Success? {
        var v := script(n).verdict;
        if v.NeedsInput? { QuietAllowsAny(l.cards, RunId(job), SuspensionId(v.id)); }
        HandleKeepsOrder(Ensured(l, m), m, q.session, v, script, n + 1);
      }
  }

  lemma AnswerKeepsOrder(l: Ledger, job: Job, question: QuestionId, rejected: bool, script: Script, n: nat)
    requires Ordered(l)
    ensures Ordered(L.SubmitQuestionAnswer(l, job, question, rejected, script, n).0.ledger)
  {
    var (k, r) := L.SubmitAnswer(l, job, question);
    if r.Ok? {
      FoundIsOpen(l, job);
      ShutKeepsOrder(l.runs, l.cards, l.log, question);
      PublishKeepsOrder(k.runs, k.cards, k.log, Accepted(job, question, r.question.source));
      var c := L.Publish(k, Accepted(job, question, r.question.source));
      ContinueKeepsOrder(c, job, r.question.inbound.value, r.question, rejected, script, n);
    }
  }

  lemma StepKeepsOrder(l: Ledger, step: Step, script: Script, n: nat)
    requires Ordered(l) && FreshStep(l, step)
    ensures Ordered(L.Apply(l, step, script, n).0.ledger)
  {
    match step
    case OnMessage(m, route) =>
      UnknownRunIsQuiet(l, RunId(m.id));
      ReceiveKeepsOrder(l, m, route, script, n);
    case OnAnswer(job, question, rejected) => AnswerKeepsOrder(l, job, question, rejected, script, n);
    case _ =>
  }

  /** In every run: one open question for each job, in a running run, and the last the job asked with no answer accepted since. */
  lemma {:induction false} StepsKeepOrder(l: Ledger, steps: seq<Step>, script: Script, n: nat)
    requires Ordered(l) && FreshRun(l, steps, script, n)
    ensures Ordered(L.Run(l, steps, script, n))
    decreases |steps|
  {
    if steps == [] {
    } else {
      StepKeepsOrder(l, steps[0], script, n);
      var h := L.Apply(l, steps[0], script, n).0;
      StepsKeepOrder(h.ledger, steps[1..], script, h.next);
    }
  }

  // ── Which jobs have a run ──────────────────────────────────────────

  lemma {:induction false} HandleKeepsRuns(l: Ledger, m: Inbound, session: string, v: Verdict, script: Script, n: nat)
    requires RunId(m.id) in l.runs
    ensures L.Handle(l, m, session, v, script, n).ledger.runs.Keys == l.runs.Keys
    decreases RoundsLeft(l, m), 1
  {
    if v.NeedsFollowup? {
      FollowupKeepsRuns(L.SetRun(Ensured(l, m), m, Running), m, session, v.fingerprint, v.reason, script, n);
    }
  }

  lemma {:induction false} FollowupKeepsRuns(l: Ledger, m: Inbound, session: string, fingerprint: Fingerprint, reason: string, script: Script, n: nat)
    requires RunId(m.id) in l.runs
    ensures L.Followup(l, m, session, fingerprint, reason, script, n).ledger.runs.Keys == l.runs.Keys
    decreases RoundsLeft(l, m), 0
  {
    var p := ProgressOn(l, m);
    var k := L.SetRequirement(L.SetRun(l, m, Running), m.id, p, FollowupScheduled);
    if !Hopeless(p, fingerprint) && script(n).Success? {
      HandleKeepsRuns(L.Start(k, m, p, fingerprint, reason), m, session, script(n).verdict, script, n + 1);
    }
  }

  lemma ContinueKeepsRuns(l: Ledger, job: Job, m: Inbound, q: Question, rejected: bool, script: Script, n: nat)
    requires RunId(m.id) in l.runs
    requires ToolOn(l, q.id).Some? ==> RunId(ToolOn(l, q.id).value.inbound.id) in l.runs
    ensures L.Continue(l, job, m, q, rejected, script, n).0.ledger.runs.Keys == l.runs.Keys
  {
    if q.source == PlanApproval {
      var (k, v) := L.ExecuteInitial(l, m, q.session, script, n);
      HandleKeepsRuns(k, m, q.session, if v.Some? then v.value else NeedsFollowup(NO_RESULT, "no result"), script, n + 1);
    } else if q.source != ToolPermission && script(n).Success? {
      HandleKeepsRuns(Ensured(l, m), m, q.session, script(n).verdict, script, n + 1);
    }
  }

  lemma AnswerKeepsRuns(l: Ledger, job: Job, question: QuestionId, rejected: bool, script: Script, n: nat)
    requires Ordered(l)
    ensures L.SubmitQuestionAnswer(l, job, question, rejected, script, n).0.ledger.runs.Keys == l.runs.Keys
  {
    var (k, r) := L.SubmitAnswer(l, job, question);
    if r.Ok? {
      FoundIsOpen(l, job);
      ShutKeepsOrder(l.runs, l.cards, l.log, question);
      assert Ordered(k);
      if ToolOn(k, question).Some? { ToolBelongsToRun(k, question); }
      hide Ordered;
      hide L.Continue;
      ContinueKeepsRuns(L.Publish(k, Accepted(job, question, r.question.source)), job, r.question.inbound.value, r.question, rejected, script, n);
    }
  }

  lemma ReceiveKeepsRuns(l: Ledger, m: Inbound, route: Route, script: Script, n: nat)
    ensures L.Receive(l, m, route, script, n).ledger.runs.Keys == l.runs.Keys + {RunId(m.id)}
  {
    if route.Execute? {
      var (c, v) := L.ExecuteInitial(L.SetRun(l, m, Running), m, route.session, script, n);
      if v.Some? { HandleKeepsRuns(Ensured(c, m), m, route.session, v.value, script, n + 1); }
    }
  }

  /** Only messages make runs, so messages with distinct ids, none of them known, are fresh when they come. */
  lemma {:induction false} DistinctIsFresh(l: Ledger, steps: seq<Step>, script: Script, n: nat)
    requires Ordered(l) && DistinctMessages(steps)
    requires forall i :: 0 <= i < |steps| ==> FreshStep(l, steps[i])
    ensures FreshRun(l, steps, script, n)
    decreases |steps|
  {
    if steps == [] {
    } else {
      StepKeepsOrder(l, steps[0], script, n);
      var h := L.Apply(l, steps[0], script, n).0;
      match steps[0] {
        case OnMessage(m, route) => ReceiveKeepsRuns(l, m, route, script, n);
        case OnAnswer(job, question, rejected) => AnswerKeepsRuns(l, job, question, rejected, script, n);
        case _ =>
      }
      forall i | 0 <= i < |steps| - 1 ensures FreshStep(h.ledger, steps[1..][i]) {
        assert FreshStep(l, steps[i + 1]);
      }
      DistinctIsFresh(h.ledger, steps[1..], script, h.next);
    }
  }
}
