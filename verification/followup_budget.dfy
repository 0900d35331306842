/** On the ledger: how many follow-ups a job gets in its whole life, pauses for answers included. */
module FollowupBudget {
  import opened Prelude
  import opened RuntimeStore
  import opened SuspensionSpec
  import opened RequirementSpec
  import opened AgentSpec
  import L = Ledgers
  import opened Ledgers

  /** The follow-ups scheduled for a job so far. */
  function Rounds(log: seq<Event>, job: Job): nat
    decreases |log|
  {
    if log == [] then 0
    else
      var last := log[|log| - 1];
      Rounds(log[..|log| - 1], job) + if last.Scheduled? && last.job == job then 1 else 0
  }

  /** The fingerprint that led to the last of them. */
  function LastFingerprint(log: seq<Event>, job: Job): Option<Fingerprint>
    decreases |log|
  {
    if log == [] then None
    else
      var last := log[|log| - 1];
      if last.Scheduled? && last.job == job then Some(last.fingerprint) else LastFingerprint(log[..|log| - 1], job)
  }

  /** The reason given for the last of them. */
  function LastReason(log: seq<Event>, job: Job): Option<string>
    decreases |log|
  {
    if log == [] then None
    else
      var last := log[|log| - 1];
      if last.Scheduled? && last.job == job then Some(last.reason) else LastReason(log[..|log| - 1], job)
  }

  /** No follow-up of a job has the fingerprint of the one before it. */
  ghost predicate ConsecutiveDiffer(log: seq<Event>) {
    forall k :: 0 <= k < |log| && log[k].Scheduled? ==> LastFingerprint(log[..k], log[k].job) != Some(log[k].fingerprint)
  }

  /** The stored rounds of a job are the follow-ups that were scheduled. */
  ghost predicate CountIs(requirements: map<RequirementId, Requirement>, log: seq<Event>, job: Job) {
    var id := RequirementId(job);
    if id in requirements then
      var r := requirements[id];
      r.attempted == Rounds(log, job) <= r.max == MAX_ROUNDS
      && r.lastFingerprint == LastFingerprint(log, job) && r.lastReason == LastReason(log, job)
    else Rounds(log, job) == 0 && LastFingerprint(log, job) == None && LastReason(log, job) == None
  }

  ghost predicate Counted(l: Ledger) {
    ConsecutiveDiffer(l.log) && forall job :: CountIs(l.requirements, l.log, job)
  }

  lemma PublishKeepsCount(l: Ledger, e: Event)
    requires Counted(l) && !e.Scheduled?
    ensures Counted(L.Publish(l, e))
  {
    var after := l.log + [e];
    assert after[..|l.log|] == l.log;
    forall k | 0 <= k < |after| && after[k].Scheduled? ensures LastFingerprint(after[..k], after[k].job) != Some(after[k].fingerprint) {
      assert after[..k] == l.log[..k];
    }
    forall job ensures CountIs(l.requirements, after, job) {
      assert CountIs(l.requirements, l.log, job);
    }
  }

  /** Writing back the progress a job has, under any status, counts nothing. */
  lemma RequirementKeepsCount(l: Ledger, m: Inbound, status: RequirementStatus)
    requires Counted(l)
    ensures Counted(L.SetRequirement(l, m.id, ProgressOn(l, m), status))
    ensures ProgressOn(L.SetRequirement(l, m.id, ProgressOn(l, m), status), m) == ProgressOn(l, m)
  {
    var after := L.SetRequirement(l, m.id, ProgressOn(l, m), status);
    forall job ensures CountIs(after.requirements, l.log, job) {
      assert CountIs(l.requirements, l.log, job);
    }
  }

  /** A follow-up counts one round, and only if its fingerprint is new. */
  lemma RoundIsCounted(l: Ledger, m: Inbound, fingerprint: Fingerprint, reason: string)
    requires Counted(l) && !Hopeless(ProgressOn(l, m), fingerprint)
    ensures Counted(L.Start(l, m, ProgressOn(l, m), fingerprint, reason))
  {
    var p, e := ProgressOn(l, m), Scheduled(m.id, fingerprint, reason);
    var k := L.Publish(L.SetRequirement(l, m.id, NextRound(p, fingerprint, reason), FollowupScheduled), e);
    assert k.log[..|l.log|] == l.log && CountIs(l.requirements, l.log, m.id);
    forall i | 0 <= i < |k.log| && k.log[i].Scheduled? ensures LastFingerprint(k.log[..i], k.log[i].job) != Some(k.log[i].fingerprint) {
      if i < |l.log| { assert k.log[..i] == l.log[..i]; }
    }
    forall job ensures CountIs(k.requirements, k.log, job) {
      assert CountIs(l.requirements, l.log, job);
    }
    RequirementKeepsCount(k, m, RequirementActive);
  }

  lemma {:induction false} HandleKeepsCount(l: Ledger, m: Inbound, session: string, v: Verdict, script: Script, n: nat)
    requires Counted(l)
    ensures Counted(L.Handle(l, m, session, v, script, n).ledger)
    decreases RoundsLeft(l, m), 1
  {
    if v.Blocked? {
      PublishKeepsCount(Put(l, m, BlockedQuestion(m, v.id, session, v.prompt, v.options, v.askedAt)), Asked(m.id, v.id));
    } else {
      var k := L.SetRun(Ensured(l, m), m, Running);
      RequirementKeepsCount(l, m, RequirementActive);
      if v.Done? {
        RequirementKeepsCount(L.SetRun(k, m, Completed), m, Satisfied);
        PublishKeepsCount(L.SetRequirement(L.SetRun(k, m, Completed), m.id, ProgressOn(k, m), Satisfied), Finished(m.id));
      } else if v.NeedsInput? {
        var d := L.SetRun(Put(k, m, UpQuestion(m, session, v)), m, Running);
        RequirementKeepsCount(d, m, WaitingUserInput);
        PublishKeepsCount(L.SetRequirement(d, m.id, ProgressOn(d, m), WaitingUserInput), Asked(m.id, v.id));
      } else {
        FollowupKeepsCount(k, m, session, v.fingerprint, v.reason, script, n);
      }
    }
  }

  lemma {:induction false} FollowupKeepsCount(l: Ledger, m: Inbound, session: string, fingerprint: Fingerprint, reason: string, script: Script, n: nat)
    requires Counted(l)
    ensures Counted(L.Followup(l, m, session, fingerprint, reason, script, n).ledger)
    decreases RoundsLeft(l, m), 0
  {
    var p := ProgressOn(l, m);
    var k := L.SetRequirement(L.SetRun(l, m, Running), m.id, p, FollowupScheduled);
    RequirementKeepsCount(L.SetRun(l, m, Running), m, FollowupScheduled);
    if Hopeless(p, fingerprint) {
      RequirementKeepsCount(k, m, RequirementStatus.Exhausted);
      PublishKeepsCount(L.SetRequirement(k, m.id, p, RequirementStatus.Exhausted), GaveUp(m.id));
    } else {
      RoundIsCounted(k, m, fingerprint, reason);
      if script(n).Success? {
        HandleKeepsCount(L.Start(k, m, p, fingerprint, reason), m, session, script(n).verdict, script, n + 1);
      }
    }
  }

  lemma ExecuteKeepsCount(l: Ledger, m: Inbound, session: string, script: Script, n: nat)
    requires Counted(l)
    ensures Counted(L.ExecuteInitial(l, m, session, script, n).0)
  {
    var o := script(n);
    if o.Suspends? { PublishKeepsCount(L.AskTool(l, m, session, o.id, o.call, o.askedAt), Asked(m.id, o.id)); }
  }

  lemma ReceiveKeepsCount(l: Ledger, m: Inbound, route: Route, script: Script, n: nat)
    requires Counted(l)
    ensures Counted(L.Receive(l, m, route, script, n).ledger)
  {
    var k := L.SetRun(l, m, Running);
    match route
    case Supervised(session, id, prompt, askedAt) =>
      PublishKeepsCount(Put(k, m, PlanQuestion(m, id, session, prompt, askedAt)), Asked(m.id, id));
    case Execute(session) =>
      ExecuteKeepsCount(k, m, session, script, n);
      var (c, v) := L.ExecuteInitial(k, m, session, script, n);
      if v.Some? {
        RequirementKeepsCount(c, m, RequirementActive);
        HandleKeepsCount(Ensured(c, m), m, session, v.value, script, n + 1);
      }
    case _ =>
  }

  lemma ContinueKeepsCount(l: Ledger, job: Job, m: Inbound, q: Question, rejected: bool, script: Script, n: nat)
    requires Counted(l)
    ensures Counted(L.Continue(l, job, m, q, rejected, script, n).0.ledger)
  {
    match q.source
    case ToolPermission => ContinueToolKeepsCount(l, job, q, script, n);
    case PlanApproval =>
      if !rejected && q.raw.plan {
        ExecuteKeepsCount(l, m, q.session, script, n);
        var (k, v) := L.ExecuteInitial(l, m, q.session, script, n);
        HandleKeepsCount(k, m, q.session, if v.Some? then v.value else NeedsFollowup(NO_RESULT, "no result"), script, n + 1);
      }
    case _ =>
      RequirementKeepsCount(l, m, RequirementActive);
      if script(n).Success? { HandleKeepsCount(Ensured(l, m), m, q.session, script(n).verdict, script, n + 1); }
  }

  lemma ContinueToolKeepsCount(l: Ledger, job: Job, q: Question, script: Script, n: nat)
    requires Counted(l)
    ensures Counted(L.ContinueTool(l, job, q, script, n).0.ledger)
  {
    var t := ToolOn(l, q.id);
    if t.Some? {
      var k := l.(cards := ShutCard(l.cards, q.id));
      match script(n + 1)
      case Success(_) => PublishKeepsCount(L.SetRun(k, t.value.inbound, Completed), Finished(job));
      case Suspends(id, c, askedAt) =>
        var d := L.AskTool(k, t.value.inbound, t.value.session, id, c, askedAt);
        PublishKeepsCount(if id == q.id then d.(cards := ShutCard(d.cards, q.id)) else d, Asked(job, id));
      case _ =>
    }
  }

  lemma StepKeepsCount(l: Ledger, step: Step, script: Script, n: nat)
    requires Counted(l)
    ensures Counted(L.Apply(l, step, script, n).0.ledger)
  {
    match step
    case OnMessage(m, route) => ReceiveKeepsCount(l, m, route, script, n);
    case OnAnswer(job, question, rejected) => AnswerKeepsCount(l, job, question, rejected, script, n);
    case _ =>
  }

  lemma {:induction false} StepsKeepCount(l: Ledger, steps: seq<Step>, script: Script, n: nat)
    requires Counted(l)
    ensures Counted(L.Run(l, steps, script, n))
    decreases |steps|
  {
    if steps == [] {
    } else {
      StepKeepsCount(l, steps[0], script, n);
      var h := L.Apply(l, steps[0], script, n).0;
      StepsKeepCount(h.ledger, steps[1..], script, h.next);
    }
  }

  lemma AnswerKeepsCount(l: Ledger, job: Job, question: QuestionId, rejected: bool, script: Script, n: nat)
    requires Counted(l)
    ensures Counted(L.SubmitQuestionAnswer(l, job, question, rejected, script, n).0.ledger)
  {
    var (k, r) := L.SubmitAnswer(l, job, question);
    if r.Ok? && r.question.inbound.Some? {
      var e := Accepted(job, question, r.question.source);
      PublishKeepsCount(k, e);
      ContinueKeepsCount(L.Publish(k, e), job, r.question.inbound.value, r.question, rejected, script, n);
    }
  }
}
