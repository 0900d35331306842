/** What the agent does next, told from what it was asked and has published alone. */
module AnswersAndFollowups {
  import opened Prelude
  import opened RuntimeStore
  import opened SuspensionSpec
  import opened RequirementSpec
  import opened AgentSpec
  import opened FollowupBudget
  import opened OneOpenQuestion
  import opened Refinement
  import opened CacheTransparency
  import opened ProtocolSafety
  import opened Overheard
  import A = AgentSpec
  import L = Ledgers
  import opened Ledgers
  import C = Conversation
  import opened Conversation

  /** The conversation a run leads to. */
  ghost function Heading(registry: bool, steps: seq<Step>, script: Script): Talk {
    C.Run(Begin(registry), steps, script, 0)
  }

  lemma NothingShown()
    ensures OpenOn(map[]) == map[] && ToolsOn(map[]) == map[] && NeedsOn(map[]) == map[] && RunsOn(map[]) == map[]
  {
  }

  lemma NewIsTold(registry: bool)
    ensures Sound(L.New(registry)) && TalkOf(L.New(registry)) == Begin(registry)
  {
    NothingShown();
    hide OpenOn;
    hide ToolsOn;
    hide NeedsOn;
    hide RunsOn;
    NewIsSound(registry);
    NewLedger(registry);
  }

  lemma NewLedger(registry: bool)
    ensures LedgerOf(A.New(registry)) == L.New(registry)
  {
  }

  /**
   In every run, whatever the caches lose, the agent publishes and replies what the conversation
   says, has asked what it says is open, and leaves runs and requirements in the state it says.
   */
  lemma {:induction false} AgentIsTold(registry: bool, steps: seq<Step>, script: Script, lost: nat -> Lost)
    requires DistinctMessages(steps)
    ensures var a, t := Reached(registry, steps, script, lost), Heading(registry, steps, script);
      TalkOf(LedgerOf(a)) == t && a.log == t.log && Sound(LedgerOf(a)) && Cached(a)
    ensures HearAll(A.Replies(A.New(registry), steps, script, lost, 0)) == C.Replies(Begin(registry), steps, script, 0)
  {
    hide A.Run;
    hide L.Run;
    hide C.Run;
    NewIsSound(registry);
    NewIsFresh(registry, steps, script);
    NewIsTold(registry);
    RunsRefine(A.New(registry), steps, script, lost, 0);
    RunsAreTold(L.New(registry), steps, script, 0);
    RegistryShows(LedgerOf(Reached(registry, steps, script, lost)));
  }

  /** Run by run and requirement by requirement. */
  lemma StatusesAreTold(registry: bool, steps: seq<Step>, script: Script, lost: nat -> Lost, job: Job)
    requires DistinctMessages(steps)
    ensures var s, t := Reached(registry, steps, script, lost).snap, Heading(registry, steps, script);
      && (RunId(job) in s.runs <==> job in t.runs)
      && (job in t.runs ==> s.runs[RunId(job)].status == t.runs[job])
      && (RequirementId(job) in s.requirements <==> job in t.needs)
      && (job in t.needs ==> s.requirements[RequirementId(job)].status == t.needs[job])
  {
    AgentIsTold(registry, steps, script, lost);
    var s := Reached(registry, steps, script, lost).snap;
    RunsMean(s.runs, job);
    NeedsMean(s.requirements, job);
    hide RunsOn;
    hide NeedsOn;
  }

  // ── Follow-ups ─────────────────────────────────────────────────────

  ghost predicate Continues(before: seq<Event>, after: seq<Event>) {
    |before| <= |after| && after[..|before|] == before
  }

  lemma {:induction false} HandleContinues(a: Agent, m: Inbound, session: string, v: Verdict, script: Script, lost: nat -> Lost, n: nat)
    ensures var h := A.Handle(a, m, session, v, script, lost, n); Continues(a.log, h.agent.log) && h.next >= n
    decreases Budget(Req(a), m.id), 1
  {
    hide A.Followup;
    hide Ensure;
    hide State;
    hide StoreQuestion;
    hide ClearQuestion;
    hide UpsertRun;
    hide UpsertRequirement;
    if v.NeedsFollowup? {
      RunKeepsBudget(a, m);
      var b := A.SetRun(WithReq(a, Ensure(Req(a), m).0), m, Running);
      FollowupContinues(b, m, session, v.fingerprint, v.reason, script, lost, n);
    }
  }

  lemma PreparingSaysNothing(a: Agent, m: Inbound)
    ensures Prepare(a, m).0.log == a.log && A.SetRun(WithReq(a, Ensure(Req(a), m).0), m, Running).log == a.log
  {
  }

  lemma StartingSays(a: Agent, m: Inbound, p: Progress, fingerprint: Fingerprint, reason: string, l: Lost)
    ensures Lose(A.Start(a, m, p, fingerprint, reason), l).log == a.log + [Scheduled(m.id, fingerprint, reason)]
  {
  }

  lemma {:induction false} FollowupContinues(a: Agent, m: Inbound, session: string, fingerprint: Fingerprint, reason: string,
      script: Script, lost: nat -> Lost, n: nat)
    ensures var h := A.Followup(a, m, session, fingerprint, reason, script, lost, n); Continues(a.log, h.agent.log) && h.next >= n
    ensures var p, h := Prepare(a, m).1, A.Followup(a, m, session, fingerprint, reason, script, lost, n);
      if Hopeless(p, fingerprint) then h.agent.log == a.log + [GaveUp(m.id)] && h.ok && h.next == n
      else Continues(a.log + [Scheduled(m.id, fingerprint, reason)], h.agent.log) && h.next > n
    decreases Budget(Req(a), m.id), 0
  {
    hide Prepare;
    hide A.Start;
    hide Lose;
    hide Budget;
    var (b, p) := Prepare(a, m);
    PreparingSaysNothing(a, m);
    if !Hopeless(p, fingerprint) {
      FollowupShrinksBudget(a, m, fingerprint, reason, lost(n));
      var c := Lose(A.Start(b, m, p, fingerprint, reason), lost(n));
      StartingSays(b, m, p, fingerprint, reason, lost(n));
      if script(n).Success? {
        HandleContinues(c, m, session, script(n).verdict, script, lost, n + 1);
      }
    }
  }

  /**
   A result that asks for a follow-up gets one exactly when the job has had fewer than three and
   the last was for another fingerprint; otherwise the agent gives up without an outside call.
   For every agent a run can reach, every job, and whatever comes of the outside calls.
   */
  lemma {:induction false} FollowupsAreMadeExactly(registry: bool, steps: seq<Step>, script: Script, lost: nat -> Lost,
      m: Inbound, session: string, fingerprint: Fingerprint, reason: string, later: Script, lostLater: nat -> Lost, n: nat)
    requires DistinctMessages(steps)
    ensures var a := Reached(registry, steps, script, lost);
      var h := A.Handle(a, m, session, NeedsFollowup(fingerprint, reason), later, lostLater, n);
      if Rounds(a.log, m.id) < 3 && LastFingerprint(a.log, m.id) != Some(fingerprint)
      then Continues(a.log + [Scheduled(m.id, fingerprint, reason)], h.agent.log) && h.next > n
      else h.agent.log == a.log + [GaveUp(m.id)] && h.ok && h.next == n
  {
    AgentIsTold(registry, steps, script, lost);
    var a := Reached(registry, steps, script, lost);
    hide A.Run;
    hide TalkOf;
    FollowupIsDecided(a, m, session, fingerprint, reason, later, lostLater, n);
  }

  lemma {:induction false} FollowupIsDecided(a: Agent, m: Inbound, session: string, fingerprint: Fingerprint, reason: string, script: Script, lost: nat -> Lost, n: nat)
    requires Cached(a) && Counted(LedgerOf(a))
    ensures var h := A.Handle(a, m, session, NeedsFollowup(fingerprint, reason), script, lost, n);
      if Rounds(a.log, m.id) < 3 && LastFingerprint(a.log, m.id) != Some(fingerprint)
      then Continues(a.log + [Scheduled(m.id, fingerprint, reason)], h.agent.log) && h.next > n
      else h.agent.log == a.log + [GaveUp(m.id)] && h.ok && h.next == n
  {
    hide Cached;
    hide Counted;
    hide Ensure;
    hide Prepare;
    hide A.Followup;
    hide LedgerOf;
    var b := WithReq(a, Ensure(Req(a), m).0);
    var c := A.SetRun(b, m, Running);
    EnsureRefines(a, m);
    RunRefines(b, m, Running);
    PrepareRefines(c, m);
    OpenedProgress(LedgerOf(a), m);
    PreparingSaysNothing(a, m);
    FollowupContinues(c, m, session, fingerprint, reason, script, lost, n);
    LedgerLog(a);
    assert A.Handle(a, m, session, NeedsFollowup(fingerprint, reason), script, lost, n) == A.Followup(c, m, session, fingerprint, reason, script, lost, n);
  }

  lemma LedgerLog(a: Agent)
    ensures LedgerOf(a).log == a.log
  {
  }

  lemma OpenedProgress(l: Ledger, m: Inbound)
    requires Counted(l)
    ensures var p := ProgressOn(Opened(l, m), m);
      p.attempted == Rounds(l.log, m.id) && p.max == 3 && p.lastFingerprint == LastFingerprint(l.log, m.id)
  {
    ProgressIsCounted(l, m);
    RequirementKeepsCount(l, m, RequirementActive);
  }

  /** The talk once a follow-up is made. */
  function Making(t: Talk, job: Job, fingerprint: Fingerprint, reason: string): Talk {
    Say(Mark(t, job, Running, if t.registry then FollowupScheduled else RequirementActive), Scheduled(job, fingerprint, reason))
  }

  lemma {:induction false} RoundMade(t: Talk, job: Job, session: string, fingerprint: Fingerprint, reason: string, script: Script, n: nat)
    requires Rounds(t.log, job) < 3 && LastFingerprint(t.log, job) != Some(fingerprint) && script(n).Success?
    ensures var u := Making(t, job, fingerprint, reason);
      && C.Handle(t, job, session, NeedsFollowup(fingerprint, reason), script, n) == C.Handle(u, job, session, script(n).verdict, script, n + 1)
      && Rounds(u.log, job) == Rounds(t.log, job) + 1 && LastFingerprint(u.log, job) == Some(fingerprint)
  {
    RoundsGrow(t.log, job, fingerprint, reason);
  }

  lemma {:induction false} NoRoundLeft(t: Talk, job: Job, session: string, fingerprint: Fingerprint, reason: string, script: Script, n: nat)
    requires Rounds(t.log, job) >= 3
    ensures C.Handle(t, job, session, NeedsFollowup(fingerprint, reason), script, n).talk.log == t.log + [GaveUp(job)]
  {
  }

  lemma {:induction false} ThreeRounds(t: Talk, job: Job, session: string, script: Script, n: nat, x: Fingerprint, y: Fingerprint, z: Fingerprint, w: Fingerprint, reason: string)
    requires Rounds(t.log, job) == 0 && LastFingerprint(t.log, job) == None && x != y && y != z
    requires script(n) == Success(NeedsFollowup(y, reason)) && script(n + 1) == Success(NeedsFollowup(z, reason))
    requires script(n + 2) == Success(NeedsFollowup(w, reason))
    ensures C.Handle(t, job, session, NeedsFollowup(x, reason), script, n).talk.log
      == t.log + [Scheduled(job, x, reason), Scheduled(job, y, reason), Scheduled(job, z, reason), GaveUp(job)]
  {
    hide C.Handle;
    hide Rounds;
    hide LastFingerprint;
    var t1 := Making(t, job, x, reason);
    var t2 := Making(t1, job, y, reason);
    var t3 := Making(t2, job, z, reason);
    RoundMade(t, job, session, x, reason, script, n);
    RoundMade(t1, job, session, y, reason, script, n + 1);
    RoundMade(t2, job, session, z, reason, script, n + 2);
    NoRoundLeft(t3, job, session, w, reason, script, n + 3);
    assert t3.log == t.log + [Scheduled(job, x, reason)] + [Scheduled(job, y, reason)] + [Scheduled(job, z, reason)];
  }

  lemma {:induction false} OneCall(t: Talk, step: Step, script: Script, n: nat)
    ensures C.Run(t, [step], script, n) == C.Apply(t, step, script, n).0.talk
    ensures C.Replies(t, [step], script, n) == [C.Apply(t, step, script, n).1]
  {
    assert [step][1..] == [];
  }

  /** A message whose first execution brings a result. */
  lemma {:induction false} FirstResult(registry: bool, m: Inbound, session: string, script: Script)
    requires script(0).Success?
    ensures var t := Begin(registry).(runs := map[m.id := Running], needs := map[m.id := RequirementActive]);
      C.Apply(Begin(registry), OnMessage(m, Execute(session)), script, 0).0 == C.Handle(t, m.id, session, script(0).verdict, script, 1)
  {
    hide C.Handle;
  }

  /** Three follow-ups are made, and the fourth result that asks for one is where the agent gives up. */
  lemma ThreeFollowupsAreMade(registry: bool, m: Inbound, session: string, script: Script, lost: nat -> Lost,
      x: Fingerprint, y: Fingerprint, z: Fingerprint, w: Fingerprint, reason: string)
    requires x != y && y != z
    requires script(0) == Success(NeedsFollowup(x, reason)) && script(1) == Success(NeedsFollowup(y, reason))
    requires script(2) == Success(NeedsFollowup(z, reason)) && script(3) == Success(NeedsFollowup(w, reason))
    ensures Reached(registry, [OnMessage(m, Execute(session))], script, lost).log ==
      [Scheduled(m.id, x, reason), Scheduled(m.id, y, reason), Scheduled(m.id, z, reason), GaveUp(m.id)]
  {
    hide A.Run;
    hide C.Run;
    hide C.Apply;
    hide C.Handle;
    var step := OnMessage(m, Execute(session));
    AgentIsTold(registry, [step], script, lost);
    OneCall(Begin(registry), step, script, 0);
    FirstResult(registry, m, session, script);
    ThreeRounds(Begin(registry).(runs := map[m.id := Running], needs := map[m.id := RequirementActive]), m.id, session, script, 1, x, y, z, w, reason);
  }

  // ── Answers ────────────────────────────────────────────────────────

  /** A run has left a question of a job open, asked for a purpose. */
  ghost predicate Awaits(registry: bool, steps: seq<Step>, script: Script, job: Job, question: QuestionId, purpose: Purpose) {
    var open := Heading(registry, steps, script).open;
    question in open && open[question].job == job && open[question].purpose == purpose
  }

  /** One more call after a run: an answer, with outcomes and losses of its own. */
  function Answering(registry: bool, steps: seq<Step>, script: Script, lost: nat -> Lost,
      job: Job, question: QuestionId, rejected: bool, later: Script, lostLater: nat -> Lost, n: nat): (Handled, Result)
  {
    A.SubmitQuestionAnswer(Reached(registry, steps, script, lost), job, question, rejected, later, lostLater, n)
  }

  /** What an answer does next is what the conversation says. */
  lemma AnswerIsTold(registry: bool, steps: seq<Step>, script: Script, lost: nat -> Lost,
      job: Job, question: QuestionId, rejected: bool, later: Script, lostLater: nat -> Lost, n: nat)
    requires DistinctMessages(steps)
    ensures var (h, r) := Answering(registry, steps, script, lost, job, question, rejected, later, lostLater, n);
      var told := C.Answer(Heading(registry, steps, script), job, question, rejected, later, n);
      && h.agent.log == told.0.talk.log && h.ok == told.0.ok && h.next == told.0.next
      && Hear(Answered(r)) == told.1
      && Reached(registry, steps, script, lost).log == Heading(registry, steps, script).log
  {
    var a := Reached(registry, steps, script, lost);
    hide A.Run;
    hide C.Run;
    hide Reached;
    hide Heading;
    AgentIsTold(registry, steps, script, lost);
    AnswerToldFrom(a, Heading(registry, steps, script), job, question, rejected, later, lostLater, n);
  }

  lemma AnswerToldFrom(a: Agent, t: Talk, job: Job, question: QuestionId, rejected: bool, script: Script, lost: nat -> Lost, n: nat)
    requires Cached(a) && Sound(LedgerOf(a)) && TalkOf(LedgerOf(a)) == t
    ensures var done, told := A.SubmitQuestionAnswer(a, job, question, rejected, script, lost, n), C.Answer(t, job, question, rejected, script, n);
      && done.0.agent.log == told.0.talk.log && done.0.ok == told.0.ok && done.0.next == told.0.next
      && Hear(Answered(done.1)) == told.1
  {
    hide Cached;
    hide Ordered;
    hide Stamped;
    hide Counted;
    hide Hear;
    hide A.SubmitQuestionAnswer;
    hide L.SubmitQuestionAnswer;
    hide C.Answer;
    AnswerRefines(a, job, question, rejected, script, lost, n);
    AnswerShows(LedgerOf(a), job, question, rejected, script, n);
  }

  /** An answer to an ordinary question goes on with the job: one outside call, whose result is handled, and the events that brings. */
  lemma OrdinaryAnswer(registry: bool, steps: seq<Step>, script: Script, lost: nat -> Lost,
      job: Job, question: QuestionId, rejected: bool, later: Script, lostLater: nat -> Lost, n: nat)
    requires DistinctMessages(steps) && Awaits(registry, steps, script, job, question, ForWork)
    ensures var (h, r) := Answering(registry, steps, script, lost, job, question, rejected, later, lostLater, n);
      var log, o := Reached(registry, steps, script, lost).log + [Accepted(job, question, UpstreamQuestion)], later(n);
      && (!o.Success? ==> h.agent.log == log && h.next == n + 1 && r == Err(ContinuationFailed))
      && (o.Success? ==> Continues(log, h.agent.log) && r.Ok? == h.ok && (r.Err? ==> r == Err(ExecutionFailed)))
      && (o.Success? && o.verdict.Done? ==> h.agent.log == log + [Finished(job)] && h.next == n + 1 && r.Ok? && r.question.id == question)
      && (o.Success? && (o.verdict.NeedsInput? || o.verdict.Blocked?) ==> h.agent.log == log + [Asked(job, o.verdict.id)] && h.next == n + 1 && r.Ok?)
  {
    hide Reached;
    hide Heading;
    AnswerIsTold(registry, steps, script, lost, job, question, rejected, later, lostLater, n);
    var t := Heading(registry, steps, script);
    var a := t.open[question];
    assert question in OpenFor(t, job);
    GoingOn(Accepts(t, job, question, ForWork), job, a.session, later, n);
  }

  lemma GoingOn(t: Talk, job: Job, session: string, script: Script, n: nat)
    ensures var (h, e) := GoOn(t, job, session, script, n); var o := script(n);
      && (!o.Success? ==> h.talk.log == t.log && h.next == n + 1 && e == Some(ContinuationFailed))
      && (o.Success? ==> Continues(t.log, h.talk.log) && e == if h.ok then None else Some(ExecutionFailed))
      && (o.Success? && o.verdict.Done? ==> h.talk.log == t.log + [Finished(job)] && h.next == n + 1 && h.ok)
      && (o.Success? && (o.verdict.NeedsInput? || o.verdict.Blocked?) ==> h.talk.log == t.log + [Asked(job, o.verdict.id)] && h.next == n + 1 && h.ok)
  {
    if script(n).Success? { TalkContinues(t.(needs := t.needs[job := RequirementActive]), job, session, script(n).verdict, script, n + 1); }
  }

  /** A result that is no follow-up, or one that is not made or whose outcome is no result, publishes one event. */
  lemma {:induction false} OneEvent(t: Talk, job: Job, session: string, v: Verdict, script: Script, n: nat)
    requires v.NeedsFollowup? && Rounds(t.log, job) < 3 && LastFingerprint(t.log, job) != Some(v.fingerprint) ==> !script(n).Success?
    ensures var h := C.Handle(t, job, session, v, script, n);
      |h.talk.log| == |t.log| + 1 && h.talk.log[..|t.log|] == t.log && n <= h.next <= n + 1
  {
  }

  lemma {:induction false} TalkContinues(t: Talk, job: Job, session: string, v: Verdict, script: Script, n: nat)
    ensures var h := C.Handle(t, job, session, v, script, n); Continues(t.log, h.talk.log) && h.next >= n
    decreases Conversation.Left(t.log, job)
  {
    hide C.Handle;
    if v.NeedsFollowup? && Rounds(t.log, job) < 3 && LastFingerprint(t.log, job) != Some(v.fingerprint) && script(n).Success? {
      RoundMade(t, job, session, v.fingerprint, v.reason, script, n);
      TalkContinues(Making(t, job, v.fingerprint, v.reason), job, session, script(n).verdict, script, n + 1);
    } else {
      OneEvent(t, job, session, v, script, n);
    }
  }

  /** A rejected plan ends there: no outside call, nothing more published. An approved one is carried out, if it can be restored. */
  lemma PlanAnswer(registry: bool, steps: seq<Step>, script: Script, lost: nat -> Lost,
      job: Job, question: QuestionId, rejected: bool, restorable: bool, later: Script, lostLater: nat -> Lost, n: nat)
    requires DistinctMessages(steps) && Awaits(registry, steps, script, job, question, ForPlan(restorable))
    ensures var (h, r) := Answering(registry, steps, script, lost, job, question, rejected, later, lostLater, n);
      var log, o := Reached(registry, steps, script, lost).log + [Accepted(job, question, PlanApproval)], later(n);
      && (rejected ==> h.agent.log == log && h.next == n && r.Ok?)
      && (!rejected && !restorable ==> h.agent.log == log && h.next == n && r == Err(ContinuationFailed))
      && (!rejected && restorable ==> Continues(log, h.agent.log) && h.next > n && r.Ok? == h.ok && (r.Err? ==> r == Err(ExecutionFailed)))
      && (!rejected && restorable && o.Success? && o.verdict.Done? ==> h.agent.log == log + [Finished(job)] && h.next == n + 1 && r.Ok?)
      && (!rejected && restorable && o.Suspends? ==> h.agent.log == log + [Asked(job, o.id), Asked(job, o.id)] && h.next == n + 1 && r.Ok?)
  {
    hide Reached;
    hide Heading;
    AnswerIsTold(registry, steps, script, lost, job, question, rejected, later, lostLater, n);
    var t := Heading(registry, steps, script);
    assert question in OpenFor(t, job);
    Approving(Accepts(t, job, question, ForPlan(restorable)), job, t.open[question].session, rejected, restorable, later, n);
  }

  lemma Approving(t: Talk, job: Job, session: string, rejected: bool, restorable: bool, script: Script, n: nat)
    ensures var (h, e) := Approve(t, job, session, rejected, restorable, script, n); var o := script(n);
      && (rejected ==> h.talk.log == t.log && h.next == n && e == None)
      && (!rejected && !restorable ==> h.talk.log == t.log && h.next == n && e == Some(ContinuationFailed))
      && (!rejected && restorable ==> Continues(t.log, h.talk.log) && h.next > n && e == if h.ok then None else Some(ExecutionFailed))
      && (!rejected && restorable && o.Success? && o.verdict.Done? ==> h.talk.log == t.log + [Finished(job)] && h.next == n + 1 && h.ok)
      && (!rejected && restorable && o.Suspends? ==> h.talk.log == t.log + [Asked(job, o.id), Asked(job, o.id)] && h.next == n + 1 && h.ok)
  {
    if !rejected && restorable {
      var (u, v) := CarryOut(t, job, session, script, n);
      TalkContinues(u, job, session, Or(v, NeedsFollowup("null", "no result")), script, n + 1);
    }
  }

  /** A tool permission runs the tool and lets the job go on: a success finishes the job, and another tool is asked for. */
  lemma ToolAnswer(registry: bool, steps: seq<Step>, script: Script, lost: nat -> Lost,
      job: Job, question: QuestionId, rejected: bool, later: Script, lostLater: nat -> Lost, n: nat)
    requires DistinctMessages(steps) && Awaits(registry, steps, script, job, question, ForTool)
    ensures var (h, r) := Answering(registry, steps, script, lost, job, question, rejected, later, lostLater, n);
      var t, log := Heading(registry, steps, script), Reached(registry, steps, script, lost).log + [Accepted(job, question, ToolPermission)];
      var known := t.open[question].tool.Some? && t.open[question].tool.value in t.tools;
      if known && later(n).Success? && later(n + 1).Success? then h.agent.log == log + [Finished(job)] && h.next == n + 2 && r.Ok? && r.question.id == question
      else if known && later(n).Success? && later(n + 1).Suspends? then h.agent.log == log + [Asked(job, later(n + 1).id)] && h.next == n + 2 && r.Ok?
      else h.agent.log == log && r == Err(ContinuationFailed) && h.next == if !known then n else if !later(n).Success? then n + 1 else n + 2
  {
    hide Reached;
    hide Heading;
    hide RunTool;
    AnswerIsTold(registry, steps, script, lost, job, question, rejected, later, lostLater, n);
    var t := Heading(registry, steps, script);
    assert question in OpenFor(t, job);
    Permitting(Accepts(t, job, question, ForTool), job, question, t.open[question], later, n);
  }

  lemma Permitting(t: Talk, job: Job, question: QuestionId, a: Asking, script: Script, n: nat)
    ensures var (h, e) := RunTool(t, job, question, a, script, n);
      var known := a.tool.Some? && a.tool.value in t.tools;
      if known && script(n).Success? && script(n + 1).Success? then h.talk.log == t.log + [Finished(job)] && h.next == n + 2 && e == None
      else if known && script(n).Success? && script(n + 1).Suspends? then h.talk.log == t.log + [Asked(job, script(n + 1).id)] && h.next == n + 2 && e == None
      else h.talk.log == t.log && e == Some(ContinuationFailed) && h.next == if !known then n else if !script(n).Success? then n + 1 else n + 2
  {
  }

  // ── What a question is asked for ───────────────────────────────────

  /** The first outcome a run has not used yet. */
  ghost function Unused(t: Talk, steps: seq<Step>, script: Script, n: nat): nat
    decreases |steps|
  {
    if steps == [] then n
    else
      var h := C.Apply(t, steps[0], script, n).0;
      Unused(h.talk, steps[1..], script, h.next)
  }

  lemma {:induction false} RunThen(t: Talk, steps: seq<Step>, step: Step, script: Script, n: nat)
    ensures C.Run(t, steps + [step], script, n) == C.Apply(C.Run(t, steps, script, n), step, script, Unused(t, steps, script, n)).0.talk
    decreases |steps|
  {
    hide C.Apply;
    if steps == [] {
      OneCall(t, step, script, n);
      assert [] + [step] == [step];
    } else {
      var h := C.Apply(t, steps[0], script, n).0;
      RunThen(h.talk, steps[1..], step, script, h.next);
      assert (steps + [step])[0] == steps[0] && (steps + [step])[1..] == steps[1..] + [step];
    }
  }

  /**
   A question that the first result of a message asks is open afterwards, for what its raw
   object says: a tool, a plan, or, if it says neither, to go on working.
   */
  lemma {:induction false} ResultAsks(registry: bool, steps: seq<Step>, m: Inbound, session: string, script: Script)
    requires var o := script(Unused(Begin(registry), steps, script, 0)); o.Success? && o.verdict.NeedsInput?
    ensures var v := script(Unused(Begin(registry), steps, script, 0)).verdict;
      Awaits(registry, steps + [OnMessage(m, Execute(session))], script, m.id, v.id,
             match v.raw.tag case RawTool => ForTool case RawPlan => ForPlan(v.raw.plan) case RawOther => ForWork)
  {
    RunThen(Begin(registry), steps, OnMessage(m, Execute(session)), script, 0);
    hide C.Run;
    hide Unused;
  }

  /** From the message to the end: an ordinary question is asked, answered, and the job finished. */
  lemma QuestionAnsweredToTheEnd(registry: bool, m: Inbound, session: string, rejected: bool, script: Script, lost: nat -> Lost)
    requires script(0).Success? && script(0).verdict.NeedsInput? && script(0).verdict.raw.tag == RawOther && script(1) == Success(Done)
    ensures var id := script(0).verdict.id; var steps := [OnMessage(m, Execute(session)), OnAnswer(m.id, id, rejected)];
      && Reached(registry, steps, script, lost).log == [Asked(m.id, id), Accepted(m.id, id, UpstreamQuestion), Finished(m.id)]
      && HearAll(A.Replies(A.New(registry), steps, script, lost, 0)) == [Silence, Taken(id)]
  {
    hide *;
    var id := script(0).verdict.id;
    var first, second := OnMessage(m, Execute(session)), OnAnswer(m.id, id, rejected);
    OneMessage(first, second);
    AgentIsTold(registry, [first, second], script, lost);
    TwoCalls(Begin(registry), first, second, script, 0);
    AskedFirst(registry, m, session, script);
    AnsweredThen(C.Apply(Begin(registry), first, script, 0).0.talk, m.id, id, rejected, script);
    HeadingIs(registry, [first, second], script);
  }

  lemma {:induction false} HeadingIs(registry: bool, steps: seq<Step>, script: Script)
    ensures Heading(registry, steps, script) == C.Run(Begin(registry), steps, script, 0)
  {
  }

  lemma OneMessage(first: Step, second: Step)
    requires second.OnAnswer?
    ensures DistinctMessages([first, second])
  {
  }

  lemma {:induction false} TwoCalls(t: Talk, first: Step, second: Step, script: Script, n: nat)
    ensures var (h, r) := C.Apply(t, first, script, n); var (k, w) := C.Apply(h.talk, second, script, h.next);
      C.Run(t, [first, second], script, n) == k.talk && C.Replies(t, [first, second], script, n) == [r, w]
  {
    hide C.Apply;
    assert [first, second][1..] == [second];
    var h := C.Apply(t, first, script, n).0;
    OneCall(h.talk, second, script, h.next);
  }

  lemma AskedFirst(registry: bool, m: Inbound, session: string, script: Script)
    requires script(0).Success? && script(0).verdict.NeedsInput? && script(0).verdict.raw.tag == RawOther
    ensures var (h, r) := C.Apply(Begin(registry), OnMessage(m, Execute(session)), script, 0); var id := script(0).verdict.id;
      && h.talk.log == [Asked(m.id, id)] && h.next == 1 && r == Silence
      && id in h.talk.open && h.talk.open[id].job == m.id && h.talk.open[id].purpose == ForWork
  {
  }

  lemma AnsweredThen(t: Talk, job: Job, id: QuestionId, rejected: bool, script: Script)
    requires id in t.open && t.open[id].job == job && t.open[id].purpose == ForWork && script(1) == Success(Done)
    ensures var (h, r) := C.Apply(t, OnAnswer(job, id, rejected), script, 1);
      h.talk.log == t.log + [Accepted(job, id, UpstreamQuestion), Finished(job)] && r == Taken(id)
  {
    assert id in OpenFor(t, job);
  }
}
