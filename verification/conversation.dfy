/**
 The protocol as its user hears it. A talk knows which questions are open and how they were
 asked, where each run and each requirement stands, and what was published; it has no records,
 no caches and no progress: how many follow-ups a job has left is counted in what was published.
 Every event, reply and status of the agent is the one told here.
 */
module Conversation {
  import opened Prelude
  import opened RuntimeStore
  import opened SuspensionSpec
  import opened RequirementSpec
  import opened AgentSpec
  import opened OneOpenQuestion
  import opened FollowupBudget
  import L = Ledgers
  import opened Ledgers

  /** What an answer is wanted for: to go on working, to carry out a plan that can be restored or not, to run a tool. */
  datatype Purpose = ForWork | ForPlan(restorable: bool) | ForTool

  /** `tool` names the tool call behind the question, which a question meant for something else may do as well. */
  datatype Asking = Asking(job: Job, session: string, prompt: string, options: seq<string>, purpose: Purpose, tool: Option<InvocationId>)

  datatype ToolUse = ToolUse(name: string, arguments: string)

  datatype Talk = Talk(registry: bool, open: map<QuestionId, Asking>, tools: map<InvocationId, ToolUse>,
    needs: map<Job, RequirementStatus>, runs: map<Job, RunStatus>, log: seq<Event>)

  datatype Told = Told(talk: Talk, ok: bool, next: nat)

  /** What a reply says: an answer is taken or refused, a question or a tool call is shown. */
  datatype Heard =
    | Silence
    | Taken(question: QuestionId)
    | Refused(error: SubmitError)
    | Shows(open: Option<(QuestionId, Asking)>)
    | ShowsTool(tool: Option<(ToolUse, Asking)>)

  function Begin(registry: bool): Talk {
    Talk(registry, map[], map[], map[], map[], [])
  }

  function Say(t: Talk, e: Event): Talk {
    t.(log := t.log + [e])
  }

  /** One question has one place: asking it again, by whichever job, replaces it. */
  function Asks(t: Talk, id: QuestionId, a: Asking): Talk {
    Say(t.(open := t.open[id := a]), Asked(a.job, id))
  }

  function Mark(t: Talk, job: Job, run: RunStatus, need: RequirementStatus): Talk {
    t.(runs := t.runs[job := run], needs := t.needs[job := need])
  }

  /** What the raw question behind a result says it is for. */
  function PurposeOf(raw: Raw): Purpose {
    match raw.tag
    case RawTool => ForTool
    case RawPlan => ForPlan(raw.plan)
    case RawOther => ForWork
  }

  function Left(log: seq<Event>, job: Job): nat {
    SatSub(3, Rounds(log, job))
  }

  /** A result is the end, a question, or the start of a follow-up whose result is handled in turn. */
  function Handle(t: Talk, job: Job, session: string, v: Verdict, script: Script, n: nat): Told
    decreases Left(t.log, job)
  {
    match v
    case Done => Told(Say(Mark(t, job, Completed, Satisfied), Finished(job)), true, n)
    case Blocked(id, prompt, options, _) => Told(Asks(t, id, Asking(job, session, prompt, options, ForWork, None)), true, n)
    case NeedsInput(id, prompt, options, raw, _) =>
      var asking := Asking(job, Or(raw.session, session), prompt, options, PurposeOf(raw), raw.invocation);
      Told(Asks(Mark(t, job, Running, WaitingUserInput), id, asking), true, n)
    case NeedsFollowup(fingerprint, reason) =>
      if Rounds(t.log, job) < 3 && LastFingerprint(t.log, job) != Some(fingerprint) then
        var status := if t.registry then FollowupScheduled else RequirementActive;
        var u := Say(Mark(t, job, Running, status), Scheduled(job, fingerprint, reason));
        RoundsGrow(t.log, job, fingerprint, reason);
        match script(n)
        case Success(w) => Handle(u, job, session, w, script, n + 1)
        case o => Told(u, !o.Unreachable?, n + 1)
      else Told(Say(Mark(t, job, Running, RequirementStatus.Exhausted), GaveUp(job)), true, n)
  }

  lemma {:induction false} RoundsGrow(log: seq<Event>, job: Job, fingerprint: Fingerprint, reason: string)
    ensures Rounds(log + [Scheduled(job, fingerprint, reason)], job) == Rounds(log, job) + 1
    ensures LastFingerprint(log + [Scheduled(job, fingerprint, reason)], job) == Some(fingerprint)
  {
    assert (log + [Scheduled(job, fingerprint, reason)])[..|log|] == log;
  }

  function AsksTool(t: Talk, job: Job, session: string, id: QuestionId, c: Call): Talk {
    Asks(t.(tools := t.tools[c.invocation := ToolUse(c.toolName, c.toolUse)]), id,
         Asking(job, session, c.prompt, ["allow", "deny"], ForTool, Some(c.invocation)))
  }

  /** Carrying out a plan: a result, or nothing to show, or a tool to ask for, which is asked for twice. */
  function CarryOut(t: Talk, job: Job, session: string, script: Script, n: nat): (Talk, Option<Verdict>) {
    match script(n)
    case Success(v) => (t, Some(v))
    case Suspends(id, c, askedAt) =>
      var raw := Raw(RawTool, false, Some(c.invocation), Some(c.toolUse), None, None, None, None);
      (AsksTool(t, job, session, id, c), Some(NeedsInput(id, c.prompt, ["allow", "deny"], raw, askedAt)))
    case _ => (t, None)
  }

  function Receive(t: Talk, job: Job, route: Route, script: Script, n: nat): Told {
    var u := t.(runs := t.runs[job := Running]);
    match route
    case Supervised(session, id, prompt, _) =>
      Told(Asks(u, id, Asking(job, session, prompt, ["approved", "rejected"], ForPlan(true), None)), true, n)
    case Execute(session) =>
      var (c, v) := CarryOut(u, job, session, script, n);
      if v.None? then Told(c, true, n + 1)
      else Handle(c.(needs := c.needs[job := RequirementActive]), job, session, v.value, script, n + 1)
    case _ => Told(u, true, n)
  }

  // ── Answers ────────────────────────────────────────────────────────

  function Failing(e: SubmitError, ok: bool): Option<SubmitError> {
    if ok then None else Some(e)
  }

  /** The job goes on with the answer and whatever that results in is handled. */
  function GoOn(t: Talk, job: Job, session: string, script: Script, n: nat): (Told, Option<SubmitError>) {
    var u := t.(needs := t.needs[job := RequirementActive]);
    match script(n)
    case Success(v) =>
      var h := Handle(u, job, session, v, script, n + 1);
      (h, Failing(ExecutionFailed, h.ok))
    case _ => (Told(u, false, n + 1), Some(ContinuationFailed))
  }

  function Approve(t: Talk, job: Job, session: string, rejected: bool, restorable: bool, script: Script, n: nat): (Told, Option<SubmitError>) {
    if rejected then (Told(t, true, n), None)
    else if !restorable then (Told(t, false, n), Some(ContinuationFailed))
    else
      var (u, v) := CarryOut(t, job, session, script, n);
      var h := Handle(u, job, session, Or(v, NeedsFollowup("null", "no result")), script, n + 1);
      (h, Failing(ExecutionFailed, h.ok))
  }

  /** The question stays open until the tool has run; a tool asked for again under the same id is not open afterwards. */
  function RunTool(t: Talk, job: Job, question: QuestionId, a: Asking, script: Script, n: nat): (Told, Option<SubmitError>) {
    if a.tool.None? || a.tool.value !in t.tools then (Told(t, false, n), Some(ContinuationFailed))
    else if !script(n).Success? then (Told(t, false, n + 1), Some(ContinuationFailed))
    else
      var u := t.(open := t.open - {question});
      match script(n + 1)
      case Success(_) => (Told(Say(u.(runs := u.runs[job := Completed]), Finished(job)), true, n + 2), None)
      case Suspends(id, c, _) =>
        var w := AsksTool(u, job, a.session, id, c);
        (Told(if id == question then w.(open := w.open - {id}) else w, true, n + 2), None)
      case _ => (Told(u, false, n + 2), Some(ContinuationFailed))
  }

  function SourceFor(p: Purpose): Source {
    match p
    case ForWork => UpstreamQuestion
    case ForPlan(_) => PlanApproval
    case ForTool => ToolPermission
  }

  /** The job's open questions; there is never more than one. */
  function OpenFor(t: Talk, job: Job): set<QuestionId> {
    set id | id in t.open && t.open[id].job == job
  }

  ghost function AnyOf(ids: set<QuestionId>): (id: QuestionId)
    requires ids != {}
    ensures id in ids
  {
    var id :| id in ids; id
  }

  /** An accepted answer closes its question, unless it permits a tool. */
  function Accepts(t: Talk, job: Job, question: QuestionId, p: Purpose): Talk {
    Say(if p == ForTool then t else t.(open := t.open - {question}), Accepted(job, question, SourceFor(p)))
  }

  function Continue(t: Talk, job: Job, question: QuestionId, a: Asking, rejected: bool, script: Script, n: nat): (Told, Option<SubmitError>) {
    match a.purpose
    case ForWork => GoOn(t, job, a.session, script, n)
    case ForPlan(restorable) => Approve(t, job, a.session, rejected, restorable, script, n)
    case ForTool => RunTool(t, job, question, a, script, n)
  }

  ghost function Answer(t: Talk, job: Job, question: QuestionId, rejected: bool, script: Script, n: nat): (Told, Heard) {
    var open := OpenFor(t, job);
    if open == {} then (Told(t, false, n), Refused(NoPendingQuestion))
    else if question !in open then (Told(t, false, n), Refused(QuestionIdMismatch(AnyOf(open))))
    else
      var a := t.open[question];
      var (h, e) := Continue(Accepts(t, job, question, a.purpose), job, question, a, rejected, script, n);
      (h, if e.Some? then Refused(e.value) else Taken(question))
  }

  /** A suspended tool is found by its question, if the question is still open and names a known call, whatever it was asked for. */
  function ToolAt(t: Talk, question: QuestionId): Option<(ToolUse, Asking)> {
    if question !in t.open then None
    else
      var a := t.open[question];
      if a.tool.None? || a.tool.value !in t.tools then None else Some((t.tools[a.tool.value], a.(purpose := ForTool)))
  }

  ghost function Apply(t: Talk, step: Step, script: Script, n: nat): (Told, Heard) {
    match step
    case OnMessage(m, route) => (Receive(t, m.id, route, script, n), Silence)
    case OnAnswer(job, question, rejected) => Answer(t, job, question, rejected, script, n)
    case OnQueryQuestion(job, _) =>
      var open := OpenFor(t, job);
      (Told(t, true, n), Shows(if open == {} then None else Some((AnyOf(open), t.open[AnyOf(open)]))))
    case OnQueryTool(question) => (Told(t, true, n), ShowsTool(ToolAt(t, question)))
    case OnLoss(_) => (Told(t, true, n), Silence)
  }

  ghost function Run(t: Talk, steps: seq<Step>, script: Script, n: nat): Talk
    decreases |steps|
  {
    if steps == [] then t
    else
      var h := Apply(t, steps[0], script, n).0;
      Run(h.talk, steps[1..], script, h.next)
  }

  ghost function Replies(t: Talk, steps: seq<Step>, script: Script, n: nat): seq<Heard>
    decreases |steps|
  {
    if steps == [] then []
    else
      var (h, r) := Apply(t, steps[0], script, n);
      [r] + Replies(h.talk, steps[1..], script, h.next)
  }
}
