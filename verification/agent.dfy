/**
 The question and follow-up protocol of the agent, as functions on its whole state: the record
 store, the three caches in front of it and the events published so far. The world outside is
 a script of outcomes, one for each call to a model, a worker or a tool, and `lost` says which
 cache entries disappear during each of those calls.
 */
module AgentSpec {
  import opened Prelude
  import opened RuntimeStore
  import opened SuspensionSpec
  import opened RequirementSpec

  /** A tool call the agentic loop stopped at to ask for permission. */
  datatype Call = Call(invocation: InvocationId, toolName: string, toolUse: string, prompt: string, iterations: nat)

  /** What a successful result comes to: the requirement judge's verdict, or a blocked subtask nobody could resolve. */
  datatype Verdict =
    | Done
    | NeedsInput(id: QuestionId, prompt: string, options: seq<string>, raw: Raw, askedAt: nat)
    | NeedsFollowup(fingerprint: Fingerprint, reason: string)
    | Blocked(id: QuestionId, prompt: string, options: seq<string>, askedAt: nat)

  datatype Outcome = Unreachable | Failure | Suspends(id: QuestionId, call: Call, askedAt: nat) | Success(verdict: Verdict)

  type Script = nat -> Outcome

  datatype Lost = Lost(jobs: set<Job>, questions: set<QuestionId>, progress: set<Job>)

  datatype Event =
    | Asked(job: Job, question: QuestionId)
    | Accepted(job: Job, question: QuestionId, source: Source)
    | Scheduled(job: Job, fingerprint: Fingerprint, reason: string)
    | GaveUp(job: Job)
    | Finished(job: Job)

  /** `registry` tells whether any tool is registered: follow-ups then run in the agentic loop, else as plain calls. */
  datatype Agent = Agent(registry: bool, snap: Snapshot, pending: map<Job, Question>, tools: map<QuestionId, Tool>,
    progress: map<Job, Progress>, log: seq<Event>)

  /** `ok` is false when a call could not be made at all; `next` is the first outcome not used yet. */
  datatype Handled = Handled(agent: Agent, ok: bool, next: nat)

  const NO_RESULT: Fingerprint := "null"

  function New(registry: bool): Agent {
    Agent(registry, EMPTY, map[], map[], map[], [])
  }

  function Sus(a: Agent): Suspensions {
    Suspensions(a.snap, a.pending, a.tools)
  }

  function WithSus(a: Agent, s: Suspensions): Agent {
    a.(snap := s.snap, pending := s.pending, tools := s.tools)
  }

  function Req(a: Agent): Tracked {
    Tracked(a.snap, a.progress)
  }

  function WithReq(a: Agent, t: Tracked): Agent {
    a.(snap := t.snap, progress := t.progress)
  }

  function Publish(a: Agent, e: Event): Agent {
    a.(log := a.log + [e])
  }

  function Lose(a: Agent, l: Lost): Agent {
    WithSus(a, Forget(Sus(a), l.jobs, l.questions)).(progress := a.progress - l.progress)
  }

  function SetRun(a: Agent, m: Inbound, status: RunStatus): Agent {
    a.(snap := UpsertRun(a.snap, m, status))
  }

  function SetRequirement(a: Agent, job: Job, p: Progress, status: RequirementStatus): Agent {
    a.(snap := UpsertRequirement(a.snap, job, p, status))
  }

  // ── Where an upstream result leads ─────────────────────────────────

  function UpQuestion(m: Inbound, session: string, v: Verdict): Question
    requires v.NeedsInput?
  {
    Question(v.id, m.id, session, v.prompt, v.options, v.raw,
             if v.raw.tag == RawTool then ToolPermission else UpstreamQuestion, v.askedAt, false, Some(m))
  }

  /** `handle_upstream_result_waiting_user_input`. */
  function Ask(a: Agent, m: Inbound, session: string, v: Verdict): Agent
    requires v.NeedsInput?
  {
    var b := SetRun(WithSus(a, StoreQuestion(Sus(a), m.id, UpQuestion(m, session, v))), m, Running);
    var p := State(Req(b), m.id, false).1;
    var c := if p.Some? then SetRequirement(b, m.id, p.value, WaitingUserInput) else b;
    Publish(c, Asked(m.id, v.id))
  }

  /** `handle_upstream_result_complete`. */
  function Complete(a: Agent, m: Inbound): Agent {
    var p := State(Req(a), m.id, false).1;
    var b := WithSus(a, ClearQuestion(Sus(a), m.id));
    var c := SetRun(WithReq(b, Clear(Req(b), m.id)), m, Completed);
    var d := if p.Some? then SetRequirement(c, m.id, p.value, Satisfied) else c;
    Publish(d, Finished(m.id))
  }

  /** `handle_exhausted_followup`: the round is counted first, and then the progress from before is written back. */
  function Exhaust(a: Agent, m: Inbound, p: Progress, fingerprint: Fingerprint, reason: string): Agent {
    var b := WithReq(a, Update(Req(a), m.id, p.attempted + 1, fingerprint, reason));
    Publish(SetRun(SetRequirement(b, m.id, p, RequirementStatus.Exhausted), m, Running), GaveUp(m.id))
  }

  /** `prepare_agent_followup`. */
  function Prepare(a: Agent, m: Inbound): (Agent, Progress) {
    var (t, p) := Ensure(Req(a), m);
    (SetRequirement(SetRun(WithReq(a, t), m, Running), m.id, p, FollowupScheduled), p)
  }

  predicate Hopeless(p: Progress, fingerprint: Fingerprint) {
    p.attempted + 1 > p.max || p.lastFingerprint == Some(fingerprint)
  }

  /** `execute_scheduled_followup` up to the call it makes. */
  function Start(a: Agent, m: Inbound, p: Progress, fingerprint: Fingerprint, reason: string): Agent {
    var b := Publish(WithReq(a, Update(Req(a), m.id, p.attempted + 1, fingerprint, reason)), Scheduled(m.id, fingerprint, reason));
    if a.registry then b else WithReq(b, Ensure(Req(b), m).0)
  }

  /** The rounds a job has left, by the store if it knows the job. */
  function Budget(t: Tracked, job: Job): nat {
    var p := State(t, job, false).1;
    if p.None? then MAX_ROUNDS else SatSub(p.value.max, p.value.attempted)
  }

  /** Counting the round reaches the store, because the run was written just before: that is all the recursion rests on. */
  lemma FollowupShrinksBudget(a: Agent, m: Inbound, fingerprint: Fingerprint, reason: string, lost: Lost)
    requires var p := Prepare(a, m).1; !Hopeless(p, fingerprint)
    ensures var (b, p) := Prepare(a, m);
      Budget(Req(Lose(Start(b, m, p, fingerprint, reason), lost)), m.id) < Budget(Req(a), m.id)
  {
    var (b, p) := Prepare(a, m);
    var c := WithReq(b, Update(Req(b), m.id, p.attempted + 1, fingerprint, reason));
    assert RunId(m.id) in b.snap.runs;
    assert Rebuild(c.snap, m.id) == Some(p.(attempted := p.attempted + 1, lastFingerprint := Some(fingerprint), lastReason := Some(reason)));
    var d := Start(b, m, p, fingerprint, reason);
    assert Rebuild(d.snap, m.id) == Rebuild(c.snap, m.id);
  }

  lemma RunKeepsBudget(a: Agent, m: Inbound)
    ensures Budget(Req(SetRun(WithReq(a, Ensure(Req(a), m).0), m, Running)), m.id) == Budget(Req(a), m.id)
  {
  }

  /** `handle_upstream_result`. */
  function Handle(a: Agent, m: Inbound, session: string, v: Verdict, script: Script, lost: nat -> Lost, n: nat): Handled
    decreases Budget(Req(a), m.id), 1
  {
    if v.Blocked? then
      var q := BlockedQuestion(m, v.id, session, v.prompt, v.options, v.askedAt);
      Handled(Publish(WithSus(a, StoreQuestion(Sus(a), m.id, q)), Asked(m.id, v.id)), true, n)
    else
      RunKeepsBudget(a, m);
      var b := SetRun(WithReq(a, Ensure(Req(a), m).0), m, Running);
      if v.Done? then Handled(Complete(b, m), true, n)
      else if v.NeedsInput? then Handled(Ask(b, m, session, v), true, n)
      else Followup(b, m, session, v.fingerprint, v.reason, script, lost, n)
  }

  /** `schedule_agent_followup`. */
  function Followup(a: Agent, m: Inbound, session: string, fingerprint: Fingerprint, reason: string,
      script: Script, lost: nat -> Lost, n: nat): Handled
    decreases Budget(Req(a), m.id), 0
  {
    var (b, p) := Prepare(a, m);
    if Hopeless(p, fingerprint) then Handled(Exhaust(b, m, p, fingerprint, reason), true, n)
    else
      FollowupShrinksBudget(a, m, fingerprint, reason, lost(n));
      var c := Lose(Start(b, m, p, fingerprint, reason), lost(n));
      match script(n)
      case Unreachable => Handled(c, false, n + 1)
      case Success(v) => Handle(c, m, session, v, script, lost, n + 1)
      case _ => Handled(SetRun(c, m, Running), true, n + 1)
  }

  // ── The first execution of a message's plan ────────────────────────

  function ToolOf(m: Inbound, session: string, c: Call): Tool {
    Tool(c.invocation, c.toolName, c.toolUse, c.prompt, ["allow", "deny"], c.iterations, m, session)
  }

  /** The raw question of a suspended tool call also names the message it came with. */
  function CallQuestion(m: Inbound, session: string, id: QuestionId, c: Call, askedAt: nat): Question {
    var t := ToolOf(m, session, c);
    ToolQuestion(id, t, askedAt).(raw := Filled(ToolRaw(t), session, m))
  }

  /** Ask for a tool permission: question first, then the tool itself. */
  function AskTool(a: Agent, job: Job, m: Inbound, session: string, id: QuestionId, c: Call, askedAt: nat): Agent {
    var s := StoreQuestion(Sus(a), job, CallQuestion(m, session, id, c, askedAt));
    WithSus(a, StoreTool(s, id, ToolOf(m, session, c), askedAt))
  }

  function ToolVerdict(m: Inbound, session: string, id: QuestionId, c: Call, askedAt: nat): Verdict {
    NeedsInput(id, c.prompt, ["allow", "deny"], ToolRaw(ToolOf(m, session, c)), askedAt)
  }

  /** `execute_initial_message_plan`: a tool suspension asks at once, and its result is a question with the same id. */
  function ExecuteInitial(a: Agent, m: Inbound, session: string, script: Script, lost: nat -> Lost, n: nat): (Agent, Option<Verdict>) {
    var b := Lose(a, lost(n));
    match script(n)
    case Success(v) => (b, Some(v))
    case Suspends(id, c, askedAt) =>
      (Publish(AskTool(b, m.id, m, session, id, c, askedAt), Asked(m.id, id)), Some(ToolVerdict(m, session, id, c, askedAt)))
    case _ => (b, None)
  }

  // ── After an answer ────────────────────────────────────────────────

  /** `continue_upstream_question_answer` and `continue_subtask_blocked_answer`. */
  function ContinueQuestion(a: Agent, m: Inbound, session: string, script: Script, lost: nat -> Lost, n: nat): (Handled, Option<SubmitError>) {
    var b := Lose(WithReq(a, Ensure(Req(a), m).0), lost(n));
    if script(n).Success? then
      var h := Handle(b, m, session, script(n).verdict, script, lost, n + 1);
      (h, if h.ok then None else Some(ExecutionFailed))
    else (Handled(b, false, n + 1), Some(ContinuationFailed))
  }

  /** `continue_plan_approval_answer`: the result is handled whatever its status, and a failed one has nothing to show. */
  function ContinuePlan(a: Agent, m: Inbound, q: Question, rejected: bool, script: Script, lost: nat -> Lost, n: nat): (Handled, Option<SubmitError>) {
    if rejected then (Handled(a, true, n), None)
    else if !q.raw.plan then (Handled(a, false, n), Some(ContinuationFailed))
    else
      var (b, v) := ExecuteInitial(a, m, q.session, script, lost, n);
      var h := Handle(b, m, q.session, if v.Some? then v.value else NeedsFollowup(NO_RESULT, "no result"), script, lost, n + 1);
      (h, if h.ok then None else Some(ExecutionFailed))
  }

  /** `finish_tool_permission_continuation`. */
  function FinishTool(a: Agent, job: Job, q: QuestionId, t: Tool, now: nat): Agent {
    var s := ClearTool(ClearQuestion(Sus(a), job), q, now);
    Publish(SetRun(WithSus(a, s), t.inbound, Completed), Finished(job))
  }

  /** `resuspend_tool_permission_continuation`: ask for the next permission, then clear the answered one. */
  function Resuspend(a: Agent, job: Job, q: QuestionId, t: Tool, id: QuestionId, c: Call, now: nat): Agent {
    var b := AskTool(a, job, t.inbound, t.session, id, c, now);
    Publish(WithSus(b, ClearTool(Sus(b), q, now)), Asked(job, id))
  }

  /** `prepare_tool_permission_resume` after the tool has run: only now is the question resolved. */
  function ResolveTool(a: Agent, q: Question, t: Tool): Agent {
    a.(snap := UpsertSuspension(a.snap, t.inbound, q, Some(t.invocation), OfTool, Resolved))
  }

  /** `handle_tool_permission_continuation_outcome`. */
  function AfterTool(a: Agent, job: Job, q: Question, t: Tool, o: Outcome, n: nat): (Handled, Option<SubmitError>) {
    match o
    case Success(_) => (Handled(FinishTool(a, job, q.id, t, q.askedAt), true, n), None)
    case Suspends(id, call, askedAt) => (Handled(Resuspend(a, job, q.id, t, id, call, askedAt), true, n), None)
    case _ => (Handled(a, false, n), Some(ContinuationFailed))
  }

  /** `continue_tool_permission_answer`: run the tool, then let the loop go on. */
  function ContinueTool(a: Agent, job: Job, q: Question, script: Script, lost: nat -> Lost, n: nat): (Handled, Option<SubmitError>) {
    var (s, t) := ToolState(Sus(a), q.id);
    var b := WithSus(a, s);
    if t.None? then (Handled(b, false, n), Some(ContinuationFailed))
    else
      var c := Lose(b, lost(n));
      if !script(n).Success? then (Handled(c, false, n + 1), Some(ContinuationFailed))
      else
        var d := Lose(ResolveTool(c, q, t.value), lost(n + 1));
        AfterTool(d, job, q, t.value, script(n + 1), n + 2)
  }

  /** `continue_submitted_question_answer`. */
  function Continue(a: Agent, job: Job, m: Inbound, q: Question, rejected: bool, script: Script, lost: nat -> Lost, n: nat): (Handled, Option<SubmitError>) {
    match q.source
    case ToolPermission => ContinueTool(a, job, q, script, lost, n)
    case PlanApproval => ContinuePlan(a, m, q, rejected, script, lost, n)
    case _ => ContinueQuestion(a, m, q.session, script, lost, n)
  }

  // ── The agent's entry points ───────────────────────────────────────

  datatype Route = NoSession | Direct | Supervised(session: string, id: QuestionId, prompt: string, askedAt: nat) | Execute(session: string)

  datatype Step =
    | OnMessage(m: Inbound, route: Route)
    | OnAnswer(job: Job, question: QuestionId, rejected: bool)
    | OnQueryQuestion(job: Job, hydrate: bool)
    | OnQueryTool(question: QuestionId)
    | OnLoss(lost: Lost)

  /** No two messages share an id: message ids are drawn at random. */
  ghost predicate DistinctMessages(steps: seq<Step>) {
    forall i, j :: 0 <= i < j < |steps| && steps[i].OnMessage? && steps[j].OnMessage? ==> steps[i].m.id != steps[j].m.id
  }

  datatype Reply = Nothing | Answered(result: Result) | QuestionIs(question: Option<Question>) | ToolIs(tool: Option<Tool>)

  /** `process_inbound_message_flow`. */
  function Receive(a: Agent, m: Inbound, route: Route, script: Script, lost: nat -> Lost, n: nat): Handled {
    var b := SetRun(a, m, Running);
    match route
    case Supervised(session, id, prompt, askedAt) =>
      var q := PlanQuestion(m, id, session, prompt, askedAt);
      Handled(Publish(WithSus(b, StoreQuestion(Sus(b), m.id, q)), Asked(m.id, id)), true, n)
    case Execute(session) =>
      var (c, v) := ExecuteInitial(b, m, session, script, lost, n);
      if v.None? then Handled(c, true, n + 1)
      else Handle(WithReq(c, Ensure(Req(c), m).0), m, session, v.value, script, lost, n + 1)
    case _ => Handled(b, true, n)
  }

  /** `submit_question_answer`. */
  function SubmitQuestionAnswer(a: Agent, job: Job, question: QuestionId, rejected: bool, script: Script, lost: nat -> Lost, n: nat): (Handled, Result) {
    var (s, r) := SubmitAnswer(Sus(a), job, question);
    var b := WithSus(a, s);
    if r.Err? then (Handled(b, false, n), r)
    else if r.question.inbound.None? then (Handled(b, false, n), Err(MissingInbound))
    else
      var c := Publish(b, Accepted(job, question, r.question.source));
      var (h, e) := Continue(c, job, r.question.inbound.value, r.question, rejected, script, lost, n);
      (h, if e.Some? then Err(e.value) else r)
  }

  function Apply(a: Agent, step: Step, script: Script, lost: nat -> Lost, n: nat): (Handled, Reply) {
    match step
    case OnMessage(m, route) => (Receive(a, m, route, script, lost, n), Nothing)
    case OnAnswer(job, question, rejected) =>
      var (h, r) := SubmitQuestionAnswer(a, job, question, rejected, script, lost, n);
      (h, Answered(r))
    case OnQueryQuestion(job, hydrate) =>
      var (s, q) := QuestionState(Sus(a), job, hydrate);
      (Handled(WithSus(a, s), true, n), QuestionIs(q))
    case OnQueryTool(question) =>
      var (s, t) := ToolState(Sus(a), question);
      (Handled(WithSus(a, s), true, n), ToolIs(t))
    case OnLoss(l) => (Handled(Lose(a, l), true, n), Nothing)
  }

  function Run(a: Agent, steps: seq<Step>, script: Script, lost: nat -> Lost, n: nat): Agent
    decreases |steps|
  {
    if steps == [] then a
    else
      var h := Apply(a, steps[0], script, lost, n).0;
      Run(h.agent, steps[1..], script, lost, h.next)
  }

  function Replies(a: Agent, steps: seq<Step>, script: Script, lost: nat -> Lost, n: nat): seq<Reply>
    decreases |steps|
  {
    if steps == [] then []
    else
      var (h, r) := Apply(a, steps[0], script, lost, n);
      [r] + Replies(h.agent, steps[1..], script, lost, h.next)
  }
}
