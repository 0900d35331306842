/**
 The same protocol without any cache. A ledger is what the store says: runs, tool invocations,
 requirements and one card per question, open or shut; how a card was shut (resolved or
 cleared) is forgotten. Everything is looked up on the ledger itself, so this is what the
 agent should look like from outside, whatever its caches hold.
 */
module Ledgers {
  import opened Prelude
  import opened RuntimeStore
  import opened SuspensionSpec
  import opened RequirementSpec
  import opened AgentSpec

  datatype Card = Open(rec: Suspension) | Shut(run: RunId, createdAt: nat)

  type Runs = map<RunId, RunRecord>

  type Cards = map<SuspensionId, Card>

  datatype Ledger = Ledger(registry: bool, runs: Runs, invocations: map<InvocationId, Invocation>,
    requirements: map<RequirementId, Requirement>, cards: Cards, log: seq<Event>)

  datatype Settled = Settled(ledger: Ledger, ok: bool, next: nat)

  function RunOf(c: Card): RunId {
    if c.Open? then c.rec.run else c.run
  }

  function CreatedAt(c: Card): nat {
    if c.Open? then c.rec.createdAt else c.createdAt
  }

  // ── Single changes ─────────────────────────────────────────────────

  function Publish(l: Ledger, e: Event): Ledger {
    l.(log := l.log + [e])
  }

  function SetRun(l: Ledger, m: Inbound, status: RunStatus): Ledger {
    l.(runs := l.runs[RunId(m.id) := RunRecord(m.id, m.chat, m.channel, status)])
  }

  function Deal(cards: Cards, m: Inbound, q: Question, invocation: Option<InvocationId>, kind: SuspensionKind): Cards {
    var id := SuspensionId(q.id);
    var createdAt := if id in cards then CreatedAt(cards[id]) else q.askedAt;
    cards[id := Open(Record(m, q, invocation, kind, Active, createdAt))]
  }

  function ShutCard(cards: Cards, q: QuestionId): Cards {
    var id := SuspensionId(q);
    if id in cards then cards[id := Shut(RunOf(cards[id]), CreatedAt(cards[id]))] else cards
  }

  function Put(l: Ledger, m: Inbound, q: Question): Ledger {
    l.(cards := Deal(l.cards, m, q, q.raw.invocation, KindOf(q.source)))
  }

  function SetRequirement(l: Ledger, job: Job, p: Progress, status: RequirementStatus): Ledger {
    l.(requirements := l.requirements[RequirementId(job) := RequirementOf(job, p, status)])
  }

  /** The stored progress of a job, or that of a job no follow-up was ever needed for. */
  function ProgressOn(l: Ledger, m: Inbound): Progress {
    var id := RequirementId(m.id);
    if id in l.requirements then ProgressOf(l.requirements[id]) else Progress(m.content, 0, MAX_ROUNDS, None, None)
  }

  function Ensured(l: Ledger, m: Inbound): Ledger {
    SetRequirement(l, m.id, ProgressOn(l, m), RequirementActive)
  }

  // ── Looking up ─────────────────────────────────────────────────────

  function OpenCards(cards: Cards, run: RunId): set<SuspensionId> {
    set i | i in cards && cards[i].Open? && cards[i].rec.run == run
  }

  function QuestionOn(l: Ledger, job: Job): Option<Question> {
    var open := OpenCards(l.cards, RunId(job));
    if RunId(job) !in l.runs || open == {} then None
    else Some(QuestionFrom(l.cards[First(open)].rec, l.runs[RunId(job)], job))
  }

  function ToolOn(l: Ledger, q: QuestionId): Option<Tool> {
    var id := SuspensionId(q);
    if id !in l.cards || l.cards[id].Shut? then None else ToolFrom(l.cards[id].rec, l.runs, l.invocations)
  }

  // ── The protocol ───────────────────────────────────────────────────

  function Ask(l: Ledger, m: Inbound, session: string, v: Verdict): Ledger
    requires v.NeedsInput?
  {
    var k := SetRun(Put(l, m, UpQuestion(m, session, v)), m, Running);
    Publish(SetRequirement(k, m.id, ProgressOn(k, m), WaitingUserInput), Asked(m.id, v.id))
  }

  function Complete(l: Ledger, m: Inbound): Ledger {
    Publish(SetRequirement(SetRun(l, m, Completed), m.id, ProgressOn(l, m), Satisfied), Finished(m.id))
  }

  function NextRound(p: Progress, fingerprint: Fingerprint, reason: string): Progress {
    p.(attempted := p.attempted + 1, lastFingerprint := Some(fingerprint), lastReason := Some(reason))
  }

  function Start(l: Ledger, m: Inbound, p: Progress, fingerprint: Fingerprint, reason: string): Ledger {
    var k := Publish(SetRequirement(l, m.id, NextRound(p, fingerprint, reason), FollowupScheduled), Scheduled(m.id, fingerprint, reason));
    if l.registry then k else Ensured(k, m)
  }

  function RoundsLeft(l: Ledger, m: Inbound): nat {
    SatSub(ProgressOn(l, m).max, ProgressOn(l, m).attempted)
  }

  function Handle(l: Ledger, m: Inbound, session: string, v: Verdict, script: Script, n: nat): Settled
    decreases RoundsLeft(l, m), 1
  {
    if v.Blocked? then
      Settled(Publish(Put(l, m, BlockedQuestion(m, v.id, session, v.prompt, v.options, v.askedAt)), Asked(m.id, v.id)), true, n)
    else
      var k := SetRun(Ensured(l, m), m, Running);
      if v.Done? then Settled(Complete(k, m), true, n)
      else if v.NeedsInput? then Settled(Ask(k, m, session, v), true, n)
      else Followup(k, m, session, v.fingerprint, v.reason, script, n)
  }

  function Followup(l: Ledger, m: Inbound, session: string, fingerprint: Fingerprint, reason: string, script: Script, n: nat): Settled
    decreases RoundsLeft(l, m), 0
  {
    var p := ProgressOn(l, m);
    var k := SetRequirement(SetRun(l, m, Running), m.id, p, FollowupScheduled);
    if Hopeless(p, fingerprint) then Settled(Publish(SetRequirement(k, m.id, p, RequirementStatus.Exhausted), GaveUp(m.id)), true, n)
    else
      var c := Start(k, m, p, fingerprint, reason);
      match script(n)
      case Unreachable => Settled(c, false, n + 1)
      case Success(v) => Handle(c, m, session, v, script, n + 1)
      case _ => Settled(c, true, n + 1)
  }

  /** A question and its tool, on one card. */
  function AskTool(l: Ledger, m: Inbound, session: string, id: QuestionId, c: Call, askedAt: nat): Ledger {
    var t, q := ToolOf(m, session, c), CallQuestion(m, session, id, c, askedAt);
    var cards := Deal(l.cards, m, q, q.raw.invocation, OfTool);
    l.(cards := Deal(cards, m, ToolQuestion(id, t, askedAt), Some(t.invocation), OfTool),
       invocations := l.invocations[t.invocation := Invocation(t.toolName, Some(t.toolUse))])
  }

  function ExecuteInitial(l: Ledger, m: Inbound, session: string, script: Script, n: nat): (Ledger, Option<Verdict>) {
    match script(n)
    case Success(v) => (l, Some(v))
    case Suspends(id, c, askedAt) =>
      (Publish(AskTool(l, m, session, id, c, askedAt), Asked(m.id, id)), Some(ToolVerdict(m, session, id, c, askedAt)))
    case _ => (l, None)
  }

  function ContinueQuestion(l: Ledger, m: Inbound, session: string, script: Script, n: nat): (Settled, Option<SubmitError>) {
    if script(n).Success? then
      var h := Handle(Ensured(l, m), m, session, script(n).verdict, script, n + 1);
      (h, if h.ok then None else Some(ExecutionFailed))
    else (Settled(Ensured(l, m), false, n + 1), Some(ContinuationFailed))
  }

  function ContinuePlan(l: Ledger, m: Inbound, q: Question, rejected: bool, script: Script, n: nat): (Settled, Option<SubmitError>) {
    if rejected then (Settled(l, true, n), None)
    else if !q.raw.plan then (Settled(l, false, n), Some(ContinuationFailed))
    else
      var (k, v) := ExecuteInitial(l, m, q.session, script, n);
      var h := Handle(k, m, q.session, if v.Some? then v.value else NeedsFollowup(NO_RESULT, "no result"), script, n + 1);
      (h, if h.ok then None else Some(ExecutionFailed))
  }

  function Resuspend(l: Ledger, job: Job, q: QuestionId, t: Tool, id: QuestionId, c: Call, now: nat): Ledger {
    var k := AskTool(l, t.inbound, t.session, id, c, now);
    Publish(if id == q then k.(cards := ShutCard(k.cards, q)) else k, Asked(job, id))
  }

  function AfterTool(l: Ledger, job: Job, q: Question, t: Tool, o: Outcome, n: nat): (Settled, Option<SubmitError>) {
    match o
    case Success(_) => (Settled(Publish(SetRun(l, t.inbound, Completed), Finished(job)), true, n), None)
    case Suspends(id, call, askedAt) => (Settled(Resuspend(l, job, q.id, t, id, call, askedAt), true, n), None)
    case _ => (Settled(l, false, n), Some(ContinuationFailed))
  }

  function ContinueTool(l: Ledger, job: Job, q: Question, script: Script, n: nat): (Settled, Option<SubmitError>) {
    var t := ToolOn(l, q.id);
    if t.None? then (Settled(l, false, n), Some(ContinuationFailed))
    else if !script(n).Success? then (Settled(l, false, n + 1), Some(ContinuationFailed))
    else
      var k := l.(cards := ShutCard(l.cards, q.id));
      AfterTool(k, job, q, t.value, script(n + 1), n + 2)
  }

  function Continue(l: Ledger, job: Job, m: Inbound, q: Question, rejected: bool, script: Script, n: nat): (Settled, Option<SubmitError>) {
    match q.source
    case ToolPermission => ContinueTool(l, job, q, script, n)
    case PlanApproval => ContinuePlan(l, m, q, rejected, script, n)
    case _ => ContinueQuestion(l, m, q.session, script, n)
  }

  function Receive(l: Ledger, m: Inbound, route: Route, script: Script, n: nat): Settled {
    var k := SetRun(l, m, Running);
    match route
    case Supervised(session, id, prompt, askedAt) =>
      Settled(Publish(Put(k, m, PlanQuestion(m, id, session, prompt, askedAt)), Asked(m.id, id)), true, n)
    case Execute(session) =>
      var (c, v) := ExecuteInitial(k, m, session, script, n);
      if v.None? then Settled(c, true, n + 1)
      else Handle(Ensured(c, m), m, session, v.value, script, n + 1)
    case _ => Settled(k, true, n)
  }

  /** Accepting an answer shuts the card at once, unless it asks for a tool permission. */
  function SubmitAnswer(l: Ledger, job: Job, answer: QuestionId): (Ledger, Result) {
    var found := QuestionOn(l, job);
    if found.None? then (l, Err(NoPendingQuestion))
    else if found.value.id != answer then (l, Err(QuestionIdMismatch(found.value.id)))
    else
      var q := found.value.(answered := true);
      (if q.source == ToolPermission then l else l.(cards := ShutCard(l.cards, q.id)), Ok(q))
  }

  function SubmitQuestionAnswer(l: Ledger, job: Job, question: QuestionId, rejected: bool, script: Script, n: nat): (Settled, Result) {
    var (k, r) := SubmitAnswer(l, job, question);
    if r.Err? then (Settled(k, false, n), r)
    else if r.question.inbound.None? then (Settled(k, false, n), Err(MissingInbound))
    else
      var c := Publish(k, Accepted(job, question, r.question.source));
      var (h, e) := Continue(c, job, r.question.inbound.value, r.question, rejected, script, n);
      (h, if e.Some? then Err(e.value) else r)
  }

  function Apply(l: Ledger, step: Step, script: Script, n: nat): (Settled, Reply) {
    match step
    case OnMessage(m, route) => (Receive(l, m, route, script, n), Nothing)
    case OnAnswer(job, question, rejected) =>
      var (h, r) := SubmitQuestionAnswer(l, job, question, rejected, script, n);
      (h, Answered(r))
    case OnQueryQuestion(job, _) => (Settled(l, true, n), QuestionIs(QuestionOn(l, job)))
    case OnQueryTool(question) => (Settled(l, true, n), ToolIs(ToolOn(l, question)))
    case OnLoss(_) => (Settled(l, true, n), Nothing)
  }

  function Run(l: Ledger, steps: seq<Step>, script: Script, n: nat): Ledger
    decreases |steps|
  {
    if steps == [] then l
    else
      var h := Apply(l, steps[0], script, n).0;
      Run(h.ledger, steps[1..], script, h.next)
  }

  function Replies(l: Ledger, steps: seq<Step>, script: Script, n: nat): seq<Reply>
    decreases |steps|
  {
    if steps == [] then []
    else
      var (h, r) := Apply(l, steps[0], script, n);
      [r] + Replies(h.ledger, steps[1..], script, h.next)
  }

  function New(registry: bool): Ledger {
    Ledger(registry, map[], map[], map[], map[], [])
  }

  /** A message is new to the ledger if its job has no run yet. */
  predicate FreshStep(l: Ledger, step: Step) {
    step.OnMessage? ==> RunId(step.m.id) !in l.runs
  }

  ghost predicate FreshRun(l: Ledger, steps: seq<Step>, script: Script, n: nat)
    decreases |steps|
  {
    steps == [] ||
      (FreshStep(l, steps[0]) && var h := Apply(l, steps[0], script, n).0; FreshRun(h.ledger, steps[1..], script, h.next))
  }
}
