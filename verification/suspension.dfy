/**
 Pending questions and suspended tool calls: what `SuspensionCoordinator` keeps in its two
 caches and writes to the store, and how it rebuilds either from the store alone.
 */
module SuspensionSpec {
  import opened Prelude
  import opened RuntimeStore

  datatype Source = UpstreamQuestion | ToolPermission | SubtaskBlocked | PlanApproval

  datatype Question = Question(id: QuestionId, job: Job, session: string, prompt: string, options: seq<string>,
    raw: Raw, source: Source, askedAt: nat, answered: bool, inbound: Option<Inbound>)

  /** A suspended tool call with what it takes to resume it. */
  datatype Tool = Tool(invocation: InvocationId, toolName: string, toolUse: string, prompt: string, options: seq<string>,
    iterations: nat, inbound: Inbound, session: string)

  datatype Suspensions = Suspensions(snap: Snapshot, pending: map<Job, Question>, tools: map<QuestionId, Tool>)

  datatype SubmitError = NoPendingQuestion | QuestionIdMismatch(expected: QuestionId) | MissingInbound | ContinuationFailed | ExecutionFailed

  datatype Result = Ok(question: Question) | Err(error: SubmitError)

  const BLANK_RAW := Raw(RawOther, false, None, None, None, None, None, None)

  function Or<T>(o: Option<T>, d: T): T {
    if o.Some? then o.value else d
  }

  // ── Store writes ───────────────────────────────────────────────────

  function UpsertRun(s: Snapshot, m: Inbound, status: RunStatus): Snapshot {
    Reduce(s, RunUpserted(RunRecord(m.id, m.chat, m.channel, status)))
  }

  /** A stored question keeps its own keys; missing ones are filled in from the message. */
  function Filled(raw: Raw, session: string, m: Inbound): Raw {
    raw.(session := Some(Or(raw.session, session)), request := Some(Or(raw.request, m.content)),
         sender := Some(Or(raw.sender, m.sender)), channel := Some(Or(raw.channel, m.channel)))
  }

  function Record(m: Inbound, q: Question, invocation: Option<InvocationId>, kind: SuspensionKind, status: SuspensionStatus,
      createdAt: nat): Suspension {
    Suspension(RunId(m.id), q.id, invocation, kind, status, q.prompt, q.options, Filled(q.raw, q.session, m), createdAt)
  }

  /** `upsert_suspension`: a record that is there keeps its creation time. */
  function UpsertSuspension(s: Snapshot, m: Inbound, q: Question, invocation: Option<InvocationId>,
      kind: SuspensionKind, status: SuspensionStatus): Snapshot {
    var id := SuspensionId(q.id);
    var createdAt := if id in s.suspensions then s.suspensions[id].createdAt else q.askedAt;
    Reduce(s, SuspensionUpserted(Record(m, q, invocation, kind, status, createdAt)))
  }

  function KindOf(source: Source): SuspensionKind {
    match source
    case ToolPermission => OfTool
    case SubtaskBlocked => OfSubtask
    case PlanApproval => OfApproval
    case UpstreamQuestion => OfQuestion
  }

  // ── Asking ─────────────────────────────────────────────────────────

  function StoreQuestion(s: Suspensions, job: Job, q: Question): Suspensions {
    s.(snap := if q.inbound.Some?
               then UpsertSuspension(s.snap, q.inbound.value, q, q.raw.invocation, KindOf(q.source), Active) else s.snap,
       pending := s.pending[job := q])
  }

  function PlanQuestion(m: Inbound, id: QuestionId, session: string, prompt: string, askedAt: nat): Question {
    Question(id, m.id, session, prompt, ["approved", "rejected"], BLANK_RAW.(tag := RawPlan, plan := true), PlanApproval, askedAt, false, Some(m))
  }

  function BlockedQuestion(m: Inbound, id: QuestionId, session: string, prompt: string, options: seq<string>, askedAt: nat): Question {
    Question(id, m.id, session, prompt, options, BLANK_RAW, SubtaskBlocked, askedAt, false, Some(m))
  }

  function ToolRaw(t: Tool): Raw {
    BLANK_RAW.(tag := RawTool, invocation := Some(t.invocation), toolUse := Some(t.toolUse))
  }

  function ToolQuestion(id: QuestionId, t: Tool, askedAt: nat): Question {
    Question(id, t.inbound.id, t.session, t.prompt, ["allow", "deny"], ToolRaw(t), ToolPermission, askedAt, false, Some(t.inbound))
  }

  function StoreTool(s: Suspensions, id: QuestionId, t: Tool, askedAt: nat): Suspensions {
    var snap := UpsertSuspension(s.snap, t.inbound, ToolQuestion(id, t, askedAt), Some(t.invocation), OfTool, Active);
    s.(snap := Reduce(snap, InvocationUpserted(t.invocation, Invocation(t.toolName, Some(t.toolUse)))),
       tools := s.tools[id := t])
  }

  // ── Rebuilding from the store ──────────────────────────────────────

  /** The open suspensions of a run. */
  function OpenOf(s: Snapshot, run: RunId): set<SuspensionId> {
    set i | i in s.suspensions && s.suspensions[i].run == run && s.suspensions[i].status == Active
  }

  lemma {:induction false} HasLeast(ids: set<SuspensionId>)
    requires ids != {}
    ensures exists i :: i in ids && forall j :: j in ids ==> i.question <= j.question
    decreases ids
  {
    var x :| x in ids;
    var rest := ids - {x};
    assert ids == rest + {x};
    if rest == {} {
      assert forall j :: j in ids ==> j == x;
    } else {
      HasLeast(rest);
      var y :| y in rest && forall j :: j in rest ==> y.question <= j.question;
      assert forall j :: j in ids ==> j == x || j in rest;
      var i := if x.question <= y.question then x else y;
      assert i in ids;
    }
  }

  /** The record an unordered `find` meets first could be any of them; the least id stands for it. */
  function First(ids: set<SuspensionId>): (i: SuspensionId)
    requires ids != {}
    ensures i in ids
  {
    HasLeast(ids);
    var i :| i in ids && forall j :: j in ids ==> i.question <= j.question; i
  }

  function SourceOf(rec: Suspension): Source {
    if rec.kind == OfTool || rec.raw.tag == RawTool then ToolPermission
    else if rec.kind == OfApproval || rec.raw.tag == RawPlan then PlanApproval
    else UpstreamQuestion
  }

  function InboundOf(rec: Suspension, run: RunRecord, job: Job): Inbound {
    Inbound(job, run.chat, Or(rec.raw.channel, "unknown"), Or(rec.raw.sender, "unknown"), Or(rec.raw.request, ""))
  }

  function QuestionFrom(rec: Suspension, run: RunRecord, job: Job): Question {
    Question(rec.question, job, Or(rec.raw.session, ""), rec.prompt, rec.options, rec.raw, SourceOf(rec), rec.createdAt,
             rec.status == Resolved, Some(InboundOf(rec, run, job)))
  }

  function RebuildQuestion(s: Snapshot, job: Job): Option<Question> {
    var open := OpenOf(s, RunId(job));
    if RunId(job) !in s.runs || open == {} then None
    else Some(QuestionFrom(s.suspensions[First(open)], s.runs[RunId(job)], job))
  }

  function ToolFrom(rec: Suspension, runs: map<RunId, RunRecord>, invocations: map<InvocationId, Invocation>): Option<Tool> {
    if rec.invocation.None? || rec.invocation.value !in invocations || rec.run !in runs then None
    else
      var inv := invocations[rec.invocation.value];
      var toolUse := if inv.toolUse.Some? then inv.toolUse else rec.raw.toolUse;
      if toolUse.None? then None
      else Some(Tool(rec.invocation.value, inv.toolName, toolUse.value, rec.prompt, rec.options, 0,
                     InboundOf(rec, runs[rec.run], runs[rec.run].job), Or(rec.raw.session, "")))
  }

  function RebuildTool(s: Snapshot, q: QuestionId): Option<Tool> {
    if q !in s.suspensionOfQuestion || s.suspensionOfQuestion[q] !in s.suspensions then None
    else
      var rec := s.suspensions[s.suspensionOfQuestion[q]];
      if rec.status != Active then None else ToolFrom(rec, s.runs, s.invocations)
  }

  // ── Looking up, through the caches ─────────────────────────────────

  function QuestionState(s: Suspensions, job: Job, hydrate: bool): (Suspensions, Option<Question>) {
    if job in s.snap.runOfJob then
      var rebuilt := RebuildQuestion(s.snap, job);
      (if rebuilt.None? then s.(pending := s.pending - {job})
       else if hydrate then s.(pending := s.pending[job := rebuilt.value]) else s,
       rebuilt)
    else (s, if job in s.pending then Some(s.pending[job]) else None)
  }

  function ToolState(s: Suspensions, q: QuestionId): (Suspensions, Option<Tool>) {
    if q in s.snap.suspensionOfQuestion then
      var rebuilt := RebuildTool(s.snap, q);
      (s.(tools := if rebuilt.Some? then s.tools[q := rebuilt.value] else s.tools - {q}), rebuilt)
    else (s, if q in s.tools then Some(s.tools[q]) else None)
  }

  // ── Clearing and answering ─────────────────────────────────────────

  function ClearQuestion(s: Suspensions, job: Job): Suspensions {
    var found := if job in s.pending then Some(s.pending[job]) else RebuildQuestion(s.snap, job);
    s.(snap := if found.Some? && found.value.inbound.Some?
               then UpsertSuspension(s.snap, found.value.inbound.value, found.value, None,
                                     if found.value.source == SubtaskBlocked then OfSubtask else OfQuestion, Cleared)
               else s.snap,
       pending := s.pending - {job})
  }

  function ClearTool(s: Suspensions, q: QuestionId, now: nat): Suspensions {
    var found := if q in s.tools then Some(s.tools[q]) else RebuildTool(s.snap, q);
    s.(snap := if found.Some?
               then UpsertSuspension(s.snap, found.value.inbound,
                      ToolQuestion(q, found.value, now).(raw := ToolRaw(found.value).(invocation := None)),
                      Some(found.value.invocation), OfTool, Cleared)
               else s.snap,
       tools := s.tools - {q})
  }

  /** Everything but a tool permission is resolved at once; a tool permission stays open until the tool is resumed. */
  function SubmitAnswer(s: Suspensions, job: Job, answer: QuestionId): (Suspensions, Result) {
    var (t, found) := QuestionState(s, job, true);
    if found.None? then (t, Err(NoPendingQuestion))
    else if found.value.id != answer then (t, Err(QuestionIdMismatch(found.value.id)))
    else
      var q := found.value.(answered := true);
      var u := t.(pending := t.pending[job := q]);
      if q.inbound.None? then (u, Err(MissingInbound))
      else if q.source == ToolPermission then (u, Ok(q))
      else (u.(snap := UpsertSuspension(u.snap, q.inbound.value, q, None, KindOf(q.source), Resolved)), Ok(q))
  }

  /** The caches forget: `evict_cache_for_testing` drops one job's entries, a restart all of them. */
  function Forget(s: Suspensions, jobs: set<Job>, questions: set<QuestionId>): Suspensions {
    s.(pending := s.pending - jobs, tools := s.tools - questions)
  }

  function Evict(s: Suspensions, job: Job): Suspensions {
    if job in s.pending then Forget(s, {job}, {s.pending[job].id}) else s
  }
}
