/**
 The coordinators and the agent as the program has them: one store shared by all, caches and
 event log updated in place, the protocol methods calling each other. Each is proved against
 the functions on the agent's state.
 */
module AgentService {
  import opened Prelude
  import opened RuntimeStore
  import opened SuspensionSpec
  import opened RequirementSpec
  import opened AgentSpec

  class SuspensionCoordinator {
    const store: RuntimeStateStore
    var pending: map<Job, Question>
    var tools: map<QuestionId, Tool>

    function Value(): Suspensions
      reads this, store
    {
      Suspensions(store.snapshot, pending, tools)
    }

    constructor (store: RuntimeStateStore)
      ensures this.store == store && Value() == Suspensions(store.snapshot, map[], map[])
    {
      this.store := store;
      pending, tools := map[], map[];
    }

    /** `RuntimeEventEmitter::upsert_suspension`. */
    method Upsert(m: Inbound, q: Question, invocation: Option<InvocationId>, kind: SuspensionKind, status: SuspensionStatus)
      modifies store
      ensures store.snapshot == UpsertSuspension(old(store.snapshot), m, q, invocation, kind, status)
    {
      var id := SuspensionId(q.id);
      var createdAt := q.askedAt;
      if id in store.snapshot.suspensions { createdAt := store.snapshot.suspensions[id].createdAt; }
      store.Append(SuspensionUpserted(Record(m, q, invocation, kind, status, createdAt)));
    }

    method Store(job: Job, q: Question)
      modifies this, store
      ensures Value() == StoreQuestion(old(Value()), job, q)
    {
      if q.inbound.Some? { Upsert(q.inbound.value, q, q.raw.invocation, KindOf(q.source), Active); }
      pending := pending[job := q];
    }

    method RegisterPlanApproval(m: Inbound, session: string, id: QuestionId, prompt: string, askedAt: nat)
      modifies this, store
      ensures Value() == StoreQuestion(old(Value()), m.id, PlanQuestion(m, id, session, prompt, askedAt))
    {
      var q := Question(id, m.id, session, prompt, ["approved", "rejected"], BLANK_RAW.(tag := RawPlan, plan := true),
                        PlanApproval, askedAt, false, Some(m));
      Upsert(m, q, None, OfApproval, Active);
      pending := pending[m.id := q];
    }

    method RegisterSubtaskBlocked(m: Inbound, session: string, id: QuestionId, prompt: string, options: seq<string>, askedAt: nat)
      modifies this, store
      ensures Value() == StoreQuestion(old(Value()), m.id, BlockedQuestion(m, id, session, prompt, options, askedAt))
    {
      var q := Question(id, m.id, session, prompt, options, BLANK_RAW, SubtaskBlocked, askedAt, false, Some(m));
      Upsert(m, q, None, OfSubtask, Active);
      pending := pending[m.id := q];
    }

    method StoreToolInvocation(id: QuestionId, t: Tool, askedAt: nat)
      modifies this, store
      ensures Value() == StoreTool(old(Value()), id, t, askedAt)
    {
      Upsert(t.inbound, ToolQuestion(id, t, askedAt), Some(t.invocation), OfTool, Active);
      store.Append(InvocationUpserted(t.invocation, Invocation(t.toolName, Some(t.toolUse))));
      tools := tools[id := t];
    }

    /** `question_state`. */
    method FindQuestion(job: Job, hydrate: bool) returns (q: Option<Question>)
      modifies this
      ensures (Value(), q) == QuestionState(old(Value()), job, hydrate)
    {
      if job in store.snapshot.runOfJob {
        q := RebuildQuestion(store.snapshot, job);
        if q.None? {
          pending := pending - {job};
        } else if hydrate {
          pending := pending[job := q.value];
        }
      } else {
        q := if job in pending then Some(pending[job]) else None;
      }
    }

    /** `tool_invocation_state`. */
    method FindTool(question: QuestionId) returns (t: Option<Tool>)
      modifies this
      ensures (Value(), t) == ToolState(old(Value()), question)
    {
      if question in store.snapshot.suspensionOfQuestion {
        t := RebuildTool(store.snapshot, question);
        if t.Some? { tools := tools[question := t.value]; } else { tools := tools - {question}; }
      } else {
        t := if question in tools then Some(tools[question]) else None;
      }
    }

    method Clear(job: Job)
      modifies this, store
      ensures Value() == ClearQuestion(old(Value()), job)
    {
      var found := if job in pending then Some(pending[job]) else RebuildQuestion(store.snapshot, job);
      pending := pending - {job};
      if found.Some? && found.value.inbound.Some? {
        var kind := if found.value.source == SubtaskBlocked then OfSubtask else OfQuestion;
        Upsert(found.value.inbound.value, found.value, None, kind, Cleared);
      }
    }

    method ClearToolInvocation(question: QuestionId, now: nat)
      modifies this, store
      ensures Value() == ClearTool(old(Value()), question, now)
    {
      var found := if question in tools then Some(tools[question]) else RebuildTool(store.snapshot, question);
      tools := tools - {question};
      if found.Some? {
        var t := found.value;
        Upsert(t.inbound, ToolQuestion(question, t, now).(raw := ToolRaw(t).(invocation := None)), Some(t.invocation), OfTool, Cleared);
      }
    }

    method Submit(job: Job, answer: QuestionId) returns (r: Result)
      modifies this, store
      ensures (Value(), r) == SubmitAnswer(old(Value()), job, answer)
    {
      var found := FindQuestion(job, true);
      if found.None? { return Err(NoPendingQuestion); }
      if found.value.id != answer { return Err(QuestionIdMismatch(found.value.id)); }
      var q := found.value.(answered := true);
      pending := pending[job := q];
      if q.inbound.None? { return Err(MissingInbound); }
      if q.source != ToolPermission { Upsert(q.inbound.value, q, None, KindOf(q.source), Resolved); }
      r := Ok(q);
    }

    /** `evict_cache_for_testing`. */
    method EvictCache(job: Job)
      modifies this
      ensures Value() == Evict(old(Value()), job)
    {
      if job in pending {
        var q := pending[job];
        pending := pending - {job};
        tools := tools - {q.id};
      }
    }
  }

  class RequirementCoordinator {
    const store: RuntimeStateStore
    var progress: map<Job, Progress>

    function Value(): Tracked
      reads this, store
    {
      Tracked(store.snapshot, progress)
    }

    constructor (store: RuntimeStateStore)
      ensures this.store == store && Value() == Tracked(store.snapshot, map[])
    {
      this.store := store;
      progress := map[];
    }

    method Find(job: Job, hydrate: bool) returns (p: Option<Progress>)
      modifies this
      ensures (Value(), p) == State(old(Value()), job, hydrate)
    {
      if RequirementId(job) in store.snapshot.requirements {
        p := Rebuild(store.snapshot, job);
        if hydrate { progress := progress[job := p.value]; }
      } else {
        p := if job in progress then Some(progress[job]) else None;
      }
    }

    method Upsert(job: Job, p: Progress, status: RequirementStatus)
      modifies store
      ensures store.snapshot == UpsertRequirement(old(store.snapshot), job, p, status)
    {
      store.Append(RequirementUpserted(RequirementOf(job, p, status)));
    }

    method EnsureFor(m: Inbound) returns (p: Progress)
      modifies this, store
      ensures (Value(), p) == Ensure(old(Value()), m)
    {
      var found := Find(m.id, true);
      p := if found.Some? then found.value else Progress(m.content, 0, MAX_ROUNDS, None, None);
      progress := progress[m.id := p];
      Upsert(m.id, p, RequirementActive);
    }

    method UpdateFor(job: Job, attempted: nat, fingerprint: Fingerprint, reason: string)
      modifies this, store
      ensures Value() == Update(old(Value()), job, attempted, fingerprint, reason)
    {
      var found := Find(job, true);
      if found.None? { return; }
      var p := found.value.(attempted := attempted, lastFingerprint := Some(fingerprint), lastReason := Some(reason));
      progress := progress[job := p];
      if RunId(job) in store.snapshot.runs { Upsert(job, p, FollowupScheduled); }
    }

    method ClearFor(job: Job)
      modifies this
      ensures Value() == Clear(old(Value()), job)
    {
      progress := progress - {job};
    }
  }

  class CoreAgent {
    const registry: bool
    const store: RuntimeStateStore
    const suspension: SuspensionCoordinator
    const requirement: RequirementCoordinator
    var log: seq<Event>

    predicate Valid() {
      suspension.store == store && requirement.store == store
    }

    function Value(): Agent
      reads this, store, suspension, requirement
    {
      Agent(registry, store.snapshot, suspension.pending, suspension.tools, requirement.progress, log)
    }

    constructor (registry: bool)
      ensures Valid() && Value() == New(registry) && fresh(store) && fresh(suspension) && fresh(requirement)
    {
      var s := new RuntimeStateStore();
      var q := new SuspensionCoordinator(s);
      var r := new RequirementCoordinator(s);
      this.registry, store, suspension, requirement, log := registry, s, q, r, [];
    }

    /** Cache entries disappear while a call is under way. */
    method LoseEntries(l: Lost)
      requires Valid()
      modifies suspension, requirement
      ensures Value() == Lose(old(Value()), l)
    {
      suspension.pending := suspension.pending - l.jobs;
      suspension.tools := suspension.tools - l.questions;
      requirement.progress := requirement.progress - l.progress;
    }

    method PublishEvent(e: Event)
      modifies this
      ensures Value() == Publish(old(Value()), e)
    {
      log := log + [e];
    }

    /** `upsert_run`; a new turn writes its run the same way. */
    method WriteRun(m: Inbound, status: RunStatus)
      requires Valid()
      modifies store
      ensures Value() == SetRun(old(Value()), m, status)
    {
      store.Append(RunUpserted(RunRecord(m.id, m.chat, m.channel, status)));
    }

    method AskUser(m: Inbound, session: string, v: Verdict)
      requires Valid() && v.NeedsInput?
      modifies this, store, suspension, requirement
      ensures Value() == Ask(old(Value()), m, session, v)
    {
      suspension.Store(m.id, UpQuestion(m, session, v));
      WriteRun(m, Running);
      var p := requirement.Find(m.id, false);
      if p.Some? { requirement.Upsert(m.id, p.value, WaitingUserInput); }
      PublishEvent(Asked(m.id, v.id));
    }

    method CompleteJob(m: Inbound)
      requires Valid()
      modifies this, store, suspension, requirement
      ensures Value() == Complete(old(Value()), m)
    {
      var p := requirement.Find(m.id, false);
      suspension.Clear(m.id);
      requirement.ClearFor(m.id);
      WriteRun(m, Completed);
      if p.Some? { requirement.Upsert(m.id, p.value, Satisfied); }
      PublishEvent(Finished(m.id));
    }

    method GiveUp(m: Inbound, p: Progress, fingerprint: Fingerprint, reason: string)
      requires Valid()
      modifies this, store, suspension, requirement
      ensures Value() == Exhaust(old(Value()), m, p, fingerprint, reason)
    {
      requirement.UpdateFor(m.id, p.attempted + 1, fingerprint, reason);
      requirement.Upsert(m.id, p, RequirementStatus.Exhausted);
      WriteRun(m, Running);
      PublishEvent(GaveUp(m.id));
    }

    method PrepareFollowup(m: Inbound) returns (p: Progress)
      requires Valid()
      modifies this, store, suspension, requirement
      ensures (Value(), p) == Prepare(old(Value()), m)
    {
      p := requirement.EnsureFor(m);
      WriteRun(m, Running);
      requirement.Upsert(m.id, p, FollowupScheduled);
    }

    method StartFollowup(m: Inbound, p: Progress, fingerprint: Fingerprint, reason: string)
      requires Valid()
      modifies this, store, suspension, requirement
      ensures Value() == Start(old(Value()), m, p, fingerprint, reason)
    {
      requirement.UpdateFor(m.id, p.attempted + 1, fingerprint, reason);
      PublishEvent(Scheduled(m.id, fingerprint, reason));
      if !registry { var _ := requirement.EnsureFor(m); }
    }

    method HandleResult(m: Inbound, session: string, v: Verdict, script: Script, lost: nat -> Lost, n: nat) returns (ok: bool, next: nat)
      requires Valid()
      modifies this, store, suspension, requirement
      ensures Handled(Value(), ok, next) == Handle(old(Value()), m, session, v, script, lost, n)
      decreases Budget(Req(Value()), m.id), 1
    {
      ok, next := true, n;
      if v.Blocked? {
        suspension.RegisterSubtaskBlocked(m, session, v.id, v.prompt, v.options, v.askedAt);
        PublishEvent(Asked(m.id, v.id));
      } else {
        RunKeepsBudget(Value(), m);
        var _ := requirement.EnsureFor(m);
        WriteRun(m, Running);
        if v.Done? {
          CompleteJob(m);
        } else if v.NeedsInput? {
          AskUser(m, session, v);
        } else {
          ok, next := ScheduleFollowup(m, session, v.fingerprint, v.reason, script, lost, n);
        }
      }
    }

    method ScheduleFollowup(m: Inbound, session: string, fingerprint: Fingerprint, reason: string, script: Script, lost: nat -> Lost, n: nat)
      returns (ok: bool, next: nat)
      requires Valid()
      modifies this, store, suspension, requirement
      ensures Handled(Value(), ok, next) == Followup(old(Value()), m, session, fingerprint, reason, script, lost, n)
      decreases Budget(Req(Value()), m.id), 0
    {
      ok, next := true, n;
      ghost var a := Value();
      var p := PrepareFollowup(m);
      if Hopeless(p, fingerprint) {
        GiveUp(m, p, fingerprint, reason);
      } else {
        FollowupShrinksBudget(a, m, fingerprint, reason, lost(n));
        StartFollowup(m, p, fingerprint, reason);
        LoseEntries(lost(n));
        next := n + 1;
        match script(n)
        case Unreachable => ok := false;
        case Success(v) => ok, next := HandleResult(m, session, v, script, lost, n + 1);
        case _ => WriteRun(m, Running);
      }
    }

    method AskToolPermission(job: Job, m: Inbound, session: string, id: QuestionId, c: Call, askedAt: nat)
      requires Valid()
      modifies this, store, suspension
      ensures Value() == AskTool(old(Value()), job, m, session, id, c, askedAt)
    {
      suspension.Store(job, CallQuestion(m, session, id, c, askedAt));
      suspension.StoreToolInvocation(id, ToolOf(m, session, c), askedAt);
    }

    method ExecutePlan(m: Inbound, session: string, script: Script, lost: nat -> Lost, n: nat) returns (v: Option<Verdict>)
      requires Valid()
      modifies this, store, suspension, requirement
      ensures (Value(), v) == ExecuteInitial(old(Value()), m, session, script, lost, n)
    {
      LoseEntries(lost(n));
      match script(n)
      case Success(w) => v := Some(w);
      case Suspends(id, c, askedAt) =>
        AskToolPermission(m.id, m, session, id, c, askedAt);
        PublishEvent(Asked(m.id, id));
        v := Some(ToolVerdict(m, session, id, c, askedAt));
      case _ => v := None;
    }

    method ContinueWithAnswer(m: Inbound, session: string, script: Script, lost: nat -> Lost, n: nat)
      returns (ok: bool, next: nat, e: Option<SubmitError>)
      requires Valid()
      modifies this, store, suspension, requirement
      ensures (Handled(Value(), ok, next), e) == ContinueQuestion(old(Value()), m, session, script, lost, n)
    {
      var _ := requirement.EnsureFor(m);
      LoseEntries(lost(n));
      if !script(n).Success? { return false, n + 1, Some(ContinuationFailed); }
      ok, next := HandleResult(m, session, script(n).verdict, script, lost, n + 1);
      e := if ok then None else Some(ExecutionFailed);
    }

    method ContinueWithPlan(m: Inbound, q: Question, rejected: bool, script: Script, lost: nat -> Lost, n: nat)
      returns (ok: bool, next: nat, e: Option<SubmitError>)
      requires Valid()
      modifies this, store, suspension, requirement
      ensures (Handled(Value(), ok, next), e) == ContinuePlan(old(Value()), m, q, rejected, script, lost, n)
    {
      if rejected { return true, n, None; }
      if !q.raw.plan { return false, n, Some(ContinuationFailed); }
      var v := ExecutePlan(m, q.session, script, lost, n);
      ok, next := HandleResult(m, q.session, if v.Some? then v.value else NeedsFollowup(NO_RESULT, "no result"), script, lost, n + 1);
      e := if ok then None else Some(ExecutionFailed);
    }

    method FinishToolPermission(job: Job, q: QuestionId, t: Tool, now: nat)
      requires Valid()
      modifies this, store, suspension
      ensures Value() == FinishTool(old(Value()), job, q, t, now)
    {
      suspension.Clear(job);
      suspension.ClearToolInvocation(q, now);
      WriteRun(t.inbound, Completed);
      PublishEvent(Finished(job));
    }

    method ResuspendToolPermission(job: Job, q: QuestionId, t: Tool, id: QuestionId, c: Call, now: nat)
      requires Valid()
      modifies this, store, suspension
      ensures Value() == Resuspend(old(Value()), job, q, t, id, c, now)
    {
      AskToolPermission(job, t.inbound, t.session, id, c, now);
      suspension.ClearToolInvocation(q, now);
      PublishEvent(Asked(job, id));
    }

    method ContinueWithTool(job: Job, q: Question, script: Script, lost: nat -> Lost, n: nat)
      returns (ok: bool, next: nat, e: Option<SubmitError>)
      requires Valid()
      modifies this, store, suspension, requirement
      ensures (Handled(Value(), ok, next), e) == ContinueTool(old(Value()), job, q, script, lost, n)
    {
      var t := suspension.FindTool(q.id);
      if t.None? { return false, n, Some(ContinuationFailed); }
      LoseEntries(lost(n));
      if !script(n).Success? { return false, n + 1, Some(ContinuationFailed); }
      suspension.Upsert(t.value.inbound, q, Some(t.value.invocation), OfTool, Resolved);
      LoseEntries(lost(n + 1));
      ok, next, e := true, n + 2, None;
      match script(n + 1)
      case Success(_) => FinishToolPermission(job, q.id, t.value, q.askedAt);
      case Suspends(id, call, askedAt) => ResuspendToolPermission(job, q.id, t.value, id, call, askedAt);
      case _ => ok, e := false, Some(ContinuationFailed);
    }

    /** `submit_question_answer`. */
    method SubmitQuestionAnswer(job: Job, question: QuestionId, rejected: bool, script: Script, lost: nat -> Lost, n: nat)
      returns (ok: bool, next: nat, r: Result)
      requires Valid()
      modifies this, store, suspension, requirement
      ensures (Handled(Value(), ok, next), r) == AgentSpec.SubmitQuestionAnswer(old(Value()), job, question, rejected, script, lost, n)
    {
      r := suspension.Submit(job, question);
      if r.Err? { return false, n, r; }
      if r.question.inbound.None? { return false, n, Err(MissingInbound); }
      PublishEvent(Accepted(job, question, r.question.source));
      var e;
      match r.question.source {
        case ToolPermission => ok, next, e := ContinueWithTool(job, r.question, script, lost, n);
        case PlanApproval => ok, next, e := ContinueWithPlan(r.question.inbound.value, r.question, rejected, script, lost, n);
        case _ => ok, next, e := ContinueWithAnswer(r.question.inbound.value, r.question.session, script, lost, n);
      }
      if e.Some? { r := Err(e.value); }
    }

    /** `process_inbound_message_flow`. */
    method ProcessInbound(m: Inbound, route: Route, script: Script, lost: nat -> Lost, n: nat) returns (ok: bool, next: nat)
      requires Valid()
      modifies this, store, suspension, requirement
      ensures Handled(Value(), ok, next) == Receive(old(Value()), m, route, script, lost, n)
    {
      ok, next := true, n;
      WriteRun(m, Running);
      match route
      case Supervised(session, id, prompt, askedAt) =>
        suspension.RegisterPlanApproval(m, session, id, prompt, askedAt);
        PublishEvent(Asked(m.id, id));
      case Execute(session) =>
        var v := ExecutePlan(m, session, script, lost, n);
        next := n + 1;
        if v.Some? {
          var _ := requirement.EnsureFor(m);
          ok, next := HandleResult(m, session, v.value, script, lost, n + 1);
        }
      case _ =>
    }
  }
}
