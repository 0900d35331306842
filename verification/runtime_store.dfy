/**
 The record store behind the question and follow-up protocol: runs, suspensions, tool
 invocations and requirements, changed only by upsert events. Record ids are a fixed prefix in
 front of a job or question id, so they are tagged values here; only the fields the protocol
 reads are kept.
 */
module RuntimeStore {
  import opened Prelude

  type Job = string

  /** Question ids are only ever compared. */
  type QuestionId = nat

  type InvocationId = string

  type Fingerprint = string

  datatype RunId = RunId(job: Job)

  datatype SuspensionId = SuspensionId(question: QuestionId)

  datatype RequirementId = RequirementId(job: Job)

  /** An inbound message; its id is the job id. */
  datatype Inbound = Inbound(id: Job, chat: Option<string>, channel: string, sender: string, content: string)

  datatype RunStatus = Running | Completed

  datatype RunRecord = RunRecord(job: Job, chat: Option<string>, channel: string, status: RunStatus)

  datatype SuspensionKind = OfQuestion | OfTool | OfSubtask | OfApproval

  datatype SuspensionStatus = Active | Resolved | Cleared

  /** The `type` of a raw question, as far as the protocol looks at it. */
  datatype RawType = RawTool | RawPlan | RawOther

  /** The JSON object behind a question: the keys the protocol reads, `plan` telling whether a plan can be restored. */
  datatype Raw = Raw(tag: RawType, plan: bool, invocation: Option<InvocationId>, toolUse: Option<string>,
    session: Option<string>, request: Option<string>, sender: Option<string>, channel: Option<string>)

  datatype Suspension = Suspension(run: RunId, question: QuestionId, invocation: Option<InvocationId>,
    kind: SuspensionKind, status: SuspensionStatus, prompt: string, options: seq<string>, raw: Raw, createdAt: nat)

  datatype Invocation = Invocation(toolName: string, toolUse: Option<string>)

  datatype RequirementStatus = RequirementActive | Satisfied | WaitingUserInput | FollowupScheduled | Exhausted

  datatype Requirement = Requirement(job: Job, request: string, attempted: nat, max: nat,
    lastFingerprint: Option<Fingerprint>, lastReason: Option<string>, status: RequirementStatus)

  datatype Snapshot = Snapshot(runs: map<RunId, RunRecord>, suspensions: map<SuspensionId, Suspension>,
    invocations: map<InvocationId, Invocation>, requirements: map<RequirementId, Requirement>,
    runOfJob: map<Job, RunId>, suspensionOfQuestion: map<QuestionId, SuspensionId>)

  const EMPTY := Snapshot(map[], map[], map[], map[], map[], map[])

  datatype DomainEvent =
    | RunUpserted(run: RunRecord)
    | SuspensionUpserted(suspension: Suspension)
    | InvocationUpserted(id: InvocationId, invocation: Invocation)
    | RequirementUpserted(requirement: Requirement)

  /** `reduce_event`: insertion by id, and the two indexes the protocol asks. */
  function Reduce(s: Snapshot, e: DomainEvent): Snapshot {
    match e
    case RunUpserted(run) =>
      s.(runOfJob := s.runOfJob[run.job := RunId(run.job)], runs := s.runs[RunId(run.job) := run])
    case SuspensionUpserted(suspension) =>
      var id := SuspensionId(suspension.question);
      s.(suspensionOfQuestion := s.suspensionOfQuestion[suspension.question := id],
         suspensions := s.suspensions[id := suspension])
    case InvocationUpserted(id, invocation) =>
      s.(invocations := s.invocations[id := invocation])
    case RequirementUpserted(requirement) =>
      s.(requirements := s.requirements[RequirementId(requirement.job) := requirement])
  }

  ghost predicate RunsIndexed(runs: map<RunId, RunRecord>, index: map<Job, RunId>) {
    && (forall j :: j in index <==> RunId(j) in runs)
    && (forall j :: j in index ==> index[j] == RunId(j))
    && (forall r :: r in runs ==> runs[r].job == r.job)
  }

  ghost predicate SuspensionsIndexed(suspensions: map<SuspensionId, Suspension>, index: map<QuestionId, SuspensionId>) {
    && (forall q :: q in index <==> SuspensionId(q) in suspensions)
    && (forall q :: q in index ==> index[q] == SuspensionId(q))
    && (forall i :: i in suspensions ==> suspensions[i].question == i.question)
  }

  ghost predicate OwnersKnown(suspensions: map<SuspensionId, Suspension>, runs: map<RunId, RunRecord>) {
    forall i :: i in suspensions ==> suspensions[i].run in runs
  }

  /** Both indexes and all records agree, and every suspension belongs to a known run. */
  ghost predicate Indexed(s: Snapshot) {
    && RunsIndexed(s.runs, s.runOfJob) && SuspensionsIndexed(s.suspensions, s.suspensionOfQuestion)
    && OwnersKnown(s.suspensions, s.runs)
  }

  class RuntimeStateStore {
    var snapshot: Snapshot

    constructor ()
      ensures snapshot == EMPTY
    {
      snapshot := EMPTY;
    }

    method Append(e: DomainEvent)
      modifies this
      ensures snapshot == Reduce(old(snapshot), e)
    {
      match e {
        case RunUpserted(run) =>
          snapshot := snapshot.(runOfJob := snapshot.runOfJob[run.job := RunId(run.job)]);
          snapshot := snapshot.(runs := snapshot.runs[RunId(run.job) := run]);
        case SuspensionUpserted(suspension) =>
          var id := SuspensionId(suspension.question);
          snapshot := snapshot.(suspensionOfQuestion := snapshot.suspensionOfQuestion[suspension.question := id]);
          snapshot := snapshot.(suspensions := snapshot.suspensions[id := suspension]);
        case InvocationUpserted(id, invocation) =>
          snapshot := snapshot.(invocations := snapshot.invocations[id := invocation]);
        case RequirementUpserted(requirement) =>
          snapshot := snapshot.(requirements := snapshot.requirements[RequirementId(requirement.job) := requirement]);
      }
    }
  }
}
