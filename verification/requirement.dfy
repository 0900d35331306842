/** How far a job's follow-ups have come: the progress cache in front of the requirement records. */
module RequirementSpec {
  import opened Prelude
  import opened RuntimeStore

  datatype Progress = Progress(request: string, attempted: nat, max: nat,
    lastFingerprint: Option<Fingerprint>, lastReason: Option<string>)

  datatype Tracked = Tracked(snap: Snapshot, progress: map<Job, Progress>)

  const MAX_ROUNDS: nat := 3

  function ProgressOf(r: Requirement): Progress {
    Progress(r.request, r.attempted, r.max, r.lastFingerprint, r.lastReason)
  }

  function RequirementOf(job: Job, p: Progress, status: RequirementStatus): Requirement {
    Requirement(job, p.request, p.attempted, p.max, p.lastFingerprint, p.lastReason, status)
  }

  function Rebuild(s: Snapshot, job: Job): Option<Progress> {
    if RequirementId(job) in s.requirements then Some(ProgressOf(s.requirements[RequirementId(job)])) else None
  }

  /** `state`: a stored requirement hides the cache. */
  function State(t: Tracked, job: Job, hydrate: bool): (Tracked, Option<Progress>) {
    if RequirementId(job) in t.snap.requirements then
      var rebuilt := Rebuild(t.snap, job);
      (if hydrate then t.(progress := t.progress[job := rebuilt.value]) else t, rebuilt)
    else (t, if job in t.progress then Some(t.progress[job]) else None)
  }

  function UpsertRequirement(s: Snapshot, job: Job, p: Progress, status: RequirementStatus): Snapshot {
    Reduce(s, RequirementUpserted(RequirementOf(job, p, status)))
  }

  function Ensure(t: Tracked, m: Inbound): (Tracked, Progress) {
    var (u, found) := State(t, m.id, true);
    var p := if found.Some? then found.value else Progress(m.content, 0, MAX_ROUNDS, None, None);
    (Tracked(UpsertRequirement(u.snap, m.id, p, RequirementActive), u.progress[m.id := p]), p)
  }

  /** The new round reaches the store only if the job has a run record. */
  function Update(t: Tracked, job: Job, attempted: nat, fingerprint: Fingerprint, reason: string): Tracked {
    var (u, found) := State(t, job, true);
    if found.None? then u
    else
      var p := found.value.(attempted := attempted, lastFingerprint := Some(fingerprint), lastReason := Some(reason));
      Tracked(if RunId(job) in u.snap.runs then UpsertRequirement(u.snap, job, p, FollowupScheduled) else u.snap,
              u.progress[job := p])
  }

  function Clear(t: Tracked, job: Job): Tracked {
    t.(progress := t.progress - {job})
  }
}
