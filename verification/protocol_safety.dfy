/** What holds of every agent a run can reach, caches, losses and all. */
module ProtocolSafety {
  import opened Prelude
  import opened RuntimeStore
  import opened SuspensionSpec
  import opened RequirementSpec
  import opened AgentSpec
  import opened OneOpenQuestion
  import opened FollowupBudget
  import opened Refinement
  import opened CacheTransparency
  import A = AgentSpec
  import L = Ledgers
  import opened Ledgers

  /** The agent after a run from the beginning. */
  function Reached(registry: bool, steps: seq<Step>, script: Script, lost: nat -> Lost): Agent {
    A.Run(A.New(registry), steps, script, lost, 0)
  }

  lemma NewIsSound(registry: bool)
    ensures var a := A.New(registry); Cached(a) && Ordered(LedgerOf(a)) && Counted(LedgerOf(a)) && LedgerOf(a) == L.New(registry)
  {
  }

  lemma {:induction false} NewIsFresh(registry: bool, steps: seq<Step>, script: Script)
    requires DistinctMessages(steps)
    ensures FreshRun(L.New(registry), steps, script, 0)
  {
    NewIsSound(registry);
    DistinctIsFresh(L.New(registry), steps, script, 0);
  }

  lemma ReachedIsSound(registry: bool, steps: seq<Step>, script: Script, lost: nat -> Lost)
    requires DistinctMessages(steps)
    ensures var a := Reached(registry, steps, script, lost); Cached(a) && Ordered(LedgerOf(a)) && Counted(LedgerOf(a))
  {
    NewIsSound(registry);
    NewIsFresh(registry, steps, script);
    RunsRefine(A.New(registry), steps, script, lost, 0);
    StepsKeepCount(L.New(registry), steps, script, 0);
  }

  // ── Caches ─────────────────────────────────────────────────────────

  /** From the beginning on, no reply depends on which cache entries are lost, between the calls or during them. */
  lemma {:induction false} RepliesHideLosses(registry: bool, xs: seq<Step>, ys: seq<Step>, script: Script, lostA: nat -> Lost, lostB: nat -> Lost)
    requires SameButLosses(xs, ys) && DistinctMessages(xs)
    ensures A.Replies(A.New(registry), xs, script, lostA, 0) == A.Replies(A.New(registry), ys, script, lostB, 0)
  {
    hide *;
    NewIsSound(registry);
    NewIsFresh(registry, xs, script);
    CachesDoNotShow(A.New(registry), A.New(registry), xs, ys, script, lostA, lostB, 0);
  }

  /** Nor does any event. */
  lemma EventsHideLosses(registry: bool, xs: seq<Step>, ys: seq<Step>, script: Script, lostA: nat -> Lost, lostB: nat -> Lost)
    requires SameButLosses(xs, ys) && DistinctMessages(xs)
    ensures Reached(registry, xs, script, lostA).log == Reached(registry, ys, script, lostB).log
  {
    NewIsSound(registry);
    NewIsFresh(registry, xs, script);
    CachesDoNotShow(A.New(registry), A.New(registry), xs, ys, script, lostA, lostB, 0);
  }

  /** Nor does any run, requirement or open question. */
  lemma RecordsHideLosses(registry: bool, xs: seq<Step>, ys: seq<Step>, script: Script, lostA: nat -> Lost, lostB: nat -> Lost, job: Job)
    requires SameButLosses(xs, ys) && DistinctMessages(xs)
    ensures var a, b := Reached(registry, xs, script, lostA), Reached(registry, ys, script, lostB);
      && a.snap.runs == b.snap.runs && a.snap.requirements == b.snap.requirements
      && OpenOf(a.snap, RunId(job)) == OpenOf(b.snap, RunId(job))
  {
    NewIsSound(registry);
    NewIsFresh(registry, xs, script);
    CachesDoNotShow(A.New(registry), A.New(registry), xs, ys, script, lostA, lostB, 0);
    var a, b := Reached(registry, xs, script, lostA), Reached(registry, ys, script, lostB);
    assert LedgerOf(a) == LedgerOf(b);
    OpenAgrees(a, job);
    OpenAgrees(b, job);
  }

  // ── Questions ──────────────────────────────────────────────────────

  /** The question found for a job is the one this suspension holds. */
  predicate RebuiltFrom(s: Snapshot, job: Job, i: SuspensionId) {
    && RunId(job) in s.runs && i in s.suspensions
    && RebuildQuestion(s, job) == Some(QuestionFrom(s.suspensions[i], s.runs[RunId(job)], job))
  }

  /**
   A job's run has at most one open suspension, and none once it is completed; so whichever
   record the unordered search meets, the question rebuilt is the same.
   */
  lemma OneQuestionAtATime(registry: bool, steps: seq<Step>, script: Script, lost: nat -> Lost, job: Job)
    requires DistinctMessages(steps)
    ensures var a := Reached(registry, steps, script, lost); var open := OpenOf(a.snap, RunId(job));
      && |open| <= 1
      && (RunId(job) in a.snap.runs && a.snap.runs[RunId(job)].status == Completed ==> open == {})
      && (forall i :: i in open ==> RebuiltFrom(a.snap, job, i))
  {
    var a := Reached(registry, steps, script, lost);
    var open := OpenOf(a.snap, RunId(job));
    ReachedIsSound(registry, steps, script, lost);
    if open != {} {
      var i := First(open);
      assert IsOpen(LedgerOf(a).cards, i, RunId(job));
      forall j | j in open ensures j == i { assert IsOpen(LedgerOf(a).cards, j, RunId(job)); }
      assert open == {i};
    }
  }

  /**
   Each asking of a question is answered at most once, tool permissions aside: an accepted answer
   names the question awaited, and after any accepted answer to another kind of question the job
   had asked again, with that very id, before the next was accepted.
   */
  lemma AnswersAreAcceptedOnce(registry: bool, steps: seq<Step>, script: Script, lost: nat -> Lost)
    requires DistinctMessages(steps)
    ensures var log := Reached(registry, steps, script, lost).log;
      AnsweredAsAwaited(log) && forall i, k :: Answers(log, i, k) && log[i].source != ToolPermission ==> AskedBetween(log, i, k)
  {
    var log := Reached(registry, steps, script, lost).log;
    ReachedIsSound(registry, steps, script, lost);
    AskedAgain(log);
  }

  /** Two answers accepted for one job, the `i`-th event before the `k`-th. */
  predicate Answers(log: seq<Event>, i: int, k: int) {
    0 <= i < k < |log| && log[i].Accepted? && log[k].Accepted? && log[i].job == log[k].job
  }

  /** The question the `k`-th event answers was asked after the `i`-th. */
  predicate AskedBetween(log: seq<Event>, i: int, k: int)
    requires Answers(log, i, k)
  {
    exists j :: i < j < k && log[j] == Asked(log[k].job, log[k].question)
  }

  lemma AskedAgain(log: seq<Event>)
    requires AnsweredAsAwaited(log)
    ensures forall i, k :: Answers(log, i, k) && log[i].source != ToolPermission ==> AskedBetween(log, i, k)
  {
    forall i, k | Answers(log, i, k) && log[i].source != ToolPermission ensures AskedBetween(log, i, k) {
      var j := AwaitedWasAsked(log[..k], log[k].job, i);
      assert log[..k][j] == log[j];
    }
  }

  lemma LedgerAccepts(l: Ledger, job: Job, question: QuestionId)
    requires Ordered(l)
    ensures var r := L.SubmitAnswer(l, job, question).1;
      && (r.Ok? <==> SuspensionId(question) in OpenCards(l.cards, RunId(job)))
      && (r.Ok? ==> r.question.source != SubtaskBlocked)
  {
    var open := OpenCards(l.cards, RunId(job));
    if open != {} {
      assert IsOpen(l.cards, First(open), RunId(job)) && RunId(job) in l.runs;
      FoundIsOpen(l, job);
    }
  }

  /**
   An answer is accepted exactly when it names the job's open question, whatever the cache
   holds. A blocked subtask's question is found as an upstream question, so no answer is ever
   continued as a subtask's.
   */
  lemma AcceptedExactly(registry: bool, steps: seq<Step>, script: Script, lost: nat -> Lost, job: Job, question: QuestionId)
    requires DistinctMessages(steps)
    ensures var a := Reached(registry, steps, script, lost); var r := SuspensionSpec.SubmitAnswer(Sus(a), job, question).1;
      && (r.Ok? <==> SuspensionId(question) in OpenOf(a.snap, RunId(job)))
      && (r.Ok? ==> r.question.source != SubtaskBlocked)
  {
    hide *;
    var a := Reached(registry, steps, script, lost);
    ReachedIsSound(registry, steps, script, lost);
    SubmitRefines(a, job, question);
    LedgerAccepts(LedgerOf(a), job, question);
    OpenAgrees(a, job);
  }

  lemma OpenAgrees(a: Agent, job: Job)
    ensures OpenCards(LedgerOf(a).cards, RunId(job)) == OpenOf(a.snap, RunId(job))
  {
  }

  // ── Tool permissions can be answered again ─────────────────────────

  /** A message whose first execution stops at a tool, and `k` answers to the permission it asks for. */
  function AskThenAnswer(m: Inbound, session: string, id: QuestionId, k: nat): seq<Step> {
    [OnMessage(m, Execute(session))] + Again(m, id, k)
  }

  function Again(m: Inbound, id: QuestionId, k: nat): seq<Step> {
    if k == 0 then [] else [OnAnswer(m.id, id, false)] + Again(m, id, k - 1)
  }

  function AcceptedTimes(m: Inbound, id: QuestionId, k: nat): seq<Event> {
    if k == 0 then [] else [Accepted(m.id, id, ToolPermission)] + AcceptedTimes(m, id, k - 1)
  }

  /** As long as a tool cannot be resumed, an answer is accepted, fails, and leaves everything but the log as it was. */
  lemma {:induction false} FailingAnswers(l: Ledger, m: Inbound, id: QuestionId, k: nat, script: Script, n: nat)
    requires Ordered(l) && QuestionOn(l, m.id).Some? && QuestionOn(l, m.id).value.id == id && QuestionOn(l, m.id).value.source == ToolPermission
    requires forall i :: i >= n ==> !script(i).Success?
    ensures L.Run(l, Again(m, id, k), script, n).log == l.log + AcceptedTimes(m, id, k)
    decreases k
  {
    if k == 0 {
    } else {
      var e := Accepted(m.id, id, ToolPermission);
      FoundIsOpen(l, m.id);
      FailingAnswer(l, m.id, id, script, n);
      hide Ordered;
      hide Orderly;
      hide QuestionOn;
      hide L.SubmitQuestionAnswer;
      var h := L.SubmitQuestionAnswer(l, m.id, id, false, script, n).0;
      PublishKeepsOrder(l.runs, l.cards, l.log, e);
      FailingAnswers(h.ledger, m, id, k - 1, script, h.next);
      assert Again(m, id, k)[0] == OnAnswer(m.id, id, false) && Again(m, id, k)[1..] == Again(m, id, k - 1);
      assert (l.log + [e]) + AcceptedTimes(m, id, k - 1) == l.log + ([e] + AcceptedTimes(m, id, k - 1));
    }
  }

  lemma FailingAnswer(l: Ledger, job: Job, id: QuestionId, script: Script, n: nat)
    requires QuestionOn(l, job).Some? && QuestionOn(l, job).value.id == id && QuestionOn(l, job).value.source == ToolPermission
    requires !script(n).Success?
    ensures var h := L.SubmitQuestionAnswer(l, job, id, false, script, n).0;
      && h.ledger == L.Publish(l, Accepted(job, id, ToolPermission)) && h.next >= n
      && QuestionOn(h.ledger, job) == QuestionOn(l, job)
  {
    var h := L.SubmitQuestionAnswer(l, job, id, false, script, n).0;
    assert h.ledger.cards == l.cards && h.ledger.runs == l.runs;
  }

  lemma AskedToolIsFound(l: Ledger, m: Inbound, session: string, id: QuestionId, c: Call, askedAt: nat)
    requires Ordered(L.Ask(l, m, session, ToolVerdict(m, session, id, c, askedAt)))
    ensures var q := QuestionOn(L.Ask(l, m, session, ToolVerdict(m, session, id, c, askedAt)), m.id);
      q.Some? && q.value.id == id && q.value.source == ToolPermission
  {
    var k := L.Ask(l, m, session, ToolVerdict(m, session, id, c, askedAt));
    var open := OpenCards(k.cards, RunId(m.id));
    assert SuspensionId(id) in open && k.cards[SuspensionId(id)].rec.kind == OfTool;
    FoundIsOpen(k, m.id);
    assert open == {SuspensionId(QuestionOn(k, m.id).value.id)};
    assert First(open) == SuspensionId(id);
  }

  /** The ledger once a message's first execution has stopped at a tool, before its result is handled. */
  function Stopping(l: Ledger, m: Inbound, session: string, id: QuestionId, c: Call, askedAt: nat): Ledger {
    var k := L.Publish(L.AskTool(L.SetRun(l, m, Running), m, session, id, c, askedAt), Asked(m.id, id));
    L.SetRun(Ensured(Ensured(k, m), m), m, Running)
  }

  lemma ReceiveStops(l: Ledger, m: Inbound, session: string, id: QuestionId, c: Call, askedAt: nat, script: Script, n: nat)
    requires script(n) == Suspends(id, c, askedAt)
    ensures L.Receive(l, m, Execute(session), script, n) ==
      Settled(L.Ask(Stopping(l, m, session, id, c, askedAt), m, session, ToolVerdict(m, session, id, c, askedAt)), true, n + 1)
  {
    hide L.Ask;
    hide L.AskTool;
    hide Ensured;
  }

  lemma StoppedLog(l: Ledger, m: Inbound, session: string, id: QuestionId, c: Call, askedAt: nat)
    ensures L.Ask(Stopping(l, m, session, id, c, askedAt), m, session, ToolVerdict(m, session, id, c, askedAt)).log
      == l.log + [Asked(m.id, id)] + [Asked(m.id, id)]
  {
    hide Deal;
  }

  /** The ledger after a new message stopped at a tool, and its question. */
  lemma StoppedAtTool(registry: bool, m: Inbound, session: string, script: Script)
    requires script(0).Suspends?
    ensures var h := L.Receive(L.New(registry), m, Execute(session), script, 0); var id := script(0).id;
      && h.next == 1 && h.ledger.log == [Asked(m.id, id), Asked(m.id, id)] && Ordered(h.ledger)
      && QuestionOn(h.ledger, m.id).Some? && QuestionOn(h.ledger, m.id).value.id == id && QuestionOn(h.ledger, m.id).value.source == ToolPermission
  {
    var l, id, c, askedAt := L.New(registry), script(0).id, script(0).call, script(0).askedAt;
    NewIsSound(registry);
    UnknownRunIsQuiet(l, RunId(m.id));
    ReceiveKeepsOrder(l, m, Execute(session), script, 0);
    ReceiveStops(l, m, session, id, c, askedAt, script, 0);
    StoppedLog(l, m, session, id, c, askedAt);
    AskedToolIsFound(Stopping(l, m, session, id, c, askedAt), m, session, id, c, askedAt);
    hide Ordered;
    hide QuestionOn;
    hide L.Receive;
    hide L.Ask;
  }

  /**
   The exception is real: an agent is reached that has accepted the same tool permission any
   number of times, though it was not asked again. The first execution stops at a tool that
   then cannot be resumed.
   */
  lemma {:induction false} ToolPermissionAcceptedAgain(registry: bool, m: Inbound, session: string, k: nat, script: Script, lost: nat -> Lost)
    requires script(0).Suspends? && forall i :: i > 0 ==> !script(i).Success?
    ensures var id := script(0).id;
      Reached(registry, AskThenAnswer(m, session, id, k), script, lost).log == [Asked(m.id, id), Asked(m.id, id)] + AcceptedTimes(m, id, k)
  {
    var id, l := script(0).id, L.New(registry);
    var steps := AskThenAnswer(m, session, id, k);
    AgainIsAnswers(m, id, k);
    ReachedIsSound(registry, steps, script, lost);
    StoppedAtTool(registry, m, session, script);
    var h := L.Receive(l, m, Execute(session), script, 0);
    FailingAnswers(h.ledger, m, id, k, script, 1);
    assert steps[0] == OnMessage(m, Execute(session)) && steps[1..] == Again(m, id, k);
    ReachedLog(registry, steps, script, lost);
  }

  lemma {:induction false} AgainIsAnswers(m: Inbound, id: QuestionId, k: nat)
    ensures forall i :: 0 <= i < |Again(m, id, k)| ==> Again(m, id, k)[i].OnAnswer?
  {
    if k == 0 {
    } else {
      AgainIsAnswers(m, id, k - 1);
    }
  }

  lemma {:induction false} ReachedLog(registry: bool, steps: seq<Step>, script: Script, lost: nat -> Lost)
    requires DistinctMessages(steps)
    ensures Reached(registry, steps, script, lost).log == L.Run(L.New(registry), steps, script, 0).log
  {
    hide A.Run;
    hide L.Run;
    hide FreshRun;
    NewIsSound(registry);
    NewIsFresh(registry, steps, script);
    RunsRefine(A.New(registry), steps, script, lost, 0);
  }

  // ── Follow-ups ─────────────────────────────────────────────────────

  /**
   Over a job's whole life at most three follow-ups are scheduled, no two in a row for the same
   result, and the store counts them and knows the last.
   */
  lemma {:induction false} FollowupsAreBounded(registry: bool, steps: seq<Step>, script: Script, lost: nat -> Lost, job: Job)
    requires DistinctMessages(steps)
    ensures var a := Reached(registry, steps, script, lost); var id := RequirementId(job);
      && Rounds(a.log, job) <= MAX_ROUNDS && ConsecutiveDiffer(a.log)
      && Rounds(a.log, job) == (if id in a.snap.requirements then a.snap.requirements[id].attempted else 0)
      && (id in a.snap.requirements ==>
            a.snap.requirements[id].lastFingerprint == LastFingerprint(a.log, job) && a.snap.requirements[id].lastReason == LastReason(a.log, job))
  {
    ReachedIsSound(registry, steps, script, lost);
    assert CountIs(LedgerOf(Reached(registry, steps, script, lost)).requirements, Reached(registry, steps, script, lost).log, job);
  }

  /** Without a run record a new round would stay in the cache: `update` reaches the store exactly when the job has a run. */
  lemma UpdateReachesTheStoreExactly(t: Tracked, job: Job, attempted: nat, fingerprint: Fingerprint, reason: string)
    requires State(t, job, true).1.Some?
    requires Rebuild(t.snap, job) != Some(State(t, job, true).1.value.(attempted := attempted, lastFingerprint := Some(fingerprint), lastReason := Some(reason)))
    ensures var u := Update(t, job, attempted, fingerprint, reason);
      Rebuild(u.snap, job) == Some(u.progress[job]) <==> RunId(job) in t.snap.runs
  {
    var u := Update(t, job, attempted, fingerprint, reason);
    assert State(t, job, true).0.snap == t.snap;
    if RunId(job) in t.snap.runs { assert Rebuild(u.snap, job) == Some(u.progress[job]); }
  }

  // ── What hydration brings back ─────────────────────────────────────

  /** The message's own text and sender are what a stored question falls back to. */
  predicate KeepsOrigin(q: Question, m: Inbound) {
    && (q.raw.request.Some? ==> q.raw.request.value == m.content) && (q.raw.sender.Some? ==> q.raw.sender.value == m.sender)
    && (q.raw.channel.Some? ==> q.raw.channel.value == m.channel) && (q.raw.session.Some? ==> q.raw.session.value == q.session)
  }

  /** How a stored question is classified when it is rebuilt. */
  function SourceShown(q: Question): Source {
    if q.source == ToolPermission || q.raw.tag == RawTool then ToolPermission
    else if q.source == PlanApproval || q.raw.tag == RawPlan then PlanApproval
    else UpstreamQuestion
  }

  /** When a question's id was first asked: a known record keeps its creation time. */
  function FirstAsked(s: Snapshot, q: Question): nat {
    var id := SuspensionId(q.id);
    if id in s.suspensions then s.suspensions[id].createdAt else q.askedAt
  }

  /**
   A question just stored and then rebuilt from the store alone has the same id, prompt and
   options, its source is what the record shows, and its asking time that of the first asking
   with this id. What its raw object says of session, request, sender and channel holds, and
   what it does not say is filled in from the question and the message; so a raw object that
   says nothing else brings back the very session and message.
   */
  lemma StoredQuestionComesBack(a: Agent, m: Inbound, q: Question)
    requires Cached(a) && q.inbound == Some(m) && q.job == m.id && !q.answered
    requires RunId(m.id) in a.snap.runs && a.snap.runs[RunId(m.id)] == RunRecord(m.id, m.chat, m.channel, Running)
    requires OnlyOpen(CardsOf(a.snap.suspensions), RunId(m.id), SuspensionId(q.id))
    ensures var found := RebuildQuestion(WithSus(a, StoreQuestion(Sus(a), m.id, q)).snap, m.id);
      var session, request, sender, channel :=
        Or(q.raw.session, q.session), Or(q.raw.request, m.content), Or(q.raw.sender, m.sender), Or(q.raw.channel, m.channel);
      && found == Some(q.(
           raw := q.raw.(session := Some(session), request := Some(request), sender := Some(sender), channel := Some(channel)),
           session := session, inbound := Some(Inbound(m.id, m.chat, channel, sender, request)),
           source := SourceShown(q), askedAt := FirstAsked(a.snap, q)))
      && (KeepsOrigin(q, m) ==> found.value.session == q.session && found.value.inbound == q.inbound)
  {
    var b, id := WithSus(a, StoreQuestion(Sus(a), m.id, q)), SuspensionId(q.id);
    var open := OpenOf(b.snap, RunId(m.id));
    assert id in open;
    forall i | i in open ensures i == id {
      if i != id { assert IsOpen(CardsOf(a.snap.suspensions), i, RunId(m.id)); }
    }
    assert First(open) == id;
  }

  /** A suspended tool call rebuilt from the store is the one suspended, but starts counting its iterations anew. */
  lemma SuspendedToolComesBack(a: Agent, m: Inbound, session: string, id: QuestionId, c: Call, askedAt: nat)
    requires RunId(m.id) in a.snap.runs && a.snap.runs[RunId(m.id)] == RunRecord(m.id, m.chat, m.channel, Running)
    ensures RebuildTool(A.AskTool(a, m.id, m, session, id, c, askedAt).snap, id) == Some(ToolOf(m, session, c).(iterations := 0))
  {
    var t := ToolOf(m, session, c);
    var s := StoreQuestion(Sus(a), m.id, CallQuestion(m, session, id, c, askedAt));
    assert s.snap.runs == a.snap.runs;
    StoredToolComesBack(s, id, t, askedAt);
  }

  lemma StoredToolComesBack(s: Suspensions, id: QuestionId, t: Tool, askedAt: nat)
    requires var run := RunId(t.inbound.id); run in s.snap.runs && s.snap.runs[run] == RunRecord(t.inbound.id, t.inbound.chat, t.inbound.channel, Running)
    requires t.options == ["allow", "deny"]
    ensures RebuildTool(StoreTool(s, id, t, askedAt).snap, id) == Some(t.(iterations := 0))
  {
  }
}
