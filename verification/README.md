# A verified model of the Anima runtime

This project models the stateful cores of the `anima-runtime` crate in Dafny and proves what
they promise. `dafny verify dfyconfig.toml` checks all of it.

Where the program updates fields in place there is a class with those fields. Its methods are
proved against functions on an abstract value, and the lemmas are about those functions: what
every call keeps, what whole runs of calls do, and how one piece relates to another. Clocks,
random ids and everything outside the process are arguments.

## The question and follow-up protocol

A job may stop to ask its user something: a question from upstream, a tool permission, a plan
to approve, a blocked subtask. It may also send itself follow-ups until its requirement is
met. What is asked and how far a job has come is written to a record store, and three caches
stand in front of the store.

- `runtime_store.dfy`: records, upsert events, the two indexes.
- `suspension.dfy`, `requirement.dfy`: the two coordinators, caches included.
- `agent.dfy`: the protocol. Outside calls follow a script of outcomes, any script at all; what
  the caches lose during each call is a second, independent choice. The requirement judge is
  part of the script. Handling a result, scheduling a follow-up and executing it are mutually
  recursive, and the recursion is accepted because the rounds left, read from the store, fall.
- `ledger.dfy`: the same protocol with no cache at all, which is what the agent should look
  like from outside. A question is one card, open or shut.
- `one_open_question.dfy`, `followup_budget.dfy`: what every run keeps on the ledger.
- `refinement.dfy`, `cache_transparency.dfy`: the agent does what the ledger does, so no reply
  and no event depends on a cache.
- `conversation.dfy`: the protocol as its user hears it, with no records, caches or progress: which
  questions are open and what for, where runs and requirements stand, what was published. The
  follow-ups a job has had are counted in what was published.
- `overheard.dfy`: the ledger does, shows and replies what the conversation says.
- `protocol_safety.dfy`, `answers_and_followups.dfy`: the results, about every agent a run can
  reach. The second says what an answer sets off and when a follow-up is made.
- `agent_service.dfy`: the store-sharing coordinators and the agent as classes.

Question ids are arbitrary: a cached result can bring an old tool question back under another
job, and nothing here assumes that they are new. Message ids are drawn at random, so the results
about runs are about messages with distinct ids.

## The load balancer

`balancer.dfy` has the abstract balancer, `balancer_service.dfy` the class. `selection.dfy`
shows that selection and diagnosis, computed by separate code, agree with each other, with one
plain definition of an eligible target, and with the counters. `fairness.dfy`, on top of the
index arithmetic of `router.dfy`, says how evenly the rotating strategies spread selections,
whatever else is recorded between them, and in which order. `stable_hash.dfy` is the hash under
the hashing strategy. `circuits.dfy` follows one target's circuit through timed runs, and
`target_history.dfy` tells a target's circuit, health, load and status from the calls made.

## Caches, channel, breaker, sessions, metrics, patterns

- `lru.dfy`, `lru_history.dfy`, `lru_cache.dfy`: the LRU result cache, and what a read may find.
- `file_names.dfy`, `tiered.dfy`, `tiered_storage.dfy`, `one_map.dfy`, `tier_limits.dfy`: the
  two-tier context store, and exactly when it behaves like one map.
- `demotion.dfy`, `memory_recency.dfy`: which of its entries are demoted or pushed out of memory,
  by the times and the order of the calls.
- `bounded_channel.dfy`, `channel_interleaving.dfy`: the bounded bus channel, once used by one
  caller at a time and once as interleaved steps of several senders.
- `circuit_breaker.dfy`, `breaker_history.dfy`: the three-state breaker, and what each call does
  by the replies before it.
- `sessions.dfy`, `session_lookup.dfy`: the session store, its three indexes, and which session a
  caller gets.
- `metrics.dfy`: histogram and summary.
- `glob.dfy`: the key patterns.

`prelude.dfy` holds facts about options and sequences that several of them share.

## What the code does that its comments or names do not say

- Ordinary reads never write a file's access count back, so frequent use promotes an item only
  if the promotion threshold is 0 or 1 (`OneMap.UsePromotesExactly`).
- Two keys can share a file (`FileNames.UnderscoresCollide`); explicit promotion can lose a key
  unless L1 has a place for every key in use (`TierLimits.PromotingExactly`); demotion and
  promotion restart a lifetime (`OneMap.DemotionRestartsLifetime`, `TierLimits.LivedExactly`).
- The spare slot of the bounded channel is good for two concurrent senders, not for more
  (`ChannelInterleaving.SpareSlotSufficesExactly`).
- A half-open breaker whose success threshold exceeds its trial calls is stuck for good, and the
  retry hint is one millisecond short (`Breaker.HalfOpenAlwaysAdmitsExactly`,
  `Breaker.RetryHintIsOneShort`).
- Limits and thresholds of 0 act as 1 in the LRU cache and in the breaker.
- Healthy heartbeats count as successes of a half-open target
  (`Circuits.HeartbeatsCountAsSuccesses`).
- A follow-up that is not made because the rounds are used up is first counted and then taken
  back, so the stored count never exceeds the follow-ups made (`Refinement.ExhaustRefines`).
- A blocked subtask's question is rebuilt as an upstream question, so the continuation written
  for subtasks is never reached (`ProtocolSafety.AcceptedExactly`).
- A tool permission can be answered again if the tool could not be resumed
  (`OneOpenQuestion.ToolPermissionStaysOpenExactly`,
  `ProtocolSafety.ToolPermissionAcceptedAgain`).

## Model

| member | source | states |
|---|---|---|
| `AnswersAndFollowups.AgentIsTold` | crates/anima-runtime/src/agent/question_continuation.rs:721-739 | In every run, whatever the caches lose, all the agent publishes, replies, has open and leaves as the state of each run and requirement is what a conversation says that has no records, caches or progress and counts follow-ups in what was published. |
| `Overheard.RunsAreTold` | crates/anima-runtime/src/agent/question_continuation.rs:721-739 | The same of the ledger. |
| `Overheard.HandleShows` | crates/anima-runtime/src/agent/upstream_resolution.rs:803-883 | Handling a result: its events, its use of outside calls and the states it leaves are those of the conversation. |
| `Overheard.AnswerShows` | crates/anima-runtime/src/agent/question_continuation.rs:642-739 | The same of an answer, with the reply. |
| `AnswersAndFollowups.StatusesAreTold` | crates/anima-runtime/src/agent/upstream_resolution.rs:614-701 | Run by run and requirement by requirement, the stored status is the conversation's: waiting, scheduled, active, exhausted or satisfied. |
| `AnswersAndFollowups.FollowupsAreMadeExactly` | crates/anima-runtime/src/agent/upstream_resolution.rs:576-612 | For every reachable agent and job: a result that asks for a follow-up gets one if and only if fewer than three were published for the job and the last was for another fingerprint; otherwise the agent gives up, without an outside call. |
| `AnswersAndFollowups.ThreeFollowupsAreMade` | crates/anima-runtime/src/agent/upstream_resolution.rs:576-612 | A run that makes three follow-ups and gives up at the fourth. |
| `AnswersAndFollowups.OrdinaryAnswer` | crates/anima-runtime/src/agent/question_continuation.rs:30-99 | What an accepted answer to an ordinary question sets off: one outside call, failing if it brings no result or handling the result fails; a final result finishes the job, a question is asked. |
| `AnswersAndFollowups.PlanAnswer` | crates/anima-runtime/src/agent/question_continuation.rs:666-719 | A rejected plan uses no outside call and publishes nothing more; an approved one is carried out if it can be restored. |
| `AnswersAndFollowups.ToolAnswer` | crates/anima-runtime/src/agent/question_continuation.rs:179-187 | A permitted tool is run and the job finished, or the next tool asked for; otherwise the answer fails. |
| `AnswersAndFollowups.ResultAsks` | crates/anima-runtime/src/agent/suspension.rs:180-244 | What a question asked by a result is open for: a tool, a plan, or going on, as its raw object says. |
| `AnswersAndFollowups.QuestionAnsweredToTheEnd` | crates/anima-runtime/src/agent/question_continuation.rs:642-664 | A run from message to question to answer to the finished job, with events and replies. |
| `ProtocolSafety.RepliesHideLosses` | crates/anima-runtime/src/agent/suspension.rs:570-707 | From the beginning on, two agents given the same calls and the same outcomes reply the same, whichever entries of the three caches each of them loses, between the calls or while a call is under way. |
| `ProtocolSafety.EventsHideLosses` | crates/anima-runtime/src/agent/suspension.rs:570-707 | The same for everything they publish. |
| `ProtocolSafety.RecordsHideLosses` | crates/anima-runtime/src/agent/suspension.rs:709-719 | The same for runs, requirements and the open suspensions of every job. |
| `CacheTransparency.CachesDoNotShow` | crates/anima-runtime/src/agent/suspension.rs:570-707 | The same from any two mid-run states that agree up to caches and up to how closed suspensions were closed (resolved or cleared). |
| `CacheTransparency.RunsRefine` | crates/anima-runtime/src/agent/question_continuation.rs:721-739 | In any run the agent with its caches keeps the store of the cache-free ledger, publishes the same events and gives the same replies. |
| `CacheTransparency.ApplyRefines` | crates/anima-runtime/src/agent/question_continuation.rs:721-739 | One call of any kind does on the agent what it does on the ledger. |
| `CacheTransparency.AnswerRefines` | crates/anima-runtime/src/agent/question_continuation.rs:721-739 | Submitting an answer and everything it sets off: question continuation, plan, tool resume. |
| `CacheTransparency.ContinueToolRefines` | crates/anima-runtime/src/agent/question_continuation.rs:574-617 | Resuming a suspended tool, through two outside calls and what the caches lose during each. |
| `CacheTransparency.FinishRefines` | crates/anima-runtime/src/agent/question_continuation.rs:295-351 | Finishing clears question and tool cache; on the ledger only the run is completed. |
| `CacheTransparency.ResuspendRefines` | crates/anima-runtime/src/agent/question_continuation.rs:353-436 | Asking for the next permission and clearing the answered one, even when both carry the same id. |
| `CacheTransparency.SubmitRefines` | crates/anima-runtime/src/agent/suspension.rs:1045-1104 | Accepting an answer gives the result the store alone decides, and shuts the question unless it is a tool permission. |
| `CacheTransparency.QuestionStateRefines` | crates/anima-runtime/src/agent/suspension.rs:570-587 | The question found is the one on the ledger, hydrated or not. |
| `CacheTransparency.ToolStateRefines` | crates/anima-runtime/src/agent/suspension.rs:589-612 | The suspended tool found is the one on the ledger. |
| `CacheTransparency.ClearToolRefines` | crates/anima-runtime/src/agent/suspension.rs:647-707 | Clearing a tool call shuts its card if it is still open and changes nothing else. |
| `CacheTransparency.ReceiveRefines` | crates/anima-runtime/src/agent/inbound_pipeline.rs:17-129 | A new message, by each of its routes. |
| `CacheTransparency.ExecuteRefines` | crates/anima-runtime/src/agent/question_continuation.rs:438-572 | A tool suspension of the first execution asks with one question and one tool record under the same id. |
| `Refinement.HandleRefines` | crates/anima-runtime/src/agent/upstream_resolution.rs:803-883 | Handling a result, follow-ups included, does on the agent what it does on the ledger, with the same use of outside calls. |
| `Refinement.FollowupRefines` | crates/anima-runtime/src/agent/upstream_resolution.rs:576-612 | Scheduling and executing follow-ups, recursively. |
| `Refinement.CompleteRefines` | crates/anima-runtime/src/agent/upstream_resolution.rs:614-701 | Completion clears both caches and completes run and requirement. |
| `Refinement.ExhaustRefines` | crates/anima-runtime/src/agent/upstream_resolution.rs:430-476 | Giving up leaves the stored progress as it was before the round that is not made. |
| `Refinement.ClearQuestionRefines` | crates/anima-runtime/src/agent/suspension.rs:614-645 | Clearing a question that is closed in the store, cached or not, changes nothing visible. |
| `Refinement.EnsureRefines` | crates/anima-runtime/src/agent/requirement.rs:70-96 | A stored requirement always hides the progress cache. |
| `Refinement.UpdateRefines` | crates/anima-runtime/src/agent/requirement.rs:98-120 | Once run and requirement are stored, a counted round reaches the store. |
| `ProtocolSafety.ReachedIsSound` | crates/anima-runtime/src/agent/suspension.rs:709-719 | Every reachable agent has caches known to the store, orderly questions and counted rounds. |
| `ProtocolSafety.OneQuestionAtATime` | crates/anima-runtime/src/agent/suspension.rs:709-719 | A job has at most one open suspension and none once its run is completed, so the unordered search rebuilds the same question whichever record it meets first. |
| `ProtocolSafety.AnswersAreAcceptedOnce` | crates/anima-runtime/src/agent/suspension.rs:1045-1104 | In every run each accepted answer names the question its job last asked and had not had answered, and after an accepted answer, tool permissions aside, the next accepted one was asked for in between, under that very id. |
| `ProtocolSafety.AcceptedExactly` | crates/anima-runtime/src/agent/suspension.rs:1045-1104 | An answer is accepted if and only if it names the open suspension of the job; it is never continued as a blocked subtask's. |
| `OneOpenQuestion.StepsKeepOrder` | crates/anima-runtime/src/agent/suspension.rs:329-372 | Every run of asking, answering, resuming, re-suspending and completing keeps: one open question per run, of a running run, and it is the one last asked with no answer accepted since. |
| `OneOpenQuestion.SupervisedKeepsOrderExactly` | crates/anima-runtime/src/agent/inbound_pipeline.rs:17-129 | Why message ids must not repeat: a message whose plan needs approval leaves one open question if and only if its job had none open, or only that one. |
| `OneOpenQuestion.DistinctIsFresh` | crates/anima-runtime/src/agent/inbound_pipeline.rs:17-129 | Only messages make runs, so in a run of messages with distinct ids each comes to a job without one. |
| `OneOpenQuestion.ToolPermissionStaysOpenExactly` | crates/anima-runtime/src/agent/question_continuation.rs:189-293 | An accepted tool permission stays open, and can be answered again, if and only if the tool could not be resumed. |
| `ProtocolSafety.ToolPermissionAcceptedAgain` | crates/anima-runtime/src/agent/question_continuation.rs:189-293 | A run that accepts the same tool permission any number of times after asking for it once: the first execution stops at a tool that then cannot be resumed. |
| `OneOpenQuestion.HandleKeepsOrder` | crates/anima-runtime/src/agent/upstream_resolution.rs:803-883 | Handling any result keeps that order if nothing but the question it asks is open. |
| `ProtocolSafety.FollowupsAreBounded` | crates/anima-runtime/src/agent/upstream_resolution.rs:576-612 | Over a job's whole life, pauses for answers included, at most three follow-ups are scheduled, no two in a row for the same fingerprint, and the stored count is that number. |
| `FollowupBudget.StepsKeepCount` | crates/anima-runtime/src/agent/requirement.rs:98-120 | Every run keeps the stored rounds and the last fingerprint equal to what was scheduled. |
| `FollowupBudget.RoundIsCounted` | crates/anima-runtime/src/agent/upstream_resolution.rs:478-574 | A follow-up that starts counts one round, and has a fingerprint other than the last. |
| `FollowupBudget.HandleKeepsCount` | crates/anima-runtime/src/agent/upstream_resolution.rs:803-883 | The count stays right through the recursion from results to follow-ups and back. |
| `AgentSpec.FollowupShrinksBudget` | crates/anima-runtime/src/agent/upstream_resolution.rs:478-574 | The rounds left by the store fall with each follow-up, from any state and whatever the caches lose: the reason the recursion ends. |
| `ProtocolSafety.UpdateReachesTheStoreExactly` | crates/anima-runtime/src/agent/requirement.rs:98-120 | A new round is stored if and only if the job has a run record. |
| `ProtocolSafety.StoredQuestionComesBack` | crates/anima-runtime/src/agent/suspension.rs:709-819 | A question rebuilt from the store right after it was asked is that question, with its raw object filled in, its source as the record shows it, and the time its id was first asked. |
| `ProtocolSafety.SuspendedToolComesBack` | crates/anima-runtime/src/agent/suspension.rs:826-937 | A suspended tool rebuilt from the store is the one suspended, with its iterations counted from 0 again. |
| `AgentService.SuspensionCoordinator.FindQuestion` | crates/anima-runtime/src/agent/suspension.rs:570-587 | The store decides for a known job, the cache only for an unknown one. |
| `AgentService.SuspensionCoordinator.FindTool` | crates/anima-runtime/src/agent/suspension.rs:589-612 | The store decides for a known question. |
| `AgentService.SuspensionCoordinator.Submit` | crates/anima-runtime/src/agent/suspension.rs:1045-1104 | Accepts or rejects an answer, with each error. |
| `AgentService.SuspensionCoordinator.EvictCache` | crates/anima-runtime/src/agent/suspension.rs:1037-1043 | Drops one job's entries from both caches. |
| `AgentService.RequirementCoordinator.EnsureFor` | crates/anima-runtime/src/agent/requirement.rs:70-96 | The progress so far or a fresh one, cached and stored. |
| `AgentService.RequirementCoordinator.UpdateFor` | crates/anima-runtime/src/agent/requirement.rs:98-120 | Counts a round in the cache, and in the store if the run is known. |
| `AgentService.CoreAgent.HandleResult` | crates/anima-runtime/src/agent/upstream_resolution.rs:803-883 | The whole new state of handling a result; terminates by the rounds left. |
| `AgentService.CoreAgent.ScheduleFollowup` | crates/anima-runtime/src/agent/upstream_resolution.rs:576-612 | The whole new state of scheduling a follow-up, mutually recursive with the former. |
| `AgentService.CoreAgent.SubmitQuestionAnswer` | crates/anima-runtime/src/agent/question_continuation.rs:721-739 | The whole new state and the result of submitting an answer. |
| `AgentService.CoreAgent.ProcessInbound` | crates/anima-runtime/src/agent/inbound_pipeline.rs:17-129 | The whole new state after a message, by each route, for new and repeated ids alike. |
| `RuntimeStore.RuntimeStateStore.Append` | crates/anima-runtime/src/runtime/reducer.rs:4-96 | Every upsert is an insertion by id with its index entries. |
| `Selection.SelectionAgreesWithDiagnosis` | crates/anima-runtime/src/dispatcher/balancer.rs:821-962 | A selection returns a target if and only if it diagnoses some target as eligible, and the one returned is diagnosed eligible and is eligible. |
| `Selection.CandidatesAgreeWithDiagnosis` | crates/anima-runtime/src/dispatcher/balancer.rs:964-1010 | Every target is diagnosed; the candidates are exactly the eligible targets and, unless a hashing key is missing, exactly those without exclusion reasons. |
| `Selection.NoReasonsMeansEligible` | crates/anima-runtime/src/dispatcher/balancer.rs:964-1010 | A target has no exclusion reason if and only if it is available, healthy, unexpired, not open, half-open only without a closed candidate, and no key is missing. |
| `Selection.MissReasonsAreExact` | crates/anima-runtime/src/dispatcher/balancer.rs:1012-1047 | Each miss reason is reported if and only if its meaning holds of the targets; two of the reasons never are. |
| `Selection.CountersAddUp` | crates/anima-runtime/src/dispatcher/balancer.rs:701-714 | Over any run miss reasons number the failures, and successes plus failures the selections asked for. |
| `Selection.LeastConnectionsPicksLeast` | crates/anima-runtime/src/dispatcher/balancer.rs:1079-1085 | No eligible target has fewer active requests than the one picked. |
| `Selection.HashingPicks` | crates/anima-runtime/src/dispatcher/balancer.rs:1086-1092 | The target picked stands at the place the key's hash leaves modulo the number of candidates. |
| `Selection.KeysAreSpread` | crates/anima-runtime/src/dispatcher/balancer.rs:1086-1092 | Two keys that go to different targets. |
| `Selection.ReasonsAreExact` | crates/anima-runtime/src/dispatcher/balancer.rs:964-1010 | Each exclusion reason is given, once, if and only if what it says of the target is true. |
| `Selection.SelectionIsTallied` | crates/anima-runtime/src/dispatcher/balancer.rs:701-714 | A selection adds to each exclusion counter the number of targets the reason applies to, and one to the miss reason that is true. |
| `Selection.PickFromOffered` | crates/anima-runtime/src/dispatcher/balancer.rs:1059-1092 | Every strategy picks from the candidates and fails only without any, or without a key to hash. |
| `Fairness.FullTurnsAreFair` | crates/anima-runtime/src/dispatcher/balancer.rs:1059-1077 | In a run whose selections all find the same candidate ids and weights, with any loads, records, refreshes and changes in between, any number of full turns from any cursor, in range or not, picks each candidate exactly its weight (at least one) times per turn; once per turn under round robin. |
| `Fairness.EveryRunIsNearlyFair` | crates/anima-runtime/src/dispatcher/balancer.rs:1059-1077 | Any further selections of such a run add at most one share per candidate. |
| `Fairness.SelectionsWalkTheRing` | crates/anima-runtime/src/dispatcher/router.rs:23-32 | The ids such a run picks are the places of the ring one after the other, starting behind the cursor, and no selection fails. |
| `Fairness.SelectTakesNext` | crates/anima-runtime/src/dispatcher/balancer.rs:1059-1077 | One selection takes the next place of the ring and leaves the shared cursor there. |
| `Fairness.RoutineIsSteady` | crates/anima-runtime/src/dispatcher/core.rs:349-380 | Without a runtime, selections, load updates, records and refreshes never change the candidates: such runs exist and are the dispatcher's own. |
| `Fairness.DispatchingIsFair` | crates/anima-runtime/src/dispatcher/core.rs:349-380 | A dispatcher over a fixed fleet without a runtime is fair, whatever loads and results it reports between its selections. |
| `Fairness.FirstTurnAsAdded` | crates/anima-runtime/src/dispatcher/balancer.rs:1059-1065 | The first turn of a new round-robin balancer takes its targets in the order they were added. |
| `Fairness.RemovalGoesOn` | crates/anima-runtime/src/dispatcher/balancer.rs:1094-1102 | After a removal round robin goes on after the cursor, or starts over if the cursor stood at the end or beyond. |
| `Router.FullTurnVisitsAll` | crates/anima-runtime/src/dispatcher/router.rs:23-32 | One turn from any cursor visits every slot exactly once. |
| `Router.VisitsAreShared` | crates/anima-runtime/src/dispatcher/router.rs:23-32 | Any number of turns and part of one visit a slot its share of times, and at most one share more. |
| `StableHashing.ComputeStableHash` | crates/anima-runtime/src/dispatcher/router.rs:7-20 | The loop computes FNV-1a over 64 bits: from 14695981039346656037, xor the byte, times 1099511628211, modulo 2^64. |
| `StableHashing.XorBits` | crates/anima-runtime/src/dispatcher/router.rs:7-20 | The exclusive or is that of the bits. |
| `StableHashing.OneByteHashes` | crates/anima-runtime/src/dispatcher/router.rs:7-20 | The hashes of two keys of one byte. |
| `Router.FirstTurnInOrder` | crates/anima-runtime/src/dispatcher/router.rs:22-33 | Without a cursor the first turn takes the slots in their order. |
| `Circuits.OpenStaysUnused` | crates/anima-runtime/src/dispatcher/balancer.rs:821-962 | A target whose circuit opened is selected in no run that neither removes it nor refreshes it after the cooldown. |
| `Circuits.RunKeepsSound` | crates/anima-runtime/src/dispatcher/balancer.rs:554-602 | In every run a circuit is open if and only if its opening time is set, and closed only below the failure threshold. |
| `Circuits.WayBackToClosed` | crates/anima-runtime/src/dispatcher/balancer.rs:554-577 | A circuit closes only by a success recorded while half-open, is half-opened only by a refresh and re-opened only by a failure. |
| `Circuits.RefreshEndsOpenExactly` | crates/anima-runtime/src/dispatcher/balancer.rs:631-654 | A refresh ends the open state if and only if the cooldown has passed. |
| `Circuits.HeartbeatsCountAsSuccesses` | crates/anima-runtime/src/dispatcher/balancer.rs:604-629 | Healthy heartbeats count towards the success threshold: exactly how many successes are then still needed. |
| `TargetHistory.CircuitExactly` | crates/anima-runtime/src/dispatcher/balancer.rs:554-654 | Where each call leaves a target's circuit, counted from the calls: closed, it opens if and only if a recorded failure makes the failures since the last recorded success reach the threshold; open, it becomes half-open if and only if refreshed once the cooldown has passed since it opened; half-open, any failure opens it and it closes if and only if a recorded success makes the good reports in a row reach theirs. |
| `TargetHistory.HealthyExactly` | crates/anima-runtime/src/dispatcher/balancer.rs:602-654 | A target is healthy if and only if the last thing heard of it was good and its last heartbeat is not too long ago, counted from the calls. |
| `TargetHistory.UnwellStaysUnused` | crates/anima-runtime/src/dispatcher/balancer.rs:602-629 | After an unhealthy heartbeat a target is selected by no run until a success or a healthy heartbeat is recorded of it. |
| `TargetHistory.WatchedExactly` | crates/anima-runtime/src/dispatcher/balancer.rs:525-534 | A runtime with nothing to watch with is no runtime. |
| `TargetHistory.HealthIsReported` | crates/anima-runtime/src/dispatcher/balancer.rs:525-534 | Which targets have a health record, and the default one without a runtime. |
| `TargetHistory.TargetExactly` | crates/anima-runtime/src/dispatcher/balancer.rs:491-512 | A target has the weight it was last added with, the status last given to it, and totals, errors and last error as reported. |
| `TargetHistory.ActiveIsBalanceExactly` | crates/anima-runtime/src/dispatcher/balancer.rs:491-512 | The number of active requests is at all times what was reported begun less what was reported ended since the last reset, if and only if never more ended than began. |
| `TargetHistory.RemovalReturns` | crates/anima-runtime/src/dispatcher/balancer.rs:1094-1102 | A removal returns the target as it stood, if and only if it was there. |
| `BalancerService.LoadBalancer.Add` | crates/anima-runtime/src/dispatcher/balancer.rs:449-458 | A new target goes last, a known one keeps its place; health is made on first use. |
| `BalancerService.LoadBalancer.Remove` | crates/anima-runtime/src/dispatcher/balancer.rs:460-471 | Removes target and health and realigns the cursor. |
| `BalancerService.LoadBalancer.UpdateTargetLoad` | crates/anima-runtime/src/dispatcher/balancer.rs:491-512 | The four load updates, never below zero. |
| `BalancerService.LoadBalancer.SetTargetStatus` | crates/anima-runtime/src/dispatcher/balancer.rs:680-685 | Sets a known target's status and returns it. |
| `BalancerService.LoadBalancer.RecordSuccess` | crates/anima-runtime/src/dispatcher/balancer.rs:554-577 | One success on a target's record, and the record returned; a healthy default without a runtime. |
| `BalancerService.LoadBalancer.RecordFailure` | crates/anima-runtime/src/dispatcher/balancer.rs:579-602 | One failure on a target's record, and the record returned. |
| `BalancerService.LoadBalancer.RecordHeartbeat` | crates/anima-runtime/src/dispatcher/balancer.rs:604-629 | One heartbeat on a target's record, and the record returned; without a runtime one made up for the reply. |
| `BalancerService.LoadBalancer.RefreshTarget` | crates/anima-runtime/src/dispatcher/balancer.rs:631-654 | Cooldown and heartbeat expiry on one record, and the record returned. |
| `BalancerService.LoadBalancer.RefreshTargets` | crates/anima-runtime/src/dispatcher/balancer.rs:656-665 | The same on every record, in order. |
| `BalancerService.LoadBalancer.IsRoutable` | crates/anima-runtime/src/dispatcher/balancer.rs:667-678 | Refreshes the target and tells whether it is available, healthy and not open. |
| `BalancerService.LoadBalancer.SelectTarget` | crates/anima-runtime/src/dispatcher/balancer.rs:701-714 | The whole new state and the target of one selection. |
| `Lru.LargerCacheHitsMore` | crates/anima-runtime/src/cache/lru.rs:122-202 | Two caches with the same default lifetime, fed the same timed calls: every hit in the one with the lower limit is a hit with the same value in the other, and its recency list is an order-preserving part of the other's. |
| `Lru.EvictsLeastRecentlyTouched` | crates/anima-runtime/src/cache/lru.rs:157-193 | After any run, writing a new key to a full cache drops exactly the key touched longest ago and keeps every other entry. |
| `Lru.RunStaysWithinCapacity` | crates/anima-runtime/src/cache/lru.rs:157-193 | In every run the recency list is a duplicate-free listing of the keys, within capacity. |
| `Lru.MakeRoomFacts` | crates/anima-runtime/src/cache/lru.rs:157-172 | The eviction loop turns at most once, and exactly when a new key finds the cache full. |
| `Lru.StaleFrontStalls` | crates/anima-runtime/src/cache/lru.rs:157-202 | Were the front of the list not in the map, a turn of the loop would free nothing. |
| `Lru.SetThenGet` | crates/anima-runtime/src/cache/lru.rs:122-193 | A value written is read back for exactly its lifetime, whatever was evicted for it. |
| `LruHistory.HitsAreLastWrites` | crates/anima-runtime/src/cache/lru.rs:122-155 | In every run a read finds the last value written under the key and not deleted since, within its lifetime, if it was not evicted; and the entry's count is its reads since. |
| `LruHistory.CountersAreExact` | crates/anima-runtime/src/cache/lru.rs:122-193 | Hits, misses, writes and evictions count what they say: an eviction is a write of a new key to a full cache. |
| `LruHistory.ComputesOnce` | crates/anima-runtime/src/cache/lru.rs:204-214 | A hit returns what a read would and ignores the computed value; a miss returns it and keeps it for the default lifetime, whatever is computed next. |
| `LruHistory.DeleteReportsExactly` | crates/anima-runtime/src/cache/lru.rs:195-201 | A delete reports whether some read could still have found the key, and after it none does. |
| `LruCaches.LruCache.Get` | crates/anima-runtime/src/cache/lru.rs:122-155 | A read drops an expired entry, counts hit or miss and moves a hit to the end. |
| `LruCaches.LruCache.Set` | crates/anima-runtime/src/cache/lru.rs:157-193 | A write with its eviction loop. |
| `LruCaches.LruCache.Delete` | crates/anima-runtime/src/cache/lru.rs:195-201 | Removes the key from map and list, and says whether it was there. |
| `LruCaches.LruCache.GetOrCompute` | crates/anima-runtime/src/cache/lru.rs:204-214 | Reads, or computes and writes. |
| `OneMap.TwoTiersAreOneMap` | crates/anima-runtime/src/context/storage.rs:444-523 | Any run over keys with their own files, in which no item has a lifetime or none is moved between tiers, answers every read like one map, whatever L1 evicts; a key promoted by hand may be lost but never reads a stale value. |
| `OneMap.OneMapExactly` | crates/anima-runtime/src/context/storage.rs:444-585 | For each size of L1 and each pair of thresholds, runs of set, get, delete and demote without lifetimes over a set of keys are answered like one map if and only if no two of the keys share a file. |
| `TierLimits.PromotingExactly` | crates/anima-runtime/src/context/storage.rs:543-563 | The same runs with promotion by hand as well: if and only if no two of the keys share a file and L1 has a place for each of them. |
| `TierLimits.LivedExactly` | crates/anima-runtime/src/context/storage.rs:444-469 | Runs of set, get and delete with lifetimes: if and only if no two of the keys share a file and either the promotion threshold exceeds 1 or L1 has a place for each key. |
| `TierLimits.AnythingExactly` | crates/anima-runtime/src/context/storage.rs:492-585 | Runs with lifetimes and moves between the tiers: never, but for an empty set of keys. |
| `OneMap.RunKeepsMemory` | crates/anima-runtime/src/context/storage.rs:91-159 | Every run keeps the recency list of L1 a duplicate-free listing of its keys, within capacity. |
| `OneMap.UnderscoreFreeKeysOwnFiles` | crates/anima-runtime/src/context/storage.rs:209-213 | Keys without underscores never share a file. |
| `OneMap.SharedFileBreaks` | crates/anima-runtime/src/context/storage.rs:222-300 | Two keys that share a file break the promise in four calls. |
| `OneMap.PromotedKeyCanBeLost` | crates/anima-runtime/src/context/storage.rs:543-563 | The smallest run in which a promoted key is lost: an L1 of one place. |
| `OneMap.DemotionRestartsLifetime` | crates/anima-runtime/src/context/storage.rs:565-585 | Demotion restarts a lifetime: exactly until when the item is still read. |
| `OneMap.UsePromotesExactly` | crates/anima-runtime/src/context/storage.rs:444-469 | Reading an item often brings it up to L1 if and only if the promotion threshold is 0 or 1. |
| `Demotion.DemotingExactly` | crates/anima-runtime/src/context/storage.rs:492-523 | After any run, demoting cold entries leaves in memory exactly the keys last written, read with success or promoted at most the threshold ago, by the times of the calls; every other key that has not expired is in its file with its value and lifetime, and these are counted. |
| `Demotion.StampsAreUses` | crates/anima-runtime/src/context/storage.rs:91-159 | In every run an entry's stamp is the time its key was last used and its count its reads since it came to memory. |
| `Demotion.MovesAreCounted` | crates/anima-runtime/src/context/storage.rs:444-585 | The two counters are the entries moved up and down. |
| `Demotion.DeleteReportsExactly` | crates/anima-runtime/src/context/storage.rs:480-490 | After a plain run a delete reports whether the one map holds the key. |
| `MemoryRecency.PushesOutLeastRecentlyUsed` | crates/anima-runtime/src/context/storage.rs:91-159 | After any run, writing a new key to a full memory pushes out exactly the key used longest ago. |
| `FileNames.FileNameInjective` | crates/anima-runtime/src/context/storage.rs:209-213 | The file name is injective on keys without underscores. |
| `FileNames.UnderscoresCollide` | crates/anima-runtime/src/context/storage.rs:209-213 | A key that spells an escape shares its file with the key it spells. |
| `FileNames.SeamsCollide` | crates/anima-runtime/src/context/storage.rs:209-213 | It is enough that an escape is spelled across a seam. |
| `FileNames.FileNameCons` | crates/anima-runtime/src/context/storage.rs:209-213 | The three replacements together escape character by character. |
| `TieredStorages.TieredStorage.Get` | crates/anima-runtime/src/context/storage.rs:444-469 | L1, then L2 with promotion by use. |
| `TieredStorages.TieredStorage.Set` | crates/anima-runtime/src/context/storage.rs:471-478 | Writes both tiers. |
| `TieredStorages.TieredStorage.Delete` | crates/anima-runtime/src/context/storage.rs:480-490 | Deletes from both tiers. |
| `TieredStorages.TieredStorage.DemoteColdEntries` | crates/anima-runtime/src/context/storage.rs:492-523 | Moves down every entry unread for longer than the threshold. |
| `TieredStorages.TieredStorage.Promote` | crates/anima-runtime/src/context/storage.rs:543-563 | Moves an item up and deletes its file. |
| `TieredStorages.TieredStorage.Demote` | crates/anima-runtime/src/context/storage.rs:565-585 | Moves an item down. |
| `ChannelInterleaving.QueueAndReadyBounded` | crates/anima-runtime/src/bus/bounded.rs:60-84 | In every interleaving of n senders and a receiver, queued messages and senders past their check number at most capacity - 1 + n, no message is lost uncounted, and messages leave in the order they were pushed. |
| `ChannelInterleaving.SpareSlotSufficesExactly` | crates/anima-runtime/src/bus/bounded.rs:149-165 | No interleaving of n senders waits for a slot if and only if n is at most 2 (1 for a Sliding capacity of 0; any number for a Dropping capacity of 0). |
| `ChannelInterleaving.CanBlock` | crates/anima-runtime/src/bus/bounded.rs:149-165 | With one sender more, an interleaving in which a sender waits. |
| `BoundedQueue.RunConserves` | crates/anima-runtime/src/bus/bounded.rs:60-111 | After any run each message sent was received, is queued or was counted as dropped, and received followed by queued is in sending order. |
| `BoundedQueue.ReceivesDrain` | crates/anima-runtime/src/bus/bounded.rs:109-111 | Receiving as often as messages are queued brings them all, in order. |
| `BoundedQueue.WithoutReceives` | crates/anima-runtime/src/bus/bounded.rs:60-84 | With nobody receiving, Dropping keeps the first messages and Sliding the last. |
| `BoundedQueue.SendFacts` | crates/anima-runtime/src/bus/bounded.rs:60-84 | One send in closed form. |
| `BoundedChannels.Bounded.Send` | crates/anima-runtime/src/bus/bounded.rs:60-84 | The two strategies, with the popping loop, from any queue. |
| `BoundedChannels.Bounded.TryRecv` | crates/anima-runtime/src/bus/bounded.rs:109-111 | Takes the front of the queue. |
| `Breaker.HalfOpenAlwaysAdmitsExactly` | crates/anima-runtime/src/dispatcher/circuit_breaker.rs:141-285 | A half-open breaker admits a call in every reachable state if and only if the success threshold is within the trial calls allowed. |
| `Breaker.StuckStays` | crates/anima-runtime/src/dispatcher/circuit_breaker.rs:141-292 | Once stuck, no run of calls and trips leaves the state; only a reset does. |
| `Breaker.RunKeepsInv` | crates/anima-runtime/src/dispatcher/circuit_breaker.rs:174-299 | In every run closed is below its failure threshold, half-open below its success threshold, and open has a trip time. |
| `Breaker.Transitions` | crates/anima-runtime/src/dispatcher/circuit_breaker.rs:153-172 | What each change of state takes. |
| `Breaker.RetryHintIsOneShort` | crates/anima-runtime/src/dispatcher/circuit_breaker.rs:256-285 | A call after waiting exactly the hinted time is still rejected; any later one is let through. |
| `BreakerHistory.CallExactly` | crates/anima-runtime/src/dispatcher/circuit_breaker.rs:174-285 | What every call replies and where it leaves the breaker, counted from the replies before it: failures in a row, good trial calls, the time it opened. |
| `BreakerHistory.ResetIsNew` | crates/anima-runtime/src/dispatcher/circuit_breaker.rs:295-299 | From any state, a breaker that is reset replies to every later run as a new one does. |
| `BreakerHistory.TripOpensExactly` | crates/anima-runtime/src/dispatcher/circuit_breaker.rs:287-293 | A closed breaker tripped by hand rejects calls exactly up to the timeout; tripping another does nothing. |
| `BreakerHistory.RepliesAreCounted` | crates/anima-runtime/src/dispatcher/circuit_breaker.rs:174-285 | The statistics count the replies given and bear the times of the last good and the last failed one. |
| `CircuitBreakers.CircuitBreaker.Execute` | crates/anima-runtime/src/dispatcher/circuit_breaker.rs:256-285 | A guarded call. |
| `CircuitBreakers.CircuitBreaker.Trip` | crates/anima-runtime/src/dispatcher/circuit_breaker.rs:287-293 | A manual trip. |
| `CircuitBreakers.CircuitBreaker.Reset` | crates/anima-runtime/src/dispatcher/circuit_breaker.rs:295-299 | A reset. |
| `Sessions.RunKeepsInv` | crates/anima-runtime/src/channel/session.rs:201-292 | In every run with fresh ids, each routing key leads to a live session carrying it and conversely, and each live id stands exactly once in exactly one account list, of its own channel. |
| `Sessions.CreateKeepsInvExactly` | crates/anima-runtime/src/channel/session.rs:79-107 | Creating a session keeps the indexes in agreement if and only if its id and its routing key are both new. |
| `Sessions.CloseKeepsInv` | crates/anima-runtime/src/channel/session.rs:201-222 | Closing keeps them in agreement. |
| `Sessions.RoutingKeySticks` | crates/anima-runtime/src/channel/session.rs:263-292 | Asking again with a routing key returns the session made first, even for another channel. |
| `SessionLookup.FindsOrCreatesExactly` | crates/anima-runtime/src/channel/session.rs:263-292 | A session asked for, by id, else by routing key, else by the id the key spells, is returned and nothing changes; otherwise one is made, with the key and in the account list asked for. |
| `SessionLookup.TimesAreKept` | crates/anima-runtime/src/channel/session.rs:190-199 | A live session bears the time it was made and the time it was last touched. |
| `SessionLookup.EmptyListsGo` | crates/anima-runtime/src/channel/session.rs:201-222 | An account list that becomes empty is gone. |
| `Sessions.ClosedIsGone` | crates/anima-runtime/src/channel/session.rs:201-222 | After closing, neither id nor routing key finds the session, and every other lookup is as before. |
| `Sessions.AllListed` | crates/anima-runtime/src/channel/session.rs:231-241 | The account lists of a channel hold exactly its live sessions. |
| `SessionStores.SessionStore.CreateSession` | crates/anima-runtime/src/channel/session.rs:79-107 | Inserts into all three indexes. |
| `SessionStores.SessionStore.CloseSession` | crates/anima-runtime/src/channel/session.rs:201-222 | Removes from all three indexes. |
| `SessionStores.SessionStore.FindOrCreateSession` | crates/anima-runtime/src/channel/session.rs:263-292 | The lookups in their order, then a creation. |
| `SessionStores.SessionStore.SessionCountByChannel` | crates/anima-runtime/src/channel/session.rs:231-241 | Counts a channel's live sessions. |
| `SessionStores.SessionStore.GetStats` | crates/anima-runtime/src/channel/session.rs:243-261 | Total, per-channel and recently active counts, agreeing with each other. |
| `Glob.MatchesMeaning` | crates/anima-runtime/src/context/utils.rs:14-40 | A key matches if and only if it can be cut into pieces fitting the pattern symbol by symbol. |
| `Glob.MatchesConcat` | crates/anima-runtime/src/context/utils.rs:18-40 | Matching a concatenated pattern is matching its halves on some split of the key. |
| `Glob.DoubleStar` | crates/anima-runtime/src/context/utils.rs:18-40 | Doubling a star anywhere changes nothing. |
| `Glob.LiteralMatchesItself` | crates/anima-runtime/src/context/utils.rs:18-40 | A pattern without wildcards matches only itself. |
| `Metrics.LinesCountExactly` | crates/anima-runtime/src/metrics.rs:265-280 | Each bucket line is the number of recorded values up to its bound, for whatever is recorded, if and only if the buckets were registered in ascending order. |
| `Metrics.InfinityIsCount` | crates/anima-runtime/src/metrics.rs:265-280 | The +Inf line is the number of values recorded, whatever the buckets. |
| `Metrics.LinesNeverDecrease` | crates/anima-runtime/src/metrics.rs:265-280 | The lines never decrease. |
| `Metrics.SumIsTotal` | crates/anima-runtime/src/metrics.rs:154-180 | The histogram's sum is that of the values recorded. |
| `Metrics.SummaryKeepsNewest` | crates/anima-runtime/src/metrics.rs:206-218 | The summary's ring holds exactly the newest samples. |
| `Metrics.SummarySumsAll` | crates/anima-runtime/src/metrics.rs:206-218 | The summary's sum covers every sample, overwritten or not. |
| `Metrics.MetricsCollector.RegisterHistogram` | crates/anima-runtime/src/metrics.rs:125-143 | Registers a histogram with one extra count slot, unless the name is taken. |
| `Metrics.MetricsCollector.HistogramRecord` | crates/anima-runtime/src/metrics.rs:154-180 | Finds the first bucket that holds the value and counts it there. |
| `Metrics.MetricsCollector.RenderHistogram` | crates/anima-runtime/src/metrics.rs:265-280 | The running totals printed. |
| `Metrics.MetricsCollector.RecordSummary` | crates/anima-runtime/src/metrics.rs:206-218 | Appends, or overwrites the oldest sample. |

## Left out

- ProtocolSafety.ReachedIsSound: asks for messages with distinct ids, as do the results built on it, because message ids are drawn at random; OneOpenQuestion.SupervisedKeepsOrderExactly says what a repeated id may break.
- AgentService.SuspensionCoordinator.FindQuestion: the unordered search is modelled as meeting the least id first; ProtocolSafety.OneQuestionAtATime shows that in every such run the choice makes no difference.
- RuntimeStore.RuntimeStateStore.Append: turn, task, message and hint events are not modelled; they are written along the way and read by no step of the protocol.
- OneMap.TwoTiersAreOneMap: covers runs that use lifetimes or moves, not both; TierLimits.AnythingExactly shows that with both the claim is false of every key.
- Fairness.FullTurnsAreFair: nothing is promised across a change of the candidate ids or weights.
- BoundedChannels.Bounded.Send: one call at a time; waiting for a slot is modelled in ChannelInterleaving.
- Lru.RunStaysWithinCapacity: claimed for calls made one after the other, as are all results but those of ChannelInterleaving; the locks taken inside one call are not modelled.
- Blocked subtasks that are resolved automatically, by text search or by a model: that recursion does not use up follow-up rounds.
- Deleting a session's records, and restarting from persisted state.
- Turn and task records, transcripts, projection hints, timeline, failure and summary buffers: written along the way, read by no step of the protocol. A rebuilt tool call therefore has no messages here.
- Question kinds, risk levels, decision modes and answer texts, which only the user interface reads; the requirement judge's rules, which are one outcome of the script.
- Record ids are tagged values instead of a fixed prefix and the id, and question ids are numbers, since they are only compared.
- Splitting a plan into subtasks with jobs of their own, and automatic approval of tools (such a loop never asks): both are one outcome of the first execution.
- JSON payloads and message texts beyond the keys the protocol reads; sizes of cached values.
- Target metadata, status snapshots and the reported metrics of the balancer.
- Session contexts, histories and metadata.
- Hit rates and other floating-point figures, gauges and counters.
- Integer overflow of counters and clocks (the words of the 64-bit hash are integers that wrap explicitly, as in the program).
- The request text kept with a requirement: stored as in the program, and no result speaks of it.
- Listing and matching of stored keys (`keys_matching`, `filename_to_key`), TTL caches, registries, context manager, dispatcher queue, worker pool: easier relatives of what is here.
- HTTP, events over the wire, command line, persistence, logging.
