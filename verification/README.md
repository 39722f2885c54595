# Verified model of the code-review agent

A Dafny model of the parts of the review agent whose correctness rests on reasoning over whole runs: the durable
agent loop and its journal, the budget policies, the review pipeline, the printers and their parsers, the egress
outbox and the agent-client protocol. `dafny verify dfyconfig.toml` checks all of it.

**The agent loop.** `LoopMachine` is the loop as a step machine: between two steps it is a deterministic function of
its state, and it stops exactly where the loop asks its runtime for a named step. `StepRuntime` gives each step its
meaning over a journal and a world; the world is a total function of the moment, so one value of it fixes what the
model and every tool answer, which reads and writes of the journal fail, and where the process dies (before the
effect, between effect and write, after the write). Theorems are about `Exec`, the run after any number of steps,
for every world. They are stated on what can be observed of a run: the model's answers and the steps' results, the
events of its steps, the tools that ran, and the log of what each policy was asked and answered. `LoopDriver` and
`Checkpoint` are the loop and the runtime in the form the program has them, objects whose fields change in place,
and are proved to do exactly what the machine does. `Budget`, `Policies`, `ToolSurface` and `StepNames` are the
pieces they are made of.

**The review pipeline.** `ReviewDiff` reads a patch, `ReviewValidate` sorts findings by it, `ReviewDedup` drops
what was posted before, `PriorReviews` shows a re-review what was said earlier; `ReviewForms` and `PriorContents` say
what their normal forms and their texts mean.

**Printers and parsers.** `SastDigest`, `Substitute` and `DiffFilter`; strings are sequences of Unicode scalar
values, with the string library the code relies on in `Text`.

**Protocols.** `Outbox` is the table with its producers, its single consumer and its pruning; `AcpHost` is the
JSON-RPC client (section 5 of JSON-RPC 2.0) over every interleaving of its threads and its reader.

## Where the code and its documentation part

The code is what is modelled. Where its comments promise more, a concrete run or input is given on which the promise
fails, and the exact condition under which it holds is proved.

- `services/agent-clients/src/checkpoint.rs:6-7` says a resumed run replays "until the first gap, then continues
  live". Lookup is by name, so entries after a gap are still replayed. `LoopGaps.StaleBatchSwallowsWrite` is a run in
  which a stale batch makes a write count that never ran; `LoopGaps.LiveFromFirstGapIff` gives the condition for any
  run and any faults, `LoopLeftovers.LiveIffNoLeftoverAsked` and `LoopLeftovers.ReachedJournalLive` what it comes to
  for a given journal, and `LoopGaps.ResumeLiveFromFirstGap` shows that the journal of a durable attempt meets it.
- `services/agent-clients/src/checkpoint.rs:105-107` says the journal introduces no failure mode the plain runtime
  lacks. Two calls of one turn with one id share a journal entry: `LoopRepeats.RepeatedIdSkipsWrite` is a run that
  skips a write. With different ids the promise holds whatever reads and writes fail and wherever the process dies,
  over any journal that serves none of the run's steps (`LoopTransparency.TransparentWhenIdsDistinct`); the exact
  condition over any journal and under any faults is `LoopTransparency.TransparentIffNothingFound`.
- `services/control-plane/src/review.rs:419-421` says a key posted once suppresses at most one finding. A posting
  added with both flags funds two: `ReviewDedup.OnePostingSuppressesTwo`, and key by key
  `ReviewDedup.SuppressedAtMostPostedIff`. The one place that adds postings never sets both flags
  (`services/control-plane/src/http/internal.rs:1734`), so reviews do keep the promise:
  `ReviewDedup.ReviewsNeverSuppressMore`.
- `services/control-plane/src/review.rs:707-712` takes membership of every line for a single-hunk check. Adjacent
  hunks defeat it (`ReviewDiff.AdjacentHunksShareRange`); it is one exactly when a hidden line separates the hunks
  (`ReviewDiff.RangesInOneHunkIff`).
- `services/control-plane/src/review.rs:291-293` compresses an older review to one line. A title that spans lines
  breaks that: `PriorReviews.SpanningTitleSpans`, `PriorReviews.CompressedIsOneLineIff`.
- `services/agent-runner/src/clone.rs:128-131` says every section of a diff opens with `diff --git a/<old> b/<new>`, and
  that this marker never appears inside a hunk. A hunk line that quotes it cuts its section, and part of a rejected
  file stays (`DiffFilter.QuotedMarkerEscapes`). And the diff is asked for without `-z`
  (`services/agent-runner/src/clone.rs:93`), so a name with special or non-ASCII characters stands quoted in its
  header, as the comment at lines 105-106 knows; then no path is read, and every filter keeps the section
  (`DiffFilter.QuotedNameEscapes`). `DiffFilter.SectionWholeIff` says which sections every filter treats whole.
- `services/agent-sast/src/lib.rs:183-191` calls the digest parser a true inverse. A file name with a spaced em dash
  is lost (`SastDigest.DashedFileIsLost`); `SastDigest.DigestRoundTripIff` says which findings survive.
- `services/control-plane/src/db/outbox.rs:44-46` says a retry never double-enqueues. Pruning frees the key:
  `Outbox.RetryAfterPrunePostsAgain`; a key is inserted once exactly when no call follows such a prune:
  `Outbox.InsertedOnceIff`.
- `services/acp-host/src/lib.rs:304-308` says the clear at the reader's exit wakes any request in flight. One that
  registers after the clear is not woken: `AcpHost.LateRequestWaits` is such a run, `AcpHost.AfterClearWokenIff` the
  condition, and nothing wakes it later (`AcpHost.LateNeverWoken`).

## Model

| member | source | states |
|---|---|---|
| `LoopResume.ResumeSimulates` | services/agent-clients/src/checkpoint.rs:88-129 | a run cut anywhere, whose completed steps were all journaled and in which no step name repeats or no journal read failed, restarted over that journal: after each of those steps the second run has the state (conversation, stats, policies, transcript) and the results of the first, and ran neither model nor tool |
| `LoopCampaign.CampaignEndsAsPlain` | services/agent-clients/src/checkpoint.rs:88-129 | in a world whose answers do not depend on when it is asked, over a journal that works, any series of crashed attempts followed by one that is not killed ends in the state and with the results of the plain run that never crashed, if no turn of that run repeats a call id; an attempt that is killed has taken the first of its steps |
| `LoopResume.StepReplays` | services/agent-clients/src/checkpoint.rs:94-97 | a step with a readable journal entry returns it and runs nothing, whatever the effect would have done |
| `LoopResume.DurableJournal` | services/agent-clients/src/checkpoint.rs:113-128 | if each completed step was replayed, or succeeded and was written, and no name repeats or no read failed, the journal at the end holds each step's result under its name |
| `LoopLive.EveryStepLived` | services/agent-clients/src/checkpoint.rs:88-129 | in every run, over any journal, codec, faults and deaths, each completed step was given the value its entry reads back as, if that could be fetched and read, and then nothing ran; otherwise what the world answers at that moment: the model asked with the conversation and exactly the offered tools' specs in order, or each call's own tool or refusal; it was written exactly if it could be; the tools run, and the journal left, are those of these steps and of the one the process died in |
| `LoopCounts.CampaignBounded` | services/agent-clients/src/checkpoint.rs:94-128 | over any sequence of crashes and restarts on one journal, a step name succeeds at most once, plus once per result lost before it was written, plus once per entry that could not be fetched or read back |
| `LoopCounts.CampaignGrows` | services/agent-clients/src/checkpoint.rs:233-258 | while every entry can be fetched and read, the journal only grows over any number of attempts, entries never change and none is misread |
| `LoopCounts.CampaignOnce` | services/agent-clients/src/checkpoint.rs:94-128 | from an empty journal with working reads: no entry is ever replaced, and successes of a name are at most one plus its lost results |
| `LoopTransparency.TransparentIffNothingFound` | services/agent-clients/src/checkpoint.rs:94-128 | over any journal, whichever reads and writes fail, whatever cannot be serialised and wherever the process dies: the checkpointed run and the plain run agree step for step, and die alike, if and only if no step of the plain run asks, with a read that works, for an entry readable at the start or for a step whose result a journal takes |
| `LoopTransparency.TransparentWhenIdsDistinct` | services/agent-clients/src/checkpoint.rs:105-107 | under any such faults, and for any codec, the two runs agree if no turn of the plain run asks two stepped calls with one id and the journal started over serves none of its steps |
| `LoopTransparency.TransparentIffIdsDistinct` | services/agent-clients/src/checkpoint.rs:94-128 | without faults the runs agree if and only if no turn of the plain run does the former and no step it asks for reads back from the journal |
| `LoopOrder.StepsDistinctIffCallIds` | services/agent-loop/src/loop_driver.rs:281-408 | a step name repeats within a run exactly when some turn reuses a call id |
| `LoopGaps.ReplayedWhenServable` | services/agent-clients/src/checkpoint.rs:94-111 | over any journal, any faults and any repeated names, a completed step was replayed iff its read worked and its entry was readable at the start or written by an earlier step of the run |
| `LoopGaps.LiveFromFirstGapIff` | services/agent-clients/src/checkpoint.rs:6-7 | "replay until the first gap, then live" holds of a run, whatever its journal and faults, if and only if no step the journal could not serve comes before one it could |
| `LoopLeftovers.LiveIffNoLeftoverAsked` | services/agent-clients/src/checkpoint.rs:6-7 | with working reads and different steps, it holds of a run over any journal if and only if the run asks for no entry but those the journal, replayed by itself, reaches before its first gap |
| `LoopLeftovers.ReachedJournalLive` | services/agent-clients/src/checkpoint.rs:6-7 | so it holds in every world with working reads if the journal, replayed by itself, reaches all of its entries |
| `LoopGaps.ResumeLiveFromFirstGap` | services/agent-clients/src/checkpoint.rs:6-7 | it holds of every run restarted with working reads over the journal that a durable attempt, dead anywhere, left of an empty one, if the run's steps do not repeat |
| `LoopGaps.PurgedRunsLive` | services/agent-clients/src/checkpoint.rs:223-230 | over a purged journal a step is replayed only if the run itself wrote its name before; with distinct steps, never |
| `LoopGaps.StaleBatchSwallowsWrite` | services/agent-clients/src/checkpoint.rs:94-128 | an attempt that fails to write `llm_turn:0`, writes `tools:0` and dies, then a second one: the second counts a successful write that no tool performed in either |
| `LoopRepeats.RepeatedIdSkipsWrite` | services/agent-loop/src/loop_driver.rs:404-413 | two writes of one turn with one id: both runtimes count two successful writes, the plain one performed both, the journaled one only the first |
| `LoopConversation.ConversationHolds` | services/agent-loop/src/loop_driver.rs:314-437 | between any two points of any run the conversation only grows, but for elided contents; every appended tool message answers a call of the assistant message it follows, in call order |
| `LoopAnswers.EveryResultAnswered` | services/agent-loop/src/loop_driver.rs:380-437 | at every point of every run the completed turns stand in the appended conversation in order, each assistant message followed by one tool message per `Continue` result in call order and none for a `Finish` or an `Abort`; the turn in progress stands at the end with its answers so far; there is no other appended tool message |
| `LoopOrder.ExecToolStepsOk` | services/agent-loop/src/loop_driver.rs:356-413 | in every run only the model's step can fail: a tool's failure is an outcome |
| `LoopTurn.ExecShape` | services/agent-loop/src/loop_driver.rs:380-437 | while a turn is being worked through, the calls accounted for are a prefix of its calls in order, and the finish and abort flags say what came of them; `LoopAnswers.EveryResultAnswered` covers completed turns |
| `LoopResults.EveryCallHasItsResult` | services/agent-loop/src/loop_driver.rs:377-437 | in every run, over any journal and any faults, every completed turn holds exactly one result per call, in call order, each the loop's own refusal of that call or what a completed step of that turn gave for it |
| `LoopSequential.TurnsAreSequential` | services/agent-loop/src/loop_driver.rs:323-437 | in a plain run each of those results is what dispatching that call directly gives at one of the run's own steps, whatever the batch size |
| `LoopSequential.GuardedRuns` | services/agent-loop/src/loop_driver.rs:350-403 | every tool run belongs to the current turn, and under the guard no tool outside the offered view runs |
| `LoopDispatch.EachCallRunsOnce` | services/agent-loop/src/loop_driver.rs:354-413 | within an attempt no two tool runs serve one call of one turn, over any journal and any world |
| `LoopOutcomes.OutcomeMeaning` | services/agent-loop/src/loop_driver.rs:485-516 | finished iff the last turn holds a finish, no abort and was not rejected; aborted iff it holds an abort, with the last reason in call order; no earlier turn could have ended the run |
| `LoopVerdicts.FinishIsTheirs` | services/agent-loop/src/loop_driver.rs:439-516 | after every completed turn each policy is asked once, in order, and shown the conversation as that turn left it, its results and whether it converged; the turn is rejected if and only if one of their answers rejects finishing; a run is finished if and only if its last turn holds a finish, no abort, and no policy answered so |
| `LoopVerdicts.PlansAreWished` | services/agent-loop/src/loop_driver.rs:186-261 | before every turn on which the model is asked each policy was asked once, in order, and shown the counters, and the plan is the initial filter with what they answered, no more and no less |
| `LoopVerdicts.WhyItEnded` | services/agent-loop/src/loop_driver.rs:136-307 | a run that ends without a verdict used all its turns, was ordered to stop by a policy, or saw the context overflow, and the latter two end it so; it fails with the model's own last error, and does with one that is neither transient nor an overflow |
| `LoopVerdicts.TurnsFollow` | services/agent-loop/src/loop_driver.rs:124-134 | the model is asked for turn 0, then 1, and so on; turns complete in that order |
| `LoopAccounts.EverythingAccounted` | services/agent-loop/src/loop_driver.rs:186-516 | in every run, policies answer for themselves, from all they were asked; the messages of the conversation other than tool answers are those it began with, the model's answers, the nudges answered and the one for an answer without calls; the transcript holds each answer of the model, each call's outcome and each record of a policy, and nothing else; the findings count is the last one a policy set |
| `AgentTypes.OverflowIff` | services/agent-loop/src/loop_driver.rs:527-538 | a failure counts as a context overflow if and only if its text has one of five phrases, in capitals or not |
| `LoopOutcomes.BreakerMeaning` | services/agent-loop/src/loop_driver.rs:287-307 | the failure counter is the current streak of transient model failures, and the run ends on one exactly when the streak reaches a positive threshold |
| `LoopOutcomes.ModelStepsBounded` | services/agent-loop/src/loop_driver.rs:124-134 | no run asks the model more often than it has turns, the step it died in included |
| `LoopConvergence.RunConverges` | services/agent-loop/src/policy.rs:99-213 | from the first turn in the wind-down tail, or once so many turns have made a read that may be dispatched, no later turn offers a reading or progress tool; once so many calls to file (retrieval) tools were made, none offers one; whatever policies follow the shared ones, unless a filter forces the tool |
| `LoopConvergence.SharedStackExact` | services/agent-loop/src/policy.rs:28-261 | with the shared stack alone from an unrestricted start, each turn is planned from a state such that the filter blocks exactly the investigation kinds when that state's context stays over its budget or the turn is in the tail, plus the kinds whose budget is spent; every other tool is offered on every turn, and each announcement is made at most once a run; the counters are the calls and turns counted off the run itself |
| `LoopConvergence.StackTurn` | services/agent-loop/src/policy.rs:28-261 | on one turn, whatever follows the stack: the turn converges iff the context stays over its budget or winding down is announced on it, and the filter is the initial one narrowed by what the budgets call for |
| `LoopTallies.CountersCount` | services/agent-loop/src/loop_driver.rs:337-426 | in every run and world, files read and searches are the numbers of calls to file and retrieval tools in the model's answers, batches the number of turns with a read that may be dispatched, and successful writes the number of calls to writing tools whose result went on |
| `LoopNotices.SharedPoliciesSpeak` | services/agent-loop/src/policy.rs:28-261 | in every run the shared stack leads, whatever stands behind it: each answer of its policies before a turn is what the state shown calls for, each notice is given on the first turn that calls for it and on no other, and at other moments they answer nothing |
| `Budget.EstimateMeans` | services/agent-loop/src/budget.rs:10-33 | the estimate is a quarter of all bytes of the conversation and the tools plus four a message, less at most three quarters of a token a message and a tool |
| `LoopProgress.NeverBack` | services/agent-loop/src/loop_driver.rs:341-348 | turns and counters never go back along a run, whatever the policies |
| `LoopMachine.ApplyAllBeforeKeeps` | services/agent-loop/src/loop_driver.rs:191-261 | what policies do before a turn changes messages and transcript only: not the stats, the failure counter or the policies themselves |
| `LoopDriver.AgentLoop.Run` | services/agent-loop/src/loop_driver.rs:116-168 | the loop over mutable fields is the step machine's run from the same start: it ends where the machine halts, with the machine's result and state, or where the process died |
| `LoopDriver.AgentLoop.RunTurn` | services/agent-loop/src/loop_driver.rs:178-517 | one turn leaves loop, policies, host and journal where the machine is, and its flow says whether the machine is at the next turn, at the tail, halted or crashed |
| `LoopDriver.AgentLoop.RunCalls` | services/agent-loop/src/loop_driver.rs:377-437 | the loop over a turn's calls, draining the batch's map, follows the machine call by call |
| `LoopDriver.AgentLoop.BeforeTurn` | services/agent-loop/src/loop_driver.rs:186-261 | folding the policies' actions over the mutable state gives the machine's state and plan |
| `LoopDriver.AgentLoop.CloseTurn` | services/agent-loop/src/loop_driver.rs:439-516 | after-turn policies, then abort, finish or the next turn, as the machine decides |
| `LoopDriver.AgentLoop.ExhaustedTail` | services/agent-loop/src/loop_driver.rs:136-167 | the exhaustion record and hooks leave the machine's tail state |
| `Checkpoint.StepHost.Step` | services/agent-clients/src/checkpoint.rs:88-129 | the step over a mutable store returns and leaves exactly what the step function says, at every fault and every crash point |
| `Checkpoint.StepHost.JoinAll` | services/agent-loop/src/loop_driver.rs:362-369 | reads that complete in any order give their outcomes in chunk order and run each call once |
| `Checkpoint.StepHost.DispatchBatch` | services/agent-loop/src/loop_driver.rs:359-372 | chunking by any batch size, 0 taken as 1, loses and repeats nothing |
| `Checkpoint.InMemoryStepStore.Upsert` | services/agent-clients/src/checkpoint.rs:243-258 | the entry is stored under its name and no other entry changes |
| `StepNames.ParseName` | services/agent-types/src/step_name.rs:68-78 | a name determines its step, whatever characters the call id holds |
| `StepNames.NamesAreDistinct` | services/agent-types/src/step_name.rs:68-78 | distinct steps have distinct names, and none has a reserved name |
| `ToolSurface.NarrowAllOffers` | services/agent-tools/src/filter.rs:53-72 | any sequence of narrowings offers a tool iff some filter forces it, or all allow it and none blocks it |
| `ToolSurface.View` | services/agent-tools/src/registry.rs:50-60 | a view holds a tool iff it is registered and its filter offers it |
| `ToolSurface.ViewInOrder` | services/agent-tools/src/registry.rs:50-60 | a view lists the offered positions of the registry once each, in registration order |
| `ToolSurface.DispatchOf` | services/agent-tools/src/registry.rs:117-135 | a view runs the first of its tools with the call's name, or refuses: an unoffered name, or a blank id for a tool that needs one, and nothing else |
| `ToolSurface.ToolRegistry.Register` | services/agent-tools/src/registry.rs:30-48 | both errors with their exact conditions; otherwise the tool is appended and found by its name |
| `Budget.TrimmingMeaning` | services/agent-loop/src/budget.rs:37-60 | real estimate <= running estimate <= real estimate + replaced count; the replaced messages are exactly the eligible ones before some index, and the returned count is theirs; each was replaced while the real estimate plus the count so far was above the target; the last two messages, and of the others all but the content, are untouched; ending above the target means nothing eligible is left |
| `Budget.TrimAtTracks` | services/agent-loop/src/budget.rs:55-57 | one replacement keeps the estimates in step and the saturating subtraction never clips |
| `Budget.TrimToolHistory` | services/agent-loop/src/budget.rs:37-60 | the in-place pass over the array leaves the trimmed history and returns its count |
| `Budget.WinddownTurn` | services/agent-loop/src/budget.rs:72-81 | the tail is a tenth of the turns, and two turns where that is less and the run has more than two; a run of at most two turns winds down at turn 1 |
| `Policies.TurnPolicy.TrimBeforeTurn` | services/agent-loop/src/policy.rs:28-56 | the policy object, flag flipped in place, acts as the policy value the convergence theorems are about |
| `Policies.TurnPolicy.WindDownBeforeTurn` | services/agent-loop/src/policy.rs:99-138 | as above, for winding down |
| `Policies.TurnPolicy.ReadBudgetsBeforeTurn` | services/agent-loop/src/policy.rs:173-213 | as above, for the read budgets |
| `Policies.TurnPolicy.TurnBudgetBeforeTurn` | services/agent-loop/src/policy.rs:244-261 | as above, for the halfway notice |
| `ReviewDiff.DiffLinesExact` | services/control-plane/src/review.rs:532-555 | on a printed list of well-formed hunks, the added lines are exactly those the hunks add and the visible ones exactly their new-side intervals |
| `ReviewDiff.HeaderParses` | services/control-plane/src/review.rs:598-606 | the start of a printed header is read back, whatever range counts and section heading surround it |
| `ReviewDiff.CollectDiffLines` | services/control-plane/src/review.rs:532-555 | the loop over the patch's lines computes what `DiffLinesExact` speaks of |
| `ReviewDiff.RangesInOneHunkIff` | services/control-plane/src/review.rs:703-726 | for hunks in file order, every accepted range lies inside one hunk if and only if a hidden line separates any two hunks that show lines |
| `ReviewDiff.AdjacentHunksShareRange` | services/control-plane/src/review.rs:717-726 | two hunks with no line between them: the range over their border is accepted and lies in neither |
| `ReviewDiff.AcceptedIff` | services/control-plane/src/review.rs:717-726 | on a printed patch a range is accepted iff it starts at a positive line not after its end and each of its lines is shown by some hunk |
| `ReviewValidate.NearestAddedLine` | services/control-plane/src/review.rs:563-595 | the nearest added line, the earlier one on a tie; none iff no added line is in the window |
| `ReviewValidate.Validate` | services/control-plane/src/review.rs:630-700 | the loop with its set of seen keys yields the three sections of the first finding of each key, in order |
| `ReviewValidate.ValidationConserves` | services/control-plane/src/review.rs:636-698 | the sections hold one entry per distinct key; every finding is in its section itself or through an earlier survivor with its file, resolved line and title |
| `ReviewValidate.SectionsPartition` | services/control-plane/src/review.rs:640-698 | each survivor is in exactly one section |
| `ReviewValidate.SameKeySameSection` | services/control-plane/src/review.rs:666-672 | findings with one key belong to one section and one anchor, so no duplicate is dropped across sections |
| `ReviewValidate.EveryFindingPlaced` | services/control-plane/src/review.rs:636-698 | each section holds exactly the first finding of each file, title and settled line that belongs there, in order: a comment if its line shows and the nearest added line is positive and at most five lines away, on that line, without range and suggestion if it moved and with its range iff all of it is visible if not; out of scope if the change set is known and lacks its file; deferred otherwise |
| `ReviewValidate.UnknownScopeDefersAll` | services/control-plane/src/review.rs:627-631 | with no change set every surviving finding is deferred |
| `ReviewDedup.PostedFindings.Add` | services/control-plane/src/review.rs:395-405 | the occurrence counts stay those of the postings added so far |
| `ReviewDedup.PostedFindings.DedupAgainst` | services/control-plane/src/review.rs:422-452 | the filter over local copies of the counts keeps and counts what the two budgets say, and spends nothing of the object's own |
| `ReviewDedup.KeysAgreeIff` | services/control-plane/src/review.rs:353-374 | two exact keys agree if and only if lines, normal paths and the folds of the titles' words, one space between any two, do; two wide keys if and only if the latter two do |
| `ReviewDedup.InjectiveKeysAgreeIff` | services/control-plane/src/review.rs:353-374 | for a folding that folds no two lines alike: if and only if the titles have the same words in the same order, and paths and lines agree as before |
| `ReviewForms.NormalPathIs` | services/control-plane/src/review.rs:836-841 | the normal path is the one left of leading `./`s and then slashes, with forward slashes |
| `ReviewForms.OneLineAgreesIff` | services/control-plane/src/review.rs:353-361 | two titles come to one line if and only if they have the same words, each the whole of a run without whitespace, in the same order |
| `ReviewDedup.SuppressedIsTwoTiers` | services/control-plane/src/review.rs:433-450 | suppressed = the sum over exact keys of min(found, same-head count), plus the sum over wide keys of min(tier-one survivors, PR-wide count) |
| `ReviewDedup.DedupConserves` | services/control-plane/src/review.rs:412-452 | the kept findings are a subsequence, and kept + suppressed = found |
| `ReviewDedup.SuppressedPermutes` | services/control-plane/src/review.rs:422-452 | the count does not depend on the order of the findings |
| `ReviewDedup.SuppressedAtMostPostedIff` | services/control-plane/src/review.rs:419-421 | for each file and title: no list of findings, whatever else it holds, loses more of that key than were posted of it if and only if no more of its postings fund both tiers than fund neither |
| `ReviewDedup.NeverMoreThanPostedIff` | services/control-plane/src/review.rs:376-383 | for all keys at once |
| `ReviewDedup.TotalAtMostPostedIff` | services/control-plane/src/review.rs:422-452 | for the totals over all keys |
| `ReviewDedup.DedupOfKey` | services/control-plane/src/review.rs:433-450 | what is kept of a key depends on the findings and the budgets of that key alone |
| `ReviewDedup.ReviewsNeverSuppressMore` | services/control-plane/src/http/internal.rs:1725-1743 | the postings a review is checked against, with their flags as they are set there, never let it lose more findings of a key than were posted of it |
| `ReviewDedup.OnePostingSuppressesTwo` | services/control-plane/src/review.rs:395-405 | one posting with both flags suppresses two findings |
| `PriorReviews.FormatPriorReviews` | services/control-plane/src/review.rs:174-252 | the loop over older reviews, with its break, builds the block the next rows are about, or none when no review has content |
| `PriorContents.BlockTells` | services/control-plane/src/review.rs:174-252 | there is a block exactly when some review has a verdict or a finding; it opens with the section on the latest review, whole if that takes at most 8000 bytes and cut within them if not, then has one line for each of the first older reviews and the number of those left out |
| `PriorContents.LatestTells` | services/control-plane/src/review.rs:257-289 | that section says the trimmed verdict and the first thirty findings, each with rank, place and trimmed title, in order; it is empty exactly when there is neither |
| `PriorContents.OlderTells` | services/control-plane/src/review.rs:291-323 | an older review's line says its number, the words of its verdict or that it has none, how many findings have a title, and these titles, trimmed, in order |
| `PriorReviews.LatestNeverCut` | services/control-plane/src/review.rs:169-172 | if the latest review's section fits, it stands whole; of the older ones the longest prefix that fits follows, and shown + omitted = all |
| `PriorReviews.BlockBounded` | services/control-plane/src/review.rs:211-249 | the block exceeds the budget by no more than its own fixed notes |
| `PriorReviews.CutKeepsWholeLines` | services/control-plane/src/review.rs:336-342 | a cut falls on a character boundary within budget, at the last newline that fits, or if there is none where no further character fits |
| `PriorReviews.CapBlock` | services/control-plane/src/review.rs:332-348 | stepping the byte offset back to a character boundary reaches that cut |
| `PriorReviews.CompressedIsOneLineIff` | services/control-plane/src/review.rs:291-323 | an older review takes one line iff none of its titles spans lines; its verdict never does |
| `PriorReviews.SpanningTitleSpans` | services/control-plane/src/review.rs:294-317 | a title over two lines takes its review over two lines |
| `SastDigest.DigestRoundTripIff` | services/agent-sast/src/lib.rs:142-231 | for findings with plain priorities and any messages, parsing the digest gives back every (file, line, rule) in order and nothing else if and only if each file and rule id is on one line, trimmed, and free of the separators around it |
| `SastDigest.BuiltPrioritiesArePlain` | services/agent-sast/src/sarif.rs:187-207 | whatever the reported level, the priority a finding is built with is one the round trip speaks of |
| `SastDigest.DashedFileIsLost` | services/agent-sast/src/lib.rs:207-210 | a finding in a file whose name holds a spaced em dash does not come back |
| `SastDigest.Digest` | services/agent-sast/src/lib.rs:142-171 | the loop prints the prose and one bullet a finding; nothing for no finding |
| `SastDigest.ParseDigestLeads` | services/agent-sast/src/lib.rs:193-231 | the loop collects the leads the round trip is about |
| `SastDigest.RuleIdRecovered` | services/agent-sast/src/lib.rs:217-223 | the last backtick group is the rule's, whatever the message holds, unless the rule id opens one itself |
| `Substitute.SubstitutionRoundTrip` | services/config/src/substitute.rs:18-42 | substituting a printed template renders each segment once: values and defaults are not scanned again, an unclosed tail is verbatim |
| `Substitute.ParsePrints` | services/config/src/substitute.rs:18-42 | every string is the print of a well-formed template |
| `Substitute.PrintParses` | services/config/src/substitute.rs:21-28 | and of one only |
| `Substitute.SubstituteWith` | services/config/src/substitute.rs:18-42 | the scanning loop renders the template of its input |
| `Substitute.ReferenceMeans` | services/config/src/substitute.rs:30-37 | a reference is its trimmed name's value, else its default, else nothing; a default may hold the separator |
| `Substitute.SubstituteValue` | services/config/src/substitute.rs:50-65 | the walk over a tree substitutes in every string of it |
| `Substitute.SubstitutionKeepsShape` | services/config/src/substitute.rs:50-65 | shape, keys, numbers and booleans stay, and the strings are substituted one by one in place |
| `DiffFilter.FilterDiff` | services/agent-runner/src/clone.rs:132-170 | the loops with the first-chunk flag rebuild the kept chunks, and filter the file list |
| `DiffFilter.PlainDiffFiltered` | services/agent-runner/src/clone.rs:128-170 | the filtered diff is the diff of the kept files' sections, for every filter, when the header of each section and each marker it quotes name its path |
| `DiffFilter.SectionWholeIff` | services/agent-runner/src/clone.rs:141-161 | for any section, however its header is printed: every filter keeps it whole or drops it whole, by its path, if and only if its header line and the line after every marker quoted in it name that path |
| `DiffFilter.PathReadIff` | services/agent-runner/src/clone.rs:152-157 | a path printed as it is, is read off its header right iff it has no outer whitespace and no second new-side mark, whatever the old side |
| `DiffFilter.BareReadsRightIff` | services/agent-runner/src/clone.rs:141-157 | so for a section whose path is printed as it is, the condition of `SectionWholeIff` is that, and that each quoted marker names the path |
| `DiffFilter.QuotedKeptIff` | services/agent-runner/src/clone.rs:152-158 | a section whose path is printed quoted is kept by every filter iff neither side holds the new-side mark |
| `DiffFilter.QuotedNameEscapes` | services/agent-runner/src/clone.rs:93-106 | a rejected file whose name is printed quoted stays in the diff |
| `DiffFilter.QuotedMarkerEscapes` | services/agent-runner/src/clone.rs:128-131 | a hunk line of a rejected file that quotes the marker stays in the diff |
| `DiffFilter.LaterChunksName` | services/agent-runner/src/clone.rs:141-157 | the chunks after a section's first are what follows its quoted markers, one each |
| `Outbox.TaskKeysInjective` | services/control-plane/src/outbox.rs:25-33 | two calls for tasks get one key iff task and slot agree, a verdict and a reaction named "verdict" being one slot |
| `Outbox.TasklessKeysApart` | services/control-plane/src/outbox.rs:27-32 | a key without a task is never a task's key, for owners without a colon |
| `Outbox.OneRowPerSlot` | services/control-plane/src/outbox.rs:69-357 | after any interleaving of calls, retries, deliveries and prunes a task has at most one row per review, reply, notice, verdict, reaction content, check start, check resolve, and pull request per epoch |
| `Outbox.PostsBounded` | services/control-plane/src/db/outbox.rs:96-146 | an intent reaches the platform at most once, plus once per delivery that landed without being recorded as delivered, plus once per prune of its row; inserts of a key equal prunes plus rows; a pending row has failed fewer than six times and a dead one six |
| `Outbox.RowTells` | services/control-plane/src/db/outbox.rs:48-146 | a row's attempts are the deliveries recorded as failed since its insert; it is delivered exactly if one was recorded as made since then, given up exactly if six failed, and holds the call inserted |
| `Outbox.SweptIff` | services/control-plane/src/db/outbox.rs:164-193 | a sweep removes a row exactly if it is past its window and delivered or given up |
| `Outbox.CountsAreEvents` | services/control-plane/src/db/outbox.rs:48-193 | the counts the other rows speak of are those of the run's own events |
| `Outbox.InsertedOnceIff` | services/control-plane/src/db/outbox.rs:44-47 | a key is inserted at most once if and only if no call with it comes after a prune that removed its row |
| `Outbox.InsertedOnceUnpruned` | services/control-plane/src/db/outbox.rs:44-85 | without any prune a key is inserted at most once, and posted once but for lost records |
| `Outbox.RetryAfterPrunePostsAgain` | services/control-plane/src/db/outbox.rs:164-193 | a retry after the delivered row was pruned is inserted and posted again |
| `Outbox.FirstPayloadStays` | services/control-plane/src/db/outbox.rs:48-85 | without pruning a row keeps the first call made with its key, whatever is retried |
| `Outbox.SwallowedIff` | services/control-plane/src/outbox.rs:146-162 | in any run, prunes and retries included, a task call finds its key taken by a row of another intent if and only if it comes while the row of a clashing call stands: a verdict and a reaction whose content is "verdict", of one task |
| `Outbox.ClashFreeSwallowsNothing` | services/control-plane/src/outbox.rs:146-162 | only a run that gives a task both ever swallows a call |
| `Outbox.NothingSwallowedIff` | services/control-plane/src/outbox.rs:146-162 | without prunes every task call has a row of its own intent if and only if no task is given both |
| `Outbox.Table.Enqueue` | services/control-plane/src/db/outbox.rs:48-85 | the table goes on as a run with this call added; it says inserted iff the run's inserts of the key went up |
| `Outbox.Table.DrainOnce` | services/control-plane/src/queue/reconciler.rs:135-235 | delivering a claimed batch row by row, with any errors and lost marks, leaves the table of the run with those attempts added, and counts what was posted |
| `Outbox.Table.Prune` | services/control-plane/src/db/outbox.rs:164-193 | the table goes on as a run with this prune added; no pending row is touched |
| `AcpHost.IdsAreUnique` | services/acp-host/src/lib.rs:148 | over every interleaving the ids given out are 1, 2, 3 and so on, each once |
| `AcpHost.RunConsistent` | services/acp-host/src/lib.rs:147-168 | in every reachable state a waiting request is registered or has been woken, never both, and pending ids are issued and unresolved |
| `AcpHost.WokenForGood` | services/acp-host/src/lib.rs:267-273 | a request is resolved at most once, and for good |
| `AcpHost.ReplyWakesOnlyItsOwn` | services/acp-host/src/lib.rs:267-273 | a reply touches no request but its own |
| `AcpHost.ReplyFindsWaiter` | services/acp-host/src/lib.rs:147-168 | a reply to a written request handled before the reader exits always finds its waiter |
| `AcpHost.ClearWakesAll` | services/acp-host/src/lib.rs:304-308 | the exit clear wakes every request registered before it that nothing has woken |
| `AcpHost.AfterClearWokenIff` | services/acp-host/src/lib.rs:304-308 | after the clear a request awaiting its reply is resolved if and only if it did not register after the clear |
| `AcpHost.LateNeverWoken` | services/acp-host/src/lib.rs:147-164 | a request registered after the clear is never woken, however the run goes on |
| `AcpHost.LateRequestWaits` | services/acp-host/src/lib.rs:147-164 | such a request: issued and written after the clear, it waits and nothing has woken it |
| `AcpHost.SuccessMeans` | services/acp-host/src/lib.rs:161-167 | a request succeeds only with a value received under its own id, and what it returns does not change |
| `AcpHost.ReplyIsReturned` | services/acp-host/src/lib.rs:147-168 | the first reply the reader takes for a waiting request is what it returns, once written, however the run goes on: the error if the reply has one, else its result, else `null` |
| `AcpHost.ClearIsReturned` | services/acp-host/src/lib.rs:158-160 | a request still waiting when the reader is done fails for a closed channel |
| `AcpHost.ReaderKeepsOrder` | services/acp-host/src/lib.rs:275-301 | every message before the end of input is received; the updates kept are those received, in order; each request of the agent that has an id is answered once, with that id, in order, a permission with its decision and any other with the refusal of its method, whatever runs in between, unless writing its answer fails |
| `AcpHost.AcpClient.Handle` | services/acp-host/src/lib.rs:254-301 | one message changes the client's fields as the step system says |
| `AcpHost.AcpClient.ReadAll` | services/acp-host/src/lib.rs:246-308 | the reader's loop and its exit clear, with any steps of requests before and after each of its own, are that interleaving's run of the step system |
| `AcpHost.CancelledIff` | services/acp-host/src/lib.rs:310-333 | a request is cancelled iff by policy, for want of options, or because the preferred option has no id |
| `AcpHost.PreferredIsDecided` | services/acp-host/src/lib.rs:318-333 | otherwise the preferred option, the first that allows or the first of all where none does, is selected by its id |

## Left out

- I/O: HTTP, git, subprocesses, Kubernetes, Postgres, tracing and clocks. What they decide is a parameter: the
  world of a run, which rows are due or past their window, when a write fails.
- Serialisation: `StepRuntime` takes an encoder and a decoder that agree on what they round-trip; JSON text itself,
  the content hash stored with an entry and never consulted, and the request's sampling parameters are not modelled.
- `LoopResume.ResumeSimulates`: sleeping and awaiting durable steps are not modelled, only `step`.
- `Checkpoint.StepHost.Step`: a process that dies within a batch of reads, when some of them have run, is not among the
  crash points; it dies before the effect, or after all of it.
- `LoopMachine.OnModelError`: the text of a context overflow is searched after lower-casing ASCII letters only, where
  the source lower-cases every Unicode letter.
- `LoopConvergence.SharedStackExact`: speaks of the shared stack alone; policies behind it may narrow further.
- `LoopCampaign.CampaignEndsAsPlain`: for worlds whose answers do not depend on when they are asked; of other worlds
  `LoopResume.ResumeSimulates` speaks.
- `LoopConvergence.RunConverges`: speaks of what is offered; without the guard a turn dispatches on the full view.
- `Checkpoint.StepHost.JoinAll`: futures are any order of completion; what a tool answers may depend on the moment
  and the call but not on the order within its chunk.
- `LoopDriver.AgentLoop.Run`: user policies other than the four built in are any function of all they have heard;
  the wording of nudges and refusals is a parameter, and the transcript is that of the current attempt.
- `Budget.WinddownTurn`: the context threshold's factor 0.75 is taken as floor(3 * window / 4), without rounding
  of floating-point numbers.
- Integer widths: counters, lengths and line counters are naturals; the failure counter and a hunk that runs past
  line 2^32 - 1 do not wrap. Parsed line numbers do respect `u32`.
- `ReviewDedup.SuppressedIsTwoTiers`: the Unicode lower-casing in a title's key is an arbitrary function.
- `ReviewDiff.RangesInOneHunkIff`: takes the hunks in file order, as the source does.
- `ReviewValidate.Validate`: the rendering of a comment's body is an arbitrary function of the finding.
- `PriorReviews.FormatPriorReviews`: the header and the truncation note are parameters, since their wording does not
  matter to the bounds.
- `SastDigest.DigestRoundTripIff`: the digest's prose is any text whose lines are no bullets; a priority holding the
  closing bracket and a space, or a newline, is excluded; no finding is built with one
  (`SastDigest.BuiltPrioritiesArePlain`).
- `Substitute.SubstituteValue`: the tree is rebuilt as a value instead of rewritten in place; nothing else refers to it.
- `Outbox.PostsBounded`: one consumer, as the source requires; times are choices of the run, and the notifications
  to the consumer are not modelled.
- `Checkpoint.InMemoryStepStore.Purge`: modelled as emptying the journal; what that means for a run is
  `LoopGaps.PurgedRunsLive`.
- `Outbox.Table.Enqueue`: the row's platform, installation and trace columns.
- `AcpHost.AcpClient.ReadAll`: steps of requesting threads are given to it as a schedule; taking the pending map's lock
  and what is done under it are one step.
- `AcpHost.RunConsistent`: ids do not wrap; stderr capture, spawning and shutdown are not modelled.
- Settings merging, model presets, SARIF filtering, retry backoff, status reporting, check-run output and the
  stripping of model artifacts: single branches or folds.
- Tokens, runner credentials and webhook signatures: cryptography through libraries.
