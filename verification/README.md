# Verified model of the agent runtime

This project models four connected parts of the agent runtime and proves what they promise.

- **The plan engine** (`plan.execute`). `DependencyGraph` says what layers, chains and cycles are, without reference
  to any algorithm. `PlanTask` holds the parser and the layering loops with their counter array. `PlanRun` gives a run
  its meaning, task by task and layer by layer, as a function of the plan, the starting outcomes and an oracle for the
  sub-agent runner (a function of task, prompt and attempt number). `PlanExecute` is the executor with its batches,
  retries, halts and checkpoints, proved against that meaning. `PlanProperties`, `PlanResume` and `PlanReport` prove
  what every run keeps: who runs on what, who is skipped and why, what crashes and resumes change, what is reported.
  `PlanRedraft` covers a resume with a changed plan, `PromptSize` the length of composed prompts, and `PlanClaim` the
  stored claim that is to keep resumes of one plan apart.
- **The turn driver**. `ToolBatch` answers the pending tool calls of a round, `TurnDriver` is the loop around it with
  its held token reservations, `TokenBudget` the budget that concurrent turns reserve from, `ToolHistory` the
  byte-capped history, and `BackgroundNotices` the registry of background tasks together with runs in which rounds of
  any sessions overlap, fail and succeed in any order.
- **Delegation**. `DelegateChain` (gates, tools, chains), `DelegateBatch` (slots and chunks), `AggregateWeights`
  (success rates and ranking) and `RetrievedNotes` (what a sub-agent inherits).
- **The placeholder renderer**. `Placeholder` has 64-bit arithmetic written out and takes nothing on trust.

`Prelude` holds options, results and facts about sequences and bags.

## Where the sources and the code differ

- *Resuming loses artifacts.* `crates/zen-agents/src/plan_task.rs:542-543` says that a resume replays the ok
  checkpoints and re-runs the rest. A checkpoint keeps an ok task's response only, while the report also copies
  `artifact_path` and `summary` (lines 822-827), which the runner sets for every task that declares an artifact. A
  replayed task of that kind is reported without them: `PlanResume.ArtifactLost` exhibits a plan,
  `PlanResume.ReplayedRow` says that these two members are all that is lost, and `PlanResume.CrashesAreInvisible` that
  rows agree exactly when no replayed task declares an artifact. Statuses, responses, halts and everything downstream
  are kept in every case; that rests on ok answers carrying a text response, which is a hypothesis on the runner here
  and is what its code does (`PlanResume.RunnerIsShaped`).
- *A changed plan reruns.* `crates/zen-agents/src/plan_task.rs:594-596` says that a task which the model changed
  reruns. Only id and agent are compared, so a redraft that changes a prompt replays the answer to the old one
  (`PlanRedraft.StaleAnswer`). `PlanRedraft.RedraftTransparentIff` says exactly when a resume with a redraft is right,
  and `PlanRedraft.RedraftResumesWell` gives a condition on the two drafts.
- *Fan-in.* Snippets of up to 4000 characters each meet a limit of 32000 bytes on the prompt, so a task can be refused
  because its inputs succeeded. `PromptSize.LargestFanIn` gives the largest fan-in that is safe.
- *One resume at a time.* `crates/zen-repo/migrations/007_plan_owner.sql` promises that exactly one resume may run a
  plan, and `crates/zen-repo/src/workflow_repo.rs:15-17` that only a claim without checkpoint progress can be stolen.
  Checkpoints do not touch the plan's row, so a claim can be stolen an hour after it was granted whatever its holder
  wrote since (`PlanClaim.StolenIffAnHourOld`, `PlanClaim.ProgressDoesNotRenew`), and the run that created the plan
  takes no claim at all (`PlanClaim.FirstClaimGranted`). `PlanResume.TableStaysFaithful` shows what saves the results:
  with a runner that answers alike, overlapping attempts never spoil the table for each other.
- *Notices.* `docs/designs/background-tool-execution-2026-10-30.md` (lines 56-59) promises at-least-once delivery,
  never loss. A successful round marks every notice it drained, including one whose line the history cap had already
  dropped. A line has at most 435 bytes, so up to 36 notices in one round always arrive whole
  (`BackgroundNotices.UpTo36Intact`); with 37 one can be lost (`BackgroundNotices.MarkedThoughDropped`), and
  `BackgroundNotices.LinesReachPrompt` says exactly which lines survive.
- *Exactly-once cover.* `lemma_kahn_cover` in `formal/src/plan_layers_verify.rs` is trusted there and does not follow
  from its hypotheses (`DependencyGraph.CoverNeedsRounds`). `DependencyGraph.LayersCoverOnce` proves the cover from
  what the run itself establishes about its layers, for any number of tasks and any repeated dependencies.

## Model

| member | source | states |
|---|---|---|
| PlanTask.ParseTask | crates/zen-agents/src/plan_task.rs:207-234 | an item is read exactly when it has no fault, and a refusal names the first faulty member in reading order; the task read has the item's id, agent and prompt, halts exactly for "halt", retries exactly for "retry", and an edge is refused only when it is none of the known ones |
| PlanTask.CheckIds | crates/zen-agents/src/plan_task.rs:235-246 | passes exactly when ids are unique and every dependency exists; a fault is that of the first faulty task: its id comes again, or else its first unknown dependency |
| PlanTask.ParsePlan | crates/zen-agents/src/plan_task.rs:189-248 | accepts exactly the drafts that denote a valid plan of 1 to 12 tasks, returns that plan member by member with its label, and a refusal names the first fault in reading order |
| PlanTask.DependencyNamed | crates/zen-agents/src/plan_task.rs:254-263 | a resolved dependency is the task that the plan names there |
| PlanTask.BuildKahn | crates/zen-agents/src/plan_task.rs:253-265 | counters hold the number of references and `dependents` is the transpose with multiplicities, or an id is really unknown |
| PlanTask.OpenFinish | formal/src/plan_layers_verify.rs:682-685 | finishing a task closes exactly as many open references as a list has to it: the accounting that the sidecar assumes |
| PlanTask.Release | crates/zen-agents/src/plan_task.rs:274-279 | no counter underflows, counters equal the open references afterwards, and each task is queued once, when its last reference closes |
| PlanTask.Sweep | crates/zen-agents/src/plan_task.rs:272-281 | after a sweep the next frontier is again exactly the unfinished tasks without open references, each once |
| PlanTask.PeelLayers | crates/zen-agents/src/plan_task.rs:266-282 | layers are the non-empty rounds of the graph, and `placed` counts what can ever be finished |
| PlanTask.TopologicalLayers | crates/zen-agents/src/plan_task.rs:252-293 | each verdict if and only if: unknown id; a directed cycle; acyclic with a chain of more than 3 tasks (reporting the longest length); otherwise a layering whose layers are listed by where each task's last dependency stands, then by index |
| PlanTask.LayersDetermined | crates/zen-agents/src/plan_task.rs:266-282 | one list of layers meets that description, down to the order inside each layer |
| PlanRun.SnippetReads | crates/zen-agents/src/plan_task.rs:378-388 | a dependent is told the whole text response, or the whole value as JSON, up to 4000 characters, and otherwise its first 4000 and the mark |
| DependencyGraph.CycleIffStuck | crates/zen-agents/src/plan_task.rs:283-285 | tasks stay unplaced for ever exactly when there is a directed cycle, self-dependency included |
| DependencyGraph.WithinIffChainsShort | crates/zen-agents/src/plan_task.rs:266-282 | a task is finished within k rounds exactly when no dependency chain ending at it has more than k tasks |
| DependencyGraph.LayerIsLongestChain | crates/zen-agents/src/plan_task.rs:266-282 | a task is in layer k exactly when its longest dependency chain has k + 1 tasks |
| DependencyGraph.LayerIsEarliest | crates/zen-agents/src/plan_task.rs:266-282 | no numbering that puts dependencies earlier places a task before that layer |
| DependencyGraph.DependenciesComeEarlier | crates/zen-agents/src/plan_task.rs:250-251 | every dependency sits in a strictly earlier layer |
| DependencyGraph.LayersCoverOnce | formal/src/plan_layers_verify.rs:271-289 | read in order, the layers list every task exactly once and nothing else |
| DependencyGraph.CoverNeedsRounds | formal/src/plan_layers_verify.rs:280-288 | layers in range and long enough in total that list a task twice: the hypotheses of the sidecar's trusted lemma do not give its conclusion |
| DependencyGraph.LayerCountIsLongestChain | crates/zen-agents/src/plan_task.rs:286-291 | more than m layers exactly when some chain has more than m tasks |
| PlanRun.ComposeTaskPrompt | crates/zen-agents/src/plan_task.rs:393-405 | the brief alone without inputs, else the brief, the header and one section per input in dependency order |
| PlanRun.RunOutcomeReads | crates/zen-agents/src/plan_task.rs:724-734 | a run is ok exactly when its value has no error member, and is recorded with that value |
| PlanRun.SameView | crates/zen-agents/src/plan_task.rs:659-691 | a task's result depends only on whether its direct dependencies are ok and on their snippets |
| PlanRun.RecordShape | crates/zen-agents/src/plan_task.rs:758-781 | what a run records of a task ends with the checkpoint of its outcome, and no earlier checkpoint of it is ok |
| PlanRun.HaltedStays | crates/zen-agents/src/plan_task.rs:783-786 | after a halted layer no outcome and no record changes |
| PlanExecute.ReadUpstream | crates/zen-agents/src/plan_task.rs:659-673 | blocked exactly when a dependency is not ok, otherwise the inputs in dependency order, repetitions included |
| PlanExecute.ScreenTask | crates/zen-agents/src/plan_task.rs:659-704 | a task is queued exactly with the prompt its meaning prescribes, or gets the skip or refusal it must end with |
| PlanExecute.FollowEdges | crates/zen-agents/src/plan_task.rs:743-756 | exactly the failed tasks with a retry edge are queued again, once each, and a halt is noted exactly for a failed halt task |
| PlanExecute.RunRetries | crates/zen-agents/src/plan_task.rs:765-781 | each queued task runs once more and only its outcome is replaced; every start is safe |
| PlanExecute.RunBatch | crates/zen-agents/src/plan_task.rs:706-782 | all effects of one batch on outcomes, records, retry flags and count; other tasks are untouched |
| PlanExecute.RunLayer | crates/zen-agents/src/plan_task.rs:652-782 | for any batch width, a layer settles its unsettled tasks all against the outcomes before it |
| PlanExecute.Execute | crates/zen-agents/src/plan_task.rs:649-787 | for any batch width the outcomes and the halt are those of the run's meaning, the log records exactly that run with every start safe, and the retry count is the number of tasks that ran twice |
| PlanProperties.FinalEquation | crates/zen-agents/src/plan_task.rs:652-787 | a replayed outcome stands, a task behind a halt has none, and any other has the result computed from its dependencies' final outcomes |
| PlanProperties.LayerOrderIrrelevant | crates/zen-agents/src/plan_task.rs:471 | however the layers are ordered inside, a plan has the same outcomes |
| PlanProperties.OneLayering | crates/zen-agents/src/plan_task.rs:266-292 | two layerings listed in order are equal, so a plan determines its layers completely |
| PlanProperties.SkippedIff | crates/zen-agents/src/plan_task.rs:674-684 | in a fresh run a task ends skipped exactly when a transitive ancestor failed or an earlier layer halted |
| PlanProperties.HaltedIff | crates/zen-agents/src/plan_task.rs:783-786 | a fresh run is halted before layer k exactly when some task of an earlier layer ended failed with a halt edge |
| PlanProperties.StandingIsFinal | crates/zen-agents/src/plan_task.rs:758-781 | an outcome that was ok at any moment of any run is final, and its task is not touched again |
| PlanProperties.RunsOnlyOnFinalInputs | crates/zen-agents/src/plan_task.rs:661-684 | in every run, a task starts only when all its dependencies have their final outcomes and these are ok |
| PlanProperties.StartedWith | crates/zen-agents/src/plan_task.rs:659-691 | in every run, fresh or resumed, a started task's prompt begins with its brief and then holds, in listed order, the id and the first 4000 characters of the final answer of each dependency |
| PlanProperties.TraceOfTask | crates/zen-agents/src/plan_task.rs:652-787 | the whole trace of each task: nothing if replayed or behind a halt; if a dependency is not ok one skipped checkpoint with that error, if the gate refuses one failed checkpoint with the gate's error, else one run, and a second exactly for a failed retry task |
| PlanResume.ReplayCheckpoints | crates/zen-agents/src/plan_task.rs:587-610 | a task is settled, as ok with the row's response and no error, only by an ok row with its id and agent, and by every such row |
| PlanResume.StoreHolds | crates/zen-repo/src/workflow_repo.rs:56-86 | the table holds for each task the newest checkpoint of its own trace, or nothing; the row has its id and agent and the outcome's status, text response and text error |
| PlanResume.OkRowIsFinal | crates/zen-agents/src/plan_task.rs:295-313 | after any prefix of a run, an ok row is the row of that task's ok final outcome |
| PlanResume.CheckpointsMatchOutcomes | crates/zen-agents/src/plan_task.rs:675-701 | when a run is over the table has a row for exactly the tasks it settled, each that of the final outcome |
| PlanResume.ResumeTransparent | crates/zen-agents/src/plan_task.rs:544-556 | replaying any ok outcomes of a fresh run gives every task the same status and response if and only if each replayed one had a text response, and then all other outcomes and the halt agree too; it gives every task the same report row if and only if, besides, none of them had an artifact or a summary |
| PlanResume.RunnerAnswers | crates/zen-agents/src/delegate_task.rs:736-792 | a finished sub-turn's value has its text for response, the declared artifact and the text's first 4000 characters for summary; one without an answer has only the error |
| PlanResume.RunnerIsShaped | crates/zen-agents/src/delegate_task.rs:736-792 | what the sub-agent runner returns without an error has a text response, and an artifact and a summary exactly for a task that declares an artifact |
| PlanResume.ResumeKeepsRows | crates/zen-agents/src/plan_task.rs:544-610 | with that runner, statuses, responses, the halt and every rerun outcome are always those of the uninterrupted run, and all rows are if and only if no replayed task declares an artifact |
| PlanResume.ReplayedRow | crates/zen-agents/src/plan_task.rs:604-609 | a replayed row is the uninterrupted run's row without artifact and summary, and otherwise unchanged |
| PlanResume.CrashAndResume | crates/zen-agents/src/plan_task.rs:542-610 | a run cut after any prefix of its log and resumed from the table reports the statuses and responses of the whole run if and only if no stored ok row lacks its response; with the program's runner none does, and the rows agree if and only if no replayed task declares an artifact |
| PlanResume.ArtifactLost | crates/zen-agents/src/plan_task.rs:822-827 | a plan of one task with an artifact, crashed after its last checkpoint and resumed, whose row has lost artifact and summary |
| PlanResume.OkEventIsFinal | crates/zen-agents/src/plan_task.rs:758-780 | an ok checkpoint, the moment it is written by any run, is the final outcome of a task that run did not replay |
| PlanResume.TableStaysFaithful | crates/zen-agents/src/plan_task.rs:542-610 | however many attempts share a table, however they overlap and wherever they stop, every ok row is that of the uninterrupted run and every attempt resumes as it should |
| PlanResume.CrashesAreInvisible | crates/zen-agents/src/plan_task.rs:542-611 | an attempt begun at any moment of such a history reports every status and response of the uninterrupted run and halts if and only if it does, and reports the very same rows if and only if no task it replays declares an artifact |
| PromptSize.PromptBytes | crates/zen-agents/src/plan_task.rs:378-405 | a composed prompt has at most, and for overlong inputs of uniform character width exactly, the bytes of brief, header and one full snippet with its frame per listed dependency |
| PromptSize.NeverTooLongIff | crates/zen-agents/src/delegate_task.rs:369-373 | a task whose inputs all succeeded is never refused for its prompt's length, whatever they answered in characters of at most w bytes, if and only if that largest prompt is within 32000 bytes |
| PromptSize.LargestFanIn | crates/zen-agents/src/plan_task.rs:685-703 | with ids of one width, the largest fan-in that is never refused is what brief and header leave of the limit divided by what one input can add, and one more input can be refused |
| PromptSize.TooManyInputs | crates/zen-agents/src/delegate_task.rs:369-373 | two inputs in four-byte characters, or eight in one-byte ones, can be refused after all succeeded, however short the brief |
| PlanRedraft.RedraftReplays | crates/zen-agents/src/plan_task.rs:587-610 | what a redraft replays from an earlier draft's table are that draft's ok outcomes of tasks with the same id and agent |
| PlanRedraft.RedraftTransparentIff | crates/zen-agents/src/plan_task.rs:594-610 | a resume with a redraft reports what a fresh run of the redraft would if and only if every replayed outcome is the redraft's own |
| PlanRedraft.KeptOutcome | crates/zen-agents/src/plan_task.rs:594-596 | a task left as it was, with everything it depends on, ends alike in fresh runs of both drafts unless a halt comes before it |
| PlanRedraft.KeptOwnIff | crates/zen-agents/src/plan_task.rs:594-610 | when only such tasks are replayed, they are all the redraft's own if and only if none of them would be behind a halt in its fresh run |
| PlanRedraft.RedraftResumesWell | crates/zen-agents/src/plan_task.rs:594-610 | checkable on the two drafts: if every replayed task and every task with a halt edge was left as it was, resuming is as good as a fresh run of the redraft |
| PlanRedraft.RedraftAtAnyMoment | crates/zen-agents/src/plan_task.rs:542-611 | so it is at any moment of any overlapping and crashing attempts at the earlier draft |
| PlanRedraft.StaleAnswer | crates/zen-agents/src/plan_task.rs:594-599 | a redraft that changes one prompt only, and reports the answer to the old prompt as its own |
| PlanReport.Assemble | crates/zen-agents/src/plan_task.rs:789-854 | per task in plan order one row with its id and agent and its outcome's status, response, error, artifact path and summary, and one summary line with the first 300 characters of answer or error; a task with no outcome is reported skipped; tallies count the rows by status and add up; `completed` exactly when every task is ok |
| PlanReport.CompletedIffNothingFailed | crates/zen-agents/src/plan_task.rs:850-854 | a fresh run is completed exactly when no task failed: a skip always has a failure behind it |
| PlanReport.ReadDraft | crates/zen-agents/src/plan_task.rs:531-540 | a draft passes exactly when it denotes a valid plan whose graph is acyclic with no chain over 3 tasks, each refusal is for the reason that holds, and the layers are the plan's own, in order |
| PlanReport.Invoke | crates/zen-agents/src/plan_task.rs:531-854 | from draft to report: refused exactly when the draft denotes no valid plan or its graph is cyclic or too deep; otherwise the checkpoints are replayed, the log is that of a whole run, and the report describes its final outcomes |
| PlanClaim.WorkflowRepo.ClaimPlan | crates/zen-repo/src/workflow_repo.rs:95-111 | a claim is granted exactly to a running plan that is unowned, owned by the claimant, or claimed more than an hour ago, and a refused claim changes nothing |
| PlanClaim.WorkflowRepo.CreatePlan | crates/zen-repo/src/workflow_repo.rs:31-54 | a new plan is running and unowned; a known id is refused and nothing changes |
| PlanClaim.WorkflowRepo.CompletePlan | crates/zen-repo/src/workflow_repo.rs:113-140 | a known plan is ended and loses its claim whoever held it; an unknown id changes nothing |
| PlanClaim.AdmitResume | crates/zen-agents/src/plan_task.rs:561-626 | failed reads, unknown and ended plans, failed claims and claimed plans are told apart, and a resume goes on exactly with the claim |
| PlanClaim.StolenIffAnHourOld | crates/zen-repo/src/workflow_repo.rs:88-94 | while a claim is held another resume gets one if and only if more than an hour has passed since it was granted, whatever was checkpointed or refused in between |
| PlanClaim.HolderRenews | crates/zen-repo/src/workflow_repo.rs:101-105 | whoever holds the claim is granted it again, which starts the hour anew |
| PlanClaim.ProgressDoesNotRenew | crates/zen-repo/src/workflow_repo.rs:15-17 | a resume that checkpoints a second before its hour is over loses its claim to another |
| PlanClaim.FirstClaimGranted | crates/zen-repo/migrations/007_plan_owner.sql:1-6 | the first claim is granted if and only if the plan is not completed, though the run that created it may still be at work |
| PlanClaim.NoClaimAfterCompletion | crates/zen-repo/src/workflow_repo.rs:113-140 | a completed plan is never claimed again |
| ToolHistory.PushToolResultsHistory | crates/zen-agents/src/orchestrator.rs:503-518 | a push within the cap keeps the longest suffix that fits; an oversized round leaves only its newest part from a character boundary on |
| ToolHistory.ClipReads | crates/zen-agents/src/orchestrator.rs:510-517 | a round within 16000 bytes is kept, and a longer one from the first byte on that the cap allows and that starts a character |
| ToolHistory.LongestFitIsLongest | crates/zen-agents/src/orchestrator.rs:499-502 | what is kept is a suffix, and every suffix that fits is part of it |
| ToolHistory.HistoryIsLongestFit | crates/zen-agents/src/orchestrator.rs:503-518 | after any pushes the history is the longest fitting suffix of the rounds since the last oversized one |
| ToolHistory.WithinCapNothingElseIsLost | crates/zen-agents/src/orchestrator.rs:503-509 | without oversized rounds it is the longest fitting suffix of everything pushed |
| ToolHistory.ClipKeepsAlmostAll | crates/zen-agents/src/orchestrator.rs:510-517 | cutting UTF-8 text loses at most three bytes beyond the cap and starts on a character |
| ToolHistory.IntactIffFits | crates/zen-agents/src/orchestrator.rs:2232-2243 | after a burst of pushes on any history, the lines from number j on are all intact exactly when together they fit |
| BackgroundNotices.MakeCommandDigest | crates/zen-plugin/src/task_registry.rs:1369-1376 | the command line, joined by blanks and cut to exactly its first 80 characters |
| BackgroundNotices.LabelReads | crates/zen-plugin/src/task_registry.rs:104-124 | the word for each status, and that exactly a running task has not ended |
| BackgroundNotices.LineReads | crates/zen-agents/src/orchestrator.rs:530-535 | where the line has its short id, its whole command digest, the word for its status and its full id |
| BackgroundNotices.NoticeLineBounded | crates/zen-agents/src/orchestrator.rs:530-535 | the line of any task has at most 435 bytes |
| BackgroundNotices.LineNamesTask | crates/zen-agents/src/orchestrator.rs:530-535 | the lines of different tasks differ |
| BackgroundNotices.TaskRegistry.TakeStatusChanges | crates/zen-plugin/src/task_registry.rs:675-688 | lists, once each, exactly this session's ended tasks that were not told |
| BackgroundNotices.TaskRegistry.MarkNotified | crates/zen-plugin/src/task_registry.rs:694-703 | marks exactly the listed tasks of this session and changes nothing else |
| BackgroundNotices.OfferNotices | crates/zen-agents/src/orchestrator.rs:2232-2243 | before a model call: exactly what the session is owed is drained, and one line for each is pushed on the history |
| BackgroundNotices.ConfirmNotices | crates/zen-agents/src/orchestrator.rs:2244-2255 | when the call returns, whatever happened since: exactly the drained tasks of the session are marked if it succeeded, and nothing otherwise |
| BackgroundNotices.ToldOnlyByDelivery | crates/zen-agents/src/orchestrator.rs:566-574 | over any overlapping rounds of any sessions, a task is marked only if a round of its own session offered it while it was owed and that same round returned successfully |
| BackgroundNotices.OwedUntilDelivered | crates/zen-agents/src/orchestrator.rs:554-564 | an owed notice stays owed, over any overlapping rounds of any sessions, until a round of its session delivers it |
| BackgroundNotices.OfferedUntilSuccess | crates/zen-agents/src/orchestrator.rs:2227-2241 | every round of the session offers an owed notice unless another has delivered it by then |
| BackgroundNotices.SuccessDelivers | crates/zen-agents/src/orchestrator.rs:2227-2255 | once any round of the session sent after the task ended returns successfully, the notice has been delivered |
| BackgroundNotices.NotOfferedAgain | crates/zen-plugin/src/task_registry.rs:674-688 | a delivered notice is never offered again, so only rounds already in flight can repeat it |
| BackgroundNotices.ToldTwice | crates/zen-plugin/src/task_registry.rs:665-673 | two overlapping rounds of one session that both deliver one notice |
| BackgroundNotices.LinesReachPrompt | crates/zen-agents/src/orchestrator.rs:2232-2243 | in any round, the drained lines from number j on are intact in its prompt exactly when together they fit the cap |
| BackgroundNotices.UpTo36Intact | crates/zen-agents/src/orchestrator.rs:2232-2243 | the prompt of any round that drains at most 36 tasks carries all their lines intact, whatever its history and however long their commands |
| BackgroundNotices.FirstLineDropped | crates/zen-agents/src/orchestrator.rs:503-518 | with no history, lines that exceed the cap together lose the first of them from the prompt |
| BackgroundNotices.MarkedThoughDropped | crates/zen-agents/src/orchestrator.rs:2237-2255 | a round that drains 37 tasks with commands of 80 four-byte characters, succeeds, and marks a notice whose line was dropped from its prompt: 36 is the best bound |
| ToolBatch.PlanToolBatch | crates/zen-agents/src/orchestrator.rs:691-723 | splits the calls into those to dispatch, with their ids, and the inline answers, both in call order |
| ToolBatch.DispatchTimed | crates/zen-agents/src/orchestrator.rs:442-497 | fails if and only if some dispatched invocation gets an error that ends the batch, with the message of the first such; otherwise an error is isolated under its own invocation, an empty reply yields the stand-in, and any other reply its last result |
| ToolBatch.ReadResults | crates/zen-agents/src/orchestrator.rs:2489-2496 | each result is addressed to the id its invocation was dispatched with |
| ToolBatch.AnswerAll | crates/zen-agents/src/orchestrator.rs:2414-2423 | every pending call gets the same text under its own id and name |
| ToolBatch.EnsuredReads | crates/zen-agents/src/orchestrator.rs:961-984 | answers are posted as they are, and with none every pending call is answered under its own id and name |
| ToolBatch.InlineAndDispatched | crates/zen-agents/src/orchestrator.rs:691-723 | inline and dispatched answers are together what each call is owed, as bags |
| ToolBatch.AnswerCalls | crates/zen-agents/src/orchestrator.rs:2357-2498 | on each of the four exits the posted answers are a permutation of what the calls are owed on that exit; nothing is posted only when nothing is pending |
| ToolBatch.OwedReads | crates/zen-agents/src/orchestrator.rs:2357-2498 | what each call is owed on each exit: the cap's text, the first batch-ending error's feedback, or its own preresolved, rejected or dispatched and screened answer |
| ToolBatch.EveryCallAnsweredOnce | crates/zen-agents/src/orchestrator.rs:955-984 | on every exit the answered ids are a permutation of the pending ids: none missing, none twice |
| TurnDriver.ExecuteTurn | crates/zen-agents/src/orchestrator.rs:2117-2500 | for every behaviour of model, tools and other budget users, and any finite set of steps at which asking for a reservation errs, the loop ends at the first step that must end it and in the way that step calls for; it is refused if and only if others + query / 4 + 512 exceeds the capacity; k reserved model calls satisfy (k + 1) * (query / 4 + 512) <= capacity, the others are at most the errors, tool rounds stay within the cap, and every step that asks for tools gets one fully answered posting |
| TurnDriver.TurnAnswersEveryCall | crates/zen-agents/src/orchestrator.rs:2357-2498 | each posting of a turn addresses exactly the pending calls |
| TokenBudget.NeverOvercommitted | crates/zen-agents/src/orchestrator.rs:2186-2196 | over any interleaving of reservations, drops and recordings, tokens held and consumed exceed the capacity by at most what was recorded beyond its reservation, so never while usage stays within it |
| TokenBudget.DropRefunds | crates/zen-agents/src/delegate_task.rs:1709-1726 | dropping a reservation makes room for exactly its tokens and consumes nothing |
| TokenBudget.NothingLeaks | crates/zen-agents/src/orchestrator.rs:2573-2576 | once every reservation is settled, what fits is exactly the capacity less what was recorded |
| TokenBudget.TurnsShareCapacity | crates/zen-agents/src/orchestrator.rs:2190-2196 | the calls that any number of concurrent turns hold reservations for fit the budget together with what was recorded, up to recorded overruns |
| TokenBudget.TurnsGateIsBudgets | crates/zen-agents/src/orchestrator.rs:2186-2196 | in every interleaving, a turn owning n reservations of one size is granted the next exactly when the turn loop's gate passes, its others being all other live reservations and everything consumed |
| TokenBudget.OwnedStays | crates/zen-agents/src/orchestrator.rs:2186-2189 | whatever others reserve, drop or record, a turn keeps its reservations until it gives them up itself |
| TokenBudget.OverrunOvercommits | crates/zen-agents/src/delegate_task.rs:746-749 | a usage recorded one token beyond a reservation of everything overcommits the budget by one |
| RetrievedNotes.TruncateNotesToBudget | crates/zen-agents/src/orchestrator.rs:1209-1228 | the loop computes the truncation, and reports as used exactly the smaller of budget and total |
| RetrievedNotes.PrefixExact | crates/zen-agents/src/orchestrator.rs:1206-1208 | the kept contents are exactly the first min(budget, total) characters of all contents |
| RetrievedNotes.KeptReads | crates/zen-agents/src/orchestrator.rs:1215-1226 | exactly the notes with budget left at their turn are kept, each with as much of its content as that leaves |
| RetrievedNotes.RankKept | crates/zen-agents/src/orchestrator.rs:1215-1226 | notes keep their rank and path, and only lose characters from the end |
| RetrievedNotes.TruncationComposes | crates/zen-agents/src/orchestrator.rs:1209-1228 | truncating twice is truncating once to the smaller budget |
| RetrievedNotes.BudgetReads | crates/zen-agents/src/delegate_task.rs:562-563 | at depth d the budget is the base divided by 2^d (31 at most), rounded down, and never under 512 |
| RetrievedNotes.DeeperInheritsLess | crates/zen-agents/src/delegate_task.rs:562-569 | a deeper sub-agent inherits a prefix of what a shallower one inherits from the same notes |
| DelegateChain.ValidateTask | crates/zen-agents/src/delegate_task.rs:349-380 | accepted exactly: built-in agent, strictly lower in the hierarchy, within the depth cap, prompt of at most 32000 bytes, acceptable artifact; and each refusal names a reason that holds |
| DelegateChain.HierarchyReads | crates/zen-agents/src/delegate_task.rs:171-187 | an orchestrator may spawn all other roles, a planner specialists and workers, these nobody |
| DelegateChain.SubAgentTools | crates/zen-agents/src/delegate_task.rs:214-230 | exactly the granted tools, in order, minus plan execution and, at the cap, minus delegation |
| DelegateChain.FilteredJoins | crates/zen-agents/src/delegate_task.rs:227-230 | the grant filter works tool by tool, so kept tools stay in order and number |
| DelegateChain.RolesDescend | crates/zen-agents/src/delegate_task.rs:171-195 | along every chain depth counts hops, stays within the cap, and each hop goes strictly down the hierarchy |
| DelegateChain.ChainsAreShort | crates/zen-agents/src/delegate_task.rs:197-230 | no chain has more than two hops; no sub-agent is an orchestrator or holds plan execution; at the cap none can delegate |
| AggregateWeights.SuccessRates | crates/zen-agents/src/aggregate_weights.rs:127-148 | exactly the agents of the newest 100 observations have a rate, which is (successes + 1) / (trials + 2) in them |
| AggregateWeights.WindowReads | crates/zen-agents/src/aggregate_weights.rs:128-132 | the newest 100 observations count, or all when there are fewer |
| AggregateWeights.CountsRead | crates/zen-agents/src/aggregate_weights.rs:133-140 | trials are the observations of an agent and successes the ok ones among them |
| AggregateWeights.RateAgainstNeutral | crates/zen-agents/src/aggregate_weights.rs:124-126 | a rate is strictly between 0 and 1 and beats the neutral weight exactly when successes outnumber failures |
| AggregateWeights.WeightReads | crates/zen-agents/src/aggregate_weights.rs:185-191 | a result weighs its agent's rate, and a half when it names no agent or one without a rate |
| AggregateWeights.OrderValuesByWeight | crates/zen-agents/src/aggregate_weights.rs:173-183 | the result is a permutation, sorted by descending weight, with ties in input order |
| AggregateWeights.StableOrderUnique | crates/zen-agents/src/aggregate_weights.rs:165-172 | only one list meets that description, whatever stable sort computes it |
| AggregateWeights.RankedByWeightThenIndex | crates/zen-agents/src/aggregate_weights.rs:173-191 | in a ranked batch earlier means heavier, or equally heavy with a smaller task index |
| DelegateBatch.Screen | crates/zen-agents/src/delegate_task.rs:1168-1187 | a slot is filled exactly for a refused task, with its refusal; exactly the others are queued, once each |
| DelegateBatch.SlotReads | crates/zen-agents/src/delegate_task.rs:1170-1187 | a slot names its place; a refused task's names its agent and the reason, any other holds what its own run returned |
| DelegateBatch.RunChunks | crates/zen-agents/src/delegate_task.rs:1203-1225 | for any chunk size every queued task runs once, in order, and fills its own slot and no other |
| DelegateBatch.Invoke | crates/zen-agents/src/delegate_task.rs:1141-1253 | each runnable task runs exactly once, slot i answers task i, one result is returned bare, several as the stable ranking of the slots |
| DelegateBatch.ResultsRecoverable | crates/zen-agents/src/delegate_task.rs:1226-1238 | every task finds its own result in the ranked list by task index, and exactly once |
| Placeholder.PlaceDigit | formal/src/secrets_verify.rs:329-345 | the result is a decimal digit whose value is the argument |
| Placeholder.Tenth | formal/src/secrets_verify.rs:349-377 | ten to the k for every k below 19, with no product leaving 64 bits |
| Placeholder.PowersBelow19 | formal/src/secrets_verify.rs:130-156 | powers of ten below the nineteenth stay within 64 bits |
| Placeholder.RdLenExec | formal/src/secrets_verify.rs:222-236 | the loop computes the digit count (trusted in the source) |
| Placeholder.LengthBrackets | formal/src/secrets_verify.rs:172-181 | the digit count k of a positive n satisfies 10^(k-1) <= n < 10^k |
| Placeholder.LengthBounded | formal/src/secrets_verify.rs:207-215 | an accepted index has at most 13 digits (the source trusts: fewer than 16) |
| Placeholder.DigitRank | formal/src/secrets_verify.rs:194-203 | character i of the rendering is the digit of n / 10^(len-1-i) (trusted in the source) |
| Placeholder.MakePlaceholder | formal/src/secrets_verify.rs:250-325 | the rendered token is opener, digits, closer, for every accepted index |
| Placeholder.DecodeRender | formal/src/secrets_verify.rs:162-170 | reading the digits back gives the index, and nothing but digits is rendered |
| Placeholder.TokensPrefixFree | formal/src/secrets_verify.rs:184-188 | if one token begins another they are the same token |

## Left out

- PlanExecute.RunBatch: the runs of one batch are started together and modelled as functions of task, prompt and
  attempt; how their work interleaves in time, and what sub-agents share while running, is not modelled.
- PlanReport.Invoke: the quality gate, the rewind memory and audit lines are not modelled, nor is the joining of
  summary lines into one text. Whether a resume is admitted is `PlanClaim.AdmitResume`, which this member does not
  call.
- PlanResume.ReplayCheckpoints: checkpoint ages are recorded for the audit line only and are not modelled; a
  checkpoint always reaches the table, and a failed read of the rows is an empty list of them, as in the source.
- PlanRedraft.RedraftAtAnyMoment: the two drafts have the same ids in the same places, and all earlier attempts were
  at one draft. That an ok task of a resumed redraft has ok dependencies is not claimed: a dependency whose agent
  changed runs again and may fail.
- PlanClaim.WorkflowRepo.ClaimPlan: one claim is one step, as the store's single writer makes it; ids of owners are
  inputs.
- PlanTask.ParsePlan: JSON text is already split into members, and whether an artifact path is blank after trimming is
  an input; the texts of prompts, reports and error messages are parameters or replaced by the facts they name.
- BackgroundNotices.OfferNotices: killing, expiring and sweeping tasks appear only as tasks that end; entries are
  never removed, as in the source. Digests and ids are those that `shell.exec` and the registry produce.
- ToolHistory.PushToolResultsHistory: the separators added when the history is joined are not counted, as in the
  source.
- TurnDriver.ExecuteTurn: reservations may fail with an error at finitely many steps only, since with unbounded
  failures the code has no bound either. The agent runner is reduced to the kinds of step it asks for, and a posting
  it rejects is not modelled.
- TokenBudget.NeverOvercommitted: the budget's own code (rig_compose) is not part of this model. Recording a usage is
  taken to settle its reservation and to count the usage in full; dropping one is taken to refund it, as
  `crates/zen-agents/src/delegate_task.rs:1709-1726` expects.
- ToolBatch.AnswerCalls: the observability record of tool calls, latencies and the `DISPATCH_MAX_CONCURRENT` buffer
  are not modelled; a dispatched call's reply is a function of its position and invocation.
- ToolBatch.EveryCallAnsweredOnce: presumes that a preresolved answer carries the id of the call it resolves, which
  the agent runner guarantees and the source passes through unchanged.
- DelegateBatch.Invoke: a batch is not empty and its width is positive, as the request parser and the configuration
  ensure; the advisory gates, deadlines, session composition, skills and audit lines are not modelled.
- DelegateChain.SubAgentTools: the two filters of the source are one pass here; the grant tables themselves are an
  input.
- AggregateWeights.OrderValuesByWeight: the library's in-place stable sort is an insertion sort on a sequence here;
  `AggregateWeights.StableOrderUnique` shows that every stable sort gives the same list. Weights are real numbers, so
  rounding of `f32` is not modelled; reading observations from the audit log is left out.
- `strip_fenced_tool_blocks` and the texts of the final response: display only, and not idempotent (removing a block
  can join backticks into a new fence).
- Model calls, routing, streaming, retrieval, skill injection, file sandboxing and the static agent tables: outside
  code or plain data.
