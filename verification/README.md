# The chat agent, modelled and verified

The repository's `agent` package is the chat agent of a trading bot. What it knows between two messages lives in
records that are loaded, normalised, changed and saved on every turn, while a language model proposes what to do
next. This project models its stateful core and proves what every run keeps, with each answer of the model, each
reply of a broker and each reading of the clock left arbitrary.

One file holds one component:

- `PlanLoop`, `PlanRuns`, `PlanRepeats`, `PlanAnswers`, `PlanRunner`: the plan loop. `PlanRunner.Planner` carries it out step by step
  and is proved equal to the function `PlanLoop.ExecutePlan`, about which the run theorems are stated.
- `ExecutionState`: the plan state, its normal form and its bounded log.
- `TaskStack`, `TaskSearch`, `SuspendResume`: the stack of suspended tasks, finding a task on it by its snapshot id, and
  suspending to it and resuming from it.
- `SkillSession`, `UpdatePatches`, `SessionBridge`: the fields and the typed slots of a skill session, the typed update
  patches stored in it, and its conversion to an active session and back.
- `StrategyDraft`, `StrategyTemplate`: the strategy draft, and which of its settings are explicit.
- `Targets`, `ConfirmationGate`, `ConfirmationTargets`, `TraderCreation`, `TraderLabels`: finding the object a message is
  about, the two-phase confirmation of starting, stopping and deleting, the object it then acts on, the creation of a
  trader, and what of it the owner reads.
- `TraderResolution`, `TradeCommands`, `PendingTrades`: which trader a chat trade goes to, the command that confirms
  it, and the trades that wait for it.
- `NewsScan`, `Scheduler`, `StreamText`: the long-running background state and the stream splitter.
- `Text`, `StringLists`, `Decimals`, `Sequences`, `Options`: what the others share.

Text is a sequence of Unicode scalar values, a time is a number of seconds or nanoseconds, a price is a real number.
A Go map that the code ranges over is visited in an arbitrary order; where the result could depend on that order the
model says so (`SkillSessions.Rekeyed`), elsewhere the method is proved equal to a function without an order.
`strings.ToLower`, `strings.EqualFold`, JSON parsing and printing, and the classifiers of the market package are
parameters; a theorem that needs something of them says what (`Lib.Valid`, `TradeCommands.Valid`).

Some promises one might expect do not hold of the code as it is. Each is stated with the input that breaks it or, where
it can be said in one condition, with the exact condition under which it holds:

- normalising a plan state twice (`ExecutionStates.NormalTwice`) and a trader session twice (`SkillSessions.NormalTwice`);
- one result for keys that become one (`SkillSessions.RekeyingDetermined`);
- no repeated tool call when the model gives no step ids (`PlanRepeats.UnnamedStepsRepeat`; the exact condition at
  each decision is in `PlanRepeats.OverlooksExactly`), and no completed step that never ran
  (`PlanRuns.DecisionCompletes`);
- no active plan left behind by a run that ended without a question, when the store refuses to clear it
  (`PlanRepeats.RefusedClearLeavesActive`, with the exact condition in `PlanRuns.ReturnLeavesActive`);
- deleted fields and targets given up staying away over a bridged turn (`SessionBridge.DeletedFieldReturns`,
  `SessionBridge.GoneTargetReturns`, `SessionBridge.RoundTrip`);
- settings of the other strategy type kept out of a draft whose type arrives late
  (`StrategyDrafts.GridDraftHoldsCoinSource`, with the exact conditions in `StrategyDrafts.OtherTypeKeptOut` and
  `StrategyDrafts.SanitisedExactly`), and settings kept by sanitising and normalising
  (`StrategyTemplates.SanitizeKeepsAiField`, `StrategyTemplates.LooseTypeLosesAll`);
- acting only on what was asked about (`ConfirmationTargets.EditMovesTarget`, `ConfirmationGate.AllSwitchesScope`,
  `ConfirmationGate.ClashFlipsTarget`, with the exact condition in `ConfirmationTargets.RunsOnLastNamed` and
  `ConfirmationTargets.RunsOnAskedExactly`), and only after the handler itself asked
  (`ConfirmationGate.OwnQuestionSuffices`, with the exact condition in `ConfirmationGate.HandlerAsked`);
- printing in a draft the names of the objects it is bound to (`TraderLabels.AnotherNameShown`,
  `TraderLabels.OldNameShown`, with the exact conditions in `TraderLabels.ShownBelongs` and `TraderLabels.LabelsBelong`),
  and creating only what was shown (`TraderLabels.EditedReplyCreatesUnseen`,
  `TraderLabels.OwnQuestionCreatesUnseen`, with the exact conditions in `TraderLabels.CreatedIsShown` and
  `TraderLabels.CreatedAsRead`);
- the large-order command for every large order (`PendingTrades.GrownTrade`), no trade sent after its five minutes
  (`PendingTrades.LateTradeExecutes`, with the exact condition in `PendingTrades.SentUnlessDropped`), and one execution
  for overlapping handlers (`PendingTrades.OverlapExecutesTwice`);
- a snapshot taken off the stack when it is restored (`SuspendResume.AwaitingSnapshotReturns`), and the snapshot asked
  for restored though another expires meanwhile (the exact outcome is in `TaskSearch.ContinueById`);
- a cleanup at every change of the hour (`Scheduler.CleanupSkipsWholeDays`).

Verify everything with `dafny verify dfyconfig.toml`.

## Model

| member | source | states |
|---|---|---|
| PlanLoop.BuildRecentlyFetched | agent/planner_runtime.go:3217-3253 | a signature is fresh by the latest-per-signature map exactly when some logged result of a known step with that signature is at most sixty seconds old |
| PlanLoop.FilterFreshDuplicates | agent/planner_runtime.go:3255-3279 | the loop keeps exactly the steps that the reference `Admitted` keeps |
| PlanLoop.AdmittedFresh | agent/planner_runtime.go:3217-3279 | an admitted batch has pairwise distinct tool signatures, none with a fresh logged result |
| PlanLoop.AdmitComplete | agent/planner_runtime.go:3255-3279 | no proposed call is dropped unless its signature was fresh or is admitted already |
| PlanLoop.Budget | agent/planner_runtime.go:2979-3166 | decisions plus executed steps are at most twelve, and from a state with nothing pending at most eleven steps execute |
| PlanLoop.DecideEffect | agent/planner_runtime.go:2986-3028 | a decision keeps the completed steps as they are, appends the admitted batch and leaves the log alone, or is refused |
| PlanLoop.RunEffect | agent/planner_runtime.go:3030-3163 | when the loop goes on after a step, that step was performed: its status, its one log entry and nothing else changed |
| PlanRuns.NoCallRepeatedSoon | agent/planner_runtime.go:2984-3018 | over a whole run from a prepared state with new, distinct step ids, two results of one tool call are more than sixty seconds apart or at least eight observations apart |
| PlanRepeats.OverlooksExactly | agent/planner_runtime.go:3217-3279 | at any decision a retained recent result keeps its call out of the batch exactly when the last step with the id it names is a step of that call; a proposed call is overlooked exactly when no retained recent result does so |
| PlanRepeats.RepeatsExactly | agent/planner_runtime.go:2979-3166 | whatever ids the model gives, no run from a prepared state repeats a call too soon unless some decision overlooked its first result and the call was then carried out while that result was recent |
| PlanRepeats.UnnamedStepsRepeat | agent/planner_runtime.go:2747-2761 | a run that does: the batches a, b, a without ids from the model all become "step_1", and a is carried out again two observations later in the same second |
| PlanRuns.DecisionCompletes | agent/planner_runtime.go:3003-3018 | a decision keeps the completed steps and adds to them, in order, exactly those of its batch that the model itself presented as completed |
| PlanRuns.CompletedStepsStay | agent/planner_runtime.go:3392-3400 | in any run a completed step is still there, unchanged, after every later iteration |
| PlanRuns.ReturnLeavesActive | agent/planner_runtime.go:2979-3166 | a run that returns without error leaves an active state in the store exactly when its last event asked the user, or redirected and the store refused the clear |
| PlanRepeats.RefusedClearLeavesActive | agent/planner_runtime.go:3044-3049 | such a run: one decision, one redirect whose clear is refused, no error, and an active state stays |
| PlanAnswers.ReturnsWhatWasGiven | agent/planner_runtime.go:3091-3150 | a run that returns ends with a question, a response or a redirect and returns that: the instruction of the asking step, or the stock question when it has none, the text the model responded, or the text of the redirect; the first two are also the answer in the state and in the store, and the question is what the state waits for; the step was there at the start or was given by the model in a decision of the run, with that kind, tool, arguments and instruction |
| PlanAnswers.RunFaithful | agent/planner_runtime.go:3030-3163 | every step a run performs was there at the start or was given by the model in an earlier decision, and what is logged for it is what the tool or the model gave, whole and shortened |
| PlanAnswers.SummaryIsBeginning | agent/planner_runtime.go:3614-3620 | a text of up to a thousand characters is logged as it is, a longer one by its beginning |
| PlanAnswers.RunFails | agent/planner_runtime.go:2979-3166 | a run fails exactly when all twelve iterations are used up or one cannot be carried out: nothing new and well formed is decided, the store refuses a write, the model gives no text, or the kind of step is unknown |
| PlanAnswers.DecidedTitles | agent/planner_runtime.go:2996-3018 | the steps of a decision are announced under their own titles, or under their ids in words |
| PlanAnswers.SignatureTells | agent/planner_runtime.go:3315-3328 | two calls have one signature exactly when tool and arguments are the same, tools with a bar in the name aside |
| PlanAnswers.RepeatsLastThought | agent/planner_runtime.go:3281-3313 | a batch is refused as a repeated thought exactly when the last completed step was reasoning and every step of the batch is that reasoning again |
| PlanAnswers.NothingToRepeat | agent/planner_runtime.go:3281-3307 | nor is any batch refused so while no step is completed |
| PlanRunner.Planner.ExecutePlan | agent/planner_runtime.go:2979-3166 | the loop over the mutable state ends in the world, outcome and events of the function `PlanLoop.ExecutePlan` |
| PlanRunner.Planner.Decide | agent/planner_runtime.go:2986-3028 | one decision, in place, is `DecideStep` of the old world |
| PlanRunner.Planner.Perform | agent/planner_runtime.go:3030-3163 | carrying out one step, in place, is `RunStep` of the old world |
| PlanRunner.Planner.NextPendingStepIndex | agent/planner_runtime.go:3605-3612 | the first step whose status is empty or pending, or -1 when there is none |
| PlanRunner.Planner.CompletedOf | agent/planner_runtime.go:3392-3400 | the completed steps in order |
| PlanRunner.PrepareExecutionState | agent/planner_runtime.go:2596-2647 | for any loaded state: a resumed one keeps its session, its completed steps in normal form and its log with the reply, normalised; any other starts empty; and the result is what the run theorems ask for (settled, unique ids, nothing pending) unless a resumed state was stored with an unsettled log or repeated ids |
| PlanRunner.ReplyLogged | agent/planner_runtime.go:2604-2614 | a reply that is not blank is logged as the user's in its own words, after the question it answers |
| ExecutionStates.NormalizeExecutionState | agent/execution_state.go:359-398 | the in-place normalisation is the function `Normal` |
| ExecutionStates.NormalFields | agent/execution_state.go:359-398 | field by field: texts are trimmed, a state with a session gets a status and a time, nothing else changes but to its own normal form |
| ExecutionStates.ReferencesKept | agent/execution_state.go:516-528 | each of the four references is kept by itself |
| ExecutionStates.EntityKept | agent/execution_state.go:499-514 | trimmed and stamped, if it has an id or a name |
| ExecutionStates.ObservationKept | agent/execution_state.go:558-580 | trimmed and stamped, if it has a kind, a summary or a raw text |
| ExecutionStates.NormalizeObservationList | agent/execution_state.go:558-580 | exactly the non-empty trimmed observations, each stamped |
| ExecutionStates.CompactExecutionLog | agent/execution_state.go:582-600 | the last eight entries stay and the rest becomes a note, notes being cut to four only when there is one |
| ExecutionStates.NoteTells | agent/execution_state.go:602-630 | what leaves the log leaves one note that tells every observation with text by its kind and its words, cut to 500 characters, and none if there is no text |
| ExecutionStates.NormalizeReferenceHistory | agent/execution_state.go:530-556 | the last twelve usable references |
| ExecutionStates.NormalTwice | agent/execution_state.go:359-398 | normalising twice is normalising once, if and only if the state is not one with surplus notes and an overflow without text |
| ExecutionStates.StubbornExists | agent/execution_state.go:592-598 | a state of that kind: five notes and nine observations without text |
| ExecutionStates.AppendsKeepLast | agent/execution_state.go:632-635 | over every run of appends the log is the last eight non-blank observations ever recorded, the notes are the last four written for those that left it, and at most twelve references stay |
| ExecutionStates.SettledNormalTwice | agent/execution_state.go:359-398 | on every state such runs reach, normalising again changes nothing |
| StringLists.CleanStringList | agent/memory.go:162-184 | the loop with its seen map yields the reference `Clean` |
| StringLists.CleanIdempotent | agent/memory.go:162-184 | cleaning is idempotent and leaves a list alone exactly when it is clean |
| StringLists.CleanKeepsKeys | agent/memory.go:162-184 | every non-blank entry is represented, up to case, in the result |
| TaskStack.NormalizeTaskStack | agent/execution_state.go:457-480 | the loop keeps what is at most a day old, and of that the last five |
| TaskStack.TaskStore.PushTaskStack | agent/execution_state.go:318-327 | a push reads, appends, cleans and saves, with a clean-up at each of its three clock readings |
| TaskStack.TaskStore.PopTaskStack | agent/execution_state.go:329-338 | a pop returns the top of the cleaned stack and saves the rest, or changes nothing |
| TaskStack.TaskStore.RemoveAt | agent/execution_state.go:203-215 | removal takes out exactly the entry at that index of the cleaned stack, or nothing when there is none |
| TaskStack.StackRefinesIdeal | agent/execution_state.go:273-345 | over every run of push, pop, remove-at and clear with a forward clock, the stack read shows exactly the entries of an unbounded ideal stack that are at most a day old and never lay under five others, and these are its top part |
| TaskStack.PopReturnsIdealTop | agent/execution_state.go:329-338 | a pop returns the ideal top or nothing, nothing exactly when the top is absent, expired or was once buried |
| TaskStack.PushThenPop | agent/execution_state.go:318-338 | a pushed task comes back within the day and the rest is as before, less its bottom task when there were five |
| SuspendResume.NormalizeWorkflowSession | agent/workflow.go:46-76 | the loop keeps exactly the complete tasks, named by their place in the original list |
| SuspendResume.TasksExactly | agent/workflow.go:46-76 | those are the tasks that have a skill, an action and a request once trimmed, under their own name or their place |
| SuspendResume.WorkflowTwice | agent/workflow.go:46-76 | normalising a workflow twice is normalising it once |
| SuspendResume.Conversation.SuspendActiveContexts | agent/planner_runtime.go:1958-1968 | the built task is pushed and all three contexts are cleared, or nothing happens |
| SuspendResume.Conversation.RestoreSuspendedTask | agent/planner_runtime.go:1970-1991 | the contexts become exactly those of the normalised task |
| SuspendResume.Conversation.TryResumeSuspendedTask | agent/planner_runtime.go:2032-2054 | with nothing active "continue" pops the top and restores it and "cancel all" empties the stack; anything else changes nothing |
| SuspendResume.Conversation.RestoreSuspendedTaskByID | agent/planner_runtime.go:1993-2018 | the task at the index of the topmost snapshot with the id is removed and restored, from the stack as read once more, and it succeeds exactly when that task holds something |
| SuspendResume.Conversation.TryRestoreAwaitingConfirmation | agent/planner_runtime.go:2108-2127 | the only snapshot, if it awaits confirmation, is restored and stays on the stack; it succeeds exactly when that task holds something |
| SuspendResume.SavedIsFixed | agent/execution_state.go:400-455 | what was saved is left alone by later normalisation, but for odd auto-start texts and states with surplus notes |
| SuspendResume.BuildThenRestore | agent/planner_runtime.go:1848-1991 | a task built from saved contexts restores exactly the active ones |
| SuspendResume.BuildKind | agent/planner_runtime.go:1848-1885 | a suspended task is stored as a workflow while one is active, else as a skill session if there is one, else as a plan |
| SuspendResume.KindGuessed | agent/execution_state.go:400-455 | a task stored without a kind is of the first it holds, a skill session, a workflow or a plan; one that holds none is nothing |
| SuspendResume.SuspendedAwaits | agent/planner_runtime.go:2108-2127 | the snapshot is one that a yes or a no restores exactly when a skill session in one of the three awaiting phases was suspended and no active workflow |
| SuspendResume.SuspendThenConfirm | agent/planner_runtime.go:1848-2127 | suspending such contexts while nothing else is shown on the stack, and saying yes or no within a day, gives back exactly the active contexts and leaves the snapshot on the stack |
| SuspendResume.SuspendThenContinue | agent/planner_runtime.go:1848-2054 | suspending and continuing within a day gives back exactly the active contexts and the rest of the stack, and nothing is active in between |
| TaskSearch.FindById | agent/planner_runtime.go:2003-2009 | the search from the top down returns what `LastWithId` says |
| TaskSearch.LastWithIdIsTopmost | agent/planner_runtime.go:2003-2009 | it finds a snapshot whenever one bears the id, and none that bears it lies above the one it finds |
| TaskSearch.ContinueById | agent/planner_runtime.go:1993-2018 | after every run, wherever the snapshot lies on the stack, it is the one taken out and the rest stays, unless some task has expired between the two readings: after c have, it is the one c places above, if there is one |
| SuspendResume.AwaitingSnapshotReturns | agent/planner_runtime.go:2108-2127 | a snapshot restored by a yes or a no can be restored by the next one again |
| SkillSessions.SessionCell.Set | agent/skill_management_handlers.go:23-38 | setField in place is the function `SetField` |
| SkillSessions.SessionCell.Mirror | agent/skill_management_handlers.go:88-123 | the slots become the mirror of the fields, untouched where a field has no text |
| SkillSessions.SyncKeepsValues | agent/skill_management_handlers.go:40-123 | mirroring changes no value that any field reads as, and makes the mirror invariant hold |
| SkillSessions.ReadAfterSet | agent/skill_management_handlers.go:23-73 | after setField the field reads as what was stored, every other field as before, and the mirror invariant holds |
| SkillSessions.NormalizeSkillSession | agent/skill_dispatcher.go:45-122 | the result is the normal form for one of the orders in which the fields may be visited |
| SkillSessions.RekeyingDetermined | agent/skill_dispatcher.go:50-64 | the order does not matter if and only if no two keys that become one carry different texts |
| SkillSessions.ModelKeysClash | agent/skill_management_handlers.go:75-86 | "ai_model_id" and "model_id" with different texts do |
| SkillSessions.NormalTwice | agent/skill_dispatcher.go:45-122 | normalising twice is normalising once, if and only if no odd auto-start text goes without a slot |
| SkillSessions.NormalKeepsValues | agent/skill_dispatcher.go:45-122 | normalising changes no value any field reads as, if and only if the auto-start text of a session with slots is "true", "false" or empty |
| UpdatePatches.ApplyPatch | agent/skill_execution_handlers.go:212-231 | writing a patch field by field is the function `Apply` |
| UpdatePatches.MergePatch | agent/skill_execution_handlers.go:190-210 | merging field by field is the right-biased union |
| UpdatePatches.BuildAfterApply | agent/skill_execution_handlers.go:190-426 | for all three families, building after applying is the old patch merged with the new one, if and only if the patch's texts are trimmed |
| UpdatePatches.HandlersKeepThePatch | agent/skill_execution_handlers.go:1220-1221 | apply then merge, as the update handlers do it, leaves the patch as it was |
| UpdatePatches.RunMerges | agent/skill_execution_handlers.go:265-306 | over any run of patches the session holds their merge over what it held before |
| UpdatePatches.MergedSplits | agent/skill_execution_handlers.go:190-210 | merging is associative with the empty patch as identity |
| Decimals.ItoaRoundTrip | agent/skill_execution_handlers.go:212-252 | a 64-bit integer stored as decimal text reads back as itself |
| SessionBridge.ActiveToLegacy | agent/central_brain.go:1001-1047 | whatever order the collected map is visited in, the result is one function of it; the two target keys always beat the third |
| SessionBridge.ActiveFromLegacy | agent/central_brain.go:1066-1088 | writing back, in any order, is the function `FromLegacy` |
| SessionBridge.RoundTrip | agent/central_brain.go:1001-1088 | a skill session survives the conversion to an active session and back if and only if its texts are plain and the base holds nothing to take the place of something absent |
| SessionBridge.IdleTurn | agent/central_brain.go:922-939 | a turn that changes nothing leaves the session reading the same, whatever it holds |
| SessionBridge.DeletedFieldReturns | agent/central_brain.go:1066-1088 | a field deleted during the turn is back after it |
| SessionBridge.GoneTargetReturns | agent/central_brain.go:1066-1088 | a target the handler gives up is back after the turn exactly as it was |
| SessionBridge.NameInferred | agent/central_brain.go:1030-1045 | a strategy being created without a name gets the latest user answer, by its place in the history, that follows a message asking for the name and can be one; no other session gets any |
| StrategyDrafts.SanitizePatch | agent/central_brain.go:1432-1466 | the patch sanitised step by step is the function `Sanitize` |
| StrategyDrafts.SanitizeTwice | agent/central_brain.go:1432-1466 | sanitising is idempotent for every type text |
| StrategyDrafts.Draft.Filter | agent/central_brain.go:1295-1328 | the filter lets through the four admitted keys, then what the template of the type allows |
| StrategyDrafts.Draft.ApplyTemplate | agent/central_brain.go:1395-1430 | the template filter, in any order, is the function `ByTemplate` |
| StrategyDrafts.Draft.MergeExtracted | agent/central_brain.go:1274-1293 | the merge resets the fields when the type changes, then writes the new values |
| StrategyDrafts.Draft.TakeTurn | agent/central_brain.go:251-262 | filter then merge is the function `Turn` |
| StrategyDrafts.NeverMixed | agent/central_brain.go:1274-1466 | over every run of turns a grid branch is held only by a grid draft and an AI branch only by an AI draft, never both, and a typed patch holds nothing but its type, publishing settings and its one branch |
| StrategyDrafts.TurnIsSound | agent/central_brain.go:1330-1379 | every turn keeps that invariant, and the type the turn names becomes the draft's type |
| StrategyDrafts.FirstTypeGiven | agent/skill_execution_handlers.go:887-903 | for every text the type of a draft after a first turn that gives it: the two exact names are themselves, a word for a grid makes a grid draft, one of the words for coins or AI without one an AI draft, anything else none |
| StrategyDrafts.GridWordKeepsGrid | agent/central_brain.go:1395-1466 | a word for a grid and a grid configuration in one first turn: the configuration is kept as it is |
| StrategyDrafts.TemplateSplits | agent/central_brain.go:1395-1430 | a setting only grids have passes only for a grid, one only AI trading has only for AI trading, a shared one always, any other never once there is a type |
| StrategyDrafts.WhatATurnKeeps | agent/central_brain.go:1381-1393 | a change of type carries over the lasting keys alone, no patch and no confirmation flag; any other turn keeps all it does not overwrite |
| StrategyDrafts.SanitisedExactly | agent/central_brain.go:1395-1466 | over every run of turns the patch of a typed draft is what sanitising makes of it, but for the type itself, if and only if it named or implied its type or is bare of what sanitising removes |
| StrategyDrafts.OtherTypeKeptOut | agent/central_brain.go:1395-1466 | over every run of turns it holds no setting of the other type if and only if it named or implied its type, the draft is an AI draft, or no AI section lies at its top |
| StrategyDrafts.TypingTurn | agent/central_brain.go:1395-1430 | the same as a check on the patch before the turn that brings the type |
| StrategyDrafts.GridDraftHoldsCoinSource | agent/central_brain.go:1395-1430 | a coin source given before any type, then the grid type: the grid draft holds it |
| StrategyDrafts.UntypedPatchOutlivesType | agent/central_brain.go:1395-1430 | a patch that came without a type is left as it is by a type that comes later |
| StrategyTemplates.PatchHasPath | agent/skill_management_handlers.go:703-717 | the walk down the patch is the predicate `HasPath` |
| StrategyTemplates.AiFieldAt | agent/skill_management_handlers.go:669-701 | an AI setting is explicit exactly when its section holds it, at top level or in the AI branch |
| StrategyTemplates.SanitizeKeepsAiField | agent/central_brain.go:1432-1466 | sanitising loses an AI setting exactly when its section at top level replaces the one that held it, and gains one exactly when the AI branch was text |
| StrategyTemplates.SanitizeKeepsGridField | agent/central_brain.go:1432-1466 | sanitising never loses a grid setting, and gains one exactly when the grid branch was text |
| StrategyTemplates.TwiceWrittenLoses | agent/central_brain.go:1432-1466 | a patch with a section in both places loses a required setting |
| StrategyTemplates.MissingFields | agent/skill_management_handlers.go:597-667 | the loop lists exactly the wanted settings that are not explicit, in order |
| StrategyTemplates.MissingListed | agent/skill_management_handlers.go:597-667 | a setting is listed exactly when it is wanted and not explicit |
| StrategyTemplates.GivenWhere | agent/skill_management_handlers.go:669-717 | explicit means: its own field has text, or the patch holds it in its AI section, at top level or in the AI branch, or in the grid branch |
| StrategyTemplates.TypeGiven | agent/skill_management_handlers.go:547-569 | the type of a legacy draft is the text of its own field, else what the patch says, else which of the two branches it has |
| StrategyTemplates.StrategySession.Normalize | agent/skill_management_handlers.go:375-418 | the normalisation in place is the function `NormalLegacy` |
| StrategyTemplates.NormalTwice | agent/skill_management_handlers.go:375-418 | normalising a strategy draft twice is normalising it once |
| StrategyTemplates.NormalExplicit | agent/skill_management_handlers.go:375-418 | afterwards a setting is explicit exactly when the sanitised patch holds it |
| StrategyTemplates.LooseTypeLosesAll | agent/skill_management_handlers.go:547-569 | with a type text other than the two exact ones every setting is lost |
| StrategyTemplates.NormalKeepsMissing | agent/skill_management_handlers.go:597-667 | with every setting in the patch, each section once, no missing-field list changes |
| Targets.FindOption | agent/skill_dispatcher.go:944-955 | the search returns what `Find` says |
| Targets.FirstMatchIsFirst | agent/skill_dispatcher.go:944-955 | that is the first option whose id, name or hint matches, and none exactly when none does |
| Targets.FindUniqueContaining | agent/skill_dispatcher.go:957-977 | the only option whose name, hint or id contains the text or is contained in it, if there is exactly one |
| Targets.FindsSole | agent/skill_dispatcher.go:957-977 | it finds an option exactly when that one, and no option at any other position, has an id, name or hint that contains the text or is contained in it, in lower case |
| Targets.ResolvesInOrder | agent/skill_dispatcher.go:916-942 | a message is about the object with the id remembered, else the one the remembered name names, else the one the message names, where a text names the first option that bears it as id, name or hint or else the only one that overlaps with it; else about none |
| Targets.LivesInOrder | agent/skill_management_handlers.go:183-206 | a remembered target stands for the first option its id matches, else the one its name names, else nothing |
| Targets.SteadyUnlessClash | agent/skill_management_handlers.go:183-206 | an option's id finds that option again if and only if no option before it has that id as name or hint |
| ConfirmationGate.YesIsNotAll | agent/skill_management_handlers.go:125-135 | no exact yes is ever read as meaning all |
| ConfirmationGate.AllInEightWords | agent/skill_management_handlers.go:125-135 | a text means all exactly when one of eight short words, spelled out, occurs in it |
| ConfirmationGate.Flow.HandleMessage | agent/skill_management_handlers.go:2184-2282 | one turn over the saved session is the function `Handle` |
| ConfirmationGate.Flow.Act | agent/skill_execution_handlers.go:964-1008 | the start, stop and delete branches, single and bulk, are the function `Execute` |
| ConfirmationGate.AwaitingIsPending | agent/skill_runner.go:225-244 | over every conversation the saved phase says exactly whether a question was put and the session has not ended since |
| ConfirmationGate.ConfirmedOnly | agent/skill_runner.go:225-244 | in every conversation a tool runs only on an exact yes to a question put earlier, by the handler or by the model itself, and one question is good for one run |
| ConfirmationGate.HandlerAsked | agent/skill_runner.go:225-244 | in every conversation the handler has itself asked for the confirmation of a run, in the session that runs, if and only if the first question of that session was put on a message, not by the model on its own |
| ConfirmationGate.WhoAsks | agent/central_brain.go:329-361 | the handler asks only on a message and only while no question is open, and a question of the model's own counts as one exactly when nothing required is missing |
| ConfirmationGate.OwnQuestionSuffices | agent/central_brain.go:329-361 | after a question of the model's own, in whatever words, a yes runs though the handler never asked |
| ConfirmationGate.RunsOnLiveTargets | agent/skill_management_handlers.go:183-206 | a run on one target acts on an object that is there in that turn, a run on all on what can be deleted in that turn |
| ConfirmationGate.QuestionHolds | agent/skill_runner.go:225-244 | a question about one object leaves the session waiting for a yes to that object alone |
| ConfirmationGate.AmbiguousAsksNothing | agent/skill_management_handlers.go:2184-2250 | while no object is remembered or named by the model, a text that no option bears and that overlaps with two of them asks about nothing and runs nothing |
| ConfirmationGate.SameTarget | agent/skill_management_handlers.go:2184-2282 | with unchanged options, no "all", a steady id, nothing read into the messages by the model and no question of its own, every message waits until the first yes, which runs on exactly the object asked about |
| ConfirmationGate.YesRunsAsked | agent/skill_management_handlers.go:183-206 | an immediate yes that nothing is read into runs on the object asked about if and only if its id is steady |
| ConfirmationTargets.RunsOnLastNamed | agent/skill_management_handlers.go:2184-2282 | over any events since the question, with unchanged options and nothing said of all, a yes runs on what the last target named since, by the question, by a reply or by the model's own question, has become after one look-up for each message; so on the object asked about if and only if that is it |
| ConfirmationTargets.RunsOnAskedExactly | agent/skill_management_handlers.go:2184-2282 | when every option's id is steady, that is: if and only if the last target named since finds the object asked about |
| ConfirmationTargets.EditMovesTarget | agent/skill_runner.go:237-245 | a reply that is no yes, into which the model reads another target, waits without naming it, and the next yes runs on it |
| ConfirmationTargets.AllStays | agent/skill_management_handlers.go:2191-2194 | a session for all objects stays one, and what it runs on is what can be deleted in that turn |
| ConfirmationTargets.SayingAll | agent/skill_management_handlers.go:2191-2194 | an event that speaks of all objects makes it one, unless they cannot be listed |
| ConfirmationGate.ClashFlipsTarget | agent/skill_management_handlers.go:183-206 | names that are other objects' ids: one object is named, a second asked about, a third deleted |
| ConfirmationGate.AllSwitchesScope | agent/skill_management_handlers.go:2191-2194 | "all" while the question about one object is open makes the next yes delete everything that can be deleted |
| ConfirmationGate.GoneSticks | agent/skill_management_handlers.go:2251-2268 | from the turn that finds the object asked about gone, the handler by itself answers every plain message with "unspecified" and leaves the session as it is |
| TraderCreation.CreationFlow.HandleCreateTrader | agent/skill_dispatcher.go:376-446 | one turn of creating a trader is the function `Handle` |
| TraderCreation.CreationFlow.ShowDraft | agent/skill_dispatcher.go:412-446 | a draft is checked, then asked to be completed or shown, by the names of its references or their ids where there is none |
| TraderCreation.CreatedOnlyAsShown | agent/skill_dispatcher.go:376-446 | in every conversation a trader is created only in answer to a complete, valid draft: the last time the handler ran it showed one, with at most the model's own replies since, and it is started only on a yes to a draft that said so |
| TraderCreation.ReplyToDraft | agent/skill_dispatcher.go:389-411 | a yes creates, and starts when that was asked; a no to a start creates without starting; a no or a cancellation otherwise puts the draft off unchanged |
| TraderLabels.EditsWrite | agent/skill_management_handlers.go:23-38 | after any edits every field of a draft reads as the last text written to it, else as before |
| TraderLabels.HydrateFills | agent/skill_dispatcher.go:805-860 | filling in looks a missing id up by the name, leads a live id to the option it finds, fills a missing name from that option, and never changes a name that is there |
| TraderLabels.EventFollows | agent/skill_dispatcher.go:376-446 | at every event of every conversation the draft is what the edits wrote, or that filled in, and what is printed and what is created are its names and its ids |
| TraderLabels.ShownBelongs | agent/skill_management_handlers.go:1323-1356 | in every conversation the name printed for a reference belongs to the id it is bound to if and only if, as written before the turn filled it in, its name stands for the object that its id, or else the name, leads to; with options that find themselves, if and only if no name and id that were both there disagreed |
| TraderLabels.FieldsApart | agent/skill_dispatcher.go:805-860 | once a reference has both its fields its name stays the last one written and its id leads where the last one written leads: neither ever follows the other |
| TraderLabels.LabelsBelong | agent/skill_dispatcher.go:469-488 | so over any further events the name printed belongs to the id if and only if the last name written stands for the object that the last id written leads to |
| TraderLabels.CreatedIsShown | agent/skill_dispatcher.go:582-662 | in every conversation a trader is created under the name shown and on objects that the names printed belong to if and only if the edits since leave the name alone and each id, as last written or as shown, leads to an object that its printed name belongs to; with the very ids shown if and only if each leads back to itself |
| TraderLabels.CreatedAsRead | agent/skill_dispatcher.go:582-662 | through any number of drafts shown, the object created belongs to the name printed if and only if the last id written by the confirmation leads to an object that the last name written by the showing stands for |
| TraderLabels.AnotherNameShown | agent/skill_dispatcher.go:805-825 | a reply from which only another exchange's name is read: the summary names that exchange, and a bare yes creates the trader on the one shown before |
| TraderLabels.OldNameShown | agent/skill_dispatcher.go:805-825 | a reply from which only another exchange's id is read: the summary keeps the old name, and a bare yes creates the trader on the other exchange |
| TraderLabels.EditedReplyCreatesUnseen | agent/skill_dispatcher.go:398-401 | a yes that also carries a new exchange creates a trader that was never shown |
| TraderLabels.OwnQuestionCreatesUnseen | agent/central_brain.go:329-361 | after a shown draft a reply of the model's own that keeps a new exchange, then a yes that nothing is read into, creates a trader with that exchange, never shown and not among the live ones |
| TraderLabels.FirstMessageShows | agent/skill_dispatcher.go:412-446 | a first message naming a whole valid draft is answered by showing it, with its names printed |
| TraderResolution.CandidateIds | agent/trade.go:202-219 | however the map is visited, the ids of the traders that are there, in order |
| TraderResolution.Resolve | agent/trade.go:221-259 | a futures symbol gets the one running trader of its root or is refused, any other symbol the eligible trader with the smallest id |
| TraderResolution.ResolveFuture | agent/trade.go:267-292 | one hit is selected, none and several are refused, with their number |
| TraderResolution.RoutedTo | agent/trade.go:221-292 | a futures trade goes to a running NinjaTrader trader whose wire instrument has the root of the symbol, and there is no other; any other to a running trader, of Alpaca for a stock and of another exchange otherwise |
| TraderResolution.OneAnswer | agent/trade.go:202-292 | there is exactly one such answer: it depends on the roster as a set |
| TraderResolution.FuturesNeverRedirected | agent/trade.go:267-292 | adding traders can make a futures trade refused, never send it to another account |
| TraderResolution.OthersMoveDown | agent/trade.go:221-259 | for other symbols adding traders moves the choice only to a new one with a smaller id |
| TradeCommands.CommandsRoundTrip | agent/trade.go:416-434 | each command the agent tells the owner to send is read as the trade it names, the large-order ones alone as large |
| PendingTrades.ValidateTradeAction | agent/trade.go:294-413 | accepted if and only if within every limit, with price, value and large-order flag written |
| PendingTrades.LimitsInNumbers | agent/trade.go:294-413 | those limits in numbers, with the fallbacks for limits the strategy does not set |
| PendingTrades.FlagInNumbers | agent/trade.go:353-359 | an accepted opening carries the price and value it was checked at and is large when proposed so or worth a quarter of the equity or 5,000 |
| PendingTrades.ProposalAccepted | agent/tools.go:2490-2606 | a proposal is accepted exactly when the session may trade, the action is one of the four, an opening has stop and target, a trader is routed and the limits are kept |
| PendingTrades.ConfirmationLeadsTo | agent/trade.go:425-466 | a confirmation finds no trade, asks for the large-order command, or takes exactly that trade out and executes it |
| PendingTrades.PendingTrades.CleanExpired | agent/trade.go:106-115 | exactly the trades over five minutes old go |
| PendingTrades.ChatTrades.ProposeTrade | agent/tools.go:2490-2606 | a proposal is rejected without a trace, or added and the expired ones dropped |
| PendingTrades.ChatTrades.HandleTradeConfirmation | agent/trade.go:416-490 | a confirmation is the function `Step`: not found, large command needed, or removed and executed |
| PendingTrades.ChatTrades.ExecuteTrade | agent/trade.go:118-158 | what is sent is the trade's own order, when it is accepted anew, and nothing otherwise |
| PendingTrades.PendingExactly | agent/trade.go:87-115 | over every serial run a trade is pending exactly when it was proposed and nothing since executed, replaced or expired it |
| PendingTrades.ExecutedOnlyWhileOpen | agent/trade.go:442-466 | only such a trade is executed, a flagged one only by the large-order command |
| PendingTrades.AtMostOnce | agent/trade.go:442-466 | between two executions of an id it was proposed anew, so fresh ids execute at most once |
| PendingTrades.SentWithinLimits | agent/trade.go:294-413 | every opening ever sent has a stop and a target, 0 < quantity <= 1,000,000, and is worth at most 100,000 and at most the equity |
| PendingTrades.SendsWhatWasProposed | agent/trade.go:118-158 | in every serial run what a confirmation sends is the order an earlier proposal of that id asks for: a closing of the same side, symbol and quantity, sent exactly when a trader is routed and the quantity is a number, or an opening with its own leverage, stop and target, sent exactly when a trader is routed and it is within the limits then |
| PendingTrades.GrownTradeNeedsNoLargeCommand | agent/trade.go:449-456 | the flag asked for is the proposal's, not the one the execution finds |
| PendingTrades.GrownTrade | agent/trade.go:449-456 | such a run: proposed at 1,000, confirmed plainly, sent at 6,000 |
| PendingTrades.SentUnlessDropped | agent/trade.go:106-115 | the command of a proposed trade that nothing has executed or replaced sends it, however late, if and only if no accepted proposal and no sweep has come after its five minutes |
| PendingTrades.LateTradeExecutes | agent/trade.go:442-466 | such a run: proposed, then sent at any time past its five minutes |
| PendingTrades.ExecutesExactly | agent/trade.go:93-103 | of handlers side by side, one executes exactly when it last looked the trade up before anyone had executed it |
| PendingTrades.SerialOnce | agent/trade.go:442-456 | handlers one at a time execute the trade at most once |
| PendingTrades.OverlapExecutesTwice | agent/trade.go:442-456 | two that look before either takes both execute |
| NewsScan.NewsScanner.ScanNews | agent/brain.go:58-144 | the loop over the shifted order list and the seen map is the function `Feed` of the batch |
| NewsScan.NewsScanner.EvictOldest | agent/brain.go:132-143 | over a thousand remembered URLs the oldest half is forgotten, in both places |
| NewsScan.Recall | agent/brain.go:58-144 | over every run of batches the order list is free of duplicates, equals the seen set and holds the 501 most recent first sightings or all, so no URL alerts again within that distance |
| NewsScan.RecallIsTight | agent/brain.go:132-143 | the distance is exact: a run in which a URL is taken twice 502 apart |
| NewsScan.Bounded | agent/brain.go:132-143 | the memory never exceeds a thousand URLs or the largest batch |
| NewsScan.AlertIsFresh | agent/brain.go:87-130 | an alert is for a recent article with a sentiment word and an URL not among those 501 |
| NewsScan.AlertsExactly | agent/brain.go:87-130 | after every run of batches an alert is raised exactly for an article that is the first with its URL, is not remembered, is at most ten minutes old and has a sentiment word, bullish or bearish by which words are more, neutral when they are as many |
| Scheduler.SchedulerStamps.Step | agent/scheduler.go:42-60 | one tick in place is the function of stamps and time |
| Scheduler.SchedulerStamps.Start | agent/scheduler.go:62-94 | the tick loop yields the jobs of each tick |
| Scheduler.ReportOncePerDay | agent/scheduler.go:42-60 | a tick reports exactly when it is the first at or after 21:00 on its day |
| Scheduler.ReportsMatchDays | agent/scheduler.go:42-60 | as many reports as days with such a tick |
| Scheduler.RiskCadence | agent/scheduler.go:42-60 | two risk checks are more than four hours apart and none is overdue after a tick |
| Scheduler.CleanupOnHourChange | agent/scheduler.go:42-60 | cleanup runs exactly on the first tick and when the hour differs from that of the tick before |
| Scheduler.CleanupSkipsWholeDays | agent/scheduler.go:42-60 | after a pause of whole days it does not |
| StreamText.SplitStreamText | agent/stream_text.go:14-49 | the nested loops cut the text as the reference scan does |
| StreamText.CutLine | agent/stream_text.go:27-43 | one line is cut after each break character |
| StreamText.CutLaw | agent/stream_text.go:22-44 | a break character or a newline is a cut whatever surrounds it |
| StreamText.OneChunk | agent/stream_text.go:22-44 | there are no other cuts |
| StreamText.ChunksShape | agent/stream_text.go:14-49 | every chunk is non-empty, trimmed, on one line and broken only at its end |
| StreamText.ChunksConserve | agent/stream_text.go:14-49 | the chunks together, less white space, are the text less white space |
| StreamText.Restream | agent/stream_text.go:14-49 | streaming the chunks again, one a line, gives the same chunks |
| StreamText.NoChunks | agent/stream_text.go:45-47 | there are no chunks exactly when the text is blank, so the fallback for that case is never reached |

## Left out

- PlanRuns.NoCallRepeatedSoon: new, distinct ids are sufficient; `PlanRepeats.RepeatsExactly` says for any ids when a call is repeated, in terms of the decisions that overlook its result.
- SuspendResume.SuspendThenContinue: speaks of contexts that normalisation leaves alone, which `SavedIsFixed` says saved ones are; an odd auto-start text or surplus notes settle one normalisation later.
- TaskStack.StackRefinesIdeal: the tasks on the stack are taken as normal, so that reading the stack does not change them.
- PendingTrades.ChatTrades.HandleTradeConfirmation: the trade is a value here; that the map and a handler share one object in memory, and its status text, are not modelled.
- StrategyDrafts.SanitizePatch: the AI branch is a value; the code adds the top-level sections to the object inside the patch it was given.
- TraderCreation.CreationFlow.HandleCreateTrader: the session is taken as saved, without the normalisation of `SkillSession`; the numeric and yes-or-no arguments of the new trader are left to `UpdatePatches`. What the model read is written as setField writes it, also in a bridged turn, where the code writes the collected map.
- TraderCreation.CreatedOnlyAsShown: a draft recovered from a reply of the language model that leaked its own JSON (agent/planner_runtime.go:2440-2470) is shown without the validity check and without a run of this handler; that path is not part of this model.
- TraderLabels.LabelsBelong: speaks of live objects that stay the same over the events and find themselves by id and name; `TraderLabels.ShownBelongs` and `TraderLabels.CreatedIsShown` make no such assumption.
- ConfirmationGate.Flow.HandleMessage: the session between two messages is not converted to an active session and back; `SessionBridge` says what that does, and `SessionBridge.GoneTargetReturns` that a target given up then returns.
- SkillSessions.NormalizeSkillSession: the auto-start slot, a pointer to a flag, is the text "", "true" or "false".
- Writes to the store of suspended tasks and of the contexts always succeed here; the code ignores their errors.
- Limits on text lengths (500 for a note, 1000 for a tool result) count characters, not bytes.
- Time stamps that are not RFC 3339 texts, and clocks that run backwards.
- An operation that reads the clock several times within one normalisation reads it once here.
- Step and state texts are decoded once into kinds and statuses.
- The branch that fills in missing step ids while a batch is extended (agent/planner_runtime.go:3008): it is never reached, ids being filled in before.
- The summary fallback when the language model fails during a plan, and updates of references from tool results.
- Snapshots restored by the domain a message mentions, and those the language model selects: only removal and restoring by id are modelled.
- Resume hints and triggers of suspended tasks, and the resumption of a parent task after a child succeeds.
- Creation of models and exchanges, and the update handlers beyond their patches.
- The configuration built from a strategy draft, its merging with defaults and its clamping.
- Reply texts, prompts, translations, option lists and event streaming.
- The language model, brokers, market data and news feeds: their answers are arbitrary.
- A task that the model cancels or declares finished: its session is gone, and a conversation begins anew.
- Locks: serial handlers are assumed except in the part of `PendingTrades` on handlers side by side.
