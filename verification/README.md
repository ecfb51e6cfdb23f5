# FlowSpec: a Dafny model of the run engine, its shell, and the protocols around the store

FlowSpec runs flows: graphs of steps joined by `on_success`, `on_failure`, `on_approve` and
`on_reject` routes, with `needs:` gates where branches join. A pure engine decides what an event
means for a run; a scheduler turns the decision into batches of writes; a store applies each batch
atomically and numbers the events it logs; a pump pushes those events to a platform; recovery picks
up what a crash left behind. This project models all of these, and the validator that is meant to
keep bad flows out, and proves what they guarantee over every run and every interleaving.

## How it is organised

| files | what they hold |
|---|---|
| Wrappers, Ordering, FlowTypes, RunTypes, Ports | values: results, ordered ids, flows, run states, records, mutations |
| Closure, Dag | graphs, the queries over a flow's routes, each as the loop the source runs |
| Template, TemplateProofs, Paths | `{{ ... }}` scanning and resolution, what it reads, and which value each path names |
| Engine | `Transition`, the effect of an event, and the methods that build the command list from it |
| Outbox, Store, Scheduler | the in-memory store as a class, and the shell that flushes batches into it |
| Rows, Core, Refinement, Machine | a run without its table, and the simulation between the two |
| Invariants, Effects, Inputs, Budget | what every reachable state satisfies; what each kind of event does to the row it is about, and the text each attempt is started with |
| Stored, Handles, Recovery | the same of the stored rows, the job handle each carries, and the recovery plan |
| Asides | the same at every single store effect, with other writes landing between the batches of a submit |
| Validate, Acceptance, Soundness, Outputs, FailureJoins, Entries | the validator's rules, and what accepting a flow is worth |
| Termination, Laps, SelfApproval | runs end, or have no end |
| Confluence, FanInRuns, Activations | fan-out and fan-in are confluent, and how often a step is started |
| Legality, Arguments | refusals, and events that are lost |
| Samples, Witnesses, Gaps | accepted flows and reachable states in which what the exact conditions exclude does happen |
| OutboxTable, Pump, Deliveries | the SQL outbox, its agreement with the in-memory one, delivery under failures |
| StartFlow, PollLoop | the exactly-once start protocol, the job polling loop |

Code that updates state in place is a class or a method with loops, proved equal to a function of
its inputs or of the old state; the theorems are about those functions. Protocols are state machines
over single store effects, with a step for every crash point or interleaving.

A run is `Core.Run`: the latest attempts, the stored phase and the log. `Machine.Play` is a sequence
of moves from a new run: an accepted event of which only the first `j` activations were persisted
(the process may stop between two batches), or a record logged beside it. The engine never checks
whether an event is legal for the state it arrives in, so a move carries the guard of
`Core.Enabled`: a run starts when it has no rows, a job reports on a step that is Running, an
approval is only passed on for a step that waits, a cancel or a deadline may come at any time, unless
a step with an empty id is active: the engine passes over that id (`Invariants.StopReachesAll`), and
the validator's id rule keeps it out of accepted flows (`Soundness.AcceptedCanStop`).
`Machine.Simulates` shows that every history of the store is such a play, and
`Asides.SimulatesBetween` that this is so at every store effect, whatever lands beside a submit.

## Where the code and its documents disagree

The model follows the code. Each item is a lemma with the exact condition; where the item is about
accepted flows, a lemma gives such a flow and a reachable state or run of it in which it happens.

- `docs/architecture.md:108` and `:129` say an illegal status change is refused with
  `IllegalTransition`. It never is: what the engine decides about a step event does not depend on
  the step's status (`Legality.NeverIllegal`, `StatusIgnored`). A step event is refused exactly when
  its step is unknown, the input of its rerun does not resolve, or its route holds a target that is
  no step or whose gate is open and whose input does not resolve (`IllegalRefusedExactly`). Two
  approvals that are both checked before either is submitted start a next step twice exactly when
  that step needs none of the steps the first one started (`ApprovedTwice`, `Witnesses.ApprovedAgain`).
- A step's other arguments are resolved against the record loaded before the event. A completion
  that would start a step with an argument quoting the output that just arrived is lost, and the
  reporting step stays Running (`Arguments.EventLostExactly`, `QuotedCompletionIsLost`,
  `Witnesses.CompletionLost`).
- The input is resolved twice. The second pass is harmless exactly when the resolved text has no
  opening braces (`TemplateProofs.SecondPassIsIdentity`). A text that is one reference between
  blanks loses the blanks, and a closing brace right behind it counts as part of the expression
  (`TemplateProofs.ResolveWritten`).
- The written format, where it describes fan-in, wants a target of several sources to list them all
  under `needs`. A need is only met by completion, so a failure or rejection starts a step exactly
  when the step does not need the one that failed and all it needs has completed
  (`FailureJoins.UnhappyActivates`), and a step that collects failures and needs all their sources
  never runs (`FailureJoinNeverRuns`, `Witnesses.FailureUnreported`). A failure that starts nothing
  ends the run; a rejection that starts nothing ends it exactly when nothing else is going
  (`FailureJoins.ReachingNothingEnds`).
- The fallback in `entry_steps` accepts an entry that some `on_failure` leads to, and then counts
  that step as guaranteed before the entry. Accepting a flow is sound exactly when it starts clean
  (`Soundness.SoundExactly`, `Witnesses.StartsUnclean`); a step may also mention itself in its own
  input, which nothing makes available on its first attempt (`MentionedStepsVisible`).
- `validate.rs:259` calls the steps before a step completed. When a step is first started, the steps
  directly before it are completed, and their outputs are there, unless a failure (for completed, or
  a rejection) leads to the step and it declares no needs (`Outputs.FirstOutputsExactly`). Then they
  may never complete (`Witnesses.NeverCompleted`), and if the step quotes the missing output the
  failure itself is refused (`Witnesses.FailureRefused`).
- The cycle check does not see an `on_approve` that leads back to its own step if `on_reject` does
  too. If the failure routes fall in the order of the other routes as well, all that a run can follow
  is layered exactly when no step is like that (`Entries.LayeredExactly`), and then runs end
  (`Termination.RunsEnd`, `Gaps.QuietRunsEnd`). A run that waits for such a step, with its gate open
  and inputs that resolve, has no bound (`SelfApproval.RunsForever`, `Gaps.AcceptedRunsForever`).
- Nor does it see `on_failure`. A run that comes back, by whatever routes, to a state that differs
  in attempt numbers only, without a retry on the way, can go round any number of times
  (`Laps.LapsForever`); an accepted flow whose check sends failures back to the work it checks does
  (`Witnesses.RetestsForever`). In a layered flow there is no such lap (`Laps.LayeredHasNoLap`).
- A target listed twice on a success route is started twice, in one attempt
  (`Activations.ActivatedOnceExactly`, `Witnesses.ActivatedTwice`).
- An accepted flow whose entry is called `done`, or has needs, or an input that does not resolve,
  never starts (`Entries.AcceptedStarts`, `BeginsOrNeverRuns`, `Gaps.DoneNeverStarts`,
  `Witnesses.WaitsForItsOwnCheck`).
- `docs/architecture.md:132` and the written format give templates the roots `run` and `env`. The
  engine and the shell pass null for both, so every path below them is refused in every run
  (`Inputs.RootsOfState`).
- In the written format a step without `reject_input` runs again with its original resolved input
  and the feedback. The code resolves the template again, in the state with the rejection
  (`Inputs.LoopStarts`); the text is the same if the template mentions no step
  (`Inputs.StepFreeInput`). That a `reject_input` may quote the feedback on its own step holds
  (`Acceptance.FeedbackArrives`).
- After a deadline the stored phase is Failed, and the derived one agrees only if some step had
  failed on its own (`Invariants.DeadlinePhase`).
- The in-memory outbox gives one event even for a limit of 0, and a mark past the end of a log hides
  later events only in memory (`OutboxTable.SameListing`, `MarkInRangeExactly`).

## Model

| member | source | states |
|---|---|---|
| `Dag.Adjacency` | crates/flowspec-domain/src/flow/dag.rs:30-42 | The map built step by step has exactly the edges of the flow: every route target but `done` and a self-reject loop. |
| `Dag.ForwardAdjacency` | crates/flowspec-domain/src/flow/dag.rs:109-130 | The same for the routes other than `on_failure`. |
| `Dag.EdgesExactly` | crates/flowspec-domain/src/flow/dag.rs:5-42 | An edge is a target other than `done` that one of the four routes names, alone or in its list, except a step's own id where its `on_reject` names that and nothing else; a forward edge is one that a route other than `on_failure` names. |
| `Dag.StepsWithIncomingEdges` | crates/flowspec-domain/src/flow/dag.rs:45-69 | Each targeted id maps to its sources, one entry per edge and in step order; no other id is in the map. |
| `Dag.FindEntrySteps` | crates/flowspec-domain/src/flow/dag.rs:81-101 | Computes the steps no edge leads to, in order, or failing that the steps no forward edge leads to. |
| `Dag.EntriesExactly` | crates/flowspec-domain/src/flow/dag.rs:81-101 | A step is an entry exactly when no edge leads to it or, in a flow where some edge leads to every step, when no forward edge does. |
| `Dag.EntryHasNoForwardSource` | crates/flowspec-domain/src/flow/dag.rs:81-101 | Under either reading, no forward edge leads to an entry. |
| `Dag.FindCycle` | crates/flowspec-domain/src/flow/dag.rs:133-196 | The three-colour search ends; it reports a cycle exactly when the forward graph has one, what it reports is a closed walk along forward edges, and otherwise finishing order ranks every forward edge downwards. |
| `Dag.ReachableFrom` | crates/flowspec-domain/src/flow/dag.rs:199-216 | The worklist, duplicates and all, computes the least set that holds the start and is closed under edges. |
| `Entries.EntryExists` | crates/flowspec-domain/src/flow/dag.rs:81-101 | A non-empty flow in which the cycle check finds nothing has an entry. |
| `Entries.EntryCovers` | crates/flowspec-domain/src/flow/dag.rs:199-216 | If only the entry lacks a forward predecessor, every step is reachable from it. |
| `Entries.OnlyEntriesAreUnreached` | crates/flowspec-domain/src/flow/dag.rs:199-216 | A step no edge leads to is reachable only from itself. |
| `Entries.AcceptedStarts` | crates/flowspec-domain/src/run/engine.rs:124-137 | Starting an accepted flow activates something exactly when its entry is not called `done`, declares no needs, and has an input that resolves. |
| `Entries.BeginsOrNeverRuns` | crates/flowspec-domain/src/run/engine.rs:124-137 | A run of a flow ever gets a row exactly when starting it activates something. |
| `Entries.NeverBegins` | crates/flowspec-domain/src/run/engine.rs:124-137 | A run that activates nothing when it starts has no rows in any reachable state and is Running until it is stopped. |
| `Entries.LayeredExactly` | crates/flowspec-domain/src/flow/dag.rs:109-196 | If failure routes fall too, everything a run can follow, `on_approve` for human steps and `on_success` for the others, is layered exactly when no step that loops back on rejection names itself on the route of its success. |
| `Template.DotGetLoop` | crates/flowspec-domain/src/template.rs:201-207 | The cursor walk finds the value at a dotted path. |
| `Template.ResolveText` | crates/flowspec-domain/src/template.rs:93-128 | The scanning loop computes `Resolve`, errors included; what `Resolve` gives for a text is in the `TemplateProofs` and `Paths` rows. |
| `Template.ExtractStepRefs` | crates/flowspec-domain/src/flow/validate.rs:309-324 | The validator's scan computes `StepRefs`, the ids named by spans that begin with `steps.`. |
| `TemplateProofs.ScannerSeesEveryRead` | crates/flowspec-domain/src/flow/validate.rs:309-324 | What a template resolves to, value or error, depends on no step other than those the validator's scan reports for it, also through the whole-text shortcut. |
| `TemplateProofs.ResolveIsSinglePass` | crates/flowspec-domain/src/template.rs:101-124 | The scan of spans gives written segments their meaning: rendered values are copied and never scanned again. |
| `TemplateProofs.ResolveWritten` | crates/flowspec-domain/src/template.rs:93-146 | Round trip: writing out literals and references and resolving the text gives their meaning, values and errors alike; if there is one reference between blanks the shortcut gives the reference's value alone. |
| `TemplateProofs.WholeIsLone` | crates/flowspec-domain/src/template.rs:128-146 | The whole-text shortcut applies to written segments exactly when there is one reference, without `{{` in it, between blanks; a closing brace right behind it is read as part of it. |
| `TemplateProofs.SecondPassIsIdentity` | crates/flowspec-app/src/scheduler.rs:1212-1247 | Resolving an already resolved input again leaves it alone in every context exactly when it holds no opening braces. |
| `Paths.RootReads` | crates/flowspec-domain/src/template.rs:152-155 | A reference to `inputs`, `trigger`, `env` or `run` and keys of any depth gives the text of the value those keys lead to from that root, as it is if it is a string and serialised otherwise, and is refused if they lead nowhere. |
| `Paths.FieldReads` | crates/flowspec-domain/src/template.rs:156-195 | A reference to a step reads that step's own output, feedback, comment or run; keys go below an output that is not a string, never below a feedback or a comment, and no other field exists. |
| `Paths.OtherRefused` | crates/flowspec-domain/src/template.rs:196-198 | Every other path is refused: an unknown root, a step without an entry, a step without a field. |
| `Paths.ReachesOne` | crates/flowspec-domain/src/template.rs:201-207 | Keys lead from a value to at most one value. |
| `Paths.MeaningSplits` | crates/flowspec-domain/src/template.rs:101-124 | A reference within a text gives what it gives alone. |
| `Paths.ReferenceRefs` | crates/flowspec-domain/src/flow/validate.rs:309-324 | Of a reference the validator's scan reports the step id it names, if its root is `steps`, and nothing otherwise. |
| `Paths.RefsSplit` | crates/flowspec-domain/src/flow/validate.rs:309-324 | Of a text it reports what it reports of each reference alone, in order. |
| `Engine.BuildContextLoop` | crates/flowspec-domain/src/template.rs:39-64 | The step map of the template context has exactly the flow's steps that have rows. |
| `Engine.RunActivateTargets` | crates/flowspec-domain/src/run/engine.rs:83-118 | One activation command per target that is not `done` and whose gate is open, in order, each with the text its step's template resolves to; the first unknown target or unresolvable input is the error. |
| `Engine.TerminalCommandsIfDone` | crates/flowspec-domain/src/run/engine.rs:149-190 | Skips and an end are decided exactly when every row is terminal, the end in the derived phase. |
| `Engine.OnRunStarted` | crates/flowspec-domain/src/run/engine.rs:124-137 | The commands are those of a start's effect: one activation per entry whose gate is open, nothing else. |
| `Engine.OnStepCompleted` | crates/flowspec-domain/src/run/engine.rs:201-254 | The commands are those of the completion's effect: wait for approval, or mark, route and end. |
| `Engine.OnStepFailed` | crates/flowspec-domain/src/run/engine.rs:276-341 | The commands are those of a retry within budget, or else of marking, cancelling the other active steps, routing and ending. |
| `Engine.OnStepApproved` | crates/flowspec-domain/src/run/engine.rs:343-373 | The commands are those of the approval's effect: mark completed, route the approval and end. |
| `Engine.OnStepRejected` | crates/flowspec-domain/src/run/engine.rs:375-432 | The commands are those of a loop back with the rejection input, or of routing the rejection. |
| `Engine.RunDecide` | crates/flowspec-domain/src/run/engine.rs:11-38 | For every event the imperative command list is the one of the effect the theorems reason about. |
| `Core.EffectShape` | crates/flowspec-domain/src/run/engine.rs:201-475 | The state the engine reasons about differs from the old one by one mark and the cancellations; nothing activates when the run ends; an end is decided only over terminal rows, in the derived phase, or by a deadline or a cancel; activations are those of the event's routes. |
| `Core.EffectNextAttempts` | crates/flowspec-domain/src/run/engine.rs:107 | Every activation is of a defined step and carries the attempt after that step's latest. |
| `Effects.MarksExactly` | crates/flowspec-domain/src/run/engine.rs:201-432 | The status each event leaves on its step: waiting for approval or completed, failed past the retries, completed by an approval, rejected by a rejection; none for a retry and for events about no step. |
| `Effects.CancelsExactly` | crates/flowspec-domain/src/run/engine.rs:140-147 | A final failure cancels exactly the other active steps, a deadline or a cancel every active one whose id is not empty, and nothing else cancels. |
| `Effects.SkipsExactly` | crates/flowspec-domain/src/run/engine.rs:153-168 | A run that ends by itself skips exactly the defined steps that never had a row. |
| `Effects.OwnRow` | crates/flowspec-domain/src/run/engine.rs:201-432 | The row of the step an event is about gets that status and the output, reason, comment or feedback the event came with, and keeps everything else. |
| `Inputs.ActivatedInputs` | crates/flowspec-domain/src/run/engine.rs:44-64 | Every activation of every accepted event is started with what its step's template resolves to in the state the event leaves; after a rejection that loops back, with what its `reject_input` resolves to or, without one, that input and the feedback. |
| `Inputs.RetryStarts` | crates/flowspec-domain/src/run/engine.rs:285-311 | A failure within the retries starts the same step alone, with the next attempt and its input resolved in the state as it was. |
| `Inputs.LoopStarts` | crates/flowspec-domain/src/run/engine.rs:394-418 | A rejection that loops back starts the same step alone, with the next attempt, in a state that holds the feedback. |
| `Inputs.RootsOfState` | crates/flowspec-domain/src/template.rs:39-46 | In a run, `inputs` and `trigger` read its own inputs and trigger, and `env` and `run` are null. |
| `Inputs.FieldsOfState` | crates/flowspec-domain/src/template.rs:47-63 | In a run, a reference to a field of a step reads the output, feedback or comment on that step's latest attempt, and is refused for a step without one. |
| `Inputs.StepFreeInput` | crates/flowspec-domain/src/template.rs:39-64 | A text that mentions no step resolves to the same in every reachable state of a run. |
| `Ports.LatestSteps` | crates/flowspec-app/src/ports.rs:75-87 | The fold lists, by step id, the row with the highest attempt of each step. |
| `Rows.LatestIgnoresOrder` | crates/flowspec-app/src/ports.rs:75-87 | With unique keys the latest rows do not depend on the order of the rows. |
| `Rows.PatchLatest` | crates/flowspec-app/src/testkit.rs:55-152 | A write addressed to a latest attempt finds its row and changes the projected map at that step only. |
| `Rows.InsertLatest` | crates/flowspec-app/src/testkit.rs:55-152 | Inserting the next attempt of a step makes it the latest, keeps attempts contiguous and keeps all else. |
| `Store.InMemoryStateStore.CreateRun` | crates/flowspec-app/src/testkit.rs:180-209 | Refused exactly when some run owns the key; otherwise one new Running run without rows. |
| `Store.InMemoryStateStore.FindByIdempotencyKey` | crates/flowspec-app/src/testkit.rs:172-178 | Finds a run that owns the key exactly when there is one. |
| `Store.InMemoryStateStore.Apply` | crates/flowspec-app/src/testkit.rs:219-273 | A batch is applied as a whole or not at all, its events get the next sequences, and no other run changes. |
| `Store.InMemoryStateStore.UnpushedEvents` | crates/flowspec-app/src/testkit.rs:332-355 | The nested loop gives the first entries, by run and sequence, of everything past the marks, and at least one whatever the limit. |
| `Store.InMemoryStateStore.MarkEventsPushed` | crates/flowspec-app/src/testkit.rs:357-366 | The run's mark becomes the larger of its mark and the given one, so it never goes back; the marks of other runs stay. |
| `Scheduler.Shell.ExecuteCommands` | crates/flowspec-app/src/scheduler.rs:250-419 | Collecting writes and flushing early at each activation leaves the store where the planned batches lead, including where a flush or a request fails; no other run changes. |
| `Scheduler.Shell.Submit` | crates/flowspec-app/src/scheduler.rs:201-216 | Load, decide, execute: a finished run or a refused event changes nothing, any other event leads to its planned batches. |
| `Refinement.EarlyFlushesAddUp` | crates/flowspec-app/src/scheduler.rs:415-504 | Flushing at every activation leaves the same record and event sequence as one batch of all the writes. |
| `Refinement.SubmitRefines` | crates/flowspec-app/src/scheduler.rs:250-504 | The shell refines the engine: stopped after any number of batches, the store shows either the old state or exactly the state the engine reasoned about, overlaid with one Running row per activation that got through: one per flushed batch, up to the first whose request cannot be built. |
| `Inputs.SubmittedInputs` | crates/flowspec-app/src/scheduler.rs:421-504 | Stopped after any number of batches, each step whose activation got through has a Running latest attempt whose `input_resolved` is the text it was started with. |
| `Machine.AfterRows` | crates/flowspec-domain/src/run/engine.rs:201-475 | Row by row, an event only marks its own step, cancels the cancelled ones and adds a fresh next attempt for each activation. |
| `Inputs.EveryRowGiven` | crates/flowspec-domain/src/run/engine.rs:83-118 | Every row of every reachable state holds the text it was given by the move that started its current attempt. |
| `Inputs.StoredInputs` | crates/flowspec-app/src/scheduler.rs:421-504 | So does the latest attempt of every step of every stored run, wherever its history stops. |
| `Machine.Simulates` | crates/flowspec-app/src/scheduler.rs:73-90 | Every history of a stored run, crashes between batches included, and job handles and records saved between submits, shows a state that some play of the core reaches. |
| `Invariants.PlayInvariant` | crates/flowspec-domain/src/run/derive.rs:6-41 | In every reachable state the stored phase is Running exactly while a latest attempt is active; Pending, Skipped and WaitingOnSubflow rows do not occur; only human steps wait for approval; Failed is only marked above the retries; each latest attempt that is not Cancelled has the status its last logged event says; the log has one end record exactly when the run is over. |
| `Invariants.PhaseIsDerived` | crates/flowspec-domain/src/run/derive.rs:6-41 | Unless a deadline ended the run, the stored phase is the one derived from the latest attempts. |
| `Effects.Outcome` | crates/flowspec-domain/src/run/derive.rs:6-41 | Without a deadline a run with rows is Running while one runs or waits, Completed exactly when all latest attempts have completed, and otherwise Failed or Cancelled, where a failure counts more than a cancelled step unless the run was asked to stop. |
| `Effects.EndsSaid` | crates/flowspec-app/src/scheduler.rs:397-411 | In every reachable state the log holds the end record of the phase the run is in, and of no other. |
| `Invariants.DeadlinePhase` | crates/flowspec-domain/src/run/engine.rs:457-465 | After a deadline the stored phase is Failed, and the derived phase agrees exactly when some step had failed or been rejected before. |
| `Invariants.StopReachesAll` | crates/flowspec-domain/src/run/engine.rs:140-147 | Exactly when a deadline or a cancel leaves something active behind: when a step with an empty id is active, which the exclusion of the empty id passes over, and then only that step. |
| `Budget.AttemptGrows` | crates/flowspec-domain/src/run/engine.rs:285-311 | No event lowers a step's attempt; a retry raises it by one, from an attempt within the budget. |
| `Budget.RetryBudget` | crates/flowspec-domain/src/run/engine.rs:285-311 | Over a whole run, loops through routing included, a step is retried at most `retries` times. |
| `Stored.StoredRunAgrees` | crates/flowspec-app/src/scheduler.rs:340-411 | At every batch boundary of every history the stored phase, the latest rows and the log agree, and sequences are exactly 1 to n. |
| `Stored.StoredAttempts` | crates/flowspec-app/src/ports.rs:75-87 | The stored rows of a step are its attempts 1 to k, each once, and the engine sees attempt k whatever the row order. |
| `Handles.HandleSaved` | crates/flowspec-app/src/scheduler.rs:576-600 | After every history an attempt carries exactly the job handle last saved for it, and none if none was saved since it was inserted; no event that is submitted changes a handle. |
| `Recovery.RecoveryPlan` | crates/flowspec-app/src/recovery.rs:50-123 | The nested loops plan exactly the actions that the records call for, by `Recovery.PlanDue`. |
| `Recovery.PlanDue` | crates/flowspec-app/src/recovery.rs:59-120 | An action on a step is about its latest attempt and is: reattach, with exactly the stored handle, if it runs and has one; fail, if it runs without one or waits on a subflow without a child; leave, if it waits for approval; check again, with the stored child, if it waits on one. A run is started again exactly when it has no row. |
| `Recovery.PlanCovers` | crates/flowspec-app/src/recovery.rs:50-123 | One action for each active latest attempt and none for any other; nothing at all exactly when there are rows but none is active. |
| `Recovery.NoOrphan` | crates/flowspec-app/src/recovery.rs:50-123 | Wherever a history stops, a run still marked Running gets one action for each active step, or is started again if it has no rows; it never gets nothing. A Running attempt is reattached to the handle last saved for it and failed exactly when none was; one that waits for approval is left alone. |
| `Asides.AsidesInvisible` | crates/flowspec-app/src/scheduler.rs:573-600 | With single batches, crashes and other writes in any order, a job handle or a note that lands beside or between the batches of a submit leaves the view, at every moment, the same but for handles and notes as some history of the submits alone. |
| `Asides.SimulatesBetween` | crates/flowspec-app/src/scheduler.rs:73-90 | So at every store effect the view shows, but for handles and notes, a state that some play of the core reaches. |
| `Asides.StoredBetween` | crates/flowspec-app/src/scheduler.rs:340-411 | At every store effect, within a submit too, phase, rows and log agree, sequences are exactly 1 to n, and recovery acts on a run still marked Running. |
| `Termination.StepEventLightens` | crates/flowspec-domain/src/run/engine.rs:201-432 | In a layered flow every accepted step event other than a rejection that loops back strictly lowers a weight made of layers, remaining retries and Running against waiting. |
| `Termination.RunsEnd` | crates/flowspec-domain/src/run/engine.rs:201-432 | The number of step events of a run is bounded by the weight of its start plus an allowance per rejection that loops back. |
| `SelfApproval.RunsForever` | crates/flowspec-domain/src/flow/dag.rs:109-130 | Wherever a run waits for a step that names itself on approval, with its gate open to itself and inputs that resolve, the run has, for every n, a continuation of n approvals of that step after which it waits again. |
| `Laps.PlayAlike` | crates/flowspec-domain/src/run/engine.rs:276-341 | What can be played from a run without a retry can be played from every run that is the same but for attempt numbers no lower, and leads to runs that are the same in that way. |
| `Laps.LapsForever` | crates/flowspec-domain/src/flow/dag.rs:109-130 | A reachable run that some moves, none a retry, lead back to itself but for attempt numbers can take those moves any number of times. |
| `Laps.LayeredHasNoLap` | crates/flowspec-domain/src/flow/dag.rs:109-130 | In a layered flow such moves hold no step event, unless they hold a rejection that loops back. |
| `Confluence.ActivatedTargets` | crates/flowspec-domain/src/run/engine.rs:83-118 | The activated steps are exactly the routed, defined ones with an open gate. |
| `Confluence.RefusedTargets` | crates/flowspec-domain/src/run/engine.rs:83-118 | A list of targets is refused exactly when it holds one, other than `done`, that is no step or whose gate is open and whose input does not resolve. |
| `Confluence.SettlingKeepsSteady` | crates/flowspec-domain/src/run/engine.rs:201-254 | A completion or an approval gives a row to exactly the fed steps whose feeders are now all done, none of which had one, and completes its own step and no other. |
| `FanInRuns.HappyPlaySteady` | crates/flowspec-domain/src/run/engine.rs:66-118 | In any interleaving of completions and approvals no step has a row before its feeders are done, none is missed, every row is a first attempt, and each completion and approval is of a different step. |
| `FanInRuns.QuietRunsAgree` | crates/flowspec-domain/src/run/engine.rs:66-118 | A run without failures that has gone quiet is Completed, with one completion per step and one approval per human step, and its steps are the least set that holds the entries and every step all of whose feeders are in it. |
| `FanInRuns.Confluent` | crates/flowspec-domain/src/run/engine.rs:66-118 | Any two quiet runs of a definition completed the same steps in the same number of events. |
| `FanInRuns.NeverStuck` | crates/flowspec-domain/src/run/engine.rs:343-373 | A run that is still Running waits for an event that can happen, and only an input that does not resolve can stop it from going on. |
| `FanInRuns.HappyRunsAreShort` | crates/flowspec-domain/src/run/engine.rs:201-254 | A run without failures takes at most one completion per step of the flow. |
| `Activations.ActivatedAsListed` | crates/flowspec-domain/src/run/engine.rs:83-118 | In a run without failures the log has, for each step with a row, as many activations as the route of the one event that opened it lists the step, and none for other steps. |
| `Activations.ActivatedOnceExactly` | crates/flowspec-domain/src/run/engine.rs:83-118 | The log has one activation of a step with a row exactly when it is an entry or the success route that opened it lists it once. |
| `Activations.ActivatedOnce` | crates/flowspec-domain/src/run/engine.rs:83-118 | If no success route lists a target twice, every step of every run without failures is activated once. |
| `Validate.GuaranteedPredecessors` | crates/flowspec-domain/src/flow/validate.rs:262-295 | The worklist computes the transitive closure of "sole source, else needs". |
| `Validate.ReportSteps` | crates/flowspec-domain/src/flow/validate.rs:75-220 | A per-step rule reports exactly the steps that break it. |
| `Validate.ReportDuplicates` | crates/flowspec-domain/src/flow/validate.rs:46-57 | Reports exactly the steps whose id an earlier step has. |
| `Validate.ReportCrossReferences` | crates/flowspec-domain/src/flow/validate.rs:222-257 | Reports exactly the steps whose templates mention a step other than itself and its guaranteed predecessors. |
| `Validate.Validate` | crates/flowspec-domain/src/flow/validate.rs:23-44 | What is reported is exactly, for each modelled rule, that rule with each step that breaks it, or with no step for a rule about the flow; nothing is reported exactly when the flow satisfies them all. |
| `Acceptance.RefusedForText` | crates/flowspec-domain/src/flow/validate.rs:75-105 | For an accepted flow the engine refuses an event that can happen only because some step's template does not resolve, before the event or after it; never for a step that is not there. |
| `Acceptance.RejectInputUsed` | crates/flowspec-domain/src/flow/validate.rs:207-220 | In an accepted flow every rejection of a step with a `reject_input` starts that step again, alone, with what the `reject_input` resolves to. |
| `Acceptance.FeedbackArrives` | crates/flowspec-domain/src/run/engine.rs:375-418 | A `reject_input` that quotes nothing but the feedback on its own step always resolves: the rejection is accepted, and the step starts again with the feedback in place of each quote. |
| `Acceptance.VerdictsRouted` | crates/flowspec-domain/src/flow/validate.rs:181-205 | In every reachable state of an accepted flow a step that waits for approval has a route for either verdict, and only human steps have one. |
| `Acceptance.IdsWritable` | crates/flowspec-domain/src/flow/schema.rs:10-16 | References to the fields of any step of an accepted flow can be written and read the row of that step. |
| `Soundness.SoundExactly` | crates/flowspec-domain/src/flow/validate.rs:222-295 | For an accepted flow that can start: in all reachable states every step with a row has rows for its direct predecessors, exactly when no startable entry has a predecessor other than itself. |
| `Soundness.GuaranteedHaveRows` | crates/flowspec-domain/src/flow/validate.rs:262-295 | In every reachable state of such a flow a step with a row has rows for all its guaranteed predecessors; when they have completed is `Outputs.GuaranteedHaveCompleted`. |
| `Soundness.MentionedStepsVisible` | crates/flowspec-domain/src/run/engine.rs:83-118 | Whenever a step of such a flow is activated, every other step its input mentions has an entry in the template context; all of them have exactly when it does not mention itself on its first attempt. Which entries hold an output is `Outputs.FirstOutputsExactly`. |
| `Outputs.PlayFits` | crates/flowspec-domain/src/run/engine.rs:201-432 | In every reachable state an attempt that runs or failed has no output, and one that waits, completed or was rejected has one. |
| `Outputs.FirstOutputsExactly` | crates/flowspec-domain/src/flow/validate.rs:259-261 | When a step is first activated, each step directly before it holds an output unless a failure leads there and the step declares no needs, and is completed unless a failure or a rejection does. |
| `Outputs.GuaranteedHaveCompleted` | crates/flowspec-domain/src/flow/validate.rs:222-295 | If steps without needs are only reached by success, every step guaranteed before a step with a row has completed, in every reachable state of an accepted flow that starts clean. |
| `Soundness.NoSiblingRace` | crates/flowspec-domain/src/flow/validate.rs:222-230 | What an accepted step's input and `reject_input` resolve to depends on no rows but its own and its guaranteed predecessors'. |
| `Soundness.AcceptedCanStop` | crates/flowspec-domain/src/flow/schema.rs:10-16 | In every reachable state of an accepted flow a cancel or a deadline reaches every active step. |
| `FailureJoins.UnhappyActivates` | crates/flowspec-domain/src/run/engine.rs:66-118 | A final failure, or a rejection that does not loop back, activates a step exactly when it routes there, the step does not need the step of the event, and all it needs is already completed. |
| `FailureJoins.ReachingNothingEnds` | crates/flowspec-domain/src/run/engine.rs:312-341 | When such an event activates nothing, a failure ends the run as Failed, and a rejection ends it exactly when every other step is terminal. |
| `FailureJoins.JoinRunsExactly` | crates/flowspec-domain/src/run/engine.rs:66-118 | Over whole runs, a step no success leads to has a row only if some failure or rejection reached it, and exactly then if nothing was cut short. |
| `FailureJoins.FailureJoinNeverRuns` | crates/flowspec-domain/src/run/engine.rs:66-77 | A step reached only by failures and rejections, and needing all of its sources, has no row in any reachable state. |
| `Legality.NeverIllegal` | crates/flowspec-domain/src/run/types.rs:188-198 | No input makes the engine return `IllegalTransition`; its only refusal is an unknown step. |
| `Legality.StatusIgnored` | crates/flowspec-domain/src/run/engine.rs:201-432 | The decision about a step event is the same whatever the status of its step. |
| `Legality.IllegalRefusedExactly` | crates/flowspec-domain/src/run/engine.rs:11-38 | Any step event, legal or not, is refused exactly when its step is unknown, the input of its rerun does not resolve, or its route holds a target that is no step or whose gate is open and whose input does not resolve. |
| `Legality.WaitingSteps` | crates/flowspec-app/src/use_cases/approvals.rs:124-130 | Lists exactly the steps whose latest attempt waits for approval, each once. |
| `Legality.ResolveStepId` | crates/flowspec-app/src/use_cases/approvals.rs:118-144 | A named step is accepted exactly when it waits; without a name the answer is the only waiting step, none, or ambiguous. |
| `Legality.ResolvedIsLegal` | crates/flowspec-app/src/use_cases/approvals.rs:118-144 | A resolved approval or rejection is legal on the record it was checked on, and later exactly while the step still waits. |
| `Legality.ApprovedTwice` | crates/flowspec-app/src/use_cases/approvals.rs:58-86 | If two approvals of a step were both checked before either was submitted, the second is accepted although no longer legal, and a step the first one started gets one more attempt beside the running one exactly when it needs none of the steps the first one started. |
| `Arguments.EventLostExactly` | crates/flowspec-app/src/scheduler.rs:421-445 | Submitting an event that starts something leaves the store untouched exactly when the first request cannot be built from the record loaded before the event. |
| `Arguments.EventLostToText` | crates/flowspec-app/src/scheduler.rs:421-445 | In terms of texts: exactly when some string of the first request does not resolve in the state before the event. |
| `Arguments.ArgsHold` | crates/flowspec-app/src/scheduler.rs:1212-1247 | What a request holds under each key: an extra argument goes before the step's own, the resolved input is `input`, and the flow's defaults come last. |
| `Arguments.BuildsExactly` | crates/flowspec-domain/src/template.rs:66-91 | A request can be built exactly when every string anywhere within its arguments resolves. |
| `Arguments.QuotedCompletionIsLost` | crates/flowspec-app/src/scheduler.rs:421-445 | In every history, a completion that would first start a step with an argument quoting the output that just arrived changes nothing, although the state the engine decided on has that output. |
| `Arguments.OutputTemplateQuotes` | crates/flowspec-domain/src/template.rs:130-199 | The plain output template of any valid step id is such an argument. |
| `Gaps.AcceptedRunsForever` | crates/flowspec-domain/src/flow/dag.rs:109-130 | A concrete accepted flow, its one human step named by its own `on_approve` and `on_reject`, has for every n a run of n approvals without failure or rejection that is still Running. |
| `Gaps.DoneNeverStarts` | crates/flowspec-domain/src/run/engine.rs:83-93 | A concrete accepted flow, its step called `done`, decides nothing when it starts. |
| `Gaps.QuietRunsEnd` | crates/flowspec-domain/src/run/engine.rs:221-254 | A concrete accepted human step that names itself on `on_success` and `on_reject` but not on `on_approve`: its runs end, but for rejections that loop back. |
| `Witnesses.FanOutFansIn` | flows-fixtures/fan-out.yaml:1-56 | A flow built like the fan-out flow of the fixtures is accepted and within the confluence results. `FanOutFlow` gives such a flow. |
| `Witnesses.FailureUnreported` | flows-fixtures/fan-out.yaml:52-56 | In such a flow a failure of the first step ends the run and the step that should report it never starts. |
| `Witnesses.ActivatedTwice` | crates/flowspec-domain/src/run/engine.rs:83-118 | An accepted flow whose success route lists a target twice has a run in which that target is activated twice, in one attempt. `DoubledFlow` gives such a flow. |
| `Witnesses.ApprovedAgain` | crates/flowspec-app/src/use_cases/approvals.rs:58-86 | An accepted flow and a reachable state in which two checked approvals start a second attempt beside the running one. `ReviewedFlow` gives such a flow. |
| `Witnesses.StartsUnclean` | flows-fixtures/failure-routing.yaml:6-28 | A flow routed like the failure-routing flow of the fixtures is accepted, does not start clean, and starts its entry before the step the validator counts as guaranteed. `FailureRoutingFlow` gives such a flow. |
| `Witnesses.RetestsForever` | flows-fixtures/failure-routing.yaml:6-28 | An accepted flow routed like the failure-routing flow of the fixtures has, for every n, a run of n rounds in which the check fails and the work starts again, and that is still Running. |
| `Witnesses.WaitsForItsOwnCheck` | crates/flowspec-domain/src/run/engine.rs:66-77 | The same flow with a need on its entry is accepted and no run of it ever has a row. `GatedFlow` gives such a flow. |
| `Witnesses.FailureRefused` | crates/flowspec-domain/src/flow/validate.rs:222-257 | An accepted flow that starts clean in which the engine refuses a failure, because the step it leads to quotes the output of the step that failed. `BlamingFlow` gives such a flow. |
| `Witnesses.NeverCompleted` | crates/flowspec-domain/src/flow/validate.rs:259-295 | An accepted flow that starts clean with a run in which a step has a row and the step guaranteed before it has never completed. `FollowingFlow` gives such a flow. |
| `Witnesses.CompletionLost` | crates/flowspec-app/src/scheduler.rs:421-445 | An accepted flow and a stored history after which a completion the engine accepts changes nothing. `QuotingFlow` gives such a flow. |
| `OutboxTable.SqliteEvents.AppendEvents` | crates/flowspec-server/src/state/sqlite_store.rs:706-727 | Each event of a batch is inserted unpushed with the run's highest sequence plus one. |
| `OutboxTable.SqliteEvents.UnpushedEvents` | crates/flowspec-server/src/state/sqlite_store.rs:295-335 | The listing is ascending by run and sequence and holds unpushed rows only; short of the limit it holds all of them, and what is left out comes after what is listed. |
| `OutboxTable.SqliteEvents.MarkEventsPushed` | crates/flowspec-server/src/state/sqlite_store.rs:337-357 | Row by row: the event stays, and the row is pushed exactly when it was or is of that run and within the sequence. |
| `OutboxTable.OneListing` | crates/flowspec-server/src/state/sqlite_store.rs:300-306 | There is one listing of a set of events by run and sequence. |
| `OutboxTable.SameListing` | crates/flowspec-app/src/testkit.rs:332-355 | Outboxes with the same events and flags list the same unpushed events; under a limit they agree exactly when it is at least 1 or nothing is unpushed. |
| `OutboxTable.OutboxesAgree` | crates/flowspec-server/src/state/sqlite_store.rs:295-357 | The two outboxes agree after every history of batches and marks whose marks stay within their logs. |
| `OutboxTable.MarkInRangeExactly` | crates/flowspec-server/src/state/sqlite_store.rs:337-357 | They agree on the event after a mark exactly when the mark was not past the end of the log. |
| `OutboxTable.PushedRowsAreAPrefix` | crates/flowspec-server/src/state/sqlite_store.rs:337-357 | In every history, in range or not, the pushed rows of each run are a prefix of its rows. |
| `Pump.GroupByRun` | crates/flowspec-server/src/platform/pump.rs:58-61 | Groups a listing by run, keeping the order within each. |
| `Pump.MirroredExactly` | crates/flowspec-app/src/use_cases/queries.rs:356-358 | A run is mirrored as `p` exactly when its idempotency key is `platform:` followed by `p`. |
| `Pump.LandKeeps` | crates/flowspec-server/src/platform/pump.rs:84-96 | The platform holds a sequence exactly if it had it or was sent it, and one it had keeps its record. |
| `Pump.LandFirst` | crates/flowspec-server/src/platform/pump.rs:84-96 | A new sequence gets the first record sent for it. |
| `Pump.PushRun` | crates/flowspec-server/src/platform/pump.rs:63-110 | Load, push, snapshot, push the state, mark: stops at the first that fails, with what was already pushed still pushed. |
| `Pump.DrainOnce` | crates/flowspec-server/src/platform/pump.rs:46-113 | A drain is the per-run step over every run with fetched events, in run order. |
| `Deliveries.FetchedSegment` | crates/flowspec-server/src/platform/pump.rs:51-61 | What a drain fetches of a run is the part of its log right after the mark. |
| `Deliveries.DrainSafe` | crates/flowspec-server/src/platform/pump.rs:46-113 | A drain loses and skips nothing, whatever fails in it. |
| `Deliveries.DrainIsActs` | crates/flowspec-server/src/platform/pump.rs:46-113 | A drain that nothing interrupts is one schedule of the single acts of the history below: a fetch, then for each fetched run in order its push and its mark. |
| `Deliveries.NothingLost` | crates/flowspec-server/src/platform/pump.rs:46-113 | Over every history of runs, writes and drains, with writes, new runs and restarts between the fetch, the pushes and the marks of a drain and with any failures, the platform holds of each platform run exactly events 1 to k of its log, k not below the mark. |
| `Deliveries.CleanDrain` | crates/flowspec-server/src/platform/pump.rs:46-113 | A drain without failures takes exactly what it fetched off the outbox, so a non-empty outbox strictly shrinks. |
| `Deliveries.EverythingArrives` | crates/flowspec-server/src/platform/pump.rs:46-113 | After as many drains without failures as there are unpushed events, the platform holds the whole log of every platform run. |
| `StartFlow.MissingInputs` | crates/flowspec-app/src/use_cases/start_flow.rs:102-111 | Lists exactly the required inputs that are absent or null. |
| `StartFlow.Advance` | crates/flowspec-app/src/use_cases/start_flow.rs:113-162 | One store effect of a caller, against the store, is the step the protocol says it is; a create succeeds exactly when no run owns the key, and what it adds is one Running run without rows, with the definition, inputs, trigger and key of the request. |
| `StartFlow.WritesKeepRequest` | crates/flowspec-app/src/testkit.rs:55-152 | No batch of writes changes a run's definition, inputs, trigger or key. |
| `StartFlow.InterleavingOnce` | crates/flowspec-app/src/use_cases/start_flow.rs:113-191 | In every interleaving of any callers no run has two creators, every new run has one and holds what that caller asked for, and a run is submitted once its creator gets there and never again. |
| `StartFlow.StartsExactlyOnce` | crates/flowspec-app/src/use_cases/start_flow.rs:113-191 | Callers with one key all return the one run that owns it, unless they lack an input; if the key was free exactly one created it, with the definition, inputs and trigger of its own request, submitted it and answers `replayed: false`, otherwise none does. |
| `PollLoop.Wait` | crates/flowspec-server/src/devkitd/client.rs:228-337 | The loop answers at the first turn that decides something, having polled, slept and cancelled exactly as the turns before say: the output exactly if that turn is before the deadline and its reply is of a job done with exit code 0, the code of one done with 1 to 255, cancelled, interrupted if the server does not know the job, and -1 for every other reply of a job that is done or that cannot be read. |
| `PollLoop.DoingsExactly` | crates/flowspec-server/src/devkitd/client.rs:246-334 | The turns before the answer poll once each and sleep for the interval or, after the k-th lost reply in a row, the k-th delay, cut to the time left, and do nothing else. |
| `PollLoop.UnreachableExactly` | crates/flowspec-server/src/devkitd/client.rs:246-262 | Unreachable exactly at the last of `len(delays) + 1` lost replies in a row before the deadline; any other reply starts the count again. |
| `PollLoop.TimeoutExactly` | crates/flowspec-server/src/devkitd/client.rs:240-243 | Of the outcome of waiting: the job is cancelled exactly when the loop answers at a turn that starts at or after the deadline, the first such turn; the cancel comes once, last, with Timeout; any other Timeout is the job's own exit code -2. |
| `PollLoop.RunningGoesOn` | crates/flowspec-server/src/devkitd/client.rs:284-334 | The loop goes on exactly as long as turns start before the deadline and their replies are of a job in any state but done or cancelled, unknown ones included, or are lost, but not for more than `len(delays)` in a row. |
| `PollLoop.NoSleepPastDeadline` | crates/flowspec-server/src/devkitd/client.rs:169-177 | No sleep is scheduled past the deadline, and no poll is made at or after it. |
| `PollLoop.WaitEnds` | crates/flowspec-server/src/devkitd/client.rs:228-337 | With a deadline and a clock that honours the sleeps, the undecided turns are at most the time to the deadline times `len(delays) + 1`. |

## Left out

- Lifecycle hooks: `split_at_hooks`, hook batches and hook rows; all runs are hook-free.
- Subflow steps: `StartChildRun` is a stub in the source; only `cli` steps are modelled.
- Timestamps, `with_resolved`, `failure_detail` and event payloads: carried by the rows and events but read by nothing modelled.
- JSON: a value is a string, an object, an array or other text, with its serialised form carried along; parsing and serialising are not part of this model.
- Integer widths: attempts and sequences are unbounded; the SQL limit is taken as non-negative.
- tokio tasks, cancellation tokens, deadline timers, liveness maps and in-flight handles: their outcomes arrive as events in any order.
- `Enabled`: an assumption about callers, not something the engine checks; for instance a job without a saved handle is not aborted on cancel and could report late. What the engine does with such events is in Legality.
- `Machine.Simulates`: other writes land between submits here; those that land between the batches of one submit are in `Asides.SimulatesBetween`.
- `Validate.Validate`: leaves out `validate_fields`, `type_with_consistency`, `output_references_valid` and the subflow rules, which check one field at a time.
- `Validate.ReportSteps`: one report per step where the source reports per target or need; which flows are accepted is the same.
- `Soundness.GuaranteedHaveRows`: says that rows are there, because completed is more than the code keeps; `Outputs.GuaranteedHaveCompleted` has the condition.
- `Soundness.MentionedStepsVisible`: says that an entry is there, not that it holds an output; `Outputs.FirstOutputsExactly` says when it does.
- Recovery re-creating fan-out targets a crash dropped: it does not; the plan is about the rows that are there.
- `select_flow`, `list_flows`, list filters, the MCP and HTTP surfaces, configuration, output decoding and truncation: I/O and formatting.
- The answer of a start, beyond the run's id and `replayed`: its phase, active steps and start time are copied from the loaded record.
- Store failures other than a missing row, a missing run or a duplicate key.
