# JetBridge in Dafny

A model of the hard core of JetBridge, the Concourse fork that runs agents: its recoverable side
effects, its content-addressed store, the step language with its budget analysis, variable
references, plan construction, and the small protocols, statistics and codecs around them. Each
module holds one part of the system, the laws that part is meant to keep, and their proofs.

| module | part of the system |
|---|---|
| `Publisher` | publishing a repository change: a leased, retried external effect |
| `Dispatch` | dispatching a ticket: reserve, capture, bind, record, transition, compensate |
| `Hangar`, `HangarKeys` | the content-addressed object store over a bucket with generations |
| `Steps` | parsing and printing of steps under their modifiers, and the step a job builds |
| `Budget`, `Executor` | the static budget analysis of experiments, against every execution of a step tree, and the exact spend of the executor's passes |
| `References`, `InstanceVars` | variable references, and instance vars from query parameters |
| `ImagePlan`, `AcrossPlan`, `VarSources` | image plans of custom types, plan traversal, renumbering for across, var source ordering |
| `Broker`, `CaptureRuns` | the broker's execution engine, and generations of capture runs |
| `Scorecard` | quantiles, means, the paired bootstrap interval and the winner it names |
| `RepoDiff`, `DiffListing` | bounded diffs, patches per file, and git's file listings |
| `Cursor` | the pagination token |
| `Prelude`, `Decimal`, `Reals`, `Sorting`, `Lexicographic` | shared definitions |

Protocols are state machines over their atomic steps: a run is any sequence of steps by any number
of participants, so crashes, lost replies and interleavings are all runs. On top of each, a class
plays one participant call by call. What it does not decide (replies, faults, what others do between
two of its calls) is a script it takes as an argument, so every result holds for every script.

Clocks, randomness, hashing, compression, JSON leaf types, Unicode tables and UTF-8 validity are
parameters, with the laws they must obey stated where they are used. Amounts and statistics are
exact reals where the source has floating point.

## What the proofs found

Where a property one would expect does not hold of the code, the code is modelled as it is, a lemma
or a run gives the failure, and another says exactly when the property holds.

- The database's queued-to-running transition checks the ticket's state but not its reservation key.
  A ticket released and queued again between an attempt's record and its transition is taken over by
  that attempt (`Dispatch.OvertakenTransitionBreaksSafety`); a committed transition links the ticket
  exactly when the key is still the attempt's (`Dispatch.TransitionLinksIffKeyIsCurrent`).
- An object larger than (2^63 - 1 - 32) / 4 bytes is stored and can never be opened
  (`Hangar.HugeObjectIsStoredButNeverOpens`); otherwise what was stored opens until it is deleted or
  its metadata is lost (`Hangar.IntactOpensIffBounded`, `Hangar.CertifiedOpensUntilTouched`).
- A budget slice may exceed the micro-dollars counted for it by the tolerance of the six-decimals
  check, so an accepted cell can overspend its reservation by that much per agent
  (`Executor.RoundedDownSliceOverspends`). It never does exactly when the most its passes can spend, a
  recursion over the step trees, is within the reservation (`Executor.AcceptedCellStaysWithinLimitIff`).
  That is at most the sum of the authored slices, and just the sum without agents under hooks for
  failures, aborts or errors; slices that exclude each other can stay within a reservation that their
  sum exceeds (`Executor.ExclusiveSlicesStayWithin`).
- A reference survives printing and parsing exactly when `References.Kept` holds
  (`References.RoundTripIffKept`); a segment with a dot and a backslash does not
  (`References.BackslashIsLost`).
- A call cancelled while its seal is refused reports a cancellation the transition table has no edge
  for (`Broker.CancelledWhileSealing`); exactly which late reports are legal is in
  `Broker.Engine.FailureIsLawful`, and such a cancellation is never a result
  (`Broker.SealedIsNotCancelled`).
- A reopened capture run older than the two listed goes unnoticed
  (`CaptureRuns.ReopenedRunGoesUnnoticed`). In any history a call starts a run beside a running one
  exactly when a generation is called for and stored, the last but one does not run and one further
  back does (`CaptureRuns.StartsBesideRunningIff`).
- Var sources that can be ordered may still be refused: any chain of three or more given back to
  front is (`VarSources.ChainBackToFrontIsRefused`). Exactly the listings are accepted in which every
  source is placed by the end, a recursion over positions alone (`VarSources.AcceptedIffAllPlaced`);
  on the listing itself only a sufficient condition is proved, that every dependency listed later is
  backed before it comes (`VarSources.BackedForwardsAreAccepted`).
- Files and the headers of a stored diff are paired by position, so after a changed type, one listed
  file printed under two headers, every file is given the text before its own
  (`RepoDiff.TypeChangeShiftsPatches`). A file is given its own text exactly when it and all files
  before it were printed under one header (`RepoDiff.FileGetsItsOwnIff`).
- A cursor shown in another time zone may be encoded and then refused
  (`Cursor.ZonedCursorIsRefused`); it is accepted exactly when its year in UTC is valid
  (`Cursor.RoundTripIff`).

## Model

| member | source | states |
|---|---|---|
| `Publisher.StepKeepsInv` | agent/publisher/git.go:175-278 | every atomic step of every attempt, by its lease, keeps the link between the record, the attempt's knowledge and the committed effects |
| `Publisher.EveryRunIsSafe` | agent/publisher/git.go:175-278 | in every run of crashes, lost replies, reclaims and base moves with non-overlapping holders: at most one effect, success backed by the change's own result, rebase only when nothing was committed |
| `Publisher.TerminalIsFinal` | atc/db/agent_publications_factory.go:406-495 | after any later events a terminal record and the effects under its key are unchanged |
| `Publisher.OverlappingHoldersBreakSafety` | agent/publisher/git.go:139-147 | without exclusive leases one run commits two effects and another records a rebase over a committed effect |
| `Publisher.GitService.constructor` | agent/publisher/git.go:158-173 | a service with no publication and no effect yet |
| `Publisher.GitService.AcquireForExecution` | agent/publisher/acquire.go:15-50 | returns a lease of its own that is current, or a settled terminal record, or neither; undisturbed it takes the lease the store gives |
| `Publisher.GitService.Reconcile` | agent/publisher/git.go:225-273 | a result to record is held under the current lease and is true of the provider: success with the change's own result as the one effect, or rebase with none; without one a read failed, the lease was lost, the provider refused for another reason, or an effect exists that was not answered as the change's own |
| `Publisher.GitService.Deliver` | agent/publisher/git.go:249-273 | exactly the answered head is added to the effects; there is a result to record iff the provider answered with the change's own result or with destination changed |
| `Publisher.GitService.Finish` | atc/db/agent_publications_factory.go:406-495 | a result is recorded only under the current lease, and then with that attempt's status |
| `Publisher.GitService.Execute` | agent/publisher/git.go:175-278 | under any interference a returned publication is terminal in the store and true of the provider; uncleared it commits nothing; without faults it is the verdict the situation calls for |
| `Dispatch.StepKeepsInv` | agent/dispatch/dispatch.go:166-327 | every store call of every attempt, committed or lost, and every act of a person keeps the invariant of ticket, binder table and attempts |
| `Dispatch.EveryRunIsSafe` | agent/dispatch/dispatch.go:166-380 | over every run of any number of attempts no run is cancelled while the ticket is queued or running under its key, and every error-free attempt stays honoured |
| `Dispatch.SuccessLeavesTicketLinked` | agent/dispatch/dispatch.go:308-327 | the last call of an attempt that returns no error leaves the ticket running and linked to the run returned, which is not cancelled |
| `Dispatch.TransitionLinksIffKeyIsCurrent` | atc/db/agent_tickets_factory.go:467-528 | a committed transition, its reply lost or not, links the ticket to the attempt's run iff the key the ticket holds is still the attempt's |
| `Dispatch.OvertakenTransitionBreaksSafety` | atc/db/agent_tickets_factory.go:467-528 | a run in which a ticket queued again is taken by an older attempt and its own run is cancelled |
| `Dispatch.Dispatcher.DispatchOne` | agent/dispatch/dispatch.go:114-164 | under any faults and interference, as long as no transition so far was overtaken: no live run is cancelled and a reply without error names the run the ticket is running and linked to; alone and without a re-queue none is overtaken; without faults a waiting ticket is dispatched to the new run |
| `Dispatch.Dispatcher.Launch` | agent/dispatch/dispatch.go:238-327 | from the selection on: the reply names the key's own run, linked and running as long as no transition was overtaken |
| `Dispatch.Dispatcher.Claim` | agent/dispatch/dispatch.go:122-197 | a ticket neither queued nor resumable is refused untouched; success holds the ticket's key with the work item and repository recorded under it |
| `Dispatch.Dispatcher.Take` | agent/dispatch/dispatch.go:185-197 | the key returned is the one the ticket holds, or one minted from its attempt count and revision |
| `Dispatch.Dispatcher.Freeze` | agent/dispatch/dispatch.go:199-220 | a recorded work item is used as it is; otherwise success means the captured one is recorded under the attempt's own key, which the ticket still holds |
| `Dispatch.Dispatcher.Admit` | agent/dispatch/dispatch.go:238-287 | the run bound under the reservation key is returned, the one already there or else the new one; every binding made before stays |
| `Dispatch.Dispatcher.Record` | agent/dispatch/dispatch.go:288-307 | success means the ticket holds the key and is linked to the run, also when the reply was lost |
| `Dispatch.Dispatcher.Move` | agent/dispatch/dispatch.go:308-327 | success means the ticket runs under the key and is linked, also when the reply was lost, as long as no transition was overtaken; undisturbed the transition is overtaken iff the ticket's key is another |
| `Dispatch.Dispatcher.Compensate` | agent/dispatch/dispatch.go:362-380 | an orphaned run is added to the cancelled ones, and ticket, bindings and other attempts stay as they were |
| `HangarKeys.ParseKeyOfKey` | agent/hangar/keys.go:32-82 | every canonical key parses back to its kind and digest |
| `HangarKeys.ParseKeyAcceptsExactlyKeys` | agent/hangar/keys.go:48-82 | a string is accepted iff it is the canonical key of an object, and names only that object |
| `Hangar.VersionsAreImmutable` | agent/hangar/gcs.go:168-312 | whatever writers do, what was stored under a generation and metageneration stays what it was |
| `Hangar.StoredBytesAlwaysMatchTheirKey` | agent/hangar/gcs.go:168-312 | over every interleaving of ensure, repair, delete and metadata loss the bytes under a key and generation never change and decompress to a content of the key's digest |
| `Hangar.IntactOpensIffBounded` | agent/hangar/gcs.go:1011-1022 | an intact object opens with its content iff it fits the limit and its frame bound fits 64 bits |
| `Hangar.IntactUntilTouched` | agent/hangar/gcs.go:627-643 | an object stays intact under any operations until its own deletion or loss of metadata |
| `Hangar.ValidMetadataIsTheDescription` | agent/hangar/gcs.go:983-1009 | metadata that passes the strict check is exactly the description of its digest and size |
| `Hangar.CertifiedIsIntact` | agent/hangar/gcs.go:730-794 | in a bucket only the store's operations wrote, an object that opens is intact |
| `Hangar.CertifiedOpensUntilTouched` | agent/hangar/gcs.go:168-312 | what opens now opens with a content of its digest after any further ensures, repairs, deletes and losses that do not touch its key |
| `Hangar.RepairRestores` | agent/hangar/gcs.go:379-509 | after any metadata loss a read is never wrong, and repair makes the object intact again |
| `Hangar.HugeObjectIsStoredButNeverOpens` | agent/hangar/gcs.go:168-312 | an object above the frame bound is stored intact and fails to open under every limit |
| `Hangar.RepairedOpens` | agent/hangar/gcs.go:983-1009 | the metadata a repair plans passes every check of a strict read, with the proved content |
| `Hangar.Unmoved` | agent/hangar/gcs.go:730-794 | same generation and metageneration before and after means the object verified in between is the present one |
| `Hangar.GCSStore.OpenVerified` | agent/hangar/gcs.go:796-981 | success means the attributes accepted and the bytes read belong to one version that was live during the call |
| `Hangar.GCSStore.Open` | agent/hangar/gcs.go:340-356 | success returns content within the limit whose digest is the reference's and which the stored bytes decompress to |
| `Hangar.GCSStore.Inspect` | agent/hangar/gcs.go:730-794 | success certifies an object that opens right now with the declared size, under any interference |
| `Hangar.GCSStore.Ensure` | agent/hangar/gcs.go:168-312 | success, fresh or by conflict, yields a reference that opens with a content of exactly that digest iff its frame bound fits, and then, as long as only the store's operations write, until its own deletion or loss of metadata |
| `Hangar.GCSStore.Upload` | agent/hangar/gcs.go:262-312 | the conditional create stores the content intact under the next generation |
| `Hangar.GCSStore.RepairDerivableMetadata` | agent/hangar/gcs.go:379-509 | when it writes, the object is the very generation and metageneration that was proved, bytes and generation are unchanged, and opening under the same limit returns the proved content |
| `Hangar.GCSStore.ProveStored` | agent/hangar/gcs.go:548-625 | success returns the content of the pinned bytes, with the key's digest and within the limit |
| `Hangar.GCSStore.CommitIfUnmoved` | agent/hangar/gcs.go:438-509 | the metadata update commits only on the generation and metageneration that were proved |
| `Hangar.GCSStore.Delete` | agent/hangar/gcs.go:627-643 | for every interference exactly the generation referred to is removed; a missing object is fine and a newer one is a conflict and left alone |
| `Steps.DetectorIsPrivate` | atc/steps.go:242-327 | a declaring key is a field of another type only for a core type looked for earlier |
| `Steps.WrapperIsPrivate` | atc/steps.go:242-327 | a modifier shares no field with any type looked for later |
| `Steps.StableRoundTrip` | atc/steps.go:53-150 | every stable step is parsed back from its printed form with its nesting and unknown fields |
| `Steps.ParsedIsStable` | atc/steps.go:53-114 | whatever parsing produces nests its modifiers in precedence order around a core step and keeps only unowned fields as unknown |
| `Steps.RoundTripIffStable` | atc/steps.go:53-150 | printing then parsing gives a step back iff it is stable, iff some JSON parses to it |
| `Steps.EveryKeyIsConsumedOrKept` | atc/steps.go:53-114 | every input key is consumed by exactly one layer or kept, with its value, as unknown |
| `Steps.DeleteKnownFields` | atc/steps.go:153-171 | exactly the listed keys are removed |
| `Steps.UnmarshalJSON` | atc/steps.go:53-114 | the passes over the precedence list, recursing into nested steps, compute the recursive meaning of the step, errors included |
| `Steps.MarshalJSON` | atc/steps.go:119-150 | unwrapping layer by layer yields the union of unknown fields and all layers |
| `Steps.StepConfig` | atc/job_config.go:38-79 | the hooks given wrap the plan, each once, in this order |
| `Steps.JobRoundTrip` | atc/job_config.go:34-79 | the step a job builds from stable parts survives printing and parsing as it is |
| `Budget.TalliedConcat` | atc/step_recursor.go:133-232 | tallying the parts of a tree in order is tallying the tree, refusals included |
| `Budget.VisitAgents` | agent/experiment/execution_budget.go:151-182 | the visitor accepts iff nothing repeats dynamically, every slice is valid and the sum fits 64 bits, and then returns the sum |
| `Budget.VisitEach` | atc/step_recursor.go:138-157 | the same for a list of steps or jobs, stopping at the first refusal |
| `Budget.ValidateEffectFree` | agent/experiment/execution_budget.go:101-125 | accepts iff no configuration reaches a publication |
| `Budget.HaveAgents` | agent/experiment/execution_budget.go:127-149 | true iff some configuration reaches an agent |
| `Budget.ValidateExecutionBudgets` | agent/experiment/execution_budget.go:34-94 | accepts iff effect-free, the amounts are valid and every candidate with the evaluator fits the cell reservation without overflow, or no budget is set and none is needed |
| `Budget.CellsStayWithinPerCell` | agent/experiment/execution_budget.go:60-61 | the reservation is at most the amount set for a cell, by less than a micro-dollar |
| `Budget.CellsStayWithinTotal` | agent/experiment/execution_budget.go:62-71 | a limit derived from the total keeps all expected cells within that total |
| `Budget.StepConserves` | agent/experiment/execution_budget.go:151-182 | one step of any execution spends at most what it takes off the slices still ahead |
| `Budget.StepStaysFree` | agent/experiment/execution_budget.go:101-149 | a kind of visit that is not ahead never comes up, retries and across included |
| `Budget.AcceptedCellsPublishNothing` | agent/experiment/execution_budget.go:96-125 | no execution of an accepted cell publishes |
| `Budget.CappedCellsSpendNothing` | agent/experiment/execution_budget.go:47-57 | without a dollar budget under the global cap no execution of an accepted cell spends |
| `Budget.AcceptedCellsStayWithinLimit` | agent/experiment/execution_budget.go:34-94 | every execution of an accepted cell, under any hooks, outcomes and schedule, spends at most the limit plus the tolerance per agent, and at most the limit when no slice is rounded down |
| `Budget.SomeSliceIsRoundedDown` | agent/experiment/execution_budget.go:158-161 | such a slice exists |
| `Executor.PassesAlike` | atc/exec/in_parallel.go:67-127 | any relation that alternatives and sums keep holds between two readings of the executor's rules for every step tree, hooks, timeouts, limits and failing fast included |
| `Executor.MostIsAttained` | atc/exec/ensure_step.go:31-60 | for every step, course of its context and end, no pass spends more than the most, and one spends just that |
| `Executor.EndMayComeAnytime` | atc/exec/timeout_step.go:32-46 | whatever a step spends when its context ends after it, or had ended before it, it can spend when its context ends within it |
| `Executor.PassIsExecution` | atc/exec/on_error.go:32-52 | whatever a pass of the executor spends, some execution of the budget's semantics spends too, with the same end |
| `Executor.CellIsExecution` | agent/experiment/evaluator.go:222-243 | the same for a cell, whose evaluator runs only once the candidate has succeeded |
| `Executor.CellSpendsAtMostAuthored` | agent/experiment/execution_budget.go:151-182 | no pass over a cell spends more than its agents were authored to |
| `Executor.SuccessSpends` | atc/exec/on_success.go:30-44 | every tree without repeats has a pass that succeeds and spends at least all slices on the way of success |
| `Executor.UnconditionalSpendsAll` | atc/exec/on_abort.go:29-41 | without agents under hooks for failures, aborts or errors these are all its slices |
| `Executor.AcceptedCellStaysWithinLimitIff` | agent/experiment/execution_budget.go:34-94 | no pass over an accepted cell overspends the reservation iff the most it can spend is within it; the most is at most the authored sum, and equal to it without agents under those hooks |
| `Executor.RoundedDownSliceOverspends` | agent/experiment/execution_budget.go:154-168 | for every slice a cell can reserve that is rounded down, some accepted cell has a pass that overspends |
| `Executor.ExclusiveSlicesStayWithin` | atc/exec/on_failure.go:30-46 | an agent for the failure of a step and one for its success never spend both slices, so the cell stays within a reservation that their sum exceeds |
| `References.FindUnquoted` | vars/variables.go:59-72 | the first occurrence outside quotes, as the recursive scan defines it |
| `References.FoundIsFirst` | vars/variables.go:59-72 | what is found is the character looked for, and the first where there are no quotes |
| `References.ParseReference` | vars/variables.go:26-57 | the consuming loop computes the recursive meaning of the text, errors included |
| `References.ReferenceString` | vars/variables.go:89-102 | the builder loop produces the joined printed segments |
| `References.ReadPrinted` | vars/variables.go:74-87 | the first printed segment is split off whole, whatever separators it holds |
| `References.ParsedIsPlain` | vars/variables.go:26-87 | a parsed source has no colon or quote, and parsed segments are non-empty without quotes |
| `References.RoundTripIffKept` | vars/variables.go:26-109 | a reference is read back from its printed form iff its source has no colon or quote and each segment is non-empty, quote-free and either quoted verbatim or already trimmed |
| `References.PrintableReferenceRoundTrips` | vars/variables.go:89-109 | in particular for printable segments without quotes, backslashes or white space other than plain spaces, with any separators inside |
| `References.BackslashIsLost` | vars/variables.go:89-109 | the one-segment reference a.b\c does not come back |
| `InstanceVars.UpsertHolds` | vars/static_vars.go:115-138 | an upserted value is found where it was put, whatever was there |
| `InstanceVars.UpsertFrames` | vars/static_vars.go:115-138 | an upsert changes nothing at any place of which neither path is a prefix of the other |
| `InstanceVars.Traverse` | vars/static_vars.go:33-63 | the loop finds exactly the value at a chain of fields |
| `InstanceVars.Get` | vars/static_vars.go:7-21 | the value at a source-free reference, none otherwise |
| `InstanceVars.Expand` | vars/static_vars.go:107-113 | upserts the pairs in order |
| `InstanceVars.ExtensionSortsLater` | atc/pipeline.go:130-135 | a reference prints strictly before every reference that extends it |
| `InstanceVars.ExpansionKeeps` | atc/pipeline.go:110-138 | of distinct source-free references in any order, each one no other extends keeps its value |
| `InstanceVars.InstanceVarsFromQueryParams` | atc/pipeline.go:110-138 | fails iff a name or a value is malformed; otherwise the vars are the expansion of the sorted pairs and hold the value of every such reference |
| `VarSources.SourceOfSplits` | atc/config.go:141-147 | a variable's source is the text before its first colon |
| `VarSources.OrderByDependency` | atc/config.go:127-203 | the nested loops compute arrivals with one sweep of the pending sources each |
| `VarSources.OrderIsSound` | atc/config.go:127-203 | a result is a permutation of the input in which every dependency names an earlier element |
| `VarSources.OrderedIsUnchanged` | atc/config.go:149-171 | an input in dependency order is returned as it is |
| `VarSources.CirclesAreRefused` | atc/config.go:194-200 | sources that only wait for each other, in a circle of any length, are refused |
| `VarSources.MissingIsRefused` | atc/config.go:194-200 | a dependency on anything unlisted is refused |
| `VarSources.ChainBackToFrontIsRefused` | atc/config.go:173-191 | every chain of three or more sources given back to front is refused, although turned round it is an order of the same sources |
| `VarSources.AcceptedIffAllPlaced` | atc/config.go:149-203 | an order is found iff every source is placed by the end, where placed is defined on positions and arrivals without any list |
| `VarSources.BackedForwardsAreAccepted` | atc/config.go:149-203 | an order is found whenever every dependency is listed and each one listed no earlier than its user has all its own, transitively, listed before it |
| `ImagePlan.LookupType` | atc/config.go:325-333 | the first type of that name |
| `ImagePlan.WithoutType` | atc/config.go:335-344 | the types of other names, in order |
| `ImagePlan.WithoutRemoves` | atc/config.go:335-344 | exactly the types of other names are kept, so removing a listed type shortens the list |
| `ImagePlan.ImagesAreAsDeclared` | atc/config.go:350-427 | the whole tree is fetched as the list first given declares: at every depth the first entry of the name with its source, params, own or nearest inherited tags, interval and privilege, and a name met again on the way down is a base type |
| `ImagePlan.BaseTypesAgree` | atc/config.go:383-398 | every image in the tree, on both branches, ends at the base type of the chain |
| `ImagePlan.GetsArePaired` | atc/config.go:401-465 | at every level the get takes its version from its sibling check of the same image |
| `ImagePlan.NestedIdsAreDistinct` | atc/config.go:401-465 | all nested plan ids differ and lie under the id they serve, for every type list, cyclic ones included |
| `ImagePlan.PlanCount` | atc/config.go:350-465 | a chain of d fetched types yields 2^(d+1) - 2 plans |
| `ImagePlan.Each` | atc/plan.go:51-119 | the callback, with what it remembers, meets every plan exactly once and in order; every change it makes to an id or to where a get's version comes from is kept and nothing else changes |
| `ImagePlan.EachPlan` | atc/plan.go:144-151 | the same for a type image, its check before its get |
| `AcrossPlan.Renumber` | atc/engine/build_step_delegate.go:535-554 | the two traversals give every plan its own number; with distinct ids they rename ids and references to them alike throughout, so gets stay paired with their sibling checks |
| `AcrossPlan.AssignedInOrder` | atc/engine/build_step_delegate.go:535-542 | with distinct ids the k-th plan gets the k-th number, and a version from outside the plan is left alone |
| `AcrossPlan.Determined` | atc/plan.go:51-119 | a plan is determined by what a callback may change, in traversal order, and the rest |
| `AcrossPlan.RelabelKeepsPairs` | atc/engine/build_step_delegate.go:544-554 | renaming ids and references alike keeps, at every depth, each get taking its version from its sibling check |
| `AcrossPlan.PlannedIsRenumberable` | atc/config.go:401-465 | for every list of types the plan of a step with its fetched images has distinct ids and is paired at every depth |
| `Broker.AtMostSixChanges` | agent/broker/execution.go:27-64 | every accepted path changes state at most six times |
| `Broker.SucceededIsEarned` | agent/broker/execution.go:27-64 | an accepted path reaches succeeded only through running, validating and sealing, in that order |
| `Broker.TerminalIsFinal` | agent/broker/execution.go:49-73 | nothing follows a terminal state on an accepted path |
| `Broker.Engine.constructor` | agent/broker/engine.go:174-177 | an execution with nothing reported |
| `Broker.Engine.Fail` | agent/broker/engine.go:432-439 | the caller is told of a failure iff the authority's table allowed it and acknowledged it |
| `Broker.Engine.FailureIsLawful` | agent/broker/execution.go:44-46 | any failure may be reported before sealing is requested; afterwards it is legal unless the execution succeeded or sealing was recorded and it is a cancellation |
| `Broker.Engine.Phase` | agent/broker/engine.go:319-324 | the next phase is recorded and acknowledged, or the execution ends with an explained result |
| `Broker.Engine.CaptureWorkspace` | agent/broker/engine.go:257-290 | the capture is replayed once when its reply is lost, and continues iff one of the two succeeded |
| `Broker.Engine.Prepare` | agent/broker/engine.go:291-324 | the runner is reached iff attachments, credential and the running phase are in place, else the first of them that is not decides the result |
| `Broker.Engine.RunChild` | agent/broker/engine.go:325-348 | the runner starts once, and its faults end the execution with the failure they mean |
| `Broker.Engine.SealOutput` | agent/broker/engine.go:349-378 | the result is sealed only after decoding, the sealing phase and marshalling; a seal not acknowledged is followed by exactly the failure its context means |
| `Broker.Engine.Execute` | agent/broker/engine.go:223-378 | for every outcome of every dependency: the reports follow the legal route, every report before sealing is legal, the runner starts at most once and never on a replay, a failure is told only when recorded, and the result is the one the first fault calls for |
| `Broker.ResultIsExplained` | agent/broker/engine.go:414-449 | the output is sealed iff nothing failed, and every failure told names a dependency or context that failed |
| `Broker.SealedIsNotCancelled` | agent/broker/execution.go:44-46 | with sealing recorded no result is a cancellation |
| `Broker.CancelledWhileSealing` | agent/broker/engine.go:367-378 | a run in which the engine reports a cancellation from sealing, which the table refuses |
| `CaptureRuns.ExecutionStore.StartOrGet` | agent/resourcecapture/execution_store.go:31-102 | the locked loop over two listed runs, its guards and its creation behave as the decision function says |
| `CaptureRuns.EachTokenCreatesOnce` | agent/resourcecapture/execution_store.go:70-93 | in every history, reopened runs included, a retry token creates at most one generation and identifiers grow |
| `CaptureRuns.CallsAreNeverGuarded` | agent/resourcecapture/execution_store.go:50-69 | over every sequence of calls and completions only the newest generation may run and the guards never fire |
| `CaptureRuns.TwoRunsSuffice` | agent/resourcecapture/execution_store.go:46-83 | a call answers as the whole history calls for although it lists two runs |
| `CaptureRuns.GuardsFireIff` | agent/resourcecapture/execution_store.go:64-69 | with reopenings the guards fire iff the last but one generation runs again |
| `CaptureRuns.ReopenedRunGoesUnnoticed` | agent/resourcecapture/execution_store.go:46 | a history of three generations ending with the first reopened, after which a retry starts a fourth beside it |
| `CaptureRuns.StartsBesideRunningIff` | agent/resourcecapture/execution_store.go:46-93 | in every history a healthy call starts a run beside a running one iff a generation is called for and stored, the last but one does not run and one further back does |
| `Scorecard.Mean` | agent/experiment/scorecard.go:522-531 | the average of the values, zero of none |
| `Scorecard.AverageWithin` | agent/experiment/scorecard.go:522-531 | a mean lies in every range that holds all the values |
| `Scorecard.PercentileIsMonotone` | agent/experiment/scorecard.go:508-520 | quantiles of sorted values grow with the quantile |
| `Scorecard.PercentileWithin` | agent/experiment/scorecard.go:508-520 | every quantile lies between the smallest and the largest value |
| `Scorecard.Distribute` | agent/experiment/scorecard.go:488-506 | min <= p05 <= p25 <= median <= p75 <= p95 <= max with the mean between them and the deviation at most the range, of a sorted permutation of any values |
| `Scorecard.IntervalWithin` | agent/experiment/scorecard.go:533-554 | for every random stream the interval is ordered and inside any range of the deltas |
| `Scorecard.PairedBootstrapInterval` | agent/experiment/scorecard.go:533-554 | the 2.5% and 97.5% quantiles of 2000 resampled means |
| `Scorecard.CollectKeys` | agent/experiment/scorecard.go:329-345 | the cells both sides measured, each once, in order |
| `Scorecard.TallyDeltas` | agent/experiment/scorecard.go:352-374 | the delta of each pair by direction, and the counts of wins, ties and losses |
| `Scorecard.DeltaIsImprovement` | agent/experiment/scorecard.go:355-364 | a delta is positive iff the variant is better and negative iff the control is, for every direction |
| `Scorecard.ComparePaired` | agent/experiment/scorecard.go:321-410 | wins, ties and losses add up to the pairs, and the winner is the one the interval and the conditions call for |
| `Scorecard.FavouredSideWins` | agent/experiment/scorecard.go:376-409 | when every pair favours one side the other is never named, and with five pairs and nothing amiss the favoured side is |
| `Scorecard.WinnerWonAPair` | agent/experiment/scorecard.go:399-408 | a named winner is the better side in at least one pair |
| `RepoDiff.PrefixWriter.Write` | agent/repodiff/diff.go:317-334 | keeps the first limit bytes of everything written and counts it all |
| `RepoDiff.Collect` | agent/repodiff/diff.go:357-366 | for every way the output is split the same prefix and the same truncation flag |
| `RepoDiff.StoreDiff` | agent/repodiff/diff.go:118-139 | the stored diff has at most 65536 bytes and is marked truncated iff the output exceeds 65536; then it is the longest valid prefix and the marker, else the output |
| `RepoDiff.FindHeaders` | agent/repodiff/diff.go:273-286 | exactly the file headers, in order |
| `RepoDiff.AttachPatches` | agent/repodiff/diff.go:269-303 | each file gets the text from its header to the next, and is marked when it is cut off or comes after the cut |
| `RepoDiff.PatchesAreWholeIff` | agent/repodiff/diff.go:269-303 | the patches concatenated are the stored diff iff it opens with a header and has at most as many headers as files |
| `RepoDiff.SectionHeaders` | agent/repodiff/diff.go:273-286 | the headers of printed sections, joined, are exactly where the sections start |
| `RepoDiff.FileGetsItsOwnIff` | agent/repodiff/diff.go:287-302 | a file is given exactly its own text iff it and every file before it were printed under one header |
| `RepoDiff.TypeChangeShiftsPatches` | agent/repodiff/diff.go:287-302 | a listing of two files with three headers, in which the second is given a half of the first |
| `DiffListing.FieldUntil` | agent/repodiff/diff.go:257-267 | the text up to the first separator and where the next field starts |
| `DiffListing.ParseNameStatus` | agent/repodiff/diff.go:147-174 | the cursor loop computes the recursive meaning of the tokens, malformed listings included |
| `DiffListing.NameStatusRoundTrip` | agent/repodiff/diff.go:147-198 | printing any changes with non-empty NUL-free paths and parsing gives back each status and both paths in order |
| `DiffListing.ReadPath` | agent/repodiff/diff.go:216-237 | one path, or the second of two |
| `DiffListing.ParseNumstat` | agent/repodiff/diff.go:200-255 | the cursor loop computes the recursive meaning of the listing, malformed listings included |
| `DiffListing.NumstatRoundTrip` | agent/repodiff/diff.go:200-267 | printing and parsing counts, binary marks and renames gives back the statistics line by line |
| `DiffListing.LastStatsAreLast` | agent/repodiff/diff.go:252 | each path has the counts of its last line |
| `Cursor.PutBigEndian` | agent/pagination/cursor.go:50-52 | writes a number into its part of the buffer and nothing else |
| `Cursor.Encode` | agent/pagination/cursor.go:43-54 | the filled buffer is the laid-out cursor, and an invalid cursor has no token |
| `Cursor.Base64RoundTrip` | agent/pagination/cursor.go:53 | every byte string is decoded back from its base64url text, section 5 of RFC 4648 |
| `Cursor.RoundTripIff` | agent/pagination/cursor.go:27-81 | a valid cursor comes back in UTC iff its year in UTC is valid, instants before 1970 included |
| `Cursor.UtcRoundTrip` | agent/pagination/cursor.go:43-81 | every valid UTC cursor comes back as it is |
| `Cursor.AcceptsExactlyTokens` | agent/pagination/cursor.go:57-81 | decoding accepts exactly the tokens of valid UTC cursors |
| `Cursor.ZonedCursorIsRefused` | agent/pagination/cursor.go:27-40 | a valid cursor in another zone whose token is refused |

## Left out

- Real input and output: bucket, git, database, HTTP and runner clients; only the contracts the callers rely on are modelled.
- Lease exclusivity: an attempt is assumed to make no provider call after its lease is reclaimed, and a publish sent before the reclaim not to land after it; the code does not force the call timeout below the lease. `Publisher.OverlappingHoldersBreakSafety` shows the assumption is needed.
- Authorization, approvals, occurrences and outcome linking of publications; failed and stale-base publications of other services.
- Dispatch.Dispatcher.DispatchOne: what it promises of linked and cancelled runs is promised while no transition of any attempt was overtaken by a release and re-queue, because the database transition does not check the key.
- Dispatch.EveryRunIsSafe: the same condition on the whole run, for every attempt in it.
- Dispatch: port resolution, workflow resolution and the binder's inside; the binder is idempotent on the key, and links are written once.
- Hangar: listing, scratch files, cancellation and quota; sha256 and zstd are functions with decompress after compress the identity and frames of at most 4n + 32 bytes.
- Steps: typed leaf fields are represented by their canonical encoding, and the leaf codec is assumed to give back what it printed; nil and empty lists are one, case-insensitive key matching, raw spelling of unknown values and unknown keys inside the object form of in_parallel are not modelled.
- Budget: amounts are reals, so float rounding is not modelled; a slice whose micro-dollars leave 64 bits is refused; the total of an experiment with a per-cell amount is enforced by reservations elsewhere.
- Budget: its executions may cut any step short with any outcome, which the executor does not allow; `Executor` has the outcomes the executor allows, and its passes are among these executions.
- Budget: a step that the build runs again after a retriable platform error is taken to stay within its slice over all its runs.
- Executor: one pass per build; a build taken up again after a retriable error or a restart is not modelled. Within a pass such an error is like any other: atc/exec/on_error.go:41 says its hook is skipped, but the comparison with an empty error never holds.
- Executor: a leaf that exceeds a deadline of its own reports an error, a leaf begun in an ended context spends nothing, and panics and malformed durations are left out; the jobs of a run are builds of their own, of which a workflow has one.
- Budget: retry and across run their step any number of times in the semantics, as no bound matters to the results.
- References: text is a sequence of Unicode scalar values, so invalid UTF-8 is not modelled; positions count characters, not bytes.
- InstanceVars: maps are values, and the sort is an insertion sort on a sequence; sharing between maps and the instability of the source's sort are not captured, the latter because no result depends on it.
- InstanceVars: flattening of variables and template interpolation.
- ImagePlan.Each: plans are values, and a freshly built get points at its check's own id (atc/config.go:458), so a callback that changes an id there changes both; across plans are decoded first and share nothing. The encodings of plans are left out.
- ImagePlan.EachPlan: the same limits as Each.
- VarSources: the template scan that lists variable names is a parameter.
- VarSources.BackedForwardsAreAccepted: one direction only; the exact condition is that of AcceptedIffAllPlaced.
- Broker: prompts, event normalisation, attachment contents and output decoding are outcomes of the script.
- CaptureRuns: the lock is taken as given, and one template belongs to one operation.
- Scorecard: the square root is a parameter, exact on nonnegative numbers; scorecard assembly and cell validation are left out.
- RepoDiff: 64-bit overflow of the byte count, the running of git and the sums of line counts over files.
- Cursor: years are ranges of seconds, and time zones are fixed offsets.
- Everything else in the repository (routes, web, fly, scheduling, the runtime): it would only add easy members.
