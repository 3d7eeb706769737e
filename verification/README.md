# argo-sync: a verified model

argo-sync runs one action (sync, refresh or hard refresh) over many applications in many Argo CD
instances at once. A wizard lets its user choose applications, clusters, resources and options; a bulk
runner then works through all chosen (cluster, application) targets with a bounded number of workers,
waits for the syncs to settle, and reports events and results. This project models that behaviour in
Dafny and proves what it promises, over every interleaving, every answer of the Argo CD API and every
sequence of messages. `dafny verify dfyconfig.toml` checks all of it.

## The parts

**The worker** (`Worker`, `Execution`, `TargetRun`, `Outcomes`). What one worker does for one target is a process: at
each program point it issues one request (check the context, emit an event, call the API, wait for a
tick, send the result, return) and goes on according to the response. `Execution.Alone` is a structured
account of the same behaviour when nobody cancels; `Execution.ExecuteIsAlone` proves the two equal, and
`TargetRun.RunTarget` is the closure as it is written, with its one error variable and its options updated
in place, proved against the same account.

**The waiting loop** (`WaitLoop`) is a real loop over an arbitrary environment: every answer, the time every
call takes, how late every select is served, and which ready branch it takes are free. It is proved equal
to a "first deciding round" specification, with the arithmetic bound on its calls and a proof that the bound
is attained.

**The pool** (`Pool`, `Conservation`, `Liveness`, `Completion`, `Trace`, `Cancellation`, `Refinement`, `Events`) is
a labelled transition system: worker program counters, the semaphore, the submit index, the result channel,
the 256-slot event channel, its consumer, and the caller's and the group's context. A run is a sequence of
labels, and every theorem is about all runs.

**Inventory and selections** (`Listing`, `Discovery`, `Targets`, `Resources`, `Ordering`) are the goroutines that
list the clusters, and the loops over maps whose results must not depend on map iteration order or on which
cluster answers first.

**The wizard** (`Wizard`, `WizardModel`, `WizardSafety`, `WizardSelection`, `WizardGate`, `WizardKeys`, `WizardSteps`,
`Summary`, `Viewport`, `WaitMessage`). `WizardModel.Model` is the object that the messages change; each of
its methods, which follow those of the source one by one, is proved to do what the transition function
`Wizard.Step` says of its part, `Update` covers them all, and the theorems are about all sequences of
messages. Its fields are grouped into records (what is shown, what was loaded, what is selected, what is
planned, what is known of the run). An index out of range is modelled as the command `Crash`.

**End to end** (`EndToEnd`) puts the wizard and the pool together. **Exceptions** (`Exceptions`,
`WizardExceptions`) are the places where the code departs from what its comments or messages suggest.

## Main results

- Scheduling does not matter: without a cancellation and with each target's answers fixed, every
  interleaving with every degree of parallelism returns a nil error and exactly the sorted list of the
  targets' sequential outcomes (`Refinement.RunIsSortedMap`).
- Nothing deadlocks and nothing goes on for ever: every run, cancelled or not, can be completed by steps of the
  runner, its workers and the consumer alone (`Completion.CompletesAnyway`), and none is longer than a number
  computed from the configuration (`Liveness.EveryRunFinishes`).
- Nothing is lost: with any answers and any cancellation, each target has exactly one result, no send finds
  the result channel full, and at most `parallel` workers are active (`Conservation`).
- No target cancels another, and the run's error is non-nil exactly if a worker was turned away at its
  entry (`Cancellation`).
- The calls of a finished worker form a sentence of a grammar, and its result is a function of them
  (`Trace.FinishedTrace`).
- A waiting loop makes at most floor(timeout / interval) + 2 calls, and some loop makes them all.
- From the wizard to the last screen: the results are of the chosen action, one for each target, by cluster and
  application in the order of the targets on the screen; a refresh never syncs (`EndToEnd.LastScreen`,
  `EndToEnd.LaunchedCalls`).
- The inventory is independent of the order of arrival exactly if answers under the same context agree.
- Over all messages, the wizard indexes its lists in bounds exactly as long as no refresh moves the cursor of
  another list out of it; a run with risky flags starts only with "y" in a confirmation that showed
  those very options; and as long as no new inventory arrives after the clusters were chosen, every sync
  request carries a non-empty part of what the user marked, except for applications with nothing to
  select, which are synced as a whole.

## Where the code and its comments disagree

The model follows the code; each case has its exact condition and a run in which it happens.

- A sync that is answered "already in progress" keeps that error through a successful wait
  (bulk.go:114-129): a target whose wait succeeded succeeds exactly if its sync call did
  (`Exceptions.WaitedSucceedsExactly`, and in every interleaving `Exceptions.RunSucceedsExactly`);
  `Exceptions.JoinedSyncRun`.
- A cancellation or deadline that is noticed between two polls ends in "failed" (bulk.go:244-246), although
  bulk.go:135 announces "cancelled": `Exceptions.NoticedBetweenPollsFails`, `Exceptions.WhenCancelled`,
  `Exceptions.TimedOutRun`.
- The skip path (bulk.go:108-112) succeeds without a terminal event, so the last screen counts the target as
  pending; it does so exactly for the targets with a selection of which their cluster has nothing
  (`Events.Skipped`): `Events.UncancelledEvents`, `EndToEnd.LastScreen`, `Exceptions.SkippedRun`.
- Applications that the resource step passes over stay selected and are synced as a whole:
  `EndToEnd.PassedOverIsSyncedWhole`, `EndToEnd.NothingWidened`, `WizardExceptions.PassedOverRun`.
- A refresh writes a row of the application list into the one cursor that all lists share:
  `WizardSafety.SpaceAfterRefresh`, `WizardExceptions.RefreshCrashes`.
- A refresh after the clusters were chosen can widen the run or leave it without targets:
  `WizardExceptions.RefreshWidens`, `WizardExceptions.RefreshLeavesTargets`, `WizardExceptions.RefreshWidensRun`,
  `WizardExceptions.RefreshEmptiesRun`.

## Assumptions

- The API is arbitrary: any answer, any error, any duration. An error is known by what the code can tell
  about it: whether it wraps a context error, and its text. For the bound on polls, GetApplication fails
  when it is called after the deadline of its context (`WaitLoop.HonoursDeadline`).
- The poll interval is not negative (time.NewTicker panics otherwise). The ticker starts together with the
  deadline, and its channel holds one tick.
- Refinement to the sequential list is about runs that nobody cancels, in which the answers and the clock of
  each target are fixed. Everything in `Conservation`, `Liveness`, `Trace`, `Cancellation` and
  `Events.EventProtocol` is about all runs. In the pool, a worker's GetApplication calls are bounded by the
  number `limit`, which is what `WaitLoop.WaitForHealthy` proves of them.
- Inventories come from clusters of the same load (`WizardSelection.LoadsAreCovered` proves it of discovery).
  Confluence is proved without assuming distinct context names; distinct names are one sufficient condition.
- Sorting is modelled by its contract. Map iteration picks any remaining key.
- `strings.ToLower` is modelled on ASCII letters.
- The goroutine at tui.go:870-872 reads the inventory and the clusters late; the model takes them when the run
  starts.
- A refused run ("no runnable targets", bulk.go:32-34) never reaches the pool; `EndToEnd.LaunchedJobs` says when
  it cannot happen.

## Model

| member | source | states |
|---|---|---|
| `TargetRun.RunTarget` | internal/services/bulk.go:54-149 | the closure's events, result and returned error: those of a target turned away if its context is done at the entry, otherwise those of the structured account, for every environment |
| `TargetRun.TurnedAwayByProcess` | internal/services/bulk.go:55-61 | a worker that finds its context done goes on as a target turned away |
| `TargetRun.RunSync` | internal/services/bulk.go:82-129 | the sync branch leaves the error variable, the events and the early return as the account says |
| `TargetRun.PreRefresh` | internal/services/bulk.go:85-95 | a hard pre-refresh overrides a normal one; only its failure is an error, wrapped |
| `TargetRun.Announce` | internal/services/bulk.go:96-113 | the announcements, the options of the sync request, and exactly when the target is skipped |
| `TargetRun.SubmitSync` | internal/services/bulk.go:114-129 | an error of the sync call that does not mention an operation in progress, or comes without waiting, ends the sync with no event; one that does is announced and waited for, and keeps the target from succeeding; only the wait's own error replaces it |
| `Worker.InProgressMeaning` | internal/services/bulk.go:169-178 | an error is recognised exactly if it is one of the API whose text contains "operation is already in progress", in capitals or not, with anything around it |
| `Worker.RpcErrorReports` | internal/services/bulk.go:169-178 | the answer of Argo CD that the source quotes is one |
| `Worker.NothingToSyncMeaning` | internal/services/bulk.go:98-112 | the skip test holds exactly if there is a selection and the application lists none of it |
| `Worker.ContextErrors` | internal/services/bulk.go:134-140 | what counts as a cancellation: the context's own error and the errors of the API that wrap it, also behind a failed pre-refresh |
| `TargetRun.FilterResourceForTarget` | internal/services/bulk.go:269-286 | a resource is kept exactly if it is selected and listed, in the order of the selection |
| `Worker.FilterDistributes` | internal/services/bulk.go:269-286 | filtering a selection in two parts is filtering each, so order and repetitions are kept |
| `Worker.FilterOne` | internal/services/bulk.go:269-286 | a single resource is kept exactly if the application lists it |
| `Worker.StepLowersRank` | internal/services/bulk.go:54-149 | every step of a worker lowers its rank, whatever the answer, while its GetApplication calls are bounded |
| `Execution.ExecuteIsAlone` | internal/services/bulk.go:54-149 | running the process step by step yields the events, result and error of the structured account |
| `Execution.ExecuteIsWaitFrom` | internal/services/bulk.go:198-249 | the polling steps of the process are the recursion over rounds |
| `Execution.WaitDecidesFirst` | internal/services/bulk.go:196-249 | the loop with its history bit ends at the first deciding round and has reported every observation up to it |
| `Execution.DecidingFrom` | internal/services/bulk.go:198-249 | the first round that decides: it does, and none before it does |
| `Execution.SeenGrows` | internal/services/bulk.go:196-226 | the history bit is "some observation so far had a non-blank phase" |
| `Outcomes.UnknownClusterFails` | internal/services/bulk.go:64-70 | a target in an unknown cluster fails with one event and no call |
| `Outcomes.UnsupportedFails` | internal/services/bulk.go:130-132 | an action that is none of the three fails |
| `Outcomes.RefreshOutcome` | internal/services/bulk.go:76-81 | a refresh succeeds or ends with its error: cancelled for a context error, failed otherwise |
| `Outcomes.PreRefreshStops` | internal/services/bulk.go:85-95 | a failed pre-refresh ends the sync before anything is announced; hard goes before normal |
| `Outcomes.SyncAnnounced` | internal/services/bulk.go:96-113 | the announcements of a sync and their order, and what follows when nothing of the selection exists |
| `Outcomes.UnwaitedOutcome` | internal/services/bulk.go:114-122 | without waiting the answer to the sync call is the result, also if it reports a sync in progress |
| `Outcomes.RefusedOutcome` | internal/services/bulk.go:114-122 | any other error of the sync call ends the target |
| `WaitLoop.WaitForHealthy` | internal/services/bulk.go:180-250 | ends at the first deciding round with its error and all reports, after at most floor(timeout/interval) + 2 calls |
| `WaitLoop.TimesMeaning` | internal/services/bulk.go:181-188 | zero stands for ten minutes and two seconds, other values for themselves; with both zero there are at most 302 calls |
| `WaitLoop.DeadlineMeaning` | internal/services/bulk.go:190-191 | the loop's context is done at the timeout or the cancellation, whichever comes first |
| `WaitLoop.SelectMeaning` | internal/services/bulk.go:244-248 | the select takes a branch only if it is ready, and takes the one that is preferred or alone ready |
| `WaitLoop.PollUntilDecided` | internal/services/bulk.go:196-249 | the loop over rounds: it ends at the first deciding one and has reported every observation |
| `WaitLoop.PollOnce` | internal/services/bulk.go:199-248 | one round of the loop decides what its specification says, or leads to the head of the next |
| `WaitLoop.RoundContinues` | internal/services/bulk.go:198-249 | each round decides what the specification of that round says or leads to the head of the next |
| `WaitLoop.RoundStartsAfterTick` | internal/services/bulk.go:193-248 | each earlier round consumed a tick of its own, so round k starts no earlier than tick k |
| `WaitLoop.ServedKeepsTicker` | internal/services/bulk.go:244-248 | a select that is served finds a tick or a done context; no tick is received twice |
| `WaitLoop.TooLate` | internal/services/bulk.go:190-201 | the call of the last round comes after the deadline and fails |
| `WaitLoop.SuccessMeaning` | internal/services/bulk.go:220-242 | a round succeeds exactly if the phase is empty or "Succeeded" and the sync is partial with a non-blank phase seen so far, or the status is "Synced" (and, if asked for, the health "Healthy", empty or "Unknown") |
| `WaitLoop.FailureMeaning` | internal/services/bulk.go:212-218 | a round ends with a failed operation exactly if the phase is "Failed" or "Error", with the operation's message or "operation failed" |
| `WaitLoop.DecidesAtFirstFailingOrAccepting` | internal/services/bulk.go:198-242 | without API error or deadline, a round is the first deciding one exactly if it is the first whose observation fails or accepts, in the words above |
| `WaitLoop.BoundAttained` | internal/services/bulk.go:180-250 | for any undecided observation there is an environment in which the loop makes all the calls of the bound |
| `Pool.ShapeKept` | internal/services/bulk.go:46-157 | every step keeps: submitted exactly up to the index, at most `parallel` active, nothing active after the return |
| `Pool.MailKept` | internal/services/bulk.go:46-166 | every step keeps: the result channel holds one result of each worker that has sent, the returned list the same, sorted |
| `Pool.QueueBounded` | internal/tui/tui.go:839-850 | at most 256 events wait in the channel, in any reachable state |
| `Conservation.NeverFull` | internal/services/bulk.go:47-50 | in every reachable state at most `parallel` workers are active and a worker about to send its result has room |
| `Conservation.EveryTargetOnce` | internal/services/bulk.go:47-166 | on return the targets of the results are, with multiplicity, the targets of the run; each result is its worker's; the list goes by cluster, and within a cluster by application |
| `Conservation.ReturnedAll` | internal/services/bulk.go:152-166 | on return all workers have halted and the list is a sorted permutation of what they sent |
| `Conservation.ResultsOwn` | internal/services/bulk.go:54-149 | in any run a worker's result is about its target and carries its action |
| `Liveness.StepLowersMeasure` | internal/services/bulk.go:36-153 | every step of the pool, its workers and its consumer lowers the measure |
| `Liveness.RunsAreShort` | internal/services/bulk.go:36-153 | no run from a state is longer than its measure |
| `Liveness.Progress` | internal/services/bulk.go:36-153 | in every reachable state that is not final, cancelled or not, the runner, a worker or the consumer can take a step; a cancellation does not count |
| `Liveness.EveryRunFinishes` | internal/tui/tui.go:870-906 | every run has at most the computed number of steps, and short of its end the runner, a worker or the consumer can go on |
| `Completion.CompletesAnyway` | internal/services/bulk.go:30-167 | every run, cancelled or not, extends without a further cancellation to one in which the runner has returned and all events are processed |
| `Completion.Completes` | internal/services/bulk.go:30-167 | an uncancelled run with fixed answers extends to such an end with the same answers |
| `Completion.SomeRunReturns` | internal/services/bulk.go:30-167 | for all answers there is such a run, and it returns the sorted sequential results |
| `Trace.ToldKept` | internal/services/bulk.go:54-149 | every step of a worker keeps the relation between its program point and its calls so far |
| `Trace.FinishedTrace` | internal/services/bulk.go:54-149 | in any interleaving and under any cancellation, a finished worker's calls form a sentence and determine its result |
| `Trace.SentenceCalls` | internal/services/bulk.go:82-122 | at most one refresh and one sync; a sync comes after a successful pre-refresh where due, with the filtered selection, and not at all if nothing of the selection exists |
| `Trace.RefreshCallsExactly` | internal/services/bulk.go:76-81 | a refresh is exactly one call, normal or hard as the action says, and its answer is the result |
| `Trace.EmissionMeaning` | internal/services/bulk.go:58-146 | the target, action, status, error and message of every event that a worker emits |
| `Trace.EventActions` | internal/services/bulk.go:36-149 | every event delivered in any run carries the action of its target |
| `Trace.SyncPosition` | internal/services/bulk.go:114-129 | after the sync call comes a complete waiting loop exactly if waiting is on and the call succeeded or its error mentions an operation in progress; otherwise nothing |
| `Trace.InProgressNeverSucceeds` | internal/services/bulk.go:114-148 | a worker whose sync call returned an error never reports success |
| `Cancellation.NoSiblingCancels` | internal/services/bulk.go:49-61 | while workers run, the group context is done only if the caller's is |
| `Cancellation.ErrorIffTurnedAway` | internal/services/bulk.go:55-61 | the run's error is non-nil exactly if a worker was turned away at its entry; its result is then "cancelled" |
| `Cancellation.IsolatedKept` | internal/services/bulk.go:49-152 | every step keeps the isolation invariant |
| `Refinement.UncancelledKept` | internal/services/bulk.go:54-149 | every uncancelled step keeps each worker on course to its sequential behaviour |
| `Refinement.RunIsSequential` | internal/services/bulk.go:46-166 | every uncancelled run that returns has a nil error and a sorted permutation of the sequential results |
| `Refinement.RunIsSortedMap` | internal/services/bulk.go:46-166 | with one target each the list is exactly the sorted sequential results, strictly ascending by cluster context and within a context by application name, whatever the interleaving and the parallelism |
| `Refinement.FaithfulProgress` | internal/services/bulk.go:36-153 | an uncancelled run with fixed answers is never stuck before its end |
| `ResultOrder.SortResultsSorts` | internal/services/bulk.go:159-164 | the sort yields a permutation in which no later result is below an earlier one |
| `ResultOrder.SortedUnique` | internal/services/bulk.go:159-164 | with one result per target the sorted list is unique, and strictly ascending by cluster context, then application name |
| `ResultOrder.ResultLessStrict` | internal/services/bulk.go:159-164 | one result is below another exactly if its cluster is, or the clusters are equal and its application is; and this order is strict |
| `ResultOrder.ClusterBeforeApp` | internal/services/bulk.go:159-164 | (c1, z) comes before (c2, a) |
| `GoStrings.LessMeaning` | internal/services/bulk.go:259-267 | one string is below another exactly if it is a proper prefix or smaller at the first difference |
| `GoStrings.LessTransitive` | internal/services/bulk.go:259-267 | Go's order of strings is transitive |
| `GoStrings.LessTotal` | internal/services/bulk.go:259-267 | any two different strings are ordered |
| `GoStrings.TrimSpaceMeaning` | internal/services/bulk.go:224-226 | trimming cuts off space only and leaves none at either end |
| `GoStrings.DecimalReads` | internal/services/bulk.go:205-206 | a printed number reads back |
| `Events.EventProtocol` | internal/services/bulk.go:36-149 | in every reachable state of every run a target's events are "running", then at most one terminal event that agrees with the result, and nothing after it |
| `Events.UncancelledEvents` | internal/services/bulk.go:54-149 | in an uncancelled run each target ends with one terminal event carrying its result's status, except on the skip path |
| `Events.StatusesAgree` | internal/tui/tui.go:307-320 | after all events are processed the shown status is the result's, except that a skipped target is shown as running |
| `Summary.Count` | internal/tui/tui.go:1331-1347 | the loop's four counts are the numbers of targets with each status and add up to the targets |
| `Summary.CountsMatchResults` | internal/tui/tui.go:1331-1347 | failed and cancelled are counted as in the results; the pending ones are exactly the skipped, missing from the successes |
| `Targets.TargetsForSelection` | internal/services/targets.go:5-16 | the targets are exactly the selected pairs that the inventory has, cluster by cluster, and distinct if the selections are |
| `Targets.TargetsExactly` | internal/services/targets.go:5-16 | membership in the targets, both ways |
| `Targets.TargetsDistinct` | internal/services/targets.go:5-16 | selections without duplicates give targets without duplicates |
| `Targets.TargetsSorted` | internal/services/targets.go:5-16 | with sorted selections the targets are sorted by cluster, then application |
| `Discovery.DiscoverInventory` | internal/services/discovery.go:54-81 | given the answers in the order of arrival: the merged inventory and errors are what they say; it is an error exactly if nothing was listed and some context failed, with one error per context, in order |
| `Listing.EveryOrder` | internal/services/discovery.go:30-55 | every interleaving of the goroutines leaves in the channel and among the errors what some order of arrival of exactly the clusters' answers leaves |
| `Listing.NeverBlocks` | internal/services/discovery.go:35-52 | no send finds the channel full: in every reachable state every goroutine that is not done can go on |
| `Listing.Deterministic` | internal/services/discovery.go:30-64 | with distinct context names any two complete interleavings give the same inventory and the same errors |
| `Discovery.MergeOne` | internal/services/discovery.go:57-64 | one cluster's applications overlay the inventory; the last listed of a name wins; no entry is empty |
| `Discovery.RecordErrors` | internal/services/discovery.go:41-47 | the errors are those of the contexts that failed |
| `Discovery.JoinErrors` | internal/services/discovery.go:68-77 | one error per failing context, in ascending order |
| `Discovery.EntriesWereListed` | internal/services/discovery.go:41-64 | every entry was listed, last of its name, in an answer of its context, and no later answer of that context lists the application; failed contexts contribute nothing |
| `Discovery.LastListedMeaning` | internal/services/discovery.go:57-64 | the last of a name wins within an answer |
| `Discovery.MergedMeaning` | internal/services/discovery.go:57-64 | the last answer of a context that lists the application wins |
| `Discovery.ErrorMeaning` | internal/services/discovery.go:41-47 | the error of a context is that of its last failure |
| `Discovery.Confluence` | internal/services/discovery.go:33-64 | the inventory is the same for every order of arrival exactly if answers under the same context agree |
| `Discovery.DistinctContextsAreCompatible` | internal/services/discovery.go:33-64 | distinct context names are enough for that |
| `Discovery.OrderMatters` | internal/services/discovery.go:57-64 | two disagreeing answers under one context give two different inventories |
| `Discovery.ErrorsConfluence` | internal/services/discovery.go:41-47 | the recorded errors are the same for every order of arrival exactly if failures under the same context agree |
| `Discovery.DistinctContextsErrorsAgree` | internal/services/discovery.go:41-47 | distinct context names are enough for that too |
| `Discovery.InventoryKeys` | internal/services/discovery.go:83-90 | the keys of the inventory, each once, ascending by name, whatever the iteration order |
| `Discovery.KeysOf` | internal/services/discovery.go:83-90 | ascending by name, distinct, and exactly the inventory's applications |
| `Discovery.ClustersForApps` | internal/services/discovery.go:92-109 | the hosting clusters in order, or the first application that the inventory lacks |
| `Discovery.ClustersOf` | internal/services/discovery.go:92-109 | ascending, distinct, and exactly the clusters that host one of the applications |
| `Ordering.SortKeys` | internal/services/discovery.go:83-90 | distinct keys end up in the one ascending order of their set |
| `Resources.ResourcesForAppInClusters` | internal/tui/tui.go:1649-1690 | the named resources of the application in the clusters, in the one ascending order, whatever the iteration order |
| `Resources.ResourcesFor` | internal/tui/tui.go:1649-1690 | strictly ascending, and exactly the selectable resources |
| `Resources.ResourcesForMeaning` | internal/tui/tui.go:1649-1690 | exactly the resources with a kind and a name that a cluster of the selection (all, if it is empty) lists for the application, by group, kind, namespace and name |
| `Resources.ResourceLessOrders` | internal/tui/tui.go:1676-1688 | group, kind, namespace and name make a total strict order |
| `Resources.AggregateResourceAgg` | internal/tui/tui.go:1898-1953 | for a list without duplicates, the counts of each resource over the clusters in scope, whatever the iteration order |
| `Resources.CountClusters` | internal/tui/tui.go:1930-1949 | one resource's counts are the numbers of clusters of each class |
| `Resources.IndexStatuses` | internal/tui/tui.go:1922-1926 | the last status of a resource counts |
| `Resources.ClassMeaning` | internal/tui/tui.go:1930-1947 | a cluster counts as synced or out of sync exactly if its last entry for the resource says "Synced" or "OutOfSync", up to space |
| `Resources.LastStatusMeaning` | internal/tui/tui.go:1922-1926 | the last entry for a resource is the one that no later entry follows |
| `Resources.AggMeaning` | internal/tui/tui.go:1930-1949 | the counts are the numbers of selected hosting clusters that report "Synced", "OutOfSync", and neither |
| `Resources.LabelMeaning` | internal/tui/tui.go:1877-1886 | which label is shown, in terms of what the clusters report |
| `Resources.AggPartitions` | internal/tui/tui.go:1930-1949 | synced, out of sync and unknown add up to the number of selected clusters that host the application |
| `Resources.SelectsUnsynced` | internal/tui/tui.go:609-621 | the condition of key "n" holds exactly if some cluster in scope does not report "Synced", or none is in scope; it is the opposite of the label "Synced"; "Mixed" is unreachable |
| `WaitMessage.ParseSyncWaitMessage` | internal/tui/tui.go:1838-1865 | the loop over fields returns what the specification of the parser says, and ok exactly if all three kinds were present |
| `WaitMessage.RoundTrip` | internal/services/bulk.go:204-210 | for values without blanks the parser gets back what the printer was given, "Unknown" for an empty one |
| `WaitMessage.ModeMeaning` | internal/services/bulk.go:205-209 | the message ends with the mode, and with the number of resources of a partial sync |
| `WaitMessage.RoundTripExactly` | internal/tui/tui.go:1838-1865 | it does so exactly if no value contains a blank |
| `WaitMessage.OthersNotParsed` | internal/services/bulk.go:96-118 | no other message of a run parses |
| `WaitMessage.ParsedIffReport` | internal/tui/tui.go:311-316 | on every message of a run whose reports have no blanks, the parser succeeds exactly on the reports |
| `Viewport.EnsureOffset` | internal/tui/tui.go:1729-1746 | the new offset is in range and shows the cursor |
| `Viewport.ClosestOffset` | internal/tui/tui.go:1729-1746 | of all such offsets it is the only closest to the old one, and doing it again changes nothing |
| `Viewport.RangeShowsCursor` | internal/tui/tui.go:1563-1591 | the rows drawn contain the cursor and are as many as fit |
| `Viewport.RangeInBounds` | internal/tui/tui.go:1563-1591 | whatever the offset and the height, every row drawn exists |
| `WizardModel.Model.constructor` | internal/tui/tui.go:118-154 | the initial state, which is valid: every index into the lists on the screen is in bounds |
| `WizardModel.Model.Update` | internal/tui/tui.go:229-906 | object and command after any message are those of the transition function; a valid object does not crash, and stays valid exactly unless the message is a refresh that takes the cursor off the list on the screen |
| `WizardModel.Model.UpdateAll` | internal/tui/tui.go:229-906 | the same over any sequence of messages: the object is where the transition function leads, whether it has crashed is told, and if every refresh lands safely it is valid and has not |
| `WizardModel.Model.StartRun` | internal/tui/tui.go:839-896 | the request handed to the runner and the screen before its first event |
| `WizardModel.Model.OnRefreshDone` | internal/tui/tui.go:260-306 | the new inventory, filter, selections and cursor, or only the error |
| `WizardModel.Model.SelectedResourcesFor` | internal/tui/tui.go:975-990 | the marked resources that are selectable in the selected clusters, in order |
| `WizardModel.Model.SelectedResourcesByApp` | internal/tui/tui.go:992-998 | these for every selected application |
| `WizardModel.ToggleAll` | internal/tui/tui.go:485-496 | key "a": all off if all were on, otherwise all on |
| `WizardModel.MarkUnsynced` | internal/tui/tui.go:609-621 | key "n": the resources that meet its condition are added |
| `WizardModel.SelectUnsynced` | internal/tui/tui.go:497-504 | key "n": the applications that are not fully synced are added |
| `WizardModel.FilterKeys` | internal/tui/tui.go:1616-1623 | the applications whose lower-cased name contains the query, in order |
| `WizardModel.Choose` | internal/tui/tui.go:965-1008 | the chosen elements in the order of the list |
| `WizardModel.SplitByResources` | internal/tui/tui.go:723-732 | the applications kept and the number passed over |
| `WizardModel.DropVanished` | internal/tui/tui.go:283-294 | exactly the selections of vanished applications are deleted |
| `WizardModel.IndexOfAppKey` | internal/tui/tui.go:1829-1836 | the first index, or -1 |
| `WizardModel.ClustersByContext` | internal/tui/tui.go:247-251 | the clusters by context, the last of a name winning |
| `WizardModel.FirstStatuses` | internal/tui/tui.go:861-866 | all targets pending, with the state they were in |
| `WizardSafety.StepSafe` | internal/tui/tui.go:229-751 | from a safe state nothing crashes; the next state is safe exactly if the message is not a refresh that takes the cursor off the list on the screen |
| `WizardSafety.CursorSafety` | internal/tui/tui.go:229-751 | over all sequences of messages every state is safe exactly if no refresh does that, and then no index is out of bounds |
| `WizardSafety.SpaceAfterRefresh` | internal/tui/tui.go:582-592 | in the list of clusters and in that of resources, space after a refresh crashes exactly if the refreshed row is beyond the list |
| `WizardSafety.RefreshedOnRow` | internal/tui/tui.go:295-304 | a refresh puts the cursor on a row of the application list in whatever step, and leaves the other lists |
| `WizardSelection.ChosenExactly` | internal/tui/tui.go:965-1008 | a selection is exactly the chosen elements of its list, and distinct if the list is |
| `WizardSelection.WithResourcesExactly` | internal/tui/tui.go:723-732 | the applications kept are exactly those with a selectable resource |
| `WizardSelection.StepSteady` | internal/tui/tui.go:229-896 | every message keeps: the application list is that of the inventory, every hosting cluster is known, the cluster list has no duplicates |
| `WizardSelection.StepPicked` | internal/tui/tui.go:533-747 | every message but a new inventory keeps: the applications before the one on the screen have marked resources |
| `WizardSelection.RunPicked` | internal/tui/tui.go:533-747 | that holds after every sequence of messages with no new inventory since the clusters were chosen |
| `WizardSelection.RequestNotWidened` | internal/tui/tui.go:839-857 | the request names only marked, selectable resources, and none for an application exactly if it has no selectable ones |
| `WizardSelection.LaunchedTargets` | internal/tui/tui.go:853-857 | every run ever started has pairwise different targets in known clusters |
| `WizardSelection.LaunchedSelection` | internal/tui/tui.go:839-857 | with no new inventory since the clusters were chosen the request is not widened and has targets |
| `WizardSelection.LoadsAreCovered` | internal/services/discovery.go:35-64 | what discovery yields mentions only contexts of its clusters |
| `WizardGate.LaunchCause` | internal/tui/tui.go:814-841 | a run starts exactly on "y" in the confirmation or on enter for anything but a sync with prune or force, and the running step is entered in no other way |
| `WizardGate.AlwaysGuarded` | internal/tui/tui.go:753-837 | in every reachable state at most one pre-refresh option is set, and the confirmation is shown only for a sync with prune or force |
| `WizardGate.RiskyRunsAreConfirmed` | internal/tui/tui.go:814-837 | a run with prune or force starts only on "y", in a confirmation shown without a break since an enter on the action, with the request's options all that time |
| `WizardGate.ConfirmEntered` | internal/tui/tui.go:814-837 | the confirmation is entered only from the action step and nothing changes the plan under it |
| `WizardKeys.MatchingExactly` | internal/tui/tui.go:1616-1623 | the filtered list is exactly the applications whose lower-cased name contains the query, in order |
| `WizardKeys.ChosenAscends` | internal/tui/tui.go:965-990 | selections keep the order of their list |
| `WizardKeys.ToggleAllMeaning` | internal/tui/tui.go:485-496 | what key "a" does to each element, and that twice more changes nothing |
| `WizardKeys.NewlyMarked` | internal/tui/tui.go:609-621 | in the resource step key "n" adds exactly the listed resources that some chosen hosting cluster does not report as synced |
| `WizardKeys.NewlySelected` | internal/tui/tui.go:497-504 | in the application list key "n" adds exactly the listed applications that some hosting cluster does not report as synced |
| `WizardKeys.OptionKeys` | internal/tui/tui.go:772-813 | each option key flips its own option and no other, except that one pre-refresh clears the other |
| `WizardKeys.RefreshKeepsPlace` | internal/tui/tui.go:268-304 | after a refresh the cursor is on the same application if it is still listed |
| `WizardKeys.RefreshKeepsSelection` | internal/tui/tui.go:283-294 | after a refresh exactly the selected applications that still exist are selected |
| `WizardKeys.VisibleShowsCursor` | internal/tui/tui.go:1547-1561 | after scrolling, the row of the cursor is on the screen of each list |
| `WizardKeys.ScreenFits` | internal/tui/tui.go:1563-1647 | after scrolling, each list draws its cursor and, with the other lines of its step, exactly fills the terminal if it has the rows, running over only when there is no room for five |
| `WizardKeys.BlockHeights` | internal/tui/tui.go:1704-1727 | the warnings take two lines around at most four, or none; the details at most ten, and none exactly if no cluster hosts the application under the cursor |
| `WizardSteps.SpaceOnApps` | internal/tui/tui.go:478-484 | space flips the selection of the application under the cursor and changes nothing else |
| `WizardSteps.SpaceOnClusters` | internal/tui/tui.go:692-698 | the same for the clusters |
| `WizardSteps.SpaceOnResources` | internal/tui/tui.go:582-592 | the same for the resources of the application on the screen; those of the others stay |
| `WizardSteps.SpaceTwiceOnApps` | internal/tui/tui.go:478-484 | space twice leaves the selected applications as they were |
| `WizardSteps.SpaceTwiceOnClusters` | internal/tui/tui.go:692-698 | and the selected clusters |
| `WizardSteps.SpaceTwiceOnResources` | internal/tui/tui.go:582-592 | and the selected resources of every application |
| `WizardSteps.KeyAOnApps` | internal/tui/tui.go:485-496 | "a" selects all that pass the filter if one of them was not selected, and none of them otherwise |
| `WizardSteps.KeyAOnClusters` | internal/tui/tui.go:699-710 | the same for the clusters |
| `WizardSteps.KeyAOnResources` | internal/tui/tui.go:593-608 | the same for the resources of the application on the screen |
| `WizardSteps.Movement` | internal/tui/tui.go:444-477 | in each list the movement keys go one row or one page and stop at the ends |
| `WizardSteps.ActionMovement` | internal/tui/tui.go:762-771 | the arrows move among the three actions |
| `WizardSteps.EnterAction` | internal/tui/tui.go:814-825 | the rows are sync, refresh and hard refresh; a sync with prune or force is confirmed, anything else starts at once with the options on the screen |
| `WizardSteps.OptionMeaning` | internal/tui/tui.go:772-813 | the option keys work on a sync only, each on its own flag |
| `WizardSteps.ConfirmMeaning` | internal/tui/tui.go:827-837 | "y" starts, "n", "q" and esc lead back, in capitals or not, and nothing else does anything |
| `WizardSteps.LaunchedFromCli` | internal/tui/tui.go:118-153 | every run ever started waits, and for how long and how often it polls, as the command line says |
| `WizardSteps.RequestMeaning` | internal/tui/tui.go:839-857 | the request has the loaded inventory and clusters, the selected applications that exist, by name, and the selected clusters on offer |
| `WizardSteps.StartViewMeaning` | internal/tui/tui.go:839-866 | at the start of a run every target is pending, with the state it was loaded with, and nothing of an earlier run is shown |
| `WizardSteps.EnterApps` | internal/tui/tui.go:505-527 | on to exactly the clusters that host a selected application, in order and all selected |
| `WizardSteps.EnterClusters` | internal/tui/tui.go:711-747 | on to the first application with a selectable resource, with nothing marked; or to the error if there is none |
| `WizardSteps.EnterResources` | internal/tui/tui.go:622-643 | on only with a marked resource: to the next application, or to the action after the last |
| `WizardSteps.BackspaceMeaning` | internal/tui/tui.go:653-657 | backspace leads one step back, to the first row |
| `WizardSteps.RestartForgets` | internal/tui/tui.go:1517-1545 | "r" on the last screen starts with nothing selected and the options of the command line; what is loaded stays |
| `WizardSteps.InitialMeaning` | internal/tui/tui.go:118-154 | the first state has nothing loaded or selected and the options of the command line, without flags |
| `WizardSteps.LoadMeaning` | internal/tui/tui.go:241-259 | a load shows its applications by name and knows its clusters; a failed one leads to the error |
| `WizardSteps.RefreshFailure` | internal/tui/tui.go:260-267 | a failed refresh changes nothing but the errors |
| `WizardSteps.ProgressMeaning` | internal/tui/tui.go:307-320 | what an event changes on the screen, and that nothing else does |
| `WizardSteps.ReportShown` | internal/tui/tui.go:311-316 | a report leaves its phase, sync and health status as the state of its target |
| `WizardSteps.FilterMeaning` | internal/tui/tui.go:404-422 | while the filter is edited: esc clears, enter keeps, other keys type; the list is exactly the applications whose name contains the trimmed text, in any case |
| `WizardSteps.OpensFilter` | internal/tui/tui.go:426-437 | "/" and ctrl+f open the filter, and nothing else; esc and "q" clear it when it is closed |
| `WizardSteps.QuitMeaning` | internal/tui/tui.go:342-396 | exactly when a key quits or cancels |
| `WizardSteps.OneRefresh` | internal/tui/tui.go:323-340 | a refresh starts exactly if one is asked for and none is under way |
| `WizardSteps.ResizeMeaning` | internal/tui/tui.go:231-238 | a resize changes the height and the offsets only |
| `WizardSteps.MovementScrolls` | internal/tui/tui.go:444-477 | after a movement key the row of the cursor is on the screen |
| `WizardSteps.ResizeScrolls` | internal/tui/tui.go:231-238 | and after a resize |
| `WizardSteps.RefreshScrolls` | internal/tui/tui.go:268-305 | and after a refresh that lands safely |
| `WizardSteps.FilterScrolls` | internal/tui/tui.go:404-422 | and after a key while the filter is edited |
| `EndToEnd.LaunchedJobs` | internal/services/bulk.go:31-34 | from the wizard the runner meets no unknown context and no target twice; its jobs carry the request's action, options and resources; and it is not without targets if no new inventory came after the clusters were chosen |
| `EndToEnd.JobsMeaning` | internal/services/bulk.go:52-100 | each job is one target of the request, with what the inventory has on it |
| `EndToEnd.LaunchedResults` | internal/services/bulk.go:54-149 | every result of a launched run carries the chosen action |
| `EndToEnd.LaunchedCalls` | internal/services/bulk.go:72-132 | a worker syncs only if the action is a sync; for a refresh or hard refresh it makes exactly that one call, unless it is turned away |
| `EndToEnd.ResultsInTargetOrder` | internal/tui/tui.go:857-866 | the results are about the targets one by one, in the order in which the screen shows them |
| `EndToEnd.ObservationShown` | internal/services/bulk.go:204-210 | phase, sync and health status of an observation reach the screen each in its place |
| `EndToEnd.SentIsSelected` | internal/services/bulk.go:98-114 | the options of a sync that is sent carry a non-empty part of the marked resources, present in the target's cluster, or none if nothing is selectable |
| `EndToEnd.NothingWidened` | internal/services/bulk.go:98-114 | the same over all messages, interleavings, answers and cancellations, for every sync request of every finished target |
| `EndToEnd.PassedOverIsSyncedWhole` | internal/tui/tui.go:723-740 | an application passed over in the resource step is synced as a whole, once its pre-refresh has succeeded |
| `EndToEnd.StatusesChange` | internal/tui/tui.go:229-340 | only events, a launch and a restart change the statuses on the screen |
| `EndToEnd.ShowingStep` | internal/tui/tui.go:323-396 | while a run is on the screen only its end changes the step, and nothing starts another run |
| `EndToEnd.WizardShowsStatuses` | internal/tui/tui.go:307-337 | however a run's events are interleaved with its end, keys, resizes and refreshes, each target is at the phase of its last event, the results are the last that came, and the last screen is up exactly once the end has been processed |
| `EndToEnd.LastScreen` | internal/tui/tui.go:1326-1347 | after an uncancelled run's events and its end, in any interleaving with keys, resizes and refreshes: the last screen is up with the sorted results, by cluster and application, of the chosen action and in the order of the targets; each target shows its result except on the skip path, and the counts agree, the skipped targets being exactly the pending ones |
| `EndToEnd.RunEndsDone` | internal/tui/tui.go:323-337 | however a run went, its results lead to the last screen, not to the error screen |
| `Exceptions.WaitedSucceedsExactly` | internal/services/bulk.go:114-148 | a target that reaches its wait ends with the wait's error, or else the sync's; it succeeds exactly if the wait did and the sync call did not report a sync in progress |
| `Exceptions.SucceedsExactly` | internal/services/bulk.go:114-148 | the calls of a worker that waits end in success exactly if the sync call succeeded and the last observation is accepting |
| `Exceptions.RunSucceedsExactly` | internal/services/bulk.go:54-149 | the same of every finished worker, in every interleaving and under any cancellation |
| `Exceptions.JoinedSyncFails` | internal/services/bulk.go:114-148 | an input on which the wait succeeds and the target has failed |
| `Exceptions.JoinedSyncRun` | internal/services/bulk.go:30-167 | a complete run of the pool on it |
| `Exceptions.WhenCancelled` | internal/services/bulk.go:134-140 | a worker reports its target as cancelled exactly if it was turned away, its last call failed with a context error, or its last observation is accepting and the sync call had left a context error |
| `Exceptions.NoticedBetweenPollsFails` | internal/services/bulk.go:244-248 | a cancellation noticed between two polls always ends in "failed" |
| `Exceptions.TimedOutSentence` | internal/services/bulk.go:244-248 | such a sequence of calls, and its result |
| `Exceptions.TimedOutRun` | internal/services/bulk.go:180-250 | a complete run of the pool in which the deadline is noticed between two polls and the target has failed |
| `Exceptions.SkippedRun` | internal/services/bulk.go:108-112 | a complete run in which the target has succeeded on the skip path, is shown as running and is counted as pending |
| `WizardExceptions.RefreshWidens` | internal/tui/tui.go:260-306 | after a refresh in the choice of the action, whatever is pressed there until the run starts, the run is not widened exactly if every application that is still there and selected, and has selectable resources, has a marked one |
| `WizardExceptions.RefreshLeavesTargets` | internal/services/bulk.go:31-34 | and it has targets exactly if a chosen cluster hosts an application that is still there and selected |
| `WizardExceptions.RefreshCrashes` | internal/tui/tui.go:692-698 | a run of four messages after which space is out of range |
| `WizardExceptions.RefreshWidensRun` | internal/tui/tui.go:853-857 | a run whose marked resource vanishes and that syncs the whole application |
| `WizardExceptions.RefreshEmptiesRun` | internal/tui/tui.go:853-857 | a run whose applications vanish and that has no targets |
| `WizardExceptions.PassedOverRun` | internal/tui/tui.go:723-740 | a run of keys with an application that has no resources: it is a target, and every worker of it that is not turned away syncs it as a whole |
| `WizardExceptions.MarkedRun` | internal/tui/tui.go:839-857 | a run of keys as the theorems ask for, which requests exactly the marked resource |

## Left out

- The Argo CD client (internal/argocd/api.go, version.go) and the configuration (config.go): the API is an
  arbitrary environment, and lists of clusters are inputs.
- Rendering, styles, logging, the terminal library and the text field: the model keeps the value of the filter
  field, the list heights, the offsets and the counts.
- Command line flags and build files.
- Text of errors and time stamps of events: an error is kept as a structured value; a progress message is
  structured and rendered by `WaitMessage.Render`. The project of an application and the credentials and
  versions of a cluster, which nothing modelled here reads.
- Whether the phase seen while waiting belongs to the sync just submitted: the code does not track it.
- Events of an earlier run that arrive after a restart: the event theorems are about one run from its start.
- The choice of contexts on the command line (filterClusters keeps the clusters whose context is named
  there, or all): the clusters of a load are what it leaves. The list of clusters beside the map by context,
  the width of the screen, and the run's start and end times, which nothing modelled here reads.
- Commands that do not change the model object (listening again, loading): they are values the update returns;
  the pool models the consumer of events with its one receive per processed event.
- `WizardModel.Model`: groups the fields of the original object into records, which changes no behaviour.
- TargetRun.RunTarget: yields the events that the closure hands to emit; which of them emit drops once the
  context is done is modelled by the pool, at every step.
- Discovery.DiscoverInventory: starts from the answers in order of arrival; that every interleaving of the
  goroutines amounts to such an order is `Listing.EveryOrder`.
