# Maintenance controller: a verified model

The maintenance controller moves Kubernetes nodes through three states, `operational`,
`maintenance-required` and `in-maintenance`.  A node may carry several profiles at once; every profile
is a state machine of its own, with check, trigger and notification plugins configured per state, and
the controller advances all of them one reconcile pass at a time.  Cluster-wide gates (`stagger`,
`maxMaintenance`, `affinity`) decide which nodes may go on.  A second controller shuts nodes down for
the maintenance of the ESX host below them and starts them again.

This project models that behaviour in Dafny and proves what every run of it keeps.

## How the model is built

- **Plugins are the environment.**  A plugin call is a function of an arbitrary world `W` that answers
  pass, fail, error or RetryError and returns a new world (`Plugins.Plugins<W>`).  A lemma about all
  `Plugins<W>` and all worlds is about every behaviour of the configured plugins, the clock included.
- **A pass** maintains the profile table, applies every active profile against one snapshot, commits
  all results, skips retrying profiles or commits nothing, and writes the node back
  (`States`, `Handler`).  The loops of the source are methods with invariants, proved equal to
  functions (`Decide`, `Apply`, `Collect`, `Commit`, `RunPass`), and the theorems are about those.
- **Runs** are sequences of passes with different plugins in every pass, failing patches and
  arbitrary label edits between them (`Runs`, `History`, `DrainRuns`), sequential reconciles of the
  nodes of a cluster (`ClusterRuns`, `StaggerRuns`), and passes of the ESX controller during which
  every call may fail and others may edit node and machine before each call (`Esx`, `EsxRuns`).
- **Time** is counted in whole seconds UTC from the zero time (nanoseconds for leases).

| file | content |
|---|---|
| Errors, Sets, Strings, Labels, Calendar | error values; set sizes; splitting, stripping and trimming text; labels; dates |
| CheckExpressions, Plugins | check expressions, their text and tokens; plugin chains |
| Notifications | the three schedules and logs of sent messages |
| States, Handler | one profile; one pass over a node |
| Calls, Applications, Turns | chains, applications and passes in terms of the plugin calls alone |
| Passes, Scripts, Routing, Exclusion, Runs, History | what passes and runs guarantee |
| Worlds, MaxMaintenance, ClusterRuns | the counting gate and its bound over cluster runs |
| Stagger, StaggerRuns | the lease pool and its sliding window |
| Affinity, WaitExclude | the affinity preference; waiting without excluded weekdays |
| Drain, DrainRuns, WaitParallel | draining a node; parallel waiting |
| Esx, EsxHosts, EsxRuns | shutting down and starting nodes of ESX hosts |
| Configuration | loading profiles |

## Where code and intention part

- *Only one profile in maintenance* holds in a pass that starts with none only if at most one active profile
  has a way in: the flag is read before any profile moves.  `Exclusion.ExclusionExact` gives the exact
  condition on the configured transitions, `Runs.ExclusionOverRuns` the exact condition over runs,
  `Runs.BothEnterWitness` the two-profile node.
- *The triggers of the followed transition run* only if no transition that can be followed shares its target
  with an earlier one that has other triggers (`Routing.RightTriggersExact`, `Passes.WrongTriggersWitness`).
- *waitExclude* falls short of the non-excluded time by a whole day on an excluded day
  (`WaitExclude.SinceExact`), so that waiting longer can undo its verdict (`WaitExclude.NotMonotone`).
- *Every transition is entered* unless the label drops the profile: a committed pass then deletes the entry
  together with an enter chain that is still due (`History.Conservation`, `History.DetachWitness`).
- *Oneshot notifications* repeat for one state change if the first is read at the very instant of the change
  (`Notifications.OneshotOncePerChange`, `Notifications.OneshotTwice`).
- *Scheduled notifications* compare the day of the month only; a first message is never sent on the
  first of a month (`Notifications.ScheduledAgrees`, `Notifications.ScheduledFirstOfMonth`).
- *Check expressions* need a space beside every operator (`CheckExpressions.NamesAreLeaves`).
- *A node the ESX controller powered off is annotated*, unless a guest shutdown or a power-off task that the
  controller stopped waiting for completes after the machine was taken for started
  (`EsxRuns.ObligationExact`).

## Model

| member | source | states |
|---|---|---|
| `Strings.SplitRoundTrip` | state/state.go:37-39 | for every label string, joining the parts gives the string back and no part contains the separator |
| `Strings.JoinRoundTrip` | state/state.go:330-340 | joined parts are found again by splitting iff no part is cut short by a separator that starts inside it and the last one contains none; single hyphens in profile names are fine |
| `Strings.TrimCuts` | plugin/plugin.go:163-165 | trimming a name cuts off nothing but spaces at both ends |
| `Strings.FieldsSkipEmpty` | plugin/plugin.go:129-134 | splitting at single spaces and skipping empty parts yields exactly the words |
| `CheckExpressions.StripSymbols` | plugin/plugin.go:150-155 | all symbols are removed one after the other, each from the left |
| `CheckExpressions.NewCheckChain` | plugin/plugin.go:124-148 | succeeds iff every extracted name is known and the text parses; the chain then holds exactly those names and that tree |
| `CheckExpressions.NamesAreLeaves` | plugin/plugin.go:124-155 | over all expression trees with legal names: strip-and-split yields the leaves in order iff every `&&` and `\|\|` has a space beside it |
| `CheckExpressions.UnspacedWitness` | plugin/plugin.go:128-132 | `a&&b` becomes the single name `ab` |
| `CheckExpressions.EvalDefined` | plugin/check.go:97-110 | a tree has a value as soon as each of its names has one |
| `CheckExpressions.EvalMeans` | plugin/check.go:107-112 | over all trees: an expression evaluates to true iff the set of passing names is one of its models, where a name stands for the sets that contain it and the operators for complement, intersection and union |
| `Errors.RetryIsFound` | plugin/plugin.go:35-50 | a RetryError is found below any number of layers and beside any joined errors; no other plain error passes for one |
| `Plugins.CheckChainExecute` | plugin/check.go:69-114 | all checks of a chain run even after a failing one, later results of an instance win, any plugin error fails the chain |
| `Plugins.ChecksMeanTheTree` | plugin/check.go:69-114 | a chain passes iff no plugin errors and its tree is true under what the instances answered |
| `CheckExpressions.LoadedBack` | plugin/plugin.go:124-148 | the text of a spaced expression loads iff its names are known, and gives back the tree with its leaves as instances |
| `Plugins.TextMeansTree` | plugin/check.go:69-114 | from text to verdict: the chain loaded from the text of a spaced expression passes iff no plugin errors and the expression is true under the answers |
| `Calls.ChainMeans` | plugin/check.go:69-114 | in terms of the plugin calls: every plugin of a chain is called in the world the previous call left; the chain errs iff a call errors, there is no expression, or it names an instance that is not run; it passes iff its expression is true of the instances whose last call passed |
| `Calls.JoinedText` | plugin/check.go:69-114 | the text of names joined by ` && ` passes iff no plugin errors and every instance passed, one joined by ` \|\| ` iff some instance passed |
| `Calls.NegatedChain` | plugin/check.go:107-112 | a chain under `!` passes iff the chain without it fails, as long as nothing errs |
| `Calls.TriggersMean` | plugin/trigger.go:34-46 | a trigger chain has no error iff every call agrees; the first call that does not is the last one made and gives the error |
| `Calls.HooksMean` | state/state.go:254-259 | the same for the hooks of a followed transition |
| `Plugins.TriggerChainExecute` | plugin/trigger.go:34-46 | triggers run in order up to the first error |
| `Labels.ValidateLabel` | state/state.go:42-52 | accepts exactly the three labels and returns the one with that text |
| `States.FromLabel` | state/state.go:149-159 | makes a state for exactly the three labels |
| `States.TransitionDefault` | state/state.go:233-264 | all checks run; an error keeps the state; otherwise the first passing transition is followed after its hooks succeeded |
| `States.Trigger` | state/maintenance.go:46-53 | runs the chain of the first transition with the target, an error if there is none |
| `States.NodeData.NotifyInstance` | state/state.go:268-320 | one instance: missing time filled in, sent iff the schedule says so, recorded only after a successful send |
| `States.NodeData.NotifyDefault` | state/state.go:268-320 | instances in order up to the first error, times updated in place |
| `States.ApplyState` | state/state.go:165-228 | enter if due, notify, decide, trigger, with every error path staying in the state; only notification times change |
| `Applications.CheckErrorIsError` | state/state.go:247-249 | a check that errs in any transition is an error of the decision, never a retry, and nothing moves |
| `Applications.FollowsChosen` | state/state.go:250-262 | the first transition whose expression is true and that is not vetoed is followed iff all its hooks agree; the first that does not gives the error |
| `Applications.NotifyOneMeans` | state/state.go:268-320 | a due instance calls its plugin right after reading the clock; only if that agrees is the time recorded and the message sent; an instance that is not due calls nobody |
| `Applications.NoticesAgree` | state/state.go:268-320 | as long as every due instance's plugin agrees the chain goes on from the world its call left |
| `Applications.NoticeFails` | state/state.go:313-318 | the first failing instance ends the chain with its error and its time is not recorded |
| `Applications.ApplyMeans` | state/state.go:165-264 | an application has no error iff the due enter triggers, the due notifications, all checks, and the hooks and triggers of the move all agreed; then it enters if due, sends what is due and goes where the first open transition leads |
| `States.GetProfiles` | state/state.go:330-340 | the configured profiles among the parts of the label, in its order |
| `States.NodeData.MaintainProfileStates` | state/state.go:380-409 | updates the table in place to the maintained one |
| `States.NodeData.GetProfilesWithState` | state/state.go:362-377 | pairs every active profile with its stored state |
| `Handler.MaintainedTable` | state/state.go:380-409 | the new keys are exactly the label's parts that had an entry or are configured; survivors untouched, newcomers operational with nothing pending; a second maintenance changes nothing |
| `Handler.NewcomerStamps` | state/state.go:400-408 | a newcomer is stamped with the clock as read at its turn |
| `Handler.ActiveInOrder` | state/state.go:330-340 | active profiles come in the order of the label |
| `Handler.DefaultProfile` | state/state.go:380-387 | a node without a profile label runs the default profile |
| `Handler.Aligned` | controllers/node_handler.go:57-91 | although the collect loop can skip appends, without errors result i belongs to profile i |
| `Handler.CollectResults` | controllers/node_handler.go:57-91 | results, errors and the retry set of applying all profiles against one table and one flag |
| `Handler.CommitResults` | controllers/node_handler.go:100-111 | commits in order, skipping retrying profiles |
| `Handler.ApplyProfiles` | controllers/node_handler.go:51-113 | collects, then commits only if there is no error, updating the data in place |
| `Handler.InMaintenanceFlag` | controllers/node_handler.go:115-122 | true iff some profile of the snapshot is in maintenance |
| `Handler.Node.UpdateMaintenanceStateLabel` | controllers/node_handler.go:135-155 | only the state label changes: in-maintenance before maintenance-required before operational over the active profiles |
| `Handler.Node.ReconcileInternal` | controllers/node_controller.go:146-169 | the handlers in order; on any error neither label nor annotation changes |
| `Handler.Server.Reconcile` | controllers/node_controller.go:58-113 | only the reconciled node changes, and only if the pass had no error and the patch succeeded |
| `Passes.AllOrNothing` | controllers/node_handler.go:57-111 | the pass errors iff some profile has an unknown state or fails without asking for a retry, and then no triple changes; otherwise exactly the retrying profiles keep their triple and every other commits its own result |
| `Turns.TurnsFollow` | controllers/node_handler.go:57-91 | profiles take turns in the world and with the times the previous one left; plugins are told profile, state, last transition, and whether any profile was in maintenance at the start |
| `Turns.RetryKeepsProfile` | controllers/node_handler.go:82-111 | if the first failing trigger of a due enter chain answers a RetryError, that profile keeps its triple; if all goes well for the others the pass has no error and each of them commits its own result |
| `Turns.PlainErrorFailsPass` | controllers/node_handler.go:88-99 | any other error of that trigger fails the pass and no triple changes |
| `Turns.CheckErrorFailsPass` | state/state.go:247-249 | an erring check plugin fails the pass whatever the other checks say, and no triple changes |
| `Turns.CheckErrorWritesNothing` | controllers/node_controller.go:87-91 | and nothing is written to the node |
| `Turns.AllWell` | controllers/node_handler.go:100-111 | if everything goes well for every profile every result is committed |
| `Turns.NodePass` | controllers/node_controller.go:146-157 | a pass over a node fails iff its data cannot be read or its profiles fail, and then the node is unchanged |
| `Passes.CommitStamps` | controllers/node_handler.go:105-109 | a triple keeps state and stamp, or its stamp is the clock as the commit loop reads it at the turn of a moving result of that profile |
| `Passes.MovedWithAllActions` | state/state.go:250-262 | when a profile moves, every hook of the followed transition and then every trigger of the transition owning the target ran and agreed |
| `Passes.DueMessagesSent` | state/state.go:268-320 | without an error no due message is skipped: every instance whose schedule says so in its situation is among the messages sent |
| `Passes.ReasonsAreHeard` | plugin/notification.go:113-224 | without an error every periodic instance sends on a state change and after its interval, every oneshot instance once its delay after a change it has not sent for is over |
| `Passes.InactiveUntouched` | controllers/node_handler.go:100-111 | a pass leaves profiles alone that the label does not activate |
| `Passes.Followed` | state/state.go:233-264 | moving on means no check errored, the followed transition passed and none before it did |
| `Scripts.FollowedIsFollowable` | state/state.go:233-264 | whatever the plugins do, a followed transition is one whose chain can pass while every earlier one can fail or is vetoed |
| `Routing.RightTriggersHold` | state/state.go:215-219 | in a well-routed state the triggers that run are those of the followed transition, for all plugins |
| `Routing.RightTriggersExact` | state/state.go:215-219 | this holds for every script of check answers iff no transition that can be followed out of the state shares its target with an earlier first one that has other triggers, read off the configuration |
| `Routing.DistinctTargets` | state/maintenance.go:46-53 | with distinct targets in a state the followed transition itself is the one whose triggers run, for all plugins |
| `Passes.WrongTriggersWitness` | state/maintenance.go:46-53 | two transitions to one target: the second passes, the triggers of the first run |
| `Passes.FlagBlocks` | state/state.go:347-357 | with the flag set no application moves into maintenance |
| `Passes.EntryIndex` | controllers/node_handler.go:53-76 | whoever is newly in maintenance got there by its own result in a pass that started with no active profile in maintenance |
| `Passes.KeepsMaintenance` | controllers/node_handler.go:115-122 | if an active profile is in maintenance when a pass starts, the set of those in maintenance can only shrink |
| `Exclusion.ExclusionHolds` | controllers/node_handler.go:53-76 | with at most one way in and nobody in maintenance, at most one profile enters, for all plugins |
| `Exclusion.ExclusionExact` | controllers/node_handler.go:53-76 | this holds for every script of check answers iff at most one active profile has a way in, read off its transitions |
| `Runs.ReachableWellFormed` | state/state.go:362-409 | on every run from a node without data: stored states are known, pending changes lie along configured transitions, no pass meets an unreadable state, every active profile has an entry |
| `Runs.StepExclusion` | state/state.go:352-355 | one pass or label edit keeps at most one profile in maintenance if at most one profile's own result leads into maintenance in it |
| `Runs.EntrantsOverRuns` | state/state.go:352-355 | on every run from a node without data, if at most one profile enters in every committed pass, at most one is ever in maintenance: the flag keeps the others out in later passes |
| `Runs.ExclusionOverRuns` | controllers/node_handler.go:53-76 | over labels without repeated names the promise holds throughout a run iff at most one profile enters in every committed pass |
| `Runs.OneWayOverRuns` | controllers/node_handler.go:53-76 | static form: it is enough that in every pass that starts with nobody in maintenance at most one active profile has a way in; any number may have one while the flag is up |
| `Runs.BothEnterWitness` | controllers/node_handler.go:71-76 | without the condition one pass over a node labelled `a--b` takes both profiles into maintenance |
| `History.StepOutcome` | controllers/node_handler.go:100-111 | what one step commits for a profile: nothing, or a result that ran the enter chain iff it was due and makes it due again iff the profile moved |
| `History.Conservation` | state/state.go:193-202 | on every run, labels dropping and taking up the profile included: committed transitions = committed enter executions + enter chains lost to a label that drops the profile + 1 if one is due |
| `History.EnterBeforeLeave` | state/state.go:193-202 | between two committed moves of a profile lies a committed pass that entered the state it moved to, or one whose label had dropped the profile while that was due |
| `History.EnterBeforeLeaveNamed` | state/state.go:193-202 | no exception as long as the passes between the two moves name the profile |
| `History.DetachedStep` | state/state.go:392-400 | a pass that does not name the profile has no result for it, and deletes its entry iff it is committed |
| `History.DetachWitness` | state/state.go:392-400 | a move, a label without the profile and a pass: one transition, no enter execution, and nothing due any more |
| `History.LogSound` | state/state.go:268-320 | on every run the stored times are those of the latest committed messages, and every message was decided on against the previous one of its instance |
| `History.MessagesOverRuns` | state/state.go:268-320 | over every run with a clock that does not run backwards: no scheduled instance twice on a date, a oneshot only for a state change at or after its previous messages, no periodic repetition before its interval |
| `Notifications.ScheduledAgrees` | plugin/notification.go:164-193 | the decision implies the full-date specification, equals it within a month, and suppresses a due message exactly on the same day of another month |
| `Notifications.ScheduledFirstOfMonth` | plugin/notification.go:185-191 | with the zero last time a due message is suppressed on the first of every later month |
| `Notifications.ScheduledWitness` | plugin/notification.go:185-191 | a concrete due and suppressed message |
| `Notifications.ScheduledOncePerDate` | plugin/notification.go:164-193 | an instance is never sent twice on one calendar date |
| `Notifications.OneshotOncePerChange` | plugin/notification.go:209-224 | a message is sent only for a state change at or after the previous sends of its instance, so twice for one change only if the first was read at the very instant of the change |
| `Notifications.OneshotTwice` | plugin/notification.go:209-224 | in that instant it does happen, for every delay the second reading of the clock allows |
| `Notifications.PeriodicSpacing` | plugin/notification.go:113-128 | a repetition without a state change waits for the interval and never happens in the operational state |
| `Notifications.MessagesHaveReasons` | plugin/notification.go:113-224 | every message had its reason: a state change or a whole interval, a new date on an allowed weekday after the instant, a state change at least the delay back |
| `Calendar.DateIsDay` | plugin/notification.go:186-186 | a day is determined by its month and its day of the month |
| `Calendar.YearStart` | plugin/notification.go:186-186 | the calendar is the Gregorian one: y years have 365y + y/4 - y/100 + y/400 days |
| `Worlds.EntryGuard` | plugin/check.go:69-114 | a profile enters maintenance only if the guard its expressions imply passed during its pass |
| `MaxMaintenance.FilterProfileName` | plugin/impl/maxmaintenance.go:107-119 | keeps the nodes whose profile label has the profile as a part |
| `MaxMaintenance.FilterGroupLabel` | plugin/impl/maxmaintenance.go:147-160 | keeps the nodes with the same group value, all of them if key or value is empty |
| `MaxMaintenance.MostRecent` | plugin/impl/maxmaintenance.go:131-139 | the latest transition of the configured profile, or of all profiles, or the zero time |
| `MaxMaintenance.FilterRecentTransition` | plugin/impl/maxmaintenance.go:121-145 | an error iff some node has unreadable data; otherwise keeps the nodes where some considered profile changed less than `skipAfter` ago |
| `MaxMaintenance.CheckInternal` | plugin/impl/maxmaintenance.go:73-105 | passes iff fewer than max listed nodes satisfy all filters at once, `skipAfter` included; an error iff `skipAfter` is set and a counted node has unreadable data |
| `MaxMaintenance.Check` | plugin/impl/maxmaintenance.go:62-71 | the same on the listing; a failing listing is an error |
| `MaxMaintenance.ListingCounts` | plugin/impl/maxmaintenance.go:62-71 | on any listing of the in-maintenance nodes this is the count over the cluster |
| `MaxMaintenance.SkippingCounts` | plugin/impl/maxmaintenance.go:73-145 | with `skipAfter` it is the count of counted nodes that changed recently, so the check never refuses what the gate without it lets through |
| `ClusterRuns.PassLabels` | controllers/node_handler.go:135-155 | after a committed pass the state label names the most restrictive state of an active profile, the profile label is as it was, every other label as the triggers left it |
| `ClusterRuns.LabelledThroughGate` | plugin/impl/maxmaintenance.go:62-105 | a node becomes labelled in-maintenance only in a pass in which the gate passed |
| `ClusterRuns.ActBounded` | plugin/impl/maxmaintenance.go:73-105 | a reconcile, an edit or a removal keeps the bound for every full group |
| `ClusterRuns.BoundOverRuns` | plugin/impl/maxmaintenance.go:62-105 | on every sequential run, for each tuple of non-empty values of all group labels, the nodes in maintenance never exceed the limit |
| `ClusterRuns.WholeCluster` | plugin/impl/maxmaintenance.go:62-105 | without filters the bound is on all nodes labelled in-maintenance |
| `Stagger.Stagger.GetOrCreateLease` | plugin/impl/stagger.go:76-103 | an existing lease is returned as it is, a missing one is created two durations in the past; errors exactly on failing calls |
| `Stagger.Stagger.Check` | plugin/impl/stagger.go:57-74 | passes on the first free lease and remembers it, whatever fails behind it; errors only on a failing call with all leases before it held; fails only if all leases exist and are held; never takes a lease |
| `Stagger.Stagger.OnTransition` | plugin/impl/stagger.go:106-116 | takes the remembered lease and no other; nothing happens without one |
| `Stagger.Stagger.GrabLease` | plugin/impl/stagger.go:118-134 | holder, times, duration in whole seconds and transition count of the taken lease; a failing patch changes nothing |
| `StaggerRuns.DecisionEvolves` | state/state.go:233-264 | a decision that needs the instance holds a lease afterwards that was free when it was taken; no lease is retaken while held |
| `StaggerRuns.RunSpaced` | plugin/impl/stagger.go:106-134 | on every sequential run holds of one lease lie more than the whole-second duration apart |
| `StaggerRuns.SlidingWindow` | plugin/impl/stagger.go:57-74 | any window of that length holds at most Parallel transitions that need the instance, including those of passes rolled back later |
| `Affinity.HasOperationalAffinity` | plugin/impl/affinity.go:147-164 | true iff some preferred term asks for exactly the operational state |
| `Affinity.HasAffinityPod` | plugin/impl/affinity.go:133-145 | true iff a pod of the node is such a pod; a failing listing is an error |
| `Affinity.BuildNodeStates` | plugin/impl/affinity.go:74-96 | the profile's data of every node with readable data that has the profile |
| `Affinity.CountOperational` | plugin/impl/affinity.go:166-181 | counts the listed nodes whose state of the profile is operational |
| `Affinity.CheckOther` | plugin/impl/affinity.go:98-131 | the first other maintenance-required node without affinity pods, or with a failing listing, decides |
| `Affinity.Check` | plugin/impl/affinity.go:44-72 | the whole decision with all its error paths |
| `Affinity.PassesExactly` | plugin/impl/affinity.go:44-131 | a node passes iff enough nodes are operational, or it has no affinity pod, or every other maintenance-required node has one |
| `Affinity.ErrorsExactly` | plugin/impl/affinity.go:44-131 | the check errors iff the state is another one or one of the calls it really makes fails |
| `Affinity.SomeonePasses` | plugin/impl/affinity.go:98-131 | if a node requires maintenance, at least one such node passes |
| `WaitExclude.CheckInternal` | plugin/impl/wait.go:88-129 | the day-stepping loop passes iff the time it computes exceeds the duration |
| `WaitExclude.SinceExact` | plugin/impl/wait.go:88-129 | that time is the exact non-excluded time minus a shortfall: none unless today is excluded, a day on a later excluded day from the transition's clock time on |
| `WaitExclude.VerdictExact` | plugin/impl/wait.go:88-129 | never passes early, and disagrees with the exact measure under precisely one condition |
| `WaitExclude.NotMonotone` | plugin/impl/wait.go:88-129 | one second later a passing check fails |
| `Drain.GetPodsForDrain` | common/schedule.go:174-199 | exactly the pods that are neither mirror pods nor owned by a DaemonSet, in order |
| `Drain.SplitDrainCandidates` | common/schedule.go:158-170 | splits by the deletion timestamp, keeping the order |
| `Drain.Partition` | common/schedule.go:158-170 | active and terminating pods together are the candidates, as multisets |
| `Drain.FindOverdue` | common/schedule.go:98-109 | exactly the terminating pods whose deletion time plus grace period is over, in order |
| `Drain.DeletePods` | common/schedule.go:201-212 | one deletion with the given grace period per pod whatever the others answer; failures are exactly the refused ones, not-found is none |
| `Drain.EvictPods` | common/schedule.go:214-230 | one eviction of the given version and grace period per pod, likewise |
| `Drain.EnsureDrain` | common/schedule.go:85-148 | drained iff no candidate is left; the exact error condition; one request of the supported kind for each active pod; forced deletion without grace exactly for overdue terminating pods |
| `Drain.DrainEnds` | common/schedule.go:85-148 | if no pods arrive and some pod moves on between any two passes, one of the first 2·active + terminating passes after the start finds the node drained |
| `Drain.EvictionTrigger` | plugin/impl/eviction.go:64-108 | cordons, makes the requests of a drain, and asks for a retry exactly as long as the node is not drained |
| `DrainRuns.EnteredWhole` | state/state.go:193-202 | a committed result that entered ran the whole enter chain of that profile's state without an error |
| `DrainRuns.DrainedBeforeLeaving` | plugin/impl/eviction.go:72-105 | with a drain in the enter chain a profile leaves the state only after a committed pass whose drain found no drainable pod, or one whose label had dropped the profile |
| `DrainRuns.DrainedWhileNamed` | plugin/impl/eviction.go:72-105 | while the label names the profile the drained pass is certain |
| `WaitParallel.NothingSentAfterClose` | common/schedule.go:274-296 | under every interleaving nothing is sent on the closed channel |
| `WaitParallel.FinishedExactly` | common/schedule.go:274-296 | when the collector ends, every waiter was received exactly once and the errors are exactly those of the failing waiters |
| `WaitParallel.AlwaysEnds` | common/schedule.go:274-296 | for n ≥ 1 every run can go on until it ends, after exactly 3n + 1 steps |
| `WaitParallel.NoWaitersNeverEnds` | common/schedule.go:257-260 | without waiters nothing can happen and the collector is not finished |
| `Esx.StartNodes` | esx/runnable.go:223-247 | every node goes through power on, uncordon, remove annotation up to its first failure, whatever happens to the others |
| `Esx.ShutdownNodes` | esx/runnable.go:153-209 | every node goes through annotate, cordon, drain, power off up to its first failure |
| `Esx.EnsureLabel` | esx/runnable.go:300-318 | nodes are labelled in order up to the first failing patch, the rest is untouched |
| `Esx.CheckMaintenance` | esx/runnable.go:113-138 | a configured alarm wins over the host's state; nothing is labelled if the host cannot be asked; succeeds iff the state is known and reached every node |
| `Esx.UpdateLabels` | esx/runnable.go:87-100 | each label is sent up to the first failing patch; succeeds iff the maintenance label reached every node |
| `Esx.ReconcileHost` | esx/runnable.go:85-108 | a pass takes every node of the host through label, start, shutdown exactly as far as the answers let it: start and shutdown iff the host's state is known and its label reached all nodes |
| `Esx.AnsweringHost` | esx/runnable.go:85-108 | when the host answers and its label patches are accepted, the pass gets all the way on every node |
| `Esx.SilentHost` | esx/runnable.go:93-100 | where the host does not answer or a label patch fails nothing is powered, and nodes behind the failure are not labelled |
| `EsxRuns.LabelsShow` | esx/runnable.go:300-318 | where the patches are accepted the node carries what the host says |
| `EsxHosts.ParseHostInfo` | esx/runnable.go:283-297 | needs both labels; the zone is the last character of the failure domain |
| `EsxHosts.ParseHostList` | esx/runnable.go:260-281 | fails iff a node misses a label; otherwise the groups are exactly the nodes of each host, in order |
| `EsxHosts.Reconcile` | esx/runnable.go:73-110 | the nodes of every host go through a pass with the answers of that host, in whatever order the hosts come; nothing happens if listing or grouping fails |
| `EsxRuns.OrderOverRuns` | esx/runnable.go:153-247 | on every run, whatever fails: a drain follows annotating and cordoning and uses the grace period of the maintenance state; a power-off is attempted only on a node annotated at the API server, cordoned and found drained in that pass; the annotation is removed only right after the machine was on and the node uncordoned |
| `EsxRuns.StoppedMeansOff` | esx/shutdown.go:52-107 | exactly when a shutdown succeeds; the machine is then off, and it is unplugged only without guest tools or after the guest took too long |
| `EsxRuns.PowerCycle` | esx/runnable.go:153-247 | when nothing fails, a pass under maintenance and one after it are a round trip to a running, schedulable node without annotation |
| `EsxRuns.CordonedPowerOff` | common/schedule.go:47-59 | in a pass during which nobody else uncordons the node, it is cordoned at the API server whenever a power-off is attempted |
| `EsxRuns.PassObliged` | esx/runnable.go:153-247 | a pass keeps: whatever the controller cordoned, stopped or asked to shut down is annotated |
| `EsxRuns.ObligationOverRuns` | esx/runnable.go:153-247 | so does every run without a premature start, through all failures and foreign edits |
| `EsxRuns.LateShutdown` | esx/shutdown.go:74-107 | an outstanding guest shutdown or queued power-off, a successful start or resume, and its late completion leave a stopped node without annotation |
| `EsxRuns.ObligationExact` | esx/start.go:31-56 | from a state with the invariant no pass can break the obligation iff neither a guest shutdown nor a power-off task is outstanding |
| `Configuration.NewTriggerChain` | plugin/plugin.go:174-187 | succeeds iff every trimmed name is known, and holds the names in order |
| `Configuration.NewNotificationChain` | plugin/plugin.go:158-171 | the same for notification instances |
| `Configuration.LoadPluginChains` | controllers/config.go:125-160 | loads iff every chain and target of the state is sound, and says what the descriptor says |
| `Configuration.LoadProfiles` | controllers/config.go:89-123 | loads iff every descriptor is sound; every name maps to its last descriptor, and the default profile exists without one |
| `Configuration.LoadedIsWellFormed` | controllers/config.go:89-160 | whatever is loaded satisfies the preconditions of the run theorems: key equals name, all three states, known targets |
| `Configuration.ChainRoundTrip` | plugin/plugin.go:174-187 | a chain written from names, with or without spaces around `&&`, names exactly those instances |

## Left out

- Trigger plugins that rewrite the profile label during a pass, after which the source would dereference a
  missing entry; other label edits of triggers take effect with the pass, edits of annotations and spec are
  not part of the node.
- Nil entries in the stored profile map, and a check chain with instances but no expression, which is an
  error here where the source would dereference nil.
- History.Conservation: requires that a label that names the profile names nothing twice, because two results
  of one profile in a pass would be counted as one.
- ClusterRuns.BoundOverRuns: requires that the state label is not itself a group label, that reconciles
  are sequential and read the cluster as it is, and that neither
  others nor triggers label nodes in-maintenance or move nodes between groups.
- StaggerRuns.SlidingWindow: requires sequential passes and a nondecreasing clock, as the source does not
  check expiry again when it takes a lease.
- MaxMaintenance.CheckInternal: with `skipAfter` and a profile, requires that counted nodes have an entry for
  the profile, through which the source reads; the bound over runs is for gates without `skipAfter`, which lets
  further nodes in on purpose.
- EsxHosts.ParseHostInfo: requires a non-empty failure domain, of which the source takes the last character.
- EsxRuns.ObligationExact: a patch whose answer is lost has taken effect when the next call is made.
- Stale caches, resource versions and `pollCacheUpdate`: the API server is a store with fresh reads and
  possibly failing writes.
- Parsing of expressions, versions, YAML and JSON: trees and decoded data are inputs; expressions consist of
  names, `!`, `&&`, `||` and parentheses, and evaluation looks at both operands.
- vCenter, OpenStack, Slack, mail and Prometheus: only success and failure of their calls matter.
- Label, annotation, condition, finalizer, node count, semver and time window plugins: single-branch checks.
- Metrics, dashboard, HTTP serving, logging and event recording.
- Time zones, leap seconds, sub-second truncation outside the lease arithmetic, and 32-bit overflow of lease seconds.
