# Verification of the global hub and its syncers

A Dafny model of the multicluster global hub: a Kubernetes-style API server on which users create
policies, and one syncer per regional hub that applies the policies below and reports their status
back. The project proves what the system is for: updates and deletions are not lost under any
interleaving of events, workers, failures and retries; copies keep their provenance all the way
round the loop, down as configuration and up as status; and the compliance summary that is adjusted by wrapping differences under
concurrent writers is the one a recomputation would give.

`dafny verify dfyconfig.toml` checks the whole project.

## How it is laid out

| file | what it holds |
|---|---|
| `Options.dfy`, `KubeObjects.dfy` | optional values; API objects, the two comparisons that suppress updates, the configuration sent to another hub |
| `SyncMachine.dfy` | a syncer as a state machine: informer cache, undelivered events, work queue, any number of workers, target hub; one action per atomic step, so a sequence of actions is one interleaving |
| `SyncSoundness.dfy` | queue and worker invariants, and the protocol every key follows |
| `SyncConvergence.dfy` | no update, deletion or status is lost; what the target hub holds |
| `Handlers.dfy` | what the event handlers let through and drop, field by field |
| `SyncRuns.dfy` | runs a syncer can make from any consistent state: a live key processed to its end |
| `SyncEligibility.dfy` | exactly when only eligible objects are applied below |
| `SyncEconomy.dfy` | no needless writes: updates that change nothing of what is synced |
| `SyncRest.dfy` | exactly when a key can come to rest, and when a deletion is carried out below |
| `SyncLimits.dfy` | runs that show where the other guarantees end |
| `StatusRest.dfy` | the status syncer when an object below is deleted; exactly whose status can be lost |
| `SyncController.dfy` | the controller as a class, each method proved to take the machine's step |
| `Compliance.dfy`, `SummaryCodec.dfy` | the summary, its in-place update, its encoding in a policy's status |
| `ConcurrentReports.dfy` | updaters racing under resource versions and conflict retry |
| `PolicyController.dfy` | the reconcile of the global hub's policy controller |
| `ClosedLoop.dfy`, `Provenance.dfy` | any number of syncers, each the same two machines, around one global hub, with users and the policy controller |
| `LoopConvergence.dfy` | what is proved of one syncer holds of each one in the loop; policy down and status back up |
| `StoredSummaries.dfy` | the summaries the racing workers of the policy controller store in the loop |
| `CurrentSummaries.dfy` | exactly when an entry is current; from the regional hub's status into the stored summary |
| `Labelling.dfy` | exactly when a policy gets its label, and what becomes of one that did not |
| `LoopLimits.dfy`, `Echo.dfy` | why a summary needs a name of its own, and why users must treat the label with care |
| `Text.dfy`, `WatchCacheSizes.dfy`, `RuntimeConfig.dfy`, `APIServices.dfy` | start-up: option parsing and printing, option rewrite, service registration, health gate |
| `HubClassification.dfy` | the managed-cluster lists of the hub record |

Reading notes:

- An action that is not enabled changes nothing, so every theorem about `Run` ranges over all
  sequences of actions. Actions carry the choices the program does not make: which event arrives,
  how a request ends (accepted, refused, or lost: an error although it took effect), who moves.
- Undelivered informer events may be delivered in any order, which includes the order of each informer.
- The target hub below is the last configuration applied by the field manager "syncer"; the status
  is a subresource, so an apply below does not set it. Nobody else deletes upstream copies.
- The upstream copy of an object is looked up in the syncer's namespace, so that of a cluster-scoped object is never found
  and is applied afresh each time. A report is retried on conflict five times, as client-go's default retry does.
- Sync-down delete events carry the object. A tombstone would make the handler dereference a nil pointer.
- A new upstream copy is made by two patches, object then status, and anything may happen in between.
- A policy's status on the global hub is a subresource: users' creates and edits and the labelling do not touch it,
  and only the policy controller writes it.
- Where the code falls short of what its comments promise, the code is modelled, runs show the failure, and a
  theorem over all runs says when it cannot happen: eligibility is not tested again when a key is processed
  (`SyncEligibility`), a delete of what is not below is retried for ever and a policy that loses its label and is
  then deleted stays below (`SyncRest`), a deletion below is retried for ever and never reaches the copy above, and
  policies of one name in two namespaces share one upstream copy (`StatusRest`, `LoopLimits`), errors of a first
  upstream apply are swallowed (`SyncLimits`), a failed labelling (`Labelling`) and a failed report
  (`CurrentSummaries`) are not repeated.
- A key is live when it is dirty, waiting, about to be enqueued by an undelivered event, or held by a worker whose
  processing has not succeeded yet; busy also counts a worker that only has to give the key back.
- In the closed loop users create policies in namespaces that are not syncers' names, and are otherwise free. A user
  treats a policy with care who neither strips nor falsifies its origin label, and does not create a name again while
  a spec syncer still caches it or is busy with its key. A name is spoiled once some user did not; provenance is
  proved for every name that is not spoiled, whatever happens to others, and `Echo.EchoIsApplied` shows what care
  prevents.
- A spoiled copy can carry a syncer's namespace as its origin. The model then finds no policy to report to, where the
  program would write a summary into the copy of that name there; no other name is touched by this.

## Model

| member | source | states |
|---|---|---|
| KubeObjects.DeepEqualApartFromStatus | syncer/specsyncer.go:20-44 | the loop answers exactly whether the two downstream configurations have equal labels, annotations and non-status content, with missing equal to null and no labels equal to empty labels |
| KubeObjects.DeepEqualStatus | syncer/statussyncer.go:46-57 | the answer is true exactly when reporting either object's status would give any copy the same content |
| KubeObjects.SameEssenceIffConfigurationsAgree | syncer/specsyncer.go:26-43 | equality of essences, an equivalence, is agreement of the stripped configurations on labels, annotations and every non-status field |
| KubeObjects.StrippedKeepsEssence | syncer/specsyncer.go:99-111 | stripping loses nothing the comparison looks at |
| KubeObjects.StrippedIsPortable | syncer/specsyncer.go:99-111 | the configuration is free of identity and server-owned metadata and independent of whatever of it a hub added; a portable object is its own configuration |
| KubeObjects.SameEssenceSameEligibility | syncer/syncer.go:174-189 | a suppressed update never changes eligibility |
| KubeObjects.StatusIsOneField | syncer/statussyncer.go:101-109 | writing a status writes that field and no other, and is read back |
| KubeObjects.LabelsAreOneField | server/controllers/globalhubcontroller/policy_controller.go:72-80 | writing labels writes nothing else and is read back; no labels read as an empty map |
| SyncSoundness.ReachableSound | syncer/syncer.go:292-313 | in every reachable state the queue lists exactly the dirty keys nobody holds, each once, and no two workers hold one key |
| SyncSoundness.RunLogged | syncer/syncer.go:292-313 | every key follows the protocol taken, result, Forget or re-add to fit the result, Done; a failed key is waiting or dirty until its next attempt |
| SyncSoundness.TurnCounts | syncer/syncer.go:294-312 | following the protocol means: takes and Dones, results and Forgets or re-adds match in number |
| SyncSoundness.NoFailedWorkLost | syncer/syncer.go:286-313 | in every reachable state, with any number of workers, a taken key is in flight or was given back after exactly one Done and exactly one of Forget (success) or re-add (failure) |
| SyncSoundness.ErrorIsReturned | syncer/syncer.go:329-346 | which outcome of each request makes processing fail: every refused or lost one, a stale version, and deleting what is not there; only the two patches of a new upstream copy are swallowed |
| SyncConvergence.SuppressedKeepsAgreement | syncer/syncer.go:161-195 | an event the handlers drop leaves what the target should hold as it was |
| SyncConvergence.WriteAgrees | syncer/syncer.go:329-346 | a worker whose snapshot agrees with the cache leaves an agreeing copy, fails and will retry, or swallows an apply error |
| SyncConvergence.NoLostUpdate | syncer/syncer.go:133-223 | in every reachable state an eligible cached object is pending, in flight unread or with an agreeing snapshot or about to retry, or its downstream copy agrees on labels, annotations and non-status content |
| SyncConvergence.NoLostDeletion | syncer/syncer.go:196-222 | a key whose object was eligible when it left and has not returned is pending, in flight, or absent downstream |
| SyncConvergence.NoLostStatus | syncer/statussyncer.go:73-110 | a cached policy that shares its copy with no other observed object had its last apply error swallowed, or is pending, in flight with an agreeing snapshot, or its copy in the syncer's namespace has its status |
| SyncConvergence.RestingKeyIsSynced | syncer/syncer.go:315-347 | a key at rest, whatever the syncer does with others, has below the essence of its eligible object, or nothing if that was deleted while eligible |
| SyncConvergence.RestingStatusIsReported | syncer/statussyncer.go:73-110 | a key of the status syncer at rest has its status in its copy, if it shares the copy with no other observed object and no error of it was swallowed |
| SyncConvergence.QuietMeansSynced | syncer/syncer.go:315-347 | corollary: a syncer wholly at rest has every key synced |
| SyncConvergence.TargetHoldsConfigurations | syncer/specsyncer.go:94-126 | in every reachable state each object on a target hub is a portable configuration under its own key, and below in a namespace that was made sure of |
| SyncConvergence.WrittenInFull | syncer/specsyncer.go:94-126 | what each accepted write leaves: below a copy of the object, or nothing for an absent one; above a new copy without its status, then that status and nothing else; no other object changes |
| SyncConvergence.LookedUpInFull | syncer/statussyncer.go:91-101 | a namespaced object's copy is looked up in the syncer's namespace, and a cluster-scoped one is never found |
| Handlers.EventsLetThrough | syncer/syncer.go:134-222 | an add or delete is enqueued if and only if the object is synced in this direction; an update moreover only if it changes labels, annotations or content other than status (down), or the status (up) |
| Handlers.StatusIsNotReapplied | syncer/specsyncer.go:36-38 | a status set on an object is never a reason to apply it below, and a new one always a reason to report it |
| SyncEconomy.NoNeedlessWrite | syncer/syncer.go:161-195 | over any run in which all that is seen of a resting key agrees with what was cached in the part that is synced, the key never gets busy and its copy below is not rewritten |
| SyncEligibility.OnlyEligibleApplied | syncer/syncer.go:134-222 | in every run in which the informer never sees a key ineligible while it is live, whatever is below under that key is eligible |
| SyncEligibility.StaleKeyIsApplied | syncer/syncer.go:315-347 | from every reachable state in which a key is live, an object seen without its label can be applied |
| SyncEligibility.IneligibleAppliedIffLive | syncer/syncer.go:315-347 | after any such run, seeing an ineligible object can put an ineligible object below if and only if the key is live then |
| SyncRest.StuckStays | syncer/specsyncer.go:60-62 | a key whose object is gone, with nothing below and none held, stays pending or held in every continuation that does not see it again, and the syncer is never quiet |
| SyncRest.RestsIffNotStuck | syncer/syncer.go:304-312 | from every reachable state a key can come to rest without being seen again if and only if it is not stuck so: what decides is whether something is below, or about to be, when the delete is processed |
| SyncRest.DeletedBeforeAppliedIsStuck | syncer/specsyncer.go:60-62 | from every reachable state, an eligible object seen and deleted before anything of it was applied or read leaves its key stuck |
| SyncRest.DeletedBelowIffLabelled | syncer/syncer.go:196-222 | deleting an object can lead to the deletion of its copy, without its being seen again, if and only if it carries its label at that moment or its key is live |
| SyncLimits.UnlabelledThenDeletedStays | syncer/syncer.go:209-217 | from every reachable state, for all objects: applied, label removed, deleted, and the key rests with the copy still below |
| SyncLimits.SharedNameLosesStatus | syncer/statussyncer.go:91-107 | from every reachable state that has seen neither of two policies of one name and different status, one can rest with its status lost |
| SyncLimits.SwallowedErrorLosesStatus | syncer/statussyncer.go:92-96 | from every reachable state without the copy, a refused first apply is swallowed and the key rests unreported |
| StatusRest.StatusLostIffShared | syncer/statussyncer.go:91-107 | in every reachable state, as long as no further object appears, an observed object's status can be lost with no error swallowed if and only if another observed object is copied to the same place |
| StatusRest.DeletionIsStuck | syncer/syncer.go:337-340 | from every reachable state, deleting a wanted object leaves its key busy and the status syncer never quiet in every continuation that does not see it again, and its copy stays |
| StatusRest.RestsIffNotStuckUp | syncer/syncer.go:315-347 | from every reachable state a key of the status syncer can come to rest without being seen again if and only if its object is cached, or it is not pending and no worker that is bound to fail holds it |
| SyncController.Controller.HandleUpdate | syncer/syncer.go:161-195 | the key is queued if the object is synced in this direction and differs in the part that is, field by field; otherwise nothing changes at all |
| SyncController.Controller.ProcessNextWorkItem | syncer/syncer.go:292-313 | one undisturbed turn is the machine's steps in order: take, read, look up, write, write the status of a new copy, report, give back |
| SyncController.Controller.Execute | syncer/syncer.go:286-290 | a controller driven by any schedule ends in the state the theorems about runs describe |
| Compliance.CountClusters | server/controllers/globalhubcontroller/policy_controller.go:119-134 | the counts are the numbers of compliant and non-compliant clusters, reduced to 32 bits |
| Compliance.ComplianceSummary.UpdateEntry | server/controllers/globalhubcontroller/policy_controller.go:154-160 | one entry takes the new counts and the totals the wrapped differences |
| Compliance.ComplianceSummary.Update | server/controllers/globalhubcontroller/policy_controller.go:152-166 | the loop merges the report into the entries and moves each total by the change of the entries' sum |
| Compliance.RecordKeepsTotals | server/controllers/globalhubcontroller/policy_controller.go:152-166 | totals congruent to their sums modulo 2^32 stay so, and others do not become so, with duplicates and wrapping differences |
| Compliance.ReportEntersSummary | server/controllers/globalhubcontroller/policy_controller.go:152-166 | every entry of the reporting hub becomes the report, there is one, a new one goes to the end, and no other entry changes |
| Compliance.ReportMovesTotals | server/controllers/globalhubcontroller/policy_controller.go:154-165 | a new hub's counts are added to the totals, a known hub's differences are, modulo 2^32 |
| Compliance.RightTotalsAreExact | server/controllers/globalhubcontroller/policy_controller.go:156-164 | congruent totals are the true sums when those are below 2^32 |
| Compliance.SumsAreSums | server/controllers/globalhubcontroller/policy_controller.go:152-166 | the sums the totals are compared with add up the counts of the entries, each under its own counter |
| Compliance.IncrementalIsRecomputed | server/controllers/globalhubcontroller/policy_controller.go:143-166 | after any reports the summary equals the one computed afresh: one entry per hub in order of first report, its latest counts, the sums as totals |
| Compliance.RecordMore | server/controllers/globalhubcontroller/policy_controller.go:143-166 | recording more reports on a recomputed summary is recomputing from them all |
| Compliance.HubsDistinct | server/controllers/globalhubcontroller/policy_controller.go:152-166 | the entries' names are distinct and are exactly those of the hubs that reported |
| Compliance.ReportsCommute | server/controllers/globalhubcontroller/policy_controller.go:152-166 | reports of different hubs commute on any summary, up to the order of two new entries |
| Compliance.ReportsAreIdempotent | server/controllers/globalhubcontroller/policy_controller.go:152-166 | repeating a report changes nothing |
| SummaryCodec.SummaryRoundTrip | server/controllers/globalhubcontroller/policy_controller.go:24-34 | a summary written with zero fields omitted is read back unchanged |
| SummaryCodec.EncodedInFull | server/controllers/globalhubcontroller/policy_controller.go:24-34 | each count and name is written under its own key, and zeros are left out |
| SummaryCodec.DecodedInFull | server/controllers/globalhubcontroller/policy_controller.go:143-150 | a stored value is read if and only if every count in it is missing, null or an unsigned 32-bit number and every name a text, and each is read from its own key |
| SummaryCodec.ReconciledStatus | server/controllers/globalhubcontroller/policy_controller.go:136-178 | a reconcile fails exactly on an unreadable summary, else the stored summary is the recorded one and other status fields are untouched |
| PolicyController.Reconcile | server/controllers/globalhubcontroller/policy_controller.go:62-108 | the object gets its namespace as label and no other change if it has no label; is left alone if it has that one; reports nothing without a list; and otherwise reports to the label's namespace, under its own, the numbers of "Compliant" and "NonCompliant" items modulo 2^32 |
| PolicyController.ReportCounts | server/controllers/globalhubcontroller/policy_controller.go:119-134 | what of a status can be read, and which count is which, on the raw list of clusters |
| PolicyController.UpdateGlobalHubPolicy | server/controllers/globalhubcontroller/policy_controller.go:136-178 | the status written is the reconciled one |
| PolicyController.EligibleIffFromGlobalHub | server/controllers/globalhubcontroller/policy_controller.go:85-88 | the controller and the spec syncer agree on which policies are the global hub's own |
| Labelling.LabelledIff | server/controllers/globalhubcontroller/policy_controller.go:72-83 | after a reconcile of an unlabelled policy it is labelled if and only if it was, or the update was accepted under the current version; else it is overlooked |
| Labelling.OverlookedStays | server/controllers/globalhubcontroller/generic_controller.go:139-142 | until a user touches it or the informer sees it again, an overlooked policy has no label whatever else happens; and while its name is not spoiled no spec syncer queues it, holds it or changes what is below |
| Labelling.SeenAgainIsLabelled | server/controllers/globalhubcontroller/policy_controller.go:72-83 | once the informer has seen the policy as it is, an accepted reconcile leaves it labelled if and only if it carried no other namespace's label |
| ConcurrentReports.NoLostReports | server/controllers/globalhubcontroller/policy_controller.go:101-106 | from any status, with any updaters interleaving get, compute and write, and the policy removed and created again at any time, the stored summary is the one it was created with and all reports written since recorded in order; one that cannot be read stays and nothing is written |
| ConcurrentReports.RecomputedStays | server/controllers/globalhubcontroller/policy_controller.go:110-187 | a summary recomputed from a history, or none, becomes the one recomputed from the history and all written reports |
| ConcurrentReports.AcceptedIsWritten | server/controllers/globalhubcontroller/policy_controller.go:101-187 | from any reachable world, an accepted write adds its report and records it in the stored summary if and only if the policy is there under the version that was read |
| ConcurrentReports.AbandonedOnlyUnderContention | server/controllers/globalhubcontroller/policy_controller.go:101-105 | a report is given up on conflict only after five writes by others |
| Provenance.LoopKeeps | server/controllers/globalhubcontroller/policy_controller.go:69-106 | the invariant of the whole loop holds in every reachable state for every name that no user spoiled |
| Provenance.CopiesCarryTheirOrigin | syncer/statussyncer.go:87-138 | every copy of an unspoiled name in a syncer's namespace carries the label of a user's policy of its name that this syncer applied, is ineligible, and is never queued, held or applied by any spec syncer |
| Echo.EchoIsApplied | syncer/syncer.go:147-155 | for every policy and every way to strip its label, a reachable world in which a copy is eligible and the spec syncer has applied it below |
| StoredSummaries.StoredSummaryIsRecomputed | server/controllers/globalhubcontroller/policy_controller.go:101-187 | in every reachable world, with workers racing and users editing, removing and re-creating policies, the summary in a policy's status is the one recomputed from the reports written to it since its creation |
| StoredSummaries.SummaryEntriesAreTheOrigins | server/controllers/globalhubcontroller/policy_controller.go:90-106 | every entry of the stored summary of an unspoiled name is named after a syncer that applied that policy and holds the counts of its copy there; if that syncer applied no other policy of the name, of a status the policy itself had there |
| LoopLimits.SharedNameMisreports | syncer/statussyncer.go:91-107 | for all pairs of labelled policies of one name and every status with counts, a reachable world, with all users careful, stores the second one's counts in the first one's summary |
| CurrentSummaries.ReportIsCurrent | server/controllers/globalhubcontroller/generic_controller.go:45-57 | in every reachable world, what a copy the controller has cached reports is queued again, underway, missed, or in the summary stored in its policy |
| CurrentSummaries.AttemptEnds | server/controllers/globalhubcontroller/policy_controller.go:101-106 | after an attempt the report is the entry of its hub if and only if it was before or the write was accepted under the version it was computed from; an attempt that ends otherwise is missed |
| CurrentSummaries.ConflictIsRetried | server/controllers/globalhubcontroller/policy_controller.go:101-106 | the first four conflicts send a worker back to get the policy again, the fifth ends the attempt |
| CurrentSummaries.TakenIsNotMissed | server/controllers/globalhubcontroller/generic_controller.go:95-113 | a worker that takes a copy removes it from the queue and starts afresh |
| CurrentSummaries.MissedStays | server/controllers/globalhubcontroller/generic_controller.go:139-142 | once nobody is to report from a copy, its hub's entry stays as it is, whatever moves follow, until the informer sees the copy again or the policy is removed |
| CurrentSummaries.SeenAgainIsReported | server/controllers/globalhubcontroller/policy_controller.go:90-106 | once the informer has seen the copy, an undisturbed attempt puts its report into the summary |
| CurrentSummaries.SummaryFollowsRegion | server/controllers/globalhubcontroller/policy_controller.go:90-187 | when a policy is at rest with a syncer and the controller has nothing more to do about its copy, the stored summary has an entry of the syncer's name, with the numbers of compliant and non-compliant clusters that the policy's status lists on the regional hub, unless the report was missed, an error swallowed, or its name shared there or spoiled |
| LoopConvergence.SyncersStayReachable | syncer/syncer.go:47-64 | whatever happens around the loop, each spec and status syncer is in a state it can reach alone, so the convergence theorems hold of it |
| LoopConvergence.RunKeepsStatuses | syncer/specsyncer.go:46-63 | a regional hub has statuses only of the policies it has, so a policy applied again after its deletion starts without one |
| LoopConvergence.RoundTheLoop | syncer/statussyncer.go:73-110 | when one policy is at rest with a syncer, whatever else goes on, its configuration is below; if no other policy applied there has its name and no error of it was swallowed, its copy above has its regional status, and its origin if its name is not spoiled |
| WatchCacheSizes.ParseWatchCacheSizes | server/apiserver/server.go:646-664 | a list is accepted if and only if each entry is a name, one separator and a numeral of a value from 0 to 2^63-1; an accepted list gives its map, a rejected one the error of its first bad entry |
| WatchCacheSizes.EntryMeans | server/apiserver/server.go:649-662 | an entry with one separator is an invalid size if its text is no numeral or does not fit 64 bits, a negative one below zero, and else gives the value its digits denote to the key its name stands for |
| WatchCacheSizes.OtherEntryMeans | server/apiserver/server.go:649-652 | an entry is an invalid value if and only if it has no separator or more than one |
| WatchCacheSizes.FirstErrorIsGiven | server/apiserver/server.go:648-663 | the error of a list is that of its first unacceptable entry |
| WatchCacheSizes.LastEntryWins | server/apiserver/server.go:648-663 | each listed resource gets the size of its last entry, and no other resource any |
| WatchCacheSizes.WriteWatchCacheSizes | server/apiserver/server.go:666-677 | every key is printed once, in any order; a negative size is an error naming its key |
| WatchCacheSizes.PrintedInFull | server/apiserver/server.go:674 | what is printed for a key: its name with a dot only before a group, the separator, and the plain decimal without sign or leading zero |
| WatchCacheSizes.PrintParseRoundTrip | server/apiserver/server.go:646-677 | parsing what was printed, in any order, gives the map back if and only if no resource holds a dot or hash and no group a hash |
| WatchCacheSizes.CompleteCacheSizes | server/apiserver/server.go:552-566 | the completed option stands for the defaults overridden by the user's entries; a bad list is rejected with its error |
| WatchCacheSizes.CompleteTwice | server/apiserver/server.go:552-566 | completing again leaves the map unchanged |
| RuntimeConfig.APIEnablement.Rewrite | server/apiserver/server.go:568-577 | the loop is a range over the map in some order, with or without a visit to the inserted key |
| RuntimeConfig.RewriteIsSafe | server/apiserver/server.go:568-577 | in any order no legacy or dropped key remains, other keys keep their values, and "/v1" holds a legacy value if there was one, else its own |
| RuntimeConfig.LegacyIs | server/apiserver/server.go:569-570 | a key is legacy if and only if it is "v1" or "api/v1" or begins with one of them and a slash |
| RuntimeConfig.AnyLegacyValueCanWin | server/apiserver/server.go:568-573 | which legacy value "/v1" gets is decided by the visit order alone: each can win |
| APIServices.VersionAtIff | server/apiserver/aggregator.go:295-312 | a path stands for a group version exactly if it is that version's path |
| APIServices.APIServicesToRegister | server/apiserver/aggregator.go:292-321 | exactly the group versions with a priority and a listed path are registered, each with its own group, version, name and the two priorities of its table entry |
| APIServices.PrioritiesOrder | server/apiserver/aggregator.go:256-290 | the versions of a group share its priority, its stable version outranks the others, and the core group outranks every other |
| APIServices.NameReadsBack | server/apiserver/aggregator.go:206-208 | a service's name is version, dot, group, and both can be read back from it |
| APIServices.HealthGate.constructor | server/apiserver/aggregator.go:220-225 | the awaited names are those of the registered services |
| APIServices.HealthGate.HandleChange | server/apiserver/aggregator.go:228-237 | the awaited names stay those not yet seen available |
| APIServices.HealthGate.Check | server/apiserver/aggregator.go:246-253 | healthy exactly when every name has been seen available |
| APIServices.RunGate | server/apiserver/aggregator.go:217-254 | from paths and events: healthy exactly when every registered group version's service was seen available at least once |
| APIServices.HealthyStays | server/apiserver/aggregator.go:227-237 | no event makes a healthy gate unhealthy or a name awaited again |
| HubClassification.Classify | syncer/statussyncer.go:173-207 | each list holds the names of the clusters of its class, in order; a first availability condition of "True" lists as available, "False" as unavailable, anything else as unknown |
| HubClassification.ListedInFull | syncer/statussyncer.go:184-206 | which list a cluster is in, from the text of its first availability condition, or as unknown without a list of conditions |
| HubClassification.NobodyElseListed | syncer/statussyncer.go:181-206 | a cluster with conditions none of which tells availability is not listed |
| HubClassification.ListsPartitionClusters | syncer/statussyncer.go:173-207 | with distinct names the lists are disjoint and hold exactly the clusters of their class |
| HubClassification.ListsKeepOrder | syncer/statussyncer.go:174-207 | the lists keep the order of the clusters |
| HubClassification.SuppressedUpdateKeepsClass | syncer/statussyncer.go:46-57 | an update with equal status never changes a cluster's class |

## Left out

- Liveness: the theorems say what is pending and where a key can get, not that it gets there; no fairness is assumed.
- Shutdown of the queue, rate-limit timing, and the internals of client-go informers and server-side apply merging, whose contracts the machine uses.
- Tombstones: a sync-down delete event without its object crashes the handler, and is excluded.
- The label selectors of the informers: an object they filter out never reaches the model.
- SyncConvergence.NoLostStatus: holds for policies and managed clusters only; for CRDs and add-ons the syncer writes the hub record and no copy.
- Closed loop: an informer catches up with the present state of a key in one step, at any time.
- The other methods of the controller class in `SyncController.dfy` are the steps of the machine in place and have no row of their own.
- Decoding of foreign JSON: keys are matched exactly, where the program's decoder also accepts other letter case.
