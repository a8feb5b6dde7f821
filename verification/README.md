# A verified model of PodSteer's use-case and domain layers

This project models the parts of PodSteer whose correctness rests on an argument rather than
on a single branch: protocols between goroutines, caches that must survive a disconnect,
parsers with their printers, graph builders that range over Go maps, and the arithmetic
behind the charts. Each file begins with the source file it models.

**Protocols as transition systems.** Four pieces of the program are concurrent state machines
behind one mutex: the topology's change feed (`ChangeFeed.dfy`), the keeper that restores
port-forwards (`ForwardKeeper.dfy`), the shared cluster assessments (`Overview.dfy`) and the
late answers of the fleet view (`FleetLate.dfy`). For each there is a `State`, an `Event` for
every critical section and for every point between two of them where another goroutine may
run, `Enabled`, `Apply` and `Run`. An invariant is proved step by step, and the theorems are
about every reachable state or every run: what is never lost or repeated, what cannot happen
after a close or a disconnect returned, and that every wait can end. Beside each protocol is
the object itself, a class whose critical sections, searches and loops are proved to make
exactly the protocol's transitions.

**Objects refined to a log.** The per-pod usage ring (`UsageRing.dfy`) is a bounded series kept
in place and swept now and then; what it serves is proved to be what an unbounded log that is
never swept would give. It and the two other caches that a disconnect must empty share one
generation guard (`Generations.dfy`), modelled with its 64-bit wrap; the reads those caches share
among their callers are a protocol of their own (`SharedReads.dfy`). The merged table's memo
(`PodMemo.dfy`) is tied to the history of what was read and forgotten.

**Parsers and printers.** Image references (`ImageReference.dfy`) have a grammar of their own,
independent of how the code cuts a string up; validity is exactly being written by the grammar,
and parsing and printing are inverse up to the defaults a runtime fills in. The directory
listing (`DirectoryListing.dfy`, with the proof that it reads back in `DirectoryReadBack.dfy` and
`DirectoryRoundTrip.dfy`) has the script's output as an emitter over abstract entries; the parser
shows a directory as it should be shown exactly when every link target fits a field.

**Graphs and grouping.** Application membership is the least set closed under ownership
(`ApplicationMembers.dfy`), the bounded walk over owner references is exact off cycles
(`OwnerWalk.dfy`), no line of a map dangles and the map does not depend on the order Go walks
its maps in (`DependencyGraph.dfy`, `ApplicationGraph.dfy`, `ObjectGraphs.dfy`). Helm revisions
group canonically (`HelmReleases.dfy`), pods' costs are conserved by attribution
(`Consumption.dfy`), and downsampling partitions (`History.dfy`). Reads over a scope of
namespaces are all or nothing and exactly the scope (`NamespaceScope.dfy`, `ScopeRead.dfy`).

`Ordering.dfy`, `Sequences.dfy`, `Text.dfy` and `Options.dfy` are the vocabulary: stable
sorting, filtering and counting, Go's string functions, an optional value.

Clocks, answers of the Kubernetes API, the settings store, the registry and the transport are
parameters of the events and methods. Where the code meets less than its comments promise, the
model follows the code, gives the run or the input that shows it, and proves exactly when the
promise holds: `ForgetHoldsExactlyWhen`, `ArrivalExactlyWhen`, `JoinedExactlyWhen`,
`DisconnectHoldsExactlyWhen`, `InTimeHoldsExactlyWhen`, `CanStartExactlyWhen` (with
`SecondDisconnectDoesNotWait`), `RoundTripExactlyWhen`, `CutExactlyWhen` (with
`CutStreamIsAccepted`), `CountExactlyWhen` (with `CycleOvercounts`), `ViaAnyOrderExactlyWhen`,
`SpacingExactlyWhen` (with `OvertakenReadingCrowds`), `OnePointExactlyWhen` and
`DownsampleExactlyWhen`.

## Model

| member | source | states |
|---|---|---|
| ChangeFeedProtocol.Step | app/application/topology.go:248-386 | every critical section and every move of a timer's goroutine keeps the feed's invariant |
| ChangeFeedProtocol.WaitGroupBalanced | app/application/topology.go:259-386 | in every reachable state the WaitGroup counts exactly the armed timers and unfinished callbacks, and every batch has had one Done when it is over and none before |
| ChangeFeedProtocol.AnnouncementCovers | app/application/topology.go:332-370 | an announcement covers every change its batch gathered that lies in the scope drawn when it was flushed, and names only namespaces that changed |
| ChangeFeedProtocol.NoBatchLostOrRepeated | app/application/topology.go:295-370 | an accepted change is still gathering, was announced, or was dropped for a reason the protocol names; no batch is announced twice to a subscriber |
| ChangeFeedProtocol.CallbackLeavesOthers | app/application/topology.go:332-370 | a callback, stale or not, never touches or removes another batch |
| ChangeFeedProtocol.NothingAfterCloseReturns | app/application/topology.go:374-386 | in any run, after Close returns no timer fires, no callback runs and no subscriber is called |
| ChangeFeedProtocol.CloseCanReturn | app/application/topology.go:374-386 | from every state in which the feed is closed the unfinished callbacks alone can bring Close back |
| ChangeFeedProtocol.NumbersDoNotReturn | app/application/topology.go:248-275 | a drawing's number never names a later drawing |
| ChangeFeedProtocol.RedrawnClusterStaysWatched | app/application/topology.go:271-278 | forgetting a drawing whose cluster has been drawn again since leaves the newer drawing alone |
| ChangeFeedObject.ChangeFeed.Release | app/application/topology.go:259-269 | forgets the drawing and stops the pending timer, giving back its count exactly when Stop was in time |
| ChangeFeedObject.ChangeFeed.Changed | app/application/topology.go:295-330 | gathers a change into its cluster's pending batch, arms a new one, or refuses it, as the protocol's step does |
| ChangeFeedObject.ChangeFeed.Flush | app/application/topology.go:332-360 | takes the batch when it is still the cluster's, and summarises it against the scope drawn |
| ChangeFeedObject.ChangeFeed.Close | app/application/topology.go:374-386 | stops every pending timer and gives back one count for each that had not fired |
| ForwardKeeperProtocol.Step | app/application/forwardkeeper.go:339-502 | every step of connects, disconnects, restores and closes keeps the keeper's invariant |
| ForwardKeeperProtocol.RegisteredRunIsAtWork | app/application/forwardkeeper.go:339-385 | a registered restore is its cluster's own and has not ended |
| ForwardKeeperProtocol.OneRestorePerCluster | app/application/forwardkeeper.go:339-385 | of two restores of a cluster at work at once, a disconnect has taken one |
| ForwardKeeperProtocol.SuccessorKeepsItsEntry | app/application/forwardkeeper.go:355-363 | a finishing restore drops no entry but its own |
| ForwardKeeperProtocol.CancelledRestoreStartsAtMostOne | app/application/forwardkeeper.go:389-468 | in any run, a cancelled restore starts no forward but one it had passed both checks for |
| ForwardKeeperProtocol.DisconnectedRunStartsNothing | app/application/forwardkeeper.go:375-385 | when ClusterDisconnected returns, the restore it found is over and never starts a forward again |
| ForwardKeeperProtocol.ClusterAtRestStartsNothing | app/application/forwardkeeper.go:368-385 | once every disconnect of a cluster has returned, nothing starts a forward there in the background before it is connected again |
| ForwardKeeperProtocol.SecondDisconnectDoesNotWait | app/application/forwardkeeper.go:375-385 | a second disconnect at the same time returns at once, while the first one's restore can still start a forward |
| ForwardKeeperProtocol.CanStartExactlyWhen | app/application/forwardkeeper.go:339-468 | a forward of a cluster can still be started in the background before it is connected again exactly when one of its restores, registered or taken, has a start ahead of it |
| ForwardKeeperProtocol.NothingAfterClose | app/application/forwardkeeper.go:495-502 | after Close has returned no restore is left, none begins, and no forward is started in the background |
| ForwardKeeperProtocol.DisconnectCanReturn | app/application/forwardkeeper.go:375-385 | a waiting disconnect can return by steps of the restore it waits for alone |
| ForwardKeeperProtocol.CloseCanReturn | app/application/forwardkeeper.go:495-502 | a waiting Close can return by steps of the restores alone |
| ForwardKeeperProtocol.RestoreStartsInOrder | app/application/forwardkeeper.go:389-410 | a restore starts each item of its list at most once, in the list's order |
| ForwardKeeperObject.ForwardKeeper.ClusterConnected | app/application/forwardkeeper.go:339-366 | registers a new restore exactly when the keeper is open and none is registered |
| ForwardKeeperObject.ForwardKeeper.Take | app/application/forwardkeeper.go:375-379 | a disconnect takes the registered restore, and the entry is clear |
| ForwardKeeperObject.ForwardKeeper.DropOwnEntry | app/application/forwardkeeper.go:355-363 | the deferred cleanup drops the entry only when it is its own |
| ForwardKeeperObject.ForwardKeeper.StartKept | app/application/forwardkeeper.go:431-475 | a forward is started exactly when every answer lets it and the context is not over |
| ForwardKeeperObject.ForwardKeeper.RestoreAlone | app/application/forwardkeeper.go:389-410 | left alone, a restore starts exactly the kept forwards that are not live and whose way is clear, in order, and none under a context that is over |
| ForwardKeeperObject.ReplaceKept | app/application/forwardkeeper.go:196-206 | the other ports' definitions in their order, then the new one |
| ForwardKeeperObject.ReplaceKeptMeans | app/application/forwardkeeper.go:196-206 | the port has that one definition and every other port what it had |
| ForwardKeeperObject.ReplaceKeptOnePerPort | app/application/forwardkeeper.go:196-206 | a list with one definition to a port keeps one to a port |
| ForwardKeeperObject.RemoveKept | app/application/forwardkeeper.go:237-258 | writes exactly when the port was kept, and then what the settings hold without it |
| ForwardKeeperObject.ForgetAfterKeep | app/application/forwardkeeper.go:196-258 | keeping a forward and forgetting it is forgetting it |
| OverviewProtocol.Step | app/application/overview.go:245-319 | every step of callers, leaders and forgets keeps the invariant |
| OverviewProtocol.OneAssessmentPerCluster | app/application/overview.go:264-290 | at most one shared assessment of a cluster is under way |
| OverviewProtocol.WaitersShareTheAnswer | app/application/overview.go:264-301 | everybody who returns from one assessment returns the same answer, the leader's, about the same cluster |
| OverviewProtocol.CachedAnswerIsFresh | app/application/overview.go:257-262 | a cached answer is no older than its caller asked and is about its own cluster |
| OverviewProtocol.CachedTimeNeverMovesBack | app/application/overview.go:284-319 | between forgets a cluster's entry stays and its time never moves backwards |
| OverviewProtocol.ForgetHoldsExactlyWhen | app/application/overview.go:284-319 | an assessment begun before a disconnect can be cached after it exactly when one is in flight that has not failed |
| OverviewProtocol.ArrivalExactlyWhen | app/application/overview.go:245-319 | a caller who arrives after a disconnect can be given an assessment begun before it exactly when one is in flight, bound to fail or not |
| OverviewProtocol.WaiterCanReturn | app/application/overview.go:264-301 | a waiter can return within three steps, all of the caller that leads the assessment it waits for |
| OverviewObject.OverviewService.LookUp | app/application/overview.go:256-279 | serves, joins or leads, making the protocol's step |
| OverviewObject.OverviewService.Keep | app/application/overview.go:284-294 | takes the assessment out of the table and caches it exactly when it succeeded |
| FleetLateProtocol.LateKeyIdentifies | app/application/fleet.go:467-478 | distinct questions never share a key |
| FleetLateProtocol.PrefixIdentifies | app/application/fleet.go:151-160 | a cluster's prefix picks out its own questions and no others |
| FleetLateProtocol.Step | app/application/fleet.go:493-562 | every operation on the shared map keeps the invariant |
| FleetLateProtocol.ShownAnswersTheQuestion | app/application/fleet.go:519-562 | a late answer shown is of a completed read of the same cluster, read and scope, at most two minutes old, and shown once |
| FleetLateProtocol.InvalidateDropsExactly | app/application/fleet.go:151-160 | a disconnect drops exactly the answers held for its cluster |
| FleetLateProtocol.DisconnectHoldsExactlyWhen | app/application/fleet.go:151-160 | an answer begun before a disconnect can be shown to a read begun after it exactly when some read of the cluster is outstanding |
| FleetLateProtocol.InTimeHoldsExactlyWhen | app/application/fleet.go:513-534 | after an answer in time, an older answer to the question can still be shown exactly when an earlier read of the question is outstanding |
| FleetServiceObject.FleetService.TakeLate | app/application/fleet.go:543-554 | hands out the answer held for the question unless it is old, and removes it either way |
| FleetServiceObject.FleetService.Invalidate | app/application/fleet.go:151-160 | the loop over the map drops exactly the entries under the cluster's prefix |
| FleetServiceObject.FleetService.SweepLate | app/application/fleet.go:176-183 | the loop over the map drops exactly the entries past their age |
| PodMemos.LastRowsMean | app/application/fleet_podquery.go:41-75 | what is kept of a cluster is what its last read to bring rows brought, with nothing since but slow or unreachable reads |
| PodMemos.RowsAnswerTheQuestion | app/application/fleet_podquery.go:41-69 | rows shown for a cluster and scope were brought by a read of that cluster and scope |
| PodMemos.PodMemo.Share | app/application/fleet_podquery.go:41-69 | the rows shown, their count, when they were brought and whether they are stale, from the history of reads |
| PodMemos.PodMemo.MergedPods | app/application/fleet_podquery.go:131-146 | the shares own up to exactly the rows merged, in tab order |
| Generations.StoredSinceLastForget | app/application/podusage.go:56-132 | in any run of overlapping reads and forgets, a read whose write is in for a cluster is of that cluster, and since it began the cluster was forgotten a multiple of 2^64 times |
| Generations.LandsExactlyWhen | app/application/metricsquery.go:636-658 | a write lands exactly when the forgets since its read began are a multiple of 2^64 |
| Generations.GuardedCache.Get | app/application/metricsquery.go:598-607 | serves what the read whose write landed last for the cluster brought, exactly when it is of the same backend and within its time |
| Generations.GuardedCache.Put | app/application/traffic.go:568-579 | stores exactly when the guard lets it, and nothing else changes |
| Generations.GuardedCache.Drop | app/application/metricsquery.go:660-671 | drops the cluster's entry and moves its generation on |
| Generations.BackendKeyIdentifies | app/application/metricsquery.go:673-675 | two backends have one key exactly when they are the same |
| SharedReads.OneFlightForEachKey | app/application/metricsquery.go:355-381 | at most one read of a cluster and backend is in flight, and whoever is given an answer is given one of its own cluster and backend |
| SharedReads.JoinedExactlyWhen | app/application/traffic.go:484-544 | a caller who arrives after a disconnect can be given an answer begun before it exactly when some read of the cluster was in flight |
| UsageRing.BoundedKeeps | app/application/podusage.go:84-92 | filing a point that fits, in order or not, keeps the bounded series the end of the unbounded log, lacking only what is too old |
| UsageRing.SpacingExactlyWhen | app/application/podusage.go:84-88 | a point filed, whenever its time was taken, leaves consecutive points two seconds apart exactly when it does not take the place of the last one right after the one before |
| UsageRing.OvertakenReadingCrowds | app/application/workload.go:120 | a reading of 1.9 seconds filed after one of 2 seconds is left right after the one of 0 |
| UsageRing.SweepKeeps | app/application/podusage.go:95-102 | sweeping a series loses nothing that would be served |
| UsageRing.ServedIsLatest | app/application/podusage.go:104-117 | what the series serves is the latest two hundred of the whole log's points younger than an hour |
| UsageRing.PodUsageRing.Record | app/application/podusage.go:64-102 | the log gains exactly the read's measured pods when the cluster was not forgotten since the read began, whatever time the read took, and stays ordered exactly when every reading fits |
| UsageRing.PodUsageRing.Since | app/application/podusage.go:104-117 | each point is younger than an hour and was brought by a read whose write is in since the last forget; in an ordered log they are the latest two hundred, two seconds apart |
| UsageRing.PodUsageRing.Drop | app/application/podusage.go:120-132 | forgets exactly one cluster's series and moves its generation on |
| UsageRing.LogIsSurvivors | app/application/podusage.go:64-92 | the log of a run of reads is exactly the reads that no other follows within two seconds |
| UsageRing.OnePointExactlyWhen | app/application/podusage.go:84-88 | a run of reads leaves a single point exactly when each follows the one before within two seconds |
| NamespaceScopes.NamespaceScope.Search | app/domain/namespace.go:317-322 | the binary search finds exactly the names in the scope |
| NamespaceScopes.NewNamespaceScope | app/domain/namespace.go:282-302 | refuses exactly when an entry is no namespace name; else names exactly the entries that are not blank, sorted and each once |
| NamespaceScopes.ScopeOf | app/domain/namespace.go:304-311 | the scope of one namespace includes that one, and the scope of all includes every one |
| NamespaceScopes.KeyInjective | app/domain/namespace.go:331-342 | two scopes have one key exactly when they include the same namespaces |
| ScopeRead.PerNamespace | app/application/scope.go:77-108 | whatever order the concurrent tasks run in, one list per namespace in scope order or the first failure in scope order |
| ScopeRead.ReadScoped | app/application/scope.go:33-75 | the cluster-wide list filtered, or one list per namespace where that is refused or chosen |
| ScopeRead.ReadIsExactlyTheScope | app/application/scope.go:33-75 | over a consistent cluster and any refusals, a read that succeeds is exactly the objects whose namespace the scope includes |
| ScopeRead.ReadFailsExactlyWhen | app/application/scope.go:33-108 | when a read fails and with which error |
| ScopeRead.MergeTables | app/application/browse.go:283-312 | the rows of every table, and the caps and truncation of the whole |
| ScopeRead.ReadTableScoped | app/application/browse.go:239-281 | a table over a scope, filtered or merged |
| ScopeRead.TableReadIsHonest | app/application/browse.go:239-312 | a filtered or merged table claims to be whole only when it holds every row of the scope |
| ApplicationMembers.FindMembers | app/domain/application_graph.go:70-89 | the fixpoint holds exactly the ids that an owner chain from a labelled candidate reaches, each with the last labelled candidate of that id, or else one that a member owns |
| ApplicationMembers.MembersDetermined | app/domain/application_graph.go:70-89 | with no two candidates of one id, the members are one function of what was offered, in whatever order |
| ApplicationMembers.BelongsIsLeast | app/domain/application_graph.go:61-89 | membership is the least set that holds the labelled and is closed under being owned |
| ApplicationMembers.FindPods | app/domain/application_graph.go:91-103 | the pods that carry the label or that a member controls, in order |
| ApplicationMembers.ApplicationPods | app/domain/application_graph.go:105-111 | exactly the pods of what belongs, as often as they come, in name order and otherwise the order they came |
| OwnerWalk.CountPods | app/domain/application_graph.go:138-157 | the pod counts are the visits of the bounded walks |
| OwnerWalk.WalkVisitsWhatIsReached | app/domain/application_graph.go:152-156 | the bound on the walk loses nothing, cycles or not |
| OwnerWalk.PositiveExactlyWhenReached | app/domain/application_graph.go:138-157 | a member's count is positive exactly when some drawn pod's owner chain reaches it |
| OwnerWalk.ExactOffCycles | app/domain/application_graph.go:138-157 | off a cycle the count is the number of pods beneath |
| OwnerWalk.CountExactlyWhen | app/domain/application_graph.go:138-157 | the count is never too small, and is the number of pods beneath exactly when no pod's chain comes back to the member within the bound |
| OwnerWalk.CycleOvercounts | app/domain/application_graph.go:152-156 | on a cycle one pod can count twice |
| DependencyGraph.SelectorMatches | app/domain/graph.go:376-393 | every key matches, and an empty selector matches nothing |
| DependencyGraph.PodGraph.AddAttached | app/domain/graph.go:327-354 | one box for each resource not drawn yet and one line for each resource mentioned |
| DependencyGraph.PodGraph.AddServices | app/domain/graph.go:598-645 | a box and a line for each selected pod, for services that select or are kept regardless |
| DependencyGraph.ServiceEdgeExactlyWhenSelected | app/domain/graph.go:598-645 | among the lines added for services, one from a service to a pod is drawn exactly when the service selects the pod |
| DependencyGraph.OneBoxPerResource | app/domain/graph.go:327-354 | the boxes attached are new, distinct, and exactly those missing |
| DependencyGraph.OneLinePerResource | app/domain/graph.go:327-354 | each resource mentioned has exactly one line from its consumer |
| DependencyGraph.PodGraph.Sort | app/domain/graph.go:356-374 | boxes and lines in their stable order |
| ApplicationGraph.NewApplicationGraph | app/domain/application_graph.go:120-211 | the boxes in full and the lines, from the two walks of the member map; the box ids and the lines are the same for every walk, and no line dangles |
| ApplicationGraph.EdgesAnyOrder | app/domain/application_graph.go:159-211 | the sorted lines do not depend on the order of walking the member map |
| ApplicationGraph.KeysAnyOrder | app/domain/application_graph.go:159-211 | the sorted box ids do not depend on it either |
| ApplicationGraph.ViaIsShown | app/domain/application_graph.go:194-207 | the box of an attached resource says how its first mention, in the order of the walk, reads it |
| ApplicationGraph.ViaAnyOrderExactlyWhen | app/domain/application_graph.go:194-207 | what an attached resource's box says of how it is read is the same for every walk exactly when a drawn pod reads the resource, or the members that declare it themselves agree |
| ApplicationGraph.ServiceLineExactlyWhen | app/domain/application_graph.go:190-192 | a line from a service to a pod is on the finished map exactly when a service of that name is offered and selects a drawn pod of that name |
| ApplicationGraph.NoLineDangles | app/domain/application_graph.go:120-211 | both ends of every line are boxes |
| ApplicationGraph.OwnAttachmentsExactlyWhen | app/domain/application_graph.go:194-207 | a member declares its own attachments exactly when no member owns it and no drawn pod's owner chain reaches it |
| ObjectGraphs.NewPodGraph | app/domain/graph.go:201-234 | the map around a pod, sorted, with no dangling line |
| ObjectGraphs.PodMapJoined | app/domain/graph.go:201-354 | both ends of every line of a pod's map are boxes of it |
| ObjectGraphs.PodServiceLineExactlyWhen | app/domain/graph.go:201-324 | a line from a service is on a pod's finished map exactly when a service of that name is offered and selects the pod |
| ObjectGraphs.NewWorkloadGraph | app/domain/graph.go:490-587 | the map around a workload, sorted, with no dangling line; a resource every pod reads is one box |
| ObjectGraphs.WorkloadMapJoined | app/domain/graph.go:490-660 | both ends of every line of a workload's map are boxes of it |
| ObjectGraphs.WorkloadServiceLineExactlyWhen | app/domain/graph.go:490-660 | a line from a service to a pod is on a workload's finished map exactly when a service of that name is offered and selects a drawn pod of that name |
| ObjectGraphs.CreatorIsDrawn | app/domain/graph.go:518-545 | what a pod hangs from is an intermediate that lists it, or the workload |
| ImageReferences.ValidImageReference | app/domain/image.go:47-102 | a string is valid exactly when the grammar writes it |
| ImageReferences.CutRender | app/domain/image.go:47-102 | cutting up what the grammar wrote gives back the parts, so the grammar is unambiguous |
| ImageReferences.ParseImageReference | app/domain/imagereport.go:95-140 | parses to the parts the grammar gives, with the defaults filled in, or refuses |
| ImageReferences.ParsedMeans | app/domain/imagereport.go:88-140 | exactly what strips to a reference of the grammar parses, and to that reference's own parts |
| ImageReferences.ParseRoundTrip | app/domain/imagereport.go:60-140 | what a parsed reference prints is valid and parses to the same parts |
| ImageReferences.StringIdentifies | app/domain/imagereport.go:60-140 | two names print alike exactly when they parse alike |
| ImageReferences.RepoIdentifies | app/domain/imagereport.go:75-77 | two parsed names have one Repo exactly when registry and repository agree |
| ImageReferences.ImageTagAgrees | app/domain/graph.go:395-415 | on every valid reference the box shows the parsed tag, or the start of the parsed digest |
| ImageReferences.MatchNodeImage | app/domain/imagereport.go:345-376 | the first entry named by the digest, else the first of the same repository and tag |
| ImageReferences.MatchMeans | app/domain/imagereport.go:345-376 | the entry found is one of the node's, and none is found only when no name matches |
| ImageReferences.OtherNames | app/domain/imagereport.go:401-422 | exactly the names not on screen and not empty, each once, in order |
| DirectoryListings.RunListScript | app/domain/filebrowse.go:179-253 | what the script prints for a directory |
| DirectoryListings.ParseListOutput | app/domain/filebrowse.go:263-348 | what the scan of the lines comes to |
| DirectoryRoundTrip.RoundTripExactlyWhen | app/domain/filebrowse.go:179-393 | the parser shows the directory as it should be shown exactly when every link target printed is one word other than the mark for none |
| DirectoryListings.ListingIsCapped | app/domain/filebrowse.go:301-347 | for any input the entries are the names up to the cap, truncation is owned up to, and so is every skipped name |
| DirectoryListings.AcceptedExactlyWhen | app/domain/filebrowse.go:263-348 | a scan that gets through is taken for a listing exactly when a line of it is a name, a mark of truncation or the end |
| DirectoryRoundTrip.AllPassedOver | app/domain/filebrowse.go:213-222 | when nothing is cut off every name with a newline is counted |
| DirectoryRoundTrip.CutStreamIsAccepted | app/domain/filebrowse.go:332-334 | a stream cut inside its first name is taken for a whole listing of one entry, by as much of its name as got through |
| DirectoryRoundTrip.CutExactlyWhen | app/domain/filebrowse.go:179-348 | the stream of a directory cut after any of its characters is shown as whole, accepted and not marked as cut, exactly when no entry's line was torn, no mark of truncation got through, and a name or the end did |
| DirectoryRoundTrip.DeniedIsRefused | app/domain/filebrowse.go:179-293 | a directory the shell cannot enter is refused as denied |
| DirectoryListings.SortListing | app/domain/filebrowse.go:378-393 | the array is sorted in place, stably |
| DirectoryListings.ListingOrder | app/domain/filebrowse.go:378-393 | directories before everything else, each group by lower-cased name |
| HelmReleases.GroupHelmRevisions | app/domain/helm.go:250-307 | the releases of the specification, by namespace and name |
| HelmReleases.ReleaseMeans | app/domain/helm.go:276-297 | each release holds exactly its own revisions, and none is newer than its current one |
| HelmReleases.EveryRevisionOnce | app/domain/helm.go:250-297 | every named revision is returned exactly once and nothing else is |
| HelmReleases.ReleasesOrdered | app/domain/helm.go:299-306 | releases in order of namespace and name, no two alike |
| HelmReleases.GroupingIsCanonical | app/domain/helm.go:223-307 | with distinct Secret names in each namespace the result does not depend on the input's order |
| Consumption.NewAggregateUsage | app/domain/aggregate_usage.go:107-130 | the reading of the pods, with no more measured or measurable than there are |
| Consumption.AggregateAdds | app/domain/aggregate_usage.go:107-130 | two lists of pods together read as the sum of the two |
| Consumption.AttributionKeyIdentifies | app/domain/aggregate_usage.go:210-215 | a key names one object |
| Consumption.WorkloadConsumption | app/domain/aggregate_usage.go:165-208 | each row is the reading of the pods charged to its controller |
| Consumption.AttributionConserves | app/domain/aggregate_usage.go:132-208 | over a list of one kind with distinct controllers the rows add up to the reading of exactly the pods that resolve to one of them |
| Consumption.ChargedExactlyWhen | app/domain/aggregate_usage.go:132-208 | a pod is charged to a controller of the list exactly when that is its own controller, or none of the list is and that controls the controller it has |
| History.Average | app/domain/history.go:202-245 | the mean of a run of samples, at the moment of its last, with usage measured exactly when some sample measured it |
| History.MeanBetween | app/domain/history.go:202-245 | each averaged figure lies between the least and the greatest of its run |
| History.MeanUsageBetween | app/domain/history.go:219-243 | when some sample measured usage, the average lies between the least and the greatest of those that did |
| History.MeanNodes | app/domain/history.go:202-245 | averaging never reports more nodes ready than there are |
| History.Downsample | app/domain/history.go:176-200 | the means of the buckets between the boundaries, however those are rounded, or the series itself when it is short enough |
| History.BucketsFollow | app/domain/history.go:188-198 | whatever rising boundaries are used, the buckets follow each other without gap or overlap |
| History.DownsampleExactlyWhen | app/domain/history.go:176-200 | for any rising boundaries time order is kept, every sample is in a bucket exactly when the last boundary does not fall short, and there are as many points as asked for exactly when no bucket is empty |
| History.DownsamplePartitions | app/domain/history.go:176-200 | with exact boundaries there are exactly as many buckets as asked for, none empty, every sample in one, in order of time, ending when the series ends |

## Left out

- Identities of pointers (a pending change, a restore run, an assessment call) are numbers that are never reused.
- The weak memory model, the scheduler and fairness: a step is a critical section or what a goroutine does between two of them, and progress says that a wait can end, not that it will.
- Panic recovery and what a panicking subscriber, restore or assessment leaves behind.
- The drawings counter of the change feed is unbounded; the source counts in 64 bits.
- ForwardKeeperObject.ForwardKeeper.RecordOutcome: the map of failure reasons and the Paused listing built from it are not modelled, only that recording separates one item from the next.
- The Resume button and Keep's derivation of a definition from a live forward.
- OverviewProtocol.Step: the record of when a cluster was last asked about, and the retries inside one assessment, are not modelled.
- Generations.GuardedCache.Get: the node check and the source probe behind the two caches are opaque values and their times to live parameters; their verdicts are table lookups.
- FleetLateProtocol.Step: an invalidation and a sweep are one step each, where the source ranges over a concurrent map.
- The status a settled read is given and its logging.
- UsageRing.PodUsageRing.Record: takes the pods of one read as its cluster's own.
- ApplicationGraph.NewApplicationGraph: the text beside a box is modelled for attached resources only, and its kind, namespace and the list of unreadable sources are not.
- The digest note and the image report around MatchNodeImage.
- Regular expressions are predicates on characters; DNS labels, image components, hosts, tags and digests are spelled out.
- DirectoryListings.ParseListOutput: whether a name is valid UTF-8 is not modelled.
- DirectoryListings.ListingOrder: lower-casing is that of ASCII letters, where the source folds all of Unicode.
- The shell itself: the script is modelled by what it prints for abstract directory entries.
- ScopeRead.PerNamespace: the limit on concurrent reads and the cancellation of the rest are not modelled; any order of the tasks is.
- mergeListings and filterListing for vulnerability reports, which follow the pattern of the tables.
- History.DownsamplePartitions: takes exact boundaries; binary floating point itself is not modelled, only what any rising rounding gives.
- Int64 overflow in sums of usage and history.
- Percentages, thresholds, retention and sampling intervals, deprecation and distribution tables, which are single branches.
