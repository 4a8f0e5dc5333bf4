# Verified model of the etcd cluster membership lifecycle

etcd-release starts and stops every etcd process through `etcdfab`. One run of it lists the members of
the cluster, decides whether etcd starts a new cluster or joins one, adds the node, launches etcd, waits
for it and writes a pid file; another run decides whether the node leaves, removes it, wipes its data and
kills it. The nodes of a deployment share nothing but the membership list, so what the code is for (one
cluster, a quorum during a rolling update, no lost or doubled members) are properties of all
interleavings of these runs. This project models them and proves such properties, and does the same for
the components that watch or test the cluster.

`dafny verify dfyconfig.toml` checks the project.

## How it is built

- **One node.** `Fleet` is the state: clusters with their membership lists, hosts with their processes,
  data directory, pid file and history. `Site` is what one `etcdfab` process calls; each answer of the
  outside world, failures included, is an input. `ClusterController`, `SyncController` and `Application`
  hold the methods in the source's own form, each proved equal to a function of the state and the answers;
  `Lifecycle` proves what whole Starts and Stops do, and `Outcomes` what each leaves of its host and of the
  membership and which error it returns, told by the answers alone.
- **All nodes.** `Protocol` has one atomic step per call. `Refinement` shows that each Start and each Stop
  of `Application` is a run of these steps with its own answers, with the other nodes in any phase;
  `Operations` shows the converse, that a node's steps from beginning one to its end are nothing else.
  `Membership`, `PeerUrls` and `SingleCluster` prove invariants of every interleaving; `Rolling`, `Quorum` and
  `RollingUpdate` prove what serial, failure-free operation keeps for any number of nodes; `FleetUp` shows that
  every deployment has such a state and such a run; `Interleavings` and `Revivals` give the runs that break
  things. Any etcdfab process can also be killed at any time, as monit does after 55 seconds.
- **Identity.** `Config` has names and URLs, `Identities` connects them with the deployments of `Protocol`.
- **Around the cluster.** `SplitBrainDetector` and its composition with the cluster `SplitBrain`; the
  resuming watcher sequentially (`Watcher`) and as interleaved goroutines (`WatcherProtocol`);
  `ErrorSets`, `KeySpammer`, `LogSpammer`, `SyslogChecker`; the leader search and manager in `LeaderFinder`.
- `Text` has the Go text functions the round trips depend on.

## What holds only under a condition

- A Start that fails to sync kills the process named by the pid file it found, not the one it launched.
  The launched process survives exactly unless that file happens to name it
  (`Lifecycle.FailedSyncLeavesProcess`).
- The rollback removes the node exactly if its name is on its entry by then; otherwise an unnamed entry
  stays (`Lifecycle.FailedStartRollsBack`). While the name is never published, no number of further
  Starts, failed at the launch, at the sync or not at all, adds a second one
  (`Lifecycle.UnpublishedEntryStays`), the removal of that entry asks for the empty id
  (`Identities.OwnEntryAgreesExactly`), and the next `--initial-cluster` value does not describe the
  membership (`ClusterController.PlanDescribesMembership`).
- The number of clusters grows exactly with launches that were told "new" and had no data directory
  (`SingleCluster.RunFounds`). The number of live clusters grows exactly with launches into clusters that
  are not live (`SingleCluster.LiveGrowsExactly`). So it can also grow when a node returns to the dead
  cluster of its data directory (`Revivals.DataDirectoryRevives`) or of an old list
  (`Revivals.OldListRevives`), both reached from the empty state;
  `SingleCluster.LaunchRevivesExactly` gives the one cluster a launch makes live. Five failed lists are enough to split a healthy cluster
  (`SingleCluster.FiveFailuresSplit`).
- Peer URLs stay unique while each add is served by the cluster that served the list; an add served by
  another cluster duplicates a URL exactly if that one has it (`PeerUrls.AddKeepsUniqueExactly`), and
  such a run exists (`Revivals.StrayAddReachable`).
- Serial Stops never empty a membership; concurrent Stops of all members do, however many they are
  (`Interleavings.ConcurrentStopsEmpty`). Removals that are on their way can empty a membership exactly if
  every listed node has looked up its id, or is about to and will find its published name
  (`Interleavings.EmptiedExactly`); it stays non-empty while each node begins to leave beside a listed
  one that does not (`Interleavings.RunKeepsNonEmpty`).
- Quorum needs three members while a node is added and not yet running (`Quorum.QuorumExactly`): every turn
  of a rolling update of two nodes (`RollingUpdate.TwoNodesLoseQuorum`) and a Start that finds one member
  (`Quorum.StartFromOneLosesQuorum`) lose it.
- A node name determines job and index only up to the sign of the index
  (`Config.NodeNameInjective`, `Config.NegativeIndexCollides`).
- A reachable member that reports no leader ends the split-brain detector with an error
  (`SplitBrainDetector.EmptyLeaderErrs`).
- The difference the log spammer prints is too small exactly if the line of its last request, which failed,
  arrived (`LogSpammer.DifferenceExactly`).
- The syslog checker computes its percentage with two errors per iteration, but four can occur
  (`SyslogChecker.AtMostFour`).

## Model

| member | source | states |
|---|---|---|
| Site.Site.MemberList | src/etcdfab/client/etcd_client.go:114-132 | an error comes with an empty list, an answer is the list of the cluster that serves it |
| Site.Site.AddMember | src/etcdfab/client/etcd_client.go:134-146 | succeeds iff a cluster answers; then exactly one entry with the URL and an empty name is appended to its list and no host changes; otherwise nothing does |
| Site.Site.RemoveMember | src/etcdfab/client/etcd_client.go:148-155 | succeeds iff a cluster answers and lists the id, which is not empty; then exactly the entries with that id are gone, one if ids are unique; otherwise nothing changes |
| ClusterController.ListFrom | src/etcdfab/cluster/controller.go:44-56 | the list is the first one answered within five tries, or empty when all five fail |
| ClusterController.ListWithRetries | src/etcdfab/cluster/controller.go:44-56 | the loop ends with that list and has slept one second per failure |
| ClusterController.CollectEntries | src/etcdfab/cluster/controller.go:65-78 | every prior member appears as name=url in order, and the flag is set iff some first peer URL is the own one |
| ClusterController.GetInitialClusterState | src/etcdfab/cluster/controller.go:43-97 | outcome, membership change and sleep are those of the specification function, for every pattern of failures |
| ClusterController.InitialClusterRoundTrip | src/etcdfab/cluster/controller.go:72-91 | splitting the string on commas and then at the first equals sign gives the prior members in order, plus the own pair iff its URL was not there |
| ClusterController.PlanDescribesMembership | src/etcdfab/cluster/controller.go:72-91 | the string equals the membership after the add and the publishing iff no own entry was left with another name |
| SyncController.VerifySynced | src/etcdfab/sync/controller.go:37-61 | synced iff one of the first twenty polls succeeds, with one second slept per failed poll and none without a client |
| SyncController.VerdictExact | src/etcdfab/sync/controller.go:37-61 | the answers determine the verdict: the position of the first good poll, or twenty |
| Application.LastWithNameExactly | src/etcdfab/application/application.go:212-217 | the id is that of the last entry with the own name, and empty if there is none |
| Application.PriorClusterHadOtherNodes | src/etcdfab/application/application.go:183-205 | the branches amount to: answered, and more than one entry or one with another name |
| Application.RemoveSelfFromCluster | src/etcdfab/application/application.go:207-224 | the last entry with the own name goes, on a list read afresh; errors change nothing |
| Application.KillByPidFile | src/etcdfab/application/application.go:245-276 | kills the live process the pid file names, removes the file, and returns the error of the step that failed |
| Application.StopNode | src/etcdfab/application/application.go:150-181 | removal if other nodes were listed, then the wipe, then the kill, whatever failed before |
| Application.RollBackStart | src/etcdfab/application/application.go:117-133 | removal only from an existing cluster, then wipe and kill; a kill error hides the sync error |
| Application.FinishStart | src/etcdfab/application/application.go:117-147 | the decimal pid is written only after a sync |
| Application.StartNode | src/etcdfab/application/application.go:80-148 | the whole Start, with an early end at each failing step |
| Lifecycle.StartTimeBound | src/etcdfab/cluster/controller.go:45-87 | no Start requests more than 26 seconds of sleep, no successful one more than 25, below monit's 55 |
| Lifecycle.StartTimeBoundReached | src/etcdfab/sync/controller.go:47-58 | both bounds are reached |
| Lifecycle.StartActsAsEvent | src/etcdfab/application/application.go:80-148 | whatever others do, a Start changes its own host only, in one of three ways, and succeeds iff the pid file is written |
| Lifecycle.StopActsAsEvent | src/etcdfab/application/application.go:150-181 | a Stop changes its own host only, and succeeds iff the kill does |
| Lifecycle.RunKeepsProcesses | src/etcdfab/application/application.go:110-147 | over any run of operations with any failures, each started process is alive or was killed, once |
| Lifecycle.AlternatingRun | src/etcdfab/application/application.go:245-276 | over alternating successful Starts and Stops, the live processes are exactly the one in the pid file, none after a Stop, and all earlier ones were killed once, in order |
| Lifecycle.FailedStartWritesNoPidFile | src/etcdfab/application/application.go:117-147 | after a failed Start the pid file is the old one or gone |
| Lifecycle.FailedSyncLeavesProcess | src/etcdfab/application/application.go:127-132 | the process a failed Start launched survives iff the pid file it found does not name it |
| Lifecycle.RemoveSelfExact | src/etcdfab/application/application.go:207-224 | removal leaves exactly the entries with other URLs if the own name is listed, and everything otherwise |
| Lifecycle.TeardownExact | src/etcdfab/application/application.go:183-205 | with unique entries, a node leaves iff some member with another name is listed |
| Lifecycle.StopKeepsNonEmpty | src/etcdfab/application/application.go:165-174 | a Stop with any failures leaves a non-empty, unique membership non-empty and unique |
| Lifecycle.SerialStopsKeepNonEmpty | src/etcdfab/application/application.go:150-181 | so does any sequence of Stops of any nodes |
| Lifecycle.FailedStartRollsBack | src/etcdfab/application/application.go:117-133 | a Start that fails to sync leaves the prior membership minus itself iff its name was published, else with its unnamed entry |
| Lifecycle.UnpublishedEntryStays | src/etcdfab/application/application.go:93-133 | of any number of Starts that are never published, whatever their outcome, the first whose add is answered leaves one unnamed entry and all others change no membership |
| Outcomes.StopExact | src/etcdfab/application/application.go:150-181 | a Stop removes exactly the own entry iff all three calls are answered and its own name and another are listed; otherwise no membership changes |
| Outcomes.StopLeavesHost | src/etcdfab/application/application.go:165-181 | exactly the process that the pid file names is killed, the data directory is empty if it could be, the file is gone if that process was killed and it could be removed |
| Outcomes.StartLeavesHost | src/etcdfab/application/application.go:80-148 | the host is untouched before the launch, runs the launched etcd after a sync within twenty polls, with its pid written or not, and is taken down after a failed sync |
| Outcomes.DataAfterStart | src/etcdfab/application/application.go:117-133 | after a launch the data directory names the cluster launched into, except that a failed sync empties it if it can |
| Outcomes.DataAfterStop | src/etcdfab/application/application.go:226-243 | a configured Stop empties the data directory whenever it can, and nothing else changes it |
| Outcomes.StartJoins | src/etcdfab/application/application.go:93-147 | a synced Start appends exactly one entry with its URL unless there is one, and puts its name on its entries if it is announced |
| Outcomes.StartFounds | src/etcdfab/cluster/controller.go:58-71 | without listed members and data directory the new cluster has this node, by name, as its only member, even if the sync fails |
| Outcomes.StopErrorExactly | src/etcdfab/application/application.go:150-181 | each error of a Stop is returned iff its own cause occurred and no earlier one |
| Outcomes.StartErrorExactly | src/etcdfab/application/application.go:80-148 | so is each error of a Start; after a failed sync the state of the pid file decides between the kill errors and the sync error |
| Refinement.StopIsRun | src/etcdfab/application/application.go:150-181 | a Stop is the run of one atomic step per call, each with the Stop's own answer to that call, from any state of the others |
| Refinement.StartIsRun | src/etcdfab/application/application.go:80-148 | a Start is the run of one atomic step per call, each with the Start's own answer to that call, from any state of the others |
| Operations.OnlyStops | src/etcdfab/application/application.go:150-181 | whatever uninterrupted steps a node takes from beginning a Stop to being idle again lead to the world of a Stop with some answers |
| Operations.OnlyStarts | src/etcdfab/application/application.go:80-148 | the same for a Start, with its name announced at any time, or never, while it waits for the sync |
| Operations.DecideExactly | src/etcdfab/application/application.go:183-205 | the step goes on to leave iff the list was answered and holds another name or more than one entry, and changes nothing else |
| Membership.StepEvolves | src/etcdfab/application/application.go:207-224 | a step of one node leaves the entries of all others untouched in every cluster, new entries are its own, and only a removal drops one |
| Membership.RunKeepsInv | src/etcdfab/application/application.go:207-224 | over all interleavings, ids are never shared, every entry is some node's, and an id looked up for removal is an own one until used |
| Membership.OthersNeverRemove | src/etcdfab/application/application.go:207-224 | over all interleavings, an entry stays until its own node removes one |
| PeerUrls.AddKeepsUniqueExactly | src/etcdfab/cluster/controller.go:80-87 | an add keeps first peer URLs unique iff the serving cluster does not have the URL |
| PeerUrls.RunKeepsUrlsUnique | src/etcdfab/cluster/controller.go:72-87 | over all interleavings, failed and repeated Starts included, no two entries share a first peer URL, if adds are served by the listed cluster |
| SingleCluster.RunFounds | src/etcdfab/cluster/controller.go:58-71 | over all interleavings, new clusters are as many as launches told "new" without a data directory |
| SingleCluster.NewExactlyOnEmptyList | src/etcdfab/cluster/controller.go:44-71 | the decision is "new" iff the final list was empty or the fifth try failed |
| SingleCluster.LaunchRevivesExactly | src/etcdfab/application/application.go:110-114 | a launch makes exactly one cluster live: that of the data directory, else the listed one, else a new one |
| SingleCluster.LiveGrowsExactly | src/etcdfab/application/application.go:80-181 | a launch adds one to the number of live clusters iff the cluster it goes into is not live, and no other step adds any |
| SingleCluster.ExistingRevivesExactly | src/etcdfab/cluster/controller.go:67-71 | a launch told "existing" adds a live cluster iff that of its data directory is dead or, without data, the listed one has died since |
| SingleCluster.RunRevives | src/etcdfab/application/application.go:80-181 | over all interleavings the number of live clusters grows by at most the launches into clusters that are not live |
| Revivals.DataDirectoryRevives | src/etcdfab/application/application.go:93-114 | from the empty state two nodes reach a Start that is told "existing" and makes a second cluster live, the dead one of its data directory |
| Revivals.OldListRevives | src/etcdfab/cluster/controller.go:44-71 | from the empty state three nodes reach a launch by an old list that makes its dead cluster live beside a newer one |
| SingleCluster.OthersReviveNothing | src/etcdfab/application/application.go:80-181 | no step other than a launch makes a cluster live |
| SingleCluster.AnchoredRun | src/etcdfab/cluster/controller.go:44-71 | while one member runs throughout and lists succeed within five tries, every interleaving keeps exactly one live cluster and unique URLs, and every plan joins it |
| SingleCluster.FiveFailuresSplit | src/etcdfab/cluster/controller.go:45-71 | a node whose five lists fail makes a second live cluster iff it has no data directory |
| Rolling.SmoothRunStaysSerial | src/etcdfab/application/application.go:80-181 | over any serial failure-free run, every node's host and entry are as its phase says, in one cluster |
| Quorum.QuorumExactly | src/etcdfab/application/application.go:165-174 | in every such state a quorum of the members runs iff one is listed, or three while a node is added but not launched |
| Quorum.QuorumThroughout | src/etcdfab/application/application.go:165-174 | rolling updates, scale-up and scale-down in any order keep the quorum if each Start finds two members |
| Quorum.StartFromOneLosesQuorum | src/etcdfab/cluster/controller.go:80-87 | a Start that finds one member loses the quorum with its add |
| Quorum.RollingQuorumExactly | src/etcdfab/application/application.go:165-174 | a rolling update of n >= 2 nodes has a quorum in every state iff n >= 3 or no node is between add and launch |
| Quorum.RollingSize | src/etcdfab/application/application.go:165-174 | the membership has n or n - 1 entries, and a node is absent only in its own turn |
| Quorum.QuietMembership | src/etcdfab/application/application.go:80-181 | between operations the members are exactly the names and URLs of the nodes that are up |
| Quorum.RunConserves | src/etcdfab/application/application.go:80-181 | any serial failure-free run between quiet states with the same nodes up keeps the members and the cluster |
| RollingUpdate.RollingRunStays | src/etcdfab/application/application.go:80-181 | every run of a rolling update keeps one cluster, at most one node away, and a quorum for n >= 3 |
| RollingUpdate.CompleteTurn | src/etcdfab/application/application.go:80-181 | a begun Start or Stop can always be completed without beginning another; then the node is up iff it was a Start, and the others still are |
| RollingUpdate.RollAll | src/etcdfab/application/application.go:80-181 | from any all-up state of two or more nodes there is a run that begins exactly a Stop and a Start of each node of an order, in that order, and ends with all nodes up |
| RollingUpdate.TwoNodesLoseQuorum | src/etcdfab/cluster/controller.go:80-87 | from every all-up state of two nodes, the Stop and Start of each reaches a state, before its launch, without a quorum |
| RollingUpdate.RollingUpdateConserves | src/etcdfab/application/application.go:80-181 | a rolling update ends with the same (name, URL) members and the same cluster |
| FleetUp.RollingUpdateExists | src/etcdfab/application/application.go:80-181 | every deployment of two or more nodes has a state with all nodes up and, from it, a run with a Stop and a Start of each node of any order |
| Interleavings.EmptiedExactly | src/etcdfab/application/application.go:207-224 | in a live cluster with unique URLs, of any size, the removals on their way can empty the membership iff each listed node has looked up its entry's id or is about to and its name is published |
| Interleavings.RunKeepsNonEmpty | src/etcdfab/application/application.go:165-169 | over all interleavings a membership stays non-empty while each node begins to leave only beside another listed node that is not leaving |
| Interleavings.ConcurrentStopsEmpty | src/etcdfab/application/application.go:165-169 | Stops of all members that decide before any removes empty every membership of two or more while all processes run |
| Interleavings.StrayAddDuplicates | src/etcdfab/cluster/controller.go:72-87 | with two live clusters, a list from one and an add to the other duplicate a URL |
| Revivals.StrayAddReachable | src/etcdfab/cluster/controller.go:72-87 | from the empty state two nodes reach such an add, after which two entries share a URL |
| Config.NodeNameDecodes | src/etcdfab/config/config.go:82-84 | splitting at the last dash gives back the normalised name and the index, with the sign of a negative index moved into the name |
| Config.NodeNameInjective | src/etcdfab/config/config.go:82-84 | names are equal iff normalised name and index are, for non-negative indices; for all indices iff the canonical forms are |
| Config.NegativeIndexCollides | src/etcdfab/config/config.go:82-84 | with a negative index two different nodes do share a name |
| Config.PeerURLInjective | src/etcdfab/config/config.go:98-103 | with one DNS suffix, peer URLs are equal iff both use TLS and share the name, or neither does and they share the address |
| Config.PeerURLExactly | src/etcdfab/config/config.go:98-103 | with TLS the URL is name-index below the DNS suffix, else the address, at port 7001 |
| Config.Config.EtcdClientEndpoints | src/etcdfab/config/config.go:128-138 | one shared DNS endpoint with TLS, else one per machine in order, at port 4001 |
| Identities.DistinctExactly | src/etcdfab/config/config.go:82-103 | names and URLs tell all nodes of a deployment apart iff the configurations do pairwise |
| Identities.OwnEntryAgreesExactly | src/etcdfab/application/application.go:213-217 | in every reachable state the entry found by name is the one found by URL iff its name is published, else the empty id is found |
| Identities.NoEntryAgrees | src/etcdfab/cluster/controller.go:74-76 | where no entry is found by URL none is found by name |
| SplitBrainDetector.LeaderFromSelfExactly | src/etcd-consistency-checker/app/app.go:132-165 | a failed GET means an absent member iff its message holds one of the three texts; every other failure, and every status but 200, is an error |
| SplitBrainDetector.GetNodeURLExactly | src/etcd-consistency-checker/app/app.go:167-205 | the same for the member list; of a good one the first client URL of the first node with the id, and an error iff no node has it |
| SplitBrainDetector.ReportedIds | src/etcd-consistency-checker/app/app.go:80-90 | more than one reported id iff two members name different leaders |
| SplitBrainDetector.CheckRound | src/etcd-consistency-checker/app/app.go:66-88 | ends at the first member whose calls err; else maps exactly the reported ids, each to the URL its last reporter gives |
| SplitBrainDetector.Run | src/etcd-consistency-checker/app/app.go:55-98 | over any trace the first round that is not calm decides: its first member error, or else the alarm for two leaders |
| SplitBrainDetector.VerdictUnique | src/etcd-consistency-checker/app/app.go:65-98 | a trace has only one such verdict |
| SplitBrainDetector.EmptyLeaderErrs | src/etcd-consistency-checker/app/app.go:167-205 | a reachable member with an empty leader makes the round fail |
| SplitBrain.AlarmsExactlyOnSplit | src/etcd-consistency-checker/app/app.go:65-98 | in every reachable state, with members that answer from the cluster their etcd runs in and entries that may have no client URL, a round never errs and alarms iff the answering members span two clusters |
| SplitBrain.DetectsFirstSplit | src/etcd-consistency-checker/app/app.go:65-98 | with any Starts and Stops between its rounds, the detector runs on until the first round that sees two clusters, and alarms there |
| SplitBrain.AnchoredNeverAlarms | src/etcd-consistency-checker/app/app.go:65-98 | while one member runs throughout and lists succeed within five tries, it never alarms |
| SplitBrain.FiveFailuresAlarm | src/etcd-consistency-checker/app/app.go:65-98 | after five failed lists of a node without data, the first round in which it and the running member answer alarms |
| Watcher.Watcher.AddData | src/acceptance-tests/testing/helpers/watcher.go:85-91 | one key is set and the index recorded, nothing else changes |
| Watcher.Watcher.Data | src/acceptance-tests/testing/helpers/watcher.go:93-103 | the copy equals the cache |
| Watcher.Watcher.ListenForResponses | src/acceptance-tests/testing/helpers/watcher.go:51-62 | what is received extends the replayed history; empty responses are skipped |
| Watcher.ServedFromResumes | src/acceptance-tests/testing/helpers/watcher.go:36-36 | watching from the last index plus one serves exactly the events not yet applied |
| Watcher.Watcher.Watch | src/acceptance-tests/testing/helpers/watcher.go:25-49 | for any connections, dropped after any number of events of a log that grows between them, the cache is the replay of the delivered prefix, and of the whole log if the last connection lasts for it |
| Watcher.DeliveredExactly | src/acceptance-tests/testing/helpers/watcher.go:33-47 | each connection adds the events it lasts for, or all that its log still has |
| Watcher.ReplayExactly | src/acceptance-tests/testing/helpers/watcher.go:85-91 | a key is in the cache iff some event is about it, with the value of the last one |
| WatcherProtocol.ReplaysPrefix | src/acceptance-tests/testing/helpers/watcher.go:25-62 | over all interleavings of loop, listener, client and growing log, the applied events are a growing prefix of the log and the cache is its replay |
| WatcherProtocol.ReplaysFromStart | src/acceptance-tests/testing/helpers/watcher.go:25-62 | so it is in every run from a new watcher, for any log |
| WatcherProtocol.QuietMeansComplete | src/acceptance-tests/testing/helpers/watcher.go:36-36 | when nothing is left to fetch or hand over, the whole log has been applied |
| WatcherProtocol.CatchesUp | src/acceptance-tests/testing/helpers/watcher.go:31-62 | from every state of the goroutines, unless the loop is ending, some run applies the whole log, whatever connection has dropped |
| WatcherProtocol.BarrierNeeded | src/acceptance-tests/testing/helpers/watcher.go:37-37 | without waiting for the listener an event is applied twice |
| ErrorSets.ErrorSet.AddError | src/acceptance-tests/testing/helpers/error_set.go:21-22 | multiset union with one message |
| ErrorSets.ErrorSet.AddSet | src/acceptance-tests/testing/helpers/error_set.go:17-20 | multiset union with another set, which may be the set itself |
| ErrorSets.ErrorSet.Total | src/acceptance-tests/cf-tls-upgrade/syslogchecker/checker.go:183-186 | the sum of the counts is the size of the multiset |
| ErrorSets.CollectedTotal | src/acceptance-tests/testing/helpers/error_set.go:15-24 | totals are conserved however deep error sets nest |
| KeySpammer.RefusedExactly | src/acceptance-tests/testing/helpers/spammer.go:30-35 | a write is refused iff its error holds the dial text for the address without its scheme |
| KeySpammer.CountedExactly | src/acceptance-tests/testing/helpers/spammer.go:62-71 | a write counts iff it reached the test consumer |
| KeySpammer.CountedInOrder | src/acceptance-tests/testing/helpers/spammer.go:62-71 | the counted writes keep their order and multiplicity |
| KeySpammer.ErrorsExactly | src/acceptance-tests/testing/helpers/spammer.go:62-71 | each failed counted write is its own message, once |
| KeySpammer.KeptExactly | src/acceptance-tests/testing/helpers/spammer.go:57-73 | an index below the attempts has its own value under its own key iff its write succeeded, and there are no other keys |
| KeySpammer.KeptConserves | src/acceptance-tests/testing/helpers/spammer.go:57-73 | keys plus errors equal the attempts |
| KeySpammer.Spammer.Spam | src/acceptance-tests/testing/helpers/spammer.go:44-77 | after the loop, attempts, store and errors are what the counted writes leave behind |
| KeySpammer.Spammer.Check | src/acceptance-tests/testing/helpers/spammer.go:84-106 | one error per key that does not read back; fine iff there were attempts, no errors before and none now |
| KeySpammer.SpamThenCheck | src/acceptance-tests/testing/helpers/spammer.go:30-106 | over a whole run stored + errors = attempts, and Check is fine iff attempts > 0 and every counted write was stored and reads back |
| LogSpammer.LogRoundTrip | src/acceptance-tests/cf-tls-upgrade/logspammer/logspammer.go:200-214 | the number is recovered from the printed line for every newline-free timestamp, brackets in it included |
| LogSpammer.LastCloseExactly | src/acceptance-tests/cf-tls-upgrade/logspammer/logspammer.go:200-208 | a match of the timestamp pattern ends at the last "] " of its line, and there is one iff the line has one |
| LogSpammer.MatchDropped | src/acceptance-tests/cf-tls-upgrade/logspammer/logspammer.go:200-208 | what precedes the first bracket stays, the match goes, and the search continues after it |
| LogSpammer.BracketKept | src/acceptance-tests/cf-tls-upgrade/logspammer/logspammer.go:200-208 | a bracket whose line does not close it stays |
| LogSpammer.TestIgnored | src/acceptance-tests/cf-tls-upgrade/logspammer/logspammer.go:202-205 | a message that holds the word TEST anywhere has no number |
| LogSpammer.NumberExactly | src/acceptance-tests/cf-tls-upgrade/logspammer/logspammer.go:207-214 | the number is what Atoi makes of the text between the second dash and the third, or the end |
| LogSpammer.NoNumber | src/acceptance-tests/cf-tls-upgrade/logspammer/logspammer.go:207-214 | with fewer than two dashes there is none |
| LogSpammer.NumbersExactly | src/acceptance-tests/cf-tls-upgrade/logspammer/logspammer.go:196-219 | a number is collected iff some message has it |
| LogSpammer.MissingExactly | src/acceptance-tests/cf-tls-upgrade/logspammer/logspammer.go:168-173 | the missing numbers are exactly those below logWritten that were not received, in order |
| LogSpammer.MissingCount | src/acceptance-tests/cf-tls-upgrade/logspammer/logspammer.go:175-179 | they are at least logWritten - received, with equality iff everything received is in range |
| LogSpammer.EachResultCounts | src/acceptance-tests/cf-tls-upgrade/logspammer/logspammer.go:101-126 | every request is a written number or an error |
| LogSpammer.RequestedWithin | src/acceptance-tests/cf-tls-upgrade/logspammer/logspammer.go:102-126 | every written number was requested, and no number beyond the next one |
| LogSpammer.Spammer.SendLoop | src/acceptance-tests/cf-tls-upgrade/logspammer/logspammer.go:94-128 | exactly the numbers below logWritten have a time, that of their successful request; each failure is one error and reuses its number |
| LogSpammer.ResultsExactly | src/acceptance-tests/cf-tls-upgrade/logspammer/logspammer.go:108-126 | the times of the successful requests in order, and the message of each failed one |
| LogSpammer.AcceptedExactly | src/acceptance-tests/cf-tls-upgrade/logspammer/logspammer.go:141-151 | a message is kept iff its source is APP/PROC/WEB and it went to standard output, in order |
| LogSpammer.Spammer.ReceiveLoop | src/acceptance-tests/cf-tls-upgrade/logspammer/logspammer.go:131-153 | the messages of the app's standard output are appended in order |
| LogSpammer.Spammer.GetReceivedLogNumbers | src/acceptance-tests/cf-tls-upgrade/logspammer/logspammer.go:196-219 | the loop collects exactly the numbers the messages parse to |
| LogSpammer.Spammer.Check | src/acceptance-tests/cf-tls-upgrade/logspammer/logspammer.go:164-194 | each of the two errors is nil iff its set is empty, and there is one entry with the time of each missing number |
| LogSpammer.MissingAreTheLost | src/acceptance-tests/cf-tls-upgrade/logspammer/logspammer.go:164-219 | whatever order and repetition lines arrive in, the missing numbers are exactly the lost ones |
| LogSpammer.NextRequestedExactly | src/acceptance-tests/cf-tls-upgrade/logspammer/logspammer.go:102-126 | the number logWritten has been requested iff the last request failed |
| LogSpammer.DifferenceExactly | src/acceptance-tests/cf-tls-upgrade/logspammer/logspammer.go:175-179 | the printed difference is exact iff no line with the number logWritten arrived, which takes a failed last request |
| LogSpammer.SendReceiveCheck | src/acceptance-tests/cf-tls-upgrade/logspammer/logspammer.go:46-194 | over a whole run the send errors are nil iff every request succeeded, and the missing entries are those of exactly the written numbers that did not arrive |
| SyslogChecker.CleanupErrorsExactly | src/acceptance-tests/cf-tls-upgrade/syslogchecker/checker.go:132-154 | one error for each of the three commands that failed, with its own text and the output |
| SyslogChecker.Cleanup | src/acceptance-tests/cf-tls-upgrade/syslogchecker/checker.go:132-154 | nil iff nothing failed, else one error per failed command |
| SyslogChecker.Checker.Start | src/acceptance-tests/cf-tls-upgrade/syslogchecker/checker.go:52-73 | the errors of all iterations are added up and all iterations counted |
| SyslogChecker.FailedCallsCount | src/acceptance-tests/cf-tls-upgrade/syslogchecker/checker.go:52-73 | the errors are as many as the deployments and cleanup commands that failed |
| SyslogChecker.AtMostFour | src/acceptance-tests/cf-tls-upgrade/syslogchecker/checker.go:60-67 | the total is at most four per iteration, and that much iff everything failed in each |
| SyslogChecker.ErrPercentExactly | src/acceptance-tests/cf-tls-upgrade/syslogchecker/checker.go:182-187 | the quotient times two per iteration is the number of errors; without iterations it is infinite, or not a number |
| SyslogChecker.ThresholdExactly | src/acceptance-tests/cf-tls-upgrade/syslogchecker/checker.go:187-189 | the threshold is exceeded iff 5 errors > 2 iterations, zero iterations included |
| SyslogChecker.VerdictSticks | src/acceptance-tests/cf-tls-upgrade/syslogchecker/checker.go:189-192 | repeated checks without iterations keep their verdict, each failed one adding an error |
| SyslogChecker.Checker.Check | src/acceptance-tests/cf-tls-upgrade/syslogchecker/checker.go:181-195 | accepts iff 5 errors <= 2 iterations, and a failed check is recorded as one error |
| SyslogChecker.FirstCheck | src/acceptance-tests/cf-tls-upgrade/syslogchecker/checker.go:40-195 | before the first check the total is the number of failed calls, at most 4 per iteration, and the check accepts iff 5 errors <= 2 iterations |
| LeaderFinder.FirstWithIdExactly | src/etcd-proxy/leaderfinder/finder.go:92-101 | the search finds the first member with the id, or none has it |
| LeaderFinder.Find | src/etcd-proxy/leaderfinder/finder.go:52-113 | a leader iff both replies are good and the first member with its id has a non-empty, parsable first client URL, which is returned; each error exactly for its cause |
| LeaderFinder.OutcomeExactly | src/etcd-proxy/leaderfinder/finder.go:52-113 | each error is returned iff its cause occurred and no earlier one; with both replies the first member with the id decides |
| LeaderFinder.Serve | src/etcd-proxy/leaderfinder/manager.go:27-56 | the manager object, driven by any trace of replies, stores and reads, returns at each read the value of the last completed poll |
| LeaderFinder.ReadsLastCompleted | src/etcd-proxy/leaderfinder/manager.go:20-56 | in every interleaving of poll steps and reads, each read gives the value of the last completed poll |
| LeaderFinder.ReadIsLeaderOrDefault | src/etcd-proxy/leaderfinder/manager.go:20-56 | that is the first client URL of the first member with the reported leader's id, else the default |
| LeaderFinder.PollThenRead | src/etcd-proxy/leaderfinder/manager.go:27-42 | after a whole poll a read can give the leader it found, or the default if none, and nothing else |
| LeaderFinder.ReadsBeforeStore | src/etcd-proxy/leaderfinder/manager.go:20-56 | until a poll is stored all reads agree, at first on the default |
| Text.DecimalRoundTrip | src/etcdfab/application/application.go:254-254 | Atoi reads back every printed number a Go int holds |
| Text.AtoiExactly | src/etcdfab/application/application.go:254-254 | digits are read with either sign, within 64 bits |
| Text.AtoiReadsOnly | src/etcdfab/application/application.go:254-254 | nothing but digits with at most one sign is read |
| Text.ContainsExactly | src/etcd-consistency-checker/app/app.go:135-145 | a string contains another iff that one stands somewhere in it |
| Text.SplitJoin | src/etcdfab/cluster/controller.go:91-91 | Split undoes Join for parts without the separator |
| Text.JoinSplit | src/acceptance-tests/cf-tls-upgrade/logspammer/logspammer.go:209-210 | joining the parts gives any string back, and no part holds the separator |

## Left out

- HTTP, TLS, JSON decoding, process and file system calls, logging: their results are inputs.
- etcd and Raft: a cluster is its membership list; only a live cluster answers, an etcd with a data directory
  returns to that cluster, and a running etcd names its own entry. Leader election is an assumption of `SplitBrain`.
- An etcd whose own entry has been removed is taken to run until it is killed. A real one stops by itself; any
  process can do so in `Protocol`, but the failure-free runs of `Rolling` and the run of `ConcurrentStopsEmpty` have no
  such exit, after which the kill would fail and the pid file stay.
- The duplicate-URL check of a real etcd on MemberAdd is not assumed, so uniqueness is proved without it.
- The member id is chosen by the environment and never used twice.
- Members with an empty list of peer URLs: the code takes the first one, so every entry has one.
- An empty list of client URLs at the very member the split-brain detector looks up: the code takes the first
  one, so there is one; other members may have none.
- A round of the split-brain detector sees one state; members it asks during a change are not modelled.
- Unreadable TLS files of the split-brain detector, which end it before the first round.
- A data directory that is wiped in part, and a pid file written in part: both succeed or fail as a whole.
- Pid files that name a negative number or a process of another program.
- `ConfigFromJSONs` and `buildEtcdArgs`: a configuration is read as a whole or not at all, and of the flags
  only `--initial-cluster` and `--initial-cluster-state` matter to the model.
- The 64-bit width of the node index and of etcd indices: indices are mathematical integers.
- Etcd's watch history is taken not to expire, and the prefix is taken to select the log.
- `ResetStore`, the `%q` quoting of a mismatch message and a second `Spam` of the key spammer.
- `CheckStream` and the renewal of an unauthorized stream of the log spammer.
- The twelve steps of one syslog deployment: the model has the one error it returns.
- Floating point in the syslog checker: the quotient is a real number, with zero iterations as cases of their own.
- The 32-bit width of the iteration count.
- The text of the Go errors, except where the code looks into it or the conservation of messages needs it.
- The proxy, the test consumer, the turbulence and iptables agents, and the BOSH jobs and manifests.
- Watcher.Watcher.Watch: models the connections one after the other; their overlap is in WatcherProtocol.
- Quorum.QuorumThroughout: is about runs without failures; with failures the model has SingleCluster and PeerUrls.
