# A model of the SmbShare operator

The operator keeps one Samba server group per set of SmbShare resources. It is run as a series of
reconcile passes. A pass looks at one share, finds the first thing that is not in order, performs at most
one write to the shared object store, and asks to be called again. Several shares can own the same
ConfigMap, workload and Service. This project models those passes, the ownership protocol between shares,
the planner that edits the stored Samba configuration, and the assembly of pod volumes, and proves what
holds of every pass and of every run.

How the parts fit together:

- `SmbApi`, `ContainerConfig`, `Cluster`: the resources, the stored configuration and the object store.
  A client call can fail without effect; the set of failing calls of a pass is its `Faults`. A Go panic
  is an outcome of its own.
- `Planning`: the planner as a class that edits its configuration step by step, each method
  proved against a function. `Idmap` builds the ID-mapping options in loops. `PlannerTheorems` and
  `IdmapTheorems` state what those functions mean.
- `Ownership`, `Compatible`: owner references as lists that are searched, filtered and rewritten in
  place, and the compatibility check of two shares.
- `Reconcile`: what a pass decides, as functions. `Manager`: the share manager as a class that runs the
  passes on its store and counts its writes; every method is proved to do exactly what `Reconcile`
  decides. `Justification` sums up what must be true when an action is performed.
- `Provision`, `PlannerMeaning`, `Heirs` and `Failures` say what those decisions amount to, in the names and values
  that the cluster and smb.conf have for them: which objects a share gets and in which order, what a planned
  configuration says option by option, who inherits an object, and what failing calls can do.
- `Runs`: any interleaving of passes (with faults), user edits, deletions and garbage collection, starting
  from the empty store. `Survival`, `Eviction`, `Controllers`, `Control`, `LockIn`, `Replicas` and `FirstOwner`
  are about what runs keep; `ConfigRuns`, `Sections` and `Rivals` about the stored configurations; `Convergence`
  and `Readiness` about what repeated passes of one share reach, `GroupConvergence`, `Harmony` and `Contention`
  about several shares at once, `Finalization` about the passes of a departing one; `Panics` about when a pass
  panics. `Scenarios` and `Departures` go through concrete runs from the empty store.
- `Volumes`, `Pods`, `PodBuilding`, `PodTheorems`, `PodContents`: the volume keeper over its backing array, what the
  four kinds of pods are made of, the builders, the closure and data isolation of every pod, and exactly which
  containers and volumes it has and who mounts what.

Some properties one might expect are false. Each is stated with the exact condition under which it holds:

- A second planner update reports a change if and only if an enabled custom option contradicts the spec
  (`PlannerTheorems.UpdateTwice`). Such a share is never done (`Convergence.ContradictionNeverDone`).
- A second prune changes nothing if and only if the share was listed at most once
  (`PlannerTheorems.PruneTwice`), and update then prune restores an instance's list if and only if it did
  not list the share before (`PlannerTheorems.UpdateThenPrune`).
- Ownership is claimed by name alone, but kept by uid. A finished share keeps its ConfigMap, workload and
  Service in every run of its lifetime if and only if their references carry its uid
  (`Eviction.DoneSurvivesIff`). A run in which a name is reused breaks this (`Scenarios.ReuseLosesConfigMap`);
  a share that was not created while the object carried its name is safe, whatever other names are reused
  (`Survival.DoneSurvives`).
- A finished share keeps its section of the configuration, while nobody creates or edits shares, if and only
  if no other share is or will be one of its group under the same name (`Rivals.SectionStaysIffUnrivalled`).
  In the run of `Rivals.TwinTakesSection` a second share with that name takes the section with it.
- A pass panics exactly when its share or the first other owner lacks a PVC that is about to be read, or a
  map of the stored configuration that is about to be written is nil, or its ConfigMap has no data
  (`Panics.PassPanicsIff`). `Scenarios.FourthPassPanics` is a run that does; `Scenarios.NullMapPanics` is about
  text in which maps are null.
- Repeated passes need not end at Done. Without failing calls they do if and only if the share is ready
  (`Readiness.DoneIffReady`): it does not contradict itself, a group can be chosen, the resources it names are
  there, the stored configuration can take it, the first other owner agrees with it before its PVC is named and
  after, the recorded backend fits, clustering is allowed if asked for, and there is a PVC to build on.
- Several shares need not settle. Shares that have a PVC, own their ConfigMap and agree with its first other owner
  do, in every interleaving, if and only if none contradicts itself and no two of one group insist on different
  options under one name (`Contention.SettleIffConcord`). Otherwise two of them undo each other for ever
  (`Contention.Duel`); `Contention.TwinsNeverSettle` gets there from the empty store.
- A departing share is released if and only if its group's configuration and the owner references of the objects
  it hands over parse (`Finalization.ReleasedIffReleasable`).
- A departing share that is the controller need not hand over to another live owner. An object ends up with
  another controller if and only if it is one that the share's spec asks for now, or another owner was in
  control from the start (`Controllers.DepartureLeavesControllerIff`). For the ConfigMap that is always so. For the
  workload it means that the availability mode still fits the recorded backend
  (`Controllers.WorkloadKeepsControllerIff`). In the run of `Departures.EditedModeLosesController` it was edited,
  and the StatefulSet of a live share is left with a controller that is gone.
- A transfer goes by name. The new controller is a share that exists, and not only one of its name, if and only if
  the reference to it is up to date (`Controllers.TransferIsSafe`). In the run of `Scenarios.StaleTransfer` it is not.
- In a whole run every object that a live share owns has a controller that exists if and only if every event is
  orderly (`Control.ControlledIffOrderly`): nobody claims the object while it has no such controller, control
  goes to nobody who is gone, and its controller is not released while a live share owns it.
- A clustered pod shows the share's PVC to the CTDB containers too if and only if its state PVC is that same
  PVC, which a user can bring about by naming (`PodTheorems.DataClaimIsolation`). By volume name, isolation
  holds without exception (`PodTheorems.PodsAreClosed`).

## Model

| member | source | states |
|---|---|---|
| `Manager.SmbShareManager.Process` | internal/resources/smbshare.go:73-103 | a pass leaves exactly the store that the pure decision describes, reports its result, and makes one write if the decided action writes and none otherwise |
| `Manager.SmbShareManager.Update` | internal/resources/smbshare.go:106-197 | an update performs the first step that is not in order, and only that one; Done means that every step was idle |
| `Manager.SmbShareManager.Finalize` | internal/resources/smbshare.go:489-522 | a finalization hands over, prunes, and only then removes the finalizer, one write per pass |
| `Manager.SmbShareManager.UpdateConfiguration` | internal/resources/smbshare.go:673-755 | the peer check comes before the planner, an unchanged configuration is not written, and every error path leaves the store alone |
| `Manager.SmbShareManager.PruneConfiguration` | internal/resources/smbshare.go:757-815 | the share is taken out of the configuration and the result stored only if it differs |
| `Manager.SmbShareManager.ClaimOwnership` | internal/resources/smbshare.go:883-912 | a share that no reference names is appended as a plain owner, a malformed reference met first is an error |
| `Manager.SmbShareManager.TransferOwnership` | internal/resources/smbshare.go:915-1001 | the controller flag moves to the first other owner that is alive, unless another owner has it or none is alive |
| `Manager.SmbShareManager.SetServerGroup` | internal/resources/smbshare.go:827-881 | the group is recorded once, from the mode and name asked for; contradictory requests are errors |
| `Manager.SmbShareManager.ValidateBackend` | internal/resources/smbshare.go:286-327 | a recorded backend that does not fit the availability mode is an error |
| `Manager.SmbShareManager.UpdateClusteredState` | internal/resources/smbshare.go:329-387 | state PVC, StatefulSet, claim and size in this order, one write per pass |
| `Manager.SmbShareManager.GetOrCreate` | internal/resources/getters.go:288-361 | an object that exists is returned unchanged, one that does not is created under the share's control |
| `Manager.SmbShareManager.GetShareInstance` | internal/resources/getters.go:520-542 | an error if and only if a configuration resource the share names is missing or cannot be fetched, otherwise the share with exactly the resources it names |
| `Justification.NextJustified` | internal/resources/smbshare.go:106-197 | whatever a pass decides, its guard holds: what is created did not exist, what is claimed was not owned, what is stored passed the peer check |
| `Convergence.PassPays` | internal/resources/smbshare.go:106-197 | in any store, hand-edited ConfigMaps included, every requeued pass on a live consistent share lowers a debt of at most 24, whatever client calls fail |
| `Convergence.PassesConverge` | internal/resources/smbshare.go:106-197 | repeated passes on a live consistent share stop asking to be called again within as many passes as its debt |
| `Convergence.DoneIsSettled` | internal/resources/smbshare.go:106-197 | Done means that finalizer, group, backend, claims, PVCs, workload size and the served configuration are all in place, the enabled custom options of the share and of its common configuration included |
| `Provision.DoneProvides` | internal/resources/getters.go:20-443 | Done means that the ConfigMap, the Service and the StatefulSet or Deployment named after the group are there and name the share as an owner, with the right size, and so are the "-state" PVC of a cluster and the PVC the share brings along |
| `Provision.DoneTogether` | internal/resources/getters.go:20-443 | two shares of one group that are both done own the same ConfigMap and Service, and the same workload if they are of one mode |
| `Provision.PassMakes` | internal/resources/getters.go:50-443 | every object a pass makes is one of these, did not exist, has the share as its controller and starts with an empty configuration or the size asked for |
| `Provision.PassClaims` | internal/resources/smbshare.go:883-912 | only the group's three objects are claimed, by a plain reference at the end, and only if no share reference has the name |
| `Provision.PassResizes` | internal/resources/smbshare.go:614-656 | a StatefulSet is only grown, to the size the share asks for, and a Deployment set to one replica |
| `Provision.PassStores` | internal/resources/smbshare.go:718-815 | a configuration is stored in the ConfigMap named after the share's group and nowhere else |
| `Provision.PassSaves` | internal/resources/smbshare.go:106-197 | a live share is saved with the finalizer first, then with its group, then with the backend of its mode and the name of its PVC |
| `Provision.PassHandsOver` | internal/resources/smbshare.go:489-612 | what a departing share hands over is one of its own objects, but never the Service |
| `Provision.RequestedGroup` | internal/resources/smbshare.go:827-881 | the exact request under which a share gets its own name as its group, the named group, or an error |
| `Provision.UpdateInOrder` | internal/resources/smbshare.go:106-197 | an action on one kind of object comes only after everything before it is in place: finalizer, group, configuration, PVC, backend, state PVC, workload, Service |
| `Convergence.DoneIsQuiet` | internal/resources/smbshare.go:106-197 | after Done, whatever calls fail, a further pass writes nothing and is Done or an error; it is Done again if no other calls fail |
| `Readiness.DoneIffReady` | internal/resources/smbshare.go:106-197 | passes on a live share without failing calls reach Done, and the share set up, if and only if the share was ready before the first; everything ready means can be looked up |
| `Readiness.ReadyEndsDone` | internal/resources/smbshare.go:106-197 | a ready share gets there within its debt |
| `GroupConvergence.GroupConverges` | internal/resources/smbshare.go:106-197 | in any interleaving of the passes of several live consistent shares, of which no two of one group insist on different options under one name, at most as many passes are requeued as the shares owe together, which for n shares is at most 24n + n², and 24n once their PVCs are named |
| `GroupConvergence.PassCostsOthersNothing` | internal/resources/smbshare.go:673-755 | a pass of one share raises no debt of another, except that when it names its PVC the other may find that it agrees with its first peer |
| `GroupConvergence.OthersStaySettled` | internal/planner/configuration.go:83-157 | on a configuration that has nothing left to update for one share, an update for another that insists on nothing differently leaves it so |
| `Harmony.FairConverges` | internal/resources/smbshare.go:106-197 | when ready shares that one server can host get their turns in any order, all of them end at Done and set up after at most as many rounds as they owe together |
| `Harmony.PassKeepsOthersReady` | internal/resources/smbshare.go:106-197 | no pass of one such share takes from another what makes it ready |
| `Contention.SettleIffConcord` | internal/planner/configuration.go:196-239 | shares that own their ConfigMap, agree with its first other owner and have a PVC are requeued a bounded number of times, over all interleavings, if and only if none contradicts itself and no two of one group insist on different options under one name, custom options included |
| `Contention.Duel` | internal/planner/configuration.go:196-239 | otherwise it gives for every number a run of that many passes without failing calls, all of them requeued |
| `Contention.TwinsNeverSettle` | internal/planner/configuration.go:215-239 | two shares with one name, one of them read only, get there from the empty store |
| `Contention.BothDoneAgree` | internal/planner/configuration.go:196-239 | two shares of one group under one name can both be done only if they insist on no option differently |
| `Convergence.ContradictionNeverDone` | internal/planner/configuration.go:196-239 | a share whose enabled custom options contradict its spec is never Done |
| `Convergence.StoringSettles` | internal/resources/smbshare.go:718-755 | storing a planned configuration, whatever was there before, leaves nothing more to plan for the share |
| `PlannerTheorems.StoredAgain` | internal/resources/configmap.go:53-76 | for every configuration: after an update and a round trip through JSON a second update neither panics nor changes anything |
| `Survival.DoneSurvives` | internal/resources/smbshare.go:883-912 | a finished share that was not created while the object carried its name keeps ConfigMap, workload and Service, owned by it, in every later run in which it exists |
| `Survival.EventKeepsAnchor` | internal/resources/smbshare.go:883-1001 | no pass of any share and no collection takes an object from an owner that exists |
| `Survival.RunKeepsAnchor` | internal/resources/smbshare.go:883-1001 | the same over whole runs, with no hypothesis on how names are reused |
| `Eviction.SurvivesIffOwned` | internal/resources/smbshare.go:883-1001 | for every share and object of a readable store: the object survives all runs of the share's lifetime if and only if the share owns it by name and uid |
| `Eviction.DoneSurvivesIff` | internal/resources/smbshare.go:883-912 | the same for a finished share's ConfigMap, workload and Service after any run from the empty store |
| `Eviction.CanBeLost` | internal/resources/smbshare.go:895-902 | otherwise it gives the run: all other owners are deleted and finalized, then the object is collected |
| `Scenarios.ReuseLosesConfigMap` | internal/resources/smbshare.go:895-902 | a run from the empty store after which a share under a reused name is done and loses its ConfigMap |
| `Failures.FaultsOnlyStop` | internal/resources/smbshare.go:73-103 | whatever calls fail, a pass does what it would do without failing calls, or it fails and writes nothing; a pass that writes needs its own write call |
| `Heirs.PickOwnerIff` | internal/resources/smbshare.go:944-970 | the search picks exactly the first reference whose share is found and not being deleted, and ends with an error at the first failing call if that comes before |
| `Heirs.TransferIff` | internal/resources/smbshare.go:915-1001 | an object is handed to a reference if and only if all references parse, no other share has control, and every other share before it is missing or being deleted, but it is not |
| `Heirs.PassHandsToHeir` | internal/resources/smbshare.go:915-1001 | the same for whatever a whole pass hands over, on the references as the store has them |
| `Heirs.FinalizeInOrder` | internal/resources/smbshare.go:489-612 | a departing share lets go of the ConfigMap, its section, the workload and the PVCs in this order, and of the finalizer only when nothing is left that another share could take |
| `Runs.RunKeepsWellOwned` | internal/resources/smbshare.go:883-1001 | in every run, every object is owned by shares only, each named once, with at most one controller |
| `Runs.RunKeepsCurrentFor` | internal/resources/smbshare.go:883-912 | an object's references to a name carry the uid of the share that has it, unless the share is created while they carry the name |
| `Runs.PassOnOwners` | internal/resources/smbshare.go:883-1001 | a pass leaves the references of an object, appends its own share, or moves the controller flag |
| `Runs.PassOnShares` | internal/resources/smbshare.go:73-103 | a pass changes no other share, and never the identity, the recorded group or the recorded backend of its own |
| `Controllers.TransferIsSafe` | internal/resources/smbshare.go:915-1001 | a transfer keeps the exact list of owners and leaves one controller, whose name is that of another share that is not being deleted; it is that share, by uid, if and only if the reference is up to date |
| `Controllers.ReleaseLeavesController` | internal/resources/smbshare.go:489-612 | when the finalizer goes, an owner other than the departing share controls every object that was handed over and has another live owner |
| `Controllers.DepartureLeavesControllerIff` | internal/resources/smbshare.go:489-612 | from the deletion to the release, whatever calls fail, an object with another live owner ends up with another controller if and only if it was handed over or had one from the start; what is not handed over keeps its references |
| `Controllers.WorkloadKeepsControllerIff` | internal/resources/smbshare.go:550-594 | the ConfigMap always does; the workload of the recorded backend does if and only if the edited spec still asks for that backend, or it had another controller from the start |
| `Departures.EditedModeLosesController` | internal/resources/smbshare.go:550-594 | a run from the empty store in which a share's mode is edited before it departs, and the StatefulSet it shared is left with a live owner and a controller that is gone |
| `Scenarios.StaleTransfer` | internal/resources/smbshare.go:915-1001 | a run from the empty store in which a transfer makes a share the controller that does not exist any more |
| `Control.EventKeepsControlIff` | internal/resources/smbshare.go:883-1001 | an event leaves an object that live shares own with a controller that exists if and only if it is orderly |
| `Control.ControlledIffOrderly` | internal/resources/smbshare.go:883-1001 | the same over every run from the empty store in which no uid is used twice, whatever calls fail and names are reused |
| `Control.HandedOverIsOrderly` | internal/resources/smbshare.go:489-612 | the release of a share is orderly for everything that was handed over |
| `Control.CurrentTransferIsOrderly` | internal/resources/smbshare.go:915-1001 | a transfer to a reference that is up to date is orderly |
| `LockIn.RunKeepsRecord` | internal/resources/smbshare.go:158-177 | group and backend, once recorded, never change while the share exists, however its spec is edited |
| `LockIn.NeverBothWorkloads` | internal/resources/smbshare.go:158-177 | a share never causes the creation of both a Deployment and a StatefulSet |
| `Replicas.EventNeverShrinks` | internal/resources/smbshare.go:614-633 | no event lowers the replicas of a StatefulSet that stays |
| `Replicas.GroupEndsAtMaximum` | internal/resources/smbshare.go:614-633 | once every member of a group was Done, the StatefulSet has exactly the largest of their sizes |
| `FirstOwner.WriterMatchesFirst` | internal/resources/smbshare.go:702-721 | whoever writes a configuration has the profile of the ConfigMap's first owner |
| `FirstOwner.WritersAreCompatible` | internal/resources/smbshare.go:702-721 | with fixed profiles and references that are only appended, any two shares that ever wrote into one ConfigMap are compatible, also when names are reused |
| `FirstOwner.PassKeepsNamedSpec` | internal/resources/smbshare.go:230-284 | the passes themselves change no spec whose PVC is named |
| `Finalization.FinalPassPays` | internal/resources/smbshare.go:489-612 | every requeued finalization pass lowers a measure of pending transfers and list entries |
| `Finalization.FinalizeNeverFails` | internal/resources/smbshare.go:489-612 | without failing calls, and if the configuration and the references to be rewritten parse, a finalization pass neither fails nor panics; foreign owners do not matter |
| `Finalization.FinalizationCompletes` | internal/resources/smbshare.go:489-612 | under the same condition the finalizer goes, the share's key is gone from the configuration and every other entry has the options it had |
| `Finalization.UnreadableBlocksRelease` | internal/resources/smbshare.go:757-768 | a configuration or a reference that does not parse blocks the release, whatever else happens |
| `Finalization.ReleasedIffReleasable` | internal/resources/smbshare.go:489-612 | without failing calls, some pass removes the finalizer if and only if both parse |
| `Finalization.ReleasedIsPruned` | internal/resources/smbshare.go:524-548 | a release means that neither the shares nor the instance's list mention the share |
| `ConfigRuns.RunKeepsConfigs` | internal/planner/configuration.go:83-175 | in every run, each stored configuration lists each of its shares once, defines every global it uses and has no empty options map |
| `Sections.RunKeepsSectionsHeld` | internal/resources/smbshare.go:524-548 | in every run in which no share of a group is renamed, each section of its configuration belongs to an existing share of the group that has the finalizer |
| `Sections.ReachableSectionsHeld` | internal/resources/smbshare.go:524-548 | the same for every run from the empty store |
| `Sections.PassOnEntries` | internal/resources/smbshare.go:673-815 | a pass sets or removes its own share's section and leaves the options of every other section as they are |
| `Rivals.RunKeepsSection` | internal/planner/configuration.go:83-175 | while a share is in place and no other of its group has its name, its section stays, whatever else happens |
| `Rivals.DoneStaysExported` | internal/planner/configuration.go:83-175 | the same for a finished share after any run from the empty store, with its place in the instance's list |
| `Rivals.SectionStaysIffUnrivalled` | internal/planner/configuration.go:160-175 | without edits, the section stays in every run in which the share is not deleted if and only if there is no such other share |
| `Rivals.TwinTakesSection` | internal/planner/configuration.go:160-175 | a run from the empty store in which a second share with the name takes a finished share's section with it |
| `Panics.PassPanicsIff` | internal/resources/smbshare.go:73-103 | for every store and whatever calls fail: the exact condition under which a pass panics, nil maps of the stored configuration included; a finalization never does |
| `Panics.PeerStepExactly` | internal/planner/compatible.go:62-71 | the peer check panics exactly when it meets a first other owner in the same namespace and one of the two has no PVC |
| `Panics.ServedConfigPanicsIff` | internal/planner/configuration.go:83-113 | on a configuration the operator made: a new share without a PVC and without other owners, or a share or first other owner without one |
| `Panics.ServerExactly` | internal/resources/getters.go:50-99 | the server steps panic exactly when the workload has to be built and there is no PVC |
| `Scenarios.FourthPassPanics` | api/v1alpha1/smbshare_types.go:79-81 | a share without a storage source, which the API allows, makes its fourth pass panic |
| `Scenarios.NullMapPanics` | internal/resources/configmap.go:53-65 | for text that leaves any of the three outer maps null: the share's next pass panics if and only if one of them is |
| `Planning.NilMapPanics` | internal/planner/configuration.go:83-136 | an update panics whenever the globals, the shares or the configs are a nil map |
| `Planning.Planner.Update` | internal/planner/configuration.go:83-157 | the new configuration is a function of the old one, and the report is exact up to a contradiction; it panics exactly on a missing PVC of a new share and on a write to a nil map, outer or options |
| `PlannerMeaning.GlobalsMean` | internal/planner/configuration.go:83-104 | after an update each custom option the common configuration enables stands in the globals with its value, every other option is as it was or has its default, and no other section but the realm's is touched |
| `PlannerMeaning.RealmMeans` | internal/planner/configuration.go:139-155 | with Active Directory the realm has the section it had, or a new one with security mode, workgroup, realm and the ID mapping |
| `PlannerMeaning.RealmIs` | internal/planner/properties.go:77-88 | the realm is the configured one in capitals, the workgroup its part before the first dot |
| `PlannerMeaning.SharesMean` | internal/planner/configuration.go:93-113 | the spec decides "browseable" and "read only", the enabled custom options of the share stand, and every other option is as it was or the path of a fresh section |
| `PlannerMeaning.SectionsMean` | internal/planner/configuration.go:114-138 | a new instance lists the share with these globals, features and permissions, an old one only grows at the end |
| `PlannerMeaning.PruneMeans` | internal/planner/configuration.go:160-175 | a prune takes out the share's section and its first list entry and leaves all else as it was |
| `PlannerMeaning.PanicsMean` | internal/planner/configuration.go:83-157 | an update panics exactly on a write to a nil map or on a missing PVC of a share without a section |
| `PlannerMeaning.ReloadMeans` | internal/resources/configmap.go:66-76 | what is stored reads back option by option, except that a map without entries reads back as nil |
| `PlannerMeaning.ReadMeans` | internal/resources/configmap.go:53-65 | no data and no key read as an empty configuration, text that does not parse is an error |
| `Planning.Planner.Prune` | internal/planner/configuration.go:160-175 | the share's section and its first list entry go, and the report is exact |
| `Planning.Planner.ApplyCustom` | internal/planner/configuration.go:177-213 | for every iteration order of the map the result is a plain merge, and a write to a nil map panics |
| `Planning.Planner.ApplyShareValues` | internal/planner/configuration.go:215-239 | the two options of the spec are set, and the report says whether anything differed |
| `Planning.MergeReport` | internal/planner/configuration.go:196-239 | the two partial reports together are true exactly when the options changed or the custom options contradict the spec |
| `Planning.RemoveFirstAt` | internal/planner/configuration.go:250-258 | removing a key cuts out its first occurrence and nothing else |
| `PlannerTheorems.UpdatedAgain` | internal/planner/configuration.go:83-157 | an update is idempotent on every configuration and never makes a later one panic |
| `PlannerTheorems.UpdateTwice` | internal/planner/configuration.go:83-157 | the second of two updates reports a change if and only if an enabled custom option contradicts the spec |
| `PlannerTheorems.UpdateThenPrune` | internal/planner/configuration.go:83-175 | for a share that was absent, update then prune restores the shares and the other instances, and the instance's list exactly when it did not list the share |
| `PlannerTheorems.PruneTwice` | internal/planner/configuration.go:160-175 | a second prune changes nothing if and only if the share was listed at most once |
| `PlannerTheorems.OtherSharesUntouched` | internal/planner/configuration.go:83-175 | neither update nor prune touches the options of any other share |
| `PlannerTheorems.GroupRefinesLiveShares` | internal/planner/configuration.go:83-175 | any interleaving of stored updates and prunes of one group never panics and keeps the configuration of exactly the live share names |
| `PlannerTheorems.ServingNeverPanics` | internal/planner/configuration.go:83-157 | on a group's configuration an update panics if and only if the share is new and has no PVC |
| `IdmapTheorems.KeyRoundTrip` | internal/planner/configuration.go:66-78 | an option name decodes to its domain and field |
| `IdmapTheorems.KeysInjective` | internal/planner/configuration.go:66-78 | distinct (domain, field) pairs never share an option name, whatever text the domain is |
| `IdmapTheorems.RangeRoundTrip` | internal/planner/configuration.go:66-78 | the printed "lo-hi" reads back as the two numbers |
| `IdmapTheorems.OptionOf` | internal/planner/configuration.go:40-79 | for any domain list, what the options say about a name is decided by its last entry, and the schema mode by any |
| `IdmapTheorems.BlocksAreDisjoint` | internal/planner/configuration.go:48-78 | for any list, duplicates included, "*" has a block, blocks have 10000 ids, and those of distinct names are disjoint |
| `IdmapTheorems.BlocksInOrder` | internal/planner/configuration.go:48-78 | domains that are given once each get the blocks of 10000 ids from 2000 on in the order in which they are given, with the backend and schema they ask for; "*" gets the one after the last, with "autorid", if it is not given |
| `IdmapTheorems.NoDomains` | internal/planner/configuration.go:40-46 | without domains there is the range 2000 to 9999999 for "*" with the backend "autorid", and nothing else |
| `IdmapTheorems.NoSystemIds` | internal/planner/configuration.go:40-79 | with or without domains, no name gets an id below 2000 |
| `IdmapTheorems.BlocksTile` | internal/planner/configuration.go:48-78 | with distinct names the blocks follow the list from 2000 on without gaps, and the backends read back |
| `Idmap.BuildOptions` | internal/planner/configuration.go:40-79 | the loops compute the options function |
| `IdmapTheorems.KeysAvoidRealmOptions` | internal/planner/configuration.go:139-155 | no domain name can make an option that is "security", "workgroup" or "realm" |
| `Compatible.CompatibleIffSameProfile` | internal/planner/compatible.go:41-102 | the check passes if and only if both profiles are equal, and panics exactly on a missing PVC in one namespace |
| `Compatible.CompatibleIsEquivalence` | internal/planner/compatible.go:41-102 | passing the check is reflexive, symmetric and transitive |
| `Ownership.SmbShareOwnerRefs` | internal/resources/ownership.go:13-29 | the share references in order, or an error if any apiVersion is malformed |
| `Ownership.ExcludeOwnerRefs` | internal/resources/ownership.go:44-56 | every reference that differs in name or UID, in order |
| `Ownership.ChangeControllerOwnerTo` | internal/resources/ownership.go:70-86 | rewrites the flags in place: set on the target, cleared on all others |
| `Ownership.FindClaimMeans` | internal/resources/smbshare.go:883-902 | the search finds the share exactly when a share reference carries its name, and errs only on a malformed reference |
| `Ownership.TransferKeepsOwners` | internal/resources/ownership.go:70-86 | the same owners in the same order, with the target as the only controller |
| `Volumes.VolKeeper.Validate` | internal/resources/volumes.go:92-109 | no error if and only if volume and mount names agree and no name occurs twice; an error names a real offender |
| `Volumes.VolKeeper.Exclude` | internal/resources/volumes.go:137-146 | a new keeper of exactly the volumes that lack a bit of the mask, in order, while this one stays as it is |
| `Volumes.VolKeeper.Add` | internal/resources/volumes.go:79-82 | one more volume at the end, written into the same backing array while there is room and into a new one otherwise |
| `Volumes.VolKeeper.Clone` | internal/resources/volumes.go:129-133 | a keeper of the same volumes with a backing array of its own |
| `Volumes.CloneIsSeparate` | internal/resources/volumes.go:79-133 | whatever is added later to a keeper and to its clone reaches only that one |
| `Pods.NamesInjective` | internal/resources/volumes.go:148-429 | for all PVC names, suffixed names never clash with fixed names, numbered join volumes or each other |
| `Pods.ExcludingData` | internal/resources/pods.go:430-450 | excluding the data tag keeps every volume but the share's, in order |
| `PodBuilding.GetJoinSources` | internal/resources/pods.go:824-837 | one volume for each join source with a secret, numbered by its place in the list |
| `PodBuilding.BuildSmbdCtrs` | internal/resources/pods.go:430-450 | smbd and the config watcher mount everything, the metrics exporter everything but the data |
| `PodBuilding.BuildADPodSpec` | internal/resources/pods.go:50-119 | the keepers, grown and cloned step by step, yield the Active Directory layout without a panic |
| `PodBuilding.BuildUserPodSpec` | internal/resources/pods.go:121-156 | the same for the user mode layout; the init container sees the keeper before it grows |
| `PodBuilding.BuildClusteredUserPodSpec` | internal/resources/pods.go:158-271 | the same for the clustered user mode layout |
| `PodBuilding.BuildClusteredADPodSpec` | internal/resources/pods.go:273-428 | the same for the clustered Active Directory layout; smbd does not see the later watch volume |
| `PodBuilding.BuildPodSpec` | internal/resources/pods.go:29-38 | total for every configuration and PVC name, and the pod is closed and isolated |
| `PodBuilding.BuildClusteredPodSpec` | internal/resources/pods.go:40-48 | total for every configuration and PVC name, and the pod is closed and isolated |
| `PodTheorems.PodsAreClosed` | internal/resources/pods.go:50-428 | in all four pods every mount names exactly one volume, and the data volume is mounted by smbd, the config watcher and the share path init only |
| `PodTheorems.DataClaimIsolation` | internal/resources/pods.go:50-428 | the containers that see the share's PVC are those three in every pod, except exactly in a clustered pod whose state PVC is the share's own |
| `PodContents.PodIs` | internal/resources/pods.go:50-428 | each of the four pods has exactly these containers in this order, each with exactly the mounts of its role, and exactly these volumes |
| `PodContents.WhoMounts` | internal/resources/pods.go:50-428 | by name and path, and if and only if: who mounts the configuration, the configured users, the winbind sockets, the watch volume and the data |
| `PodContents.WhoJoins` | internal/resources/pods.go:50-428 | every join source with a secret is mounted by must-join, and besides only by the servers of a clustered pod |
| `PodContents.UsersVolumeIff` | internal/resources/volumes.go:189-212 | the pod has the volume of the users' secret if and only if users are configured in user mode |
| `PodContents.InputsAre` | internal/planner/misc.go:35-48 | users count as configured only in user mode, DNS is kept only with Active Directory and one of the two registering settings |
| `PodContents.SharedVolumesAre` | internal/resources/volumes.go:148-320 | names, sources, paths and tags of the volumes that are in every kind of pod |
| `PodContents.SecretVolumesAre` | internal/resources/volumes.go:189-299 | the same for the users' secret and the join sources |
| `PodContents.CtdbVolumesAre` | internal/resources/volumes.go:322-429 | the same for the CTDB volumes |

## Left out

- Namespaces: the operator acts in the share's own namespace, so the store is that of one namespace.
- Stale caches and conflicting writers: a pass runs on one store from start to end, and an update fails only as a failing call.
- OpenShift steps, the metrics Service and the ServiceMonitor: outside OpenShift these steps do nothing; the theorems are about clusters that are not OpenShift.
- `Manager.SmbShareManager.GetOrCreate`: stands for the get-or-create functions of ConfigMap, PVC, Deployment, StatefulSet and Service; of their contents only owners, configuration and replicas are modelled.
- JSON and YAML text: a stored configuration is a value, and storing it drops empty option maps as `omitempty` does.
- Resources as shared pointers: share, spec and stored configuration are values; the fields the original changes in place are fields of the `Planner`, `SmbShareManager` and `VolKeeper` classes, the last with its backing array.
- Path cleaning by `path.Join` and case folding outside ASCII: paths are concatenated, and only ASCII letters are raised for realm names.
- Integer width: unbounded except for the conversion of cluster sizes to 32 bits.
- PVC quantity parsing: whether the state size parses is an input.
- `Harmony.FairConverges`: is about shares whose PVC has its name; a share that is yet to name its PVC is the subject of `Readiness.DoneIffReady`.
- `Control.ControlledIffOrderly`: assumes that no share is created with the name and the uid of an earlier one, as uids are unique.
- `Runs.RunKeepsWellOwned`: runs contain no foreign owner references and no users who edit or delete managed objects.
- `Survival.DoneSurvives`: covers ConfigMap, workload and Service; the state PVC and the share's own PVC are never claimed, so they can go with the share that made them.
- `PlannerTheorems.GroupRefinesLiveShares`: live shares are counted by name, so two shares of one group with one name are one; what that means for the shares is the subject of `Rivals.SectionStaysIffUnrivalled`.
- `Rivals.SectionStaysIffUnrivalled`: the exact condition is for runs without new or edited shares; with them, `Rivals.RunKeepsSection` asks for the condition at every point.
- `LockIn.NeverBothWorkloads`: users edit specs freely but not the backend annotation or the status.
- `FirstOwner.WritersAreCompatible`: assumes fixed profiles; users who edit specs or replace security configurations can break it, as nothing is compared again.
- Whether an ungrouped share has a server of its own: an explicit group can have the name of another share, so it is not claimed.
- Container images, commands, environment, probes, labels, affinity and node selectors: straight-line construction; pods are volumes, mounts and container roles.
- Logging, events, flags and the main program.
