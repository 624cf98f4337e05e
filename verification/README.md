# Cluster API provider for CloudStack: a verified model

This project models the controllers of the Cluster API provider for CloudStack (CAPC) and proves what they guarantee:
what survives any interleaving of clusters and any failing API call, in which order things are torn down, and where the
code does less than one might expect.

Every call to CloudStack or to the Kubernetes API server goes through a fault oracle `Env`: at each point in time the call
works, or it reports an error of any text and may have taken effect all the same. Theorems quantify over the oracle.
`FaultFree(env)` means that no call fails; `Honest(env)` that no fault reads like an answer the code acts on ("no match
found" and the like). One reconciliation is one step of a run.

Each component comes in three layers. Specification functions thread the state of the outside world through a component.
Classes with methods have the form of the source: they update fields, loop, and exit early, and each method is proved to do
exactly what its specification function says. Lemmas then state what is true of the functions and of whole runs.

| files | component |
|---|---|
| Faults | errors, replies, the fault oracle |
| CloudApi, TagSpec, IsoNetSpec, TagNames | networks, VPCs, addresses, rules, and the tags by which CAPC counts references |
| CloudClient, IsoNetController, IsoNetRunner | the client of pkg/cloud and the isolated-network controller as they are written |
| TagEffects, RefCount, Conservation, FixedPoint, AddressRelease, Limits | reference counting over runs, set-up as a fixed point, release of addresses, and the exceptions |
| Lifecycle, Endpoint | what a set-up makes and a disposal takes away, the endpoint a set-up gives, and when it succeeds |
| Stages, BaseRun, Placement | the stage interpreter, the base reconciliation, placement of machines |
| ApiServer, Names, DomainSpec, ClusterTeardown, DomainRunner | the API server, deletion of failure domains and clusters |
| DrainEffects, TeardownRun, DrainReplicas, DrainProgress, TeardownLimits | teardown and drain over runs |
| VmCloud, VmSpec, VmClient, VmRun, VmReady, VmLimits | the life cycle of a machine's VM |
| ClusterReady | reconciliation of a cluster up to readiness |
| GoString, Admission, AdmissionHistory | the admission webhook over update histories |
| DomainPath, Affinity | domain paths, affinity groups |

## What was found

Properties that hold only under a condition are stated with that condition, in both directions, and where they fail an
input is shown on which they do:

- A further set-up changes nothing, unless the lookup of the network by name failed and the stored identifier led to a
  network while another one alone bears the name (`FixedPoint.SetUpIsFixedPoint`; input: `Limits.MisledSetUp`).
- A disposal of an isolated network whose recorded public address CloudStack no longer knows stops with "no match found"
  before it reaches the network. The controller takes that for success: the finalizer goes and the cluster's tag stays on
  the network. As long as that cluster does not dispose of the network through another object, the network stays too,
  whatever else happens (`Conservation.DisposeFaultFree`, `IsoNetRunner.FinalizerAndTag`,
  `IsoNetRunner.LeakedNetworkStays`; input: `IsoNetRunner.TagLeftBehind`).
- A disposal frees the public address exactly if the cluster is the last to use it (`AddressRelease.DisposeFrees`). When an
  attempt fails with the address still associated, the next disposal frees it exactly if the removal of the created tag had
  no effect (`AddressRelease.LostDisassociation`; input: `AddressRelease.AddressLost`).
- A network that was made but not tagged, because the call that made it reported an error after all or because the tagging
  failed, never gets a tag of CAPC and is never deleted, although later set-ups find it by its name
  (`Limits.UntaggedNetwork`, `Limits.UntaggedForGood`; input: `Limits.UntaggedOccurs`).
- Public addresses are not reference counted (`Limits.AssociationTags`). A tag can stay although its removal was reported
  (`Limits.SilentlyKeptTag`). A transient error makes a second network of a name (`Limits.SecondNetwork`; input:
  `Limits.SecondNetworkOccurs`). A VPC loses its cluster with the first isolated network that goes
  (`Limits.VpcIsPerCluster`; input: `Limits.VpcGoesUnderNetwork`).
- When nothing fails or blocks and no child is left, a failure domain goes with machines left in it exactly if the first
  machine by name has no owner of kind Machine (`TeardownLimits.MachinesLeftBehind`; input: `TeardownLimits.StrayMachine`).
- A cluster that is deleted while it has failure domains is gone at once exactly if none of its reconciliations reached
  SetReady and was written back yet (`TeardownLimits.ClusterDeletedEarly`; run: `TeardownLimits.ClusterGoneFirst`).
  Otherwise it stays until they are gone (`TeardownRun.TeardownIsOrdered`).
- Failure domains are created under a cluster's label and listed by the label of the CloudStackCluster of that name. If the
  two labels differ, what is created is not listed (`ClusterReady.CreatedAreListed`), and a cluster can be released with its
  failure domains left (`TeardownLimits.MislabelledCluster`).
- A machine whose CAPI machine is told to go because it asks for a failure domain the cluster does not have still gets its
  VM in the same reconciliation (`VmReady.ReadyExactlyWhen`).
- A machine that still records a vanished VM while another VM bears its name is released without that VM being destroyed
  (`VmLimits.DeletionLeaves`; run: `VmLimits.VmLeftBehind`).
- The webhook pins the port of the endpoint exactly if it is a Unicode scalar value other than U+FFFD
  (`AdmissionHistory.PortIsPinned`). It pins what a name of a failure domain stands for exactly while the name is there
  (`AdmissionHistory.IdentityIsPinned`; input: `AdmissionHistory.IdentityIsLost`).
- A domain given by name alone is found only if the one domain listed has an empty path (`DomainPath.ResolvedByNameAlone`).

The comment above `DeleteOwnedObjects` (controllers/utils/base_reconciler.go:253-254) describes the check that follows it; the
model follows the code.

## Model

| member | source | states |
|---|---|---|
| RefCount.ReferencesAreSafe | pkg/cloud/isolated_network.go:393-524 | for any clusters, any order of set-ups and disposals and any failures: what a cluster set up and has not begun to dispose of exists, and carries the cluster's tag if CAPC made it |
| RefCount.StepSafe | controllers/cloudstackisolatednetwork_controller.go:70-106 | one reconciliation or deletion, failing anywhere, keeps that invariant |
| RefCount.ForeignUntouched | pkg/cloud/tags.go:48-78 | a network or VPC without CAPC tags is still there with exactly the same tags after any run |
| RefCount.DisposeElsewhere | pkg/cloud/isolated_network.go:476-503 | a disposal changes neither tags nor existence of anything but the network and VPC its object names |
| RefCount.TagKeepsResource | pkg/cloud/tags.go:93-107 | in any run, a network or VPC exists as long as some cluster's tag is on it and that cluster does not dispose of it |
| TagEffects.GetOrCreateKept | pkg/cloud/isolated_network.go:393-442 | a set-up, however far it gets, adds at most its cluster's tag, only to what CAPC made, and deletes nothing |
| TagEffects.GetOrCreateReferences | pkg/cloud/isolated_network.go:393-425 | after a successful set-up the network exists, and network and VPC carry the cluster's tag if CAPC made them |
| TagEffects.DisposeGivenUp | pkg/cloud/isolated_network.go:476-524 | a disposal by a cluster takes off at most that cluster's tag, and deletes only what CAPC made and no other cluster uses |
| Lifecycle.WhatIsMadeIsMarked | pkg/cloud/isolated_network.go:98-153 | when the network is resolved or created, all that is new is that network and its VPC, tagged as made by CAPC; they are named, placed and made from offerings as the object asks, with the defaults of the code |
| Lifecycle.WhatIsMadeIsCounted | pkg/cloud/isolated_network.go:393-425 | everything new after a successful set-up carries exactly the created tag and the cluster's tag |
| Lifecycle.NilMeansReleased | pkg/cloud/network.go:110-124 | whatever fails, a nil from giving up a network or VPC means that it is not left without users, and that the tag is off unless both removal and check failed |
| Lifecycle.NilMeansDisposed | pkg/cloud/isolated_network.go:476-503 | whatever fails, a disposal that returns nil leaves no address, network or VPC behind that CAPC made and nobody uses |
| Lifecycle.NilMeansAddressReleased | pkg/cloud/isolated_network.go:476-554 | whatever fails, a nil from giving up the address means that it is not left taken without users, and that the cluster's tag is off one made by CAPC unless both removal and check failed |
| Lifecycle.DisposalUndoesSetUp | pkg/cloud/isolated_network.go:393-524 | what a set-up made, a disposal by the same cluster takes away; of what was there it deletes exactly what CAPC made and no other cluster uses |
| Endpoint.ChosenIsEligible | pkg/cloud/isolated_network.go:303-330 | an address is chosen exactly if the zone has the one asked for, or one not taken if none is asked for, and then it is such a one |
| Endpoint.PortIsAgreed | pkg/cloud/isolated_network.go:355-390 | the port is the cluster's, else the network's, else 6443; nil means the recorded rule routes it, and a rule is added only if none did |
| Endpoint.FirewallIsOpened | pkg/cloud/isolated_network.go:156-293 | no rule in a VPC or where egress is open by default; otherwise nil means that TCP, UDP and ICMP are let out entirely |
| Endpoint.SetUpTouches | pkg/cloud/isolated_network.go:55-442 | whatever fails, a set-up changes no other address, no other network's rules and no existing load balancer rule |
| Endpoint.SetUpGivesEndpoint | pkg/cloud/isolated_network.go:393-442 | after a successful set-up behind NAT the cluster has the address and port asked for, or a free address, with a rule that routes the port; a routed cluster is unchanged |
| Endpoint.SetUpSucceedsIff | pkg/cloud/isolated_network.go:393-442 | without failures a set-up succeeds exactly if the network can be found or made and, unless it is routed, there is an address to choose |
| TagEffects.AddTagsEffect | pkg/cloud/tags.go:110-135 | adding tags overlays the wanted ones on the old ones or changes nothing, and nil means they are there |
| TagEffects.AddClusterTagEffect | pkg/cloud/tags.go:59-67 | the cluster's tag goes only onto what CAPC made, and nil means it is there |
| TagEffects.DeleteTagEffect | pkg/cloud/tags.go:158-175 | removing a tag changes that tag of that resource or nothing |
| TagEffects.RemoveClusterTagEffect | pkg/cloud/network.go:110-124 | giving up a network takes off the cluster's own tag or nothing |
| Conservation.TagsAreConserved | pkg/cloud/isolated_network.go:393-524 | without failures the cluster tags on everything CAPC made are at all times those of the clusters that use it |
| Conservation.CountIsConserved | pkg/cloud/tags.go:93-107 | so the number of tags is the number of users |
| Conservation.DisposeFaultFree | pkg/cloud/isolated_network.go:476-554 | a disposal without failures returns nil if and only if the object's address is known; then tags are off and the last user out deletes network and VPC, else neither is touched |
| Conservation.ReleaseFaultFree | pkg/cloud/vpc.go:128-167 | giving up a VPC or network without failures: tag off, deleted exactly if CAPC made it and nobody else uses it, all else unchanged |
| Conservation.ReleaseAddressFaultFree | pkg/cloud/isolated_network.go:528-554 | releasing the address fails exactly if the cloud does not know it |
| FixedPoint.SetUpIsFixedPoint | pkg/cloud/isolated_network.go:55-442 | after a successful set-up another one leaves cloud, isolated network and cluster unchanged, exactly unless the lookup was misled |
| FixedPoint.SetUpSettles | pkg/cloud/isolated_network.go:393-442 | a successful set-up, whatever failed on the way, leaves network, tags, endpoint and rules as the next one wants them |
| FixedPoint.SettledIsFixed | pkg/cloud/network.go:52-103 | in such a state a set-up without failures succeeds and changes nothing |
| Limits.AssociationTags | pkg/cloud/isolated_network.go:87-90 | an association leaves the cluster's tag on the address exactly if the address was tagged as made by CAPC, or so tagged, before |
| AddressRelease.DisposeFrees | pkg/cloud/isolated_network.go:476-554 | without failures a disposal frees the address exactly if it is known, not for source NAT, made by CAPC and tagged by no other cluster, and touches no other |
| AddressRelease.UntaggedAddressStays | pkg/cloud/isolated_network.go:528-554 | once the created tag is off, no disposal touches the address or its tags, whatever fails |
| AddressRelease.FailedAttempt | pkg/cloud/isolated_network.go:543-554 | an attempt to free the address, failing anywhere, takes the created tag off unless that first call has no effect |
| AddressRelease.LostDisassociation | pkg/cloud/isolated_network.go:528-554 | when an attempt fails with the address still associated, the next disposal without failures frees it exactly if the removal of the created tag had no effect |
| AddressRelease.AddressLost | pkg/cloud/isolated_network.go:543-554 | an input on which an attempt fails and the next disposal, in which nothing fails, leaves the address associated |
| Limits.SilentlyKeptTag | pkg/cloud/tags.go:158-175 | a removal reports success with the tag in place exactly if the tag is there, the removal is refused for its value or fails without effect, and the check fails too |
| Limits.MisledSetUp | pkg/cloud/network.go:52-103 | an input on which the exception to the fixed point occurs |
| Limits.SecondNetwork | pkg/cloud/isolated_network.go:396-409 | with one network of the name there, a second is made exactly if the lookup by name fails and the identifier does not help |
| Limits.SecondNetworkOccurs | pkg/cloud/isolated_network.go:396-409 | an input that ends with two networks of one name |
| Limits.UntaggedNetwork | pkg/cloud/isolated_network.go:142-152 | a network is made and left untagged exactly if the creation reports an error after all, the reading of its tags fails, or their writing fails without effect |
| Limits.UntaggedForGood | pkg/cloud/isolated_network.go:142-152 | such a network has no tag of CAPC and exists at every point of every run that follows |
| Limits.UntaggedOccurs | pkg/cloud/isolated_network.go:142-152 | an input that ends with such a network as the only one of its name |
| Limits.VpcIsPerCluster | pkg/cloud/isolated_network.go:494-501 | one disposal takes the cluster's only tag off the VPC, and deletes it exactly if CAPC made it and no other cluster uses it |
| Limits.VpcGoesUnderNetwork | pkg/cloud/isolated_network.go:494-501 | two networks of one cluster in one VPC, which is deleted with the first disposal |
| TagNames.NamesAndMeanings | pkg/cloud/tags.go:36-46 | tag keys by meaning and tag names as strings correspond one to one |
| CloudClient.Client.GetOrCreateIsolatedNetwork | pkg/cloud/isolated_network.go:393-442 | the step-by-step method does what the specification of set-up says, to cloud, isolated network and cluster |
| CloudClient.Client.DisposeIsoNetResources | pkg/cloud/isolated_network.go:476-503 | the same for disposal |
| CloudClient.Client.AssociatePublicIPAddress | pkg/cloud/isolated_network.go:55-95 | the same for the association of a public address |
| CloudClient.Client.GetOrCreateLoadBalancerRule | pkg/cloud/isolated_network.go:355-390 | the same for the load balancer rule |
| CloudClient.Client.OpenFirewallRules | pkg/cloud/isolated_network.go:156-200 | the same for the firewall |
| CloudClient.Client.ResolveNetwork | pkg/cloud/network.go:52-103 | the same for the lookup of a network, including what it writes through the shared VPC |
| CloudClient.Client.CreateVPC | pkg/cloud/vpc.go:93-118 | the same for VPCs |
| CloudClient.Client.AddTags | pkg/cloud/tags.go:110-135 | the same for adding tags |
| CloudClient.Client.DeleteTags | pkg/cloud/tags.go:158-175 | the same for removing one tag |
| CloudClient.CountClusterTags | pkg/cloud/tags.go:99-104 | the loop counts exactly the cluster tags, in any order of iteration |
| CloudClient.TagsToAdd | pkg/cloud/tags.go:116-124 | the loop collects exactly the tags missing or different |
| CloudClient.AllProtocolsOpen | pkg/cloud/isolated_network.go:203-244 | ticking off protocols rule by rule finds out whether each of them has a rule that opens it entirely |
| IsoNetRunner.Runner.Reconcile | controllers/cloudstackisolatednetwork_controller.go:70-95 | the method does what the specification says to cloud, object and stored cluster; without the endpoint written back the object is not ready |
| IsoNetRunner.Runner.ReconcileDelete | controllers/cloudstackisolatednetwork_controller.go:97-106 | the same for deletion |
| IsoNetRunner.FinalizerGoesOnlyIf | controllers/cloudstackisolatednetwork_controller.go:97-106 | whatever fails, the finalizer goes exactly if the reconciliation does not fail, and then no address, network or VPC is left that CAPC made and nobody uses, or the address is unknown and network and VPC were not touched |
| IsoNetRunner.ReadyOnlyWhenSettled | controllers/cloudstackisolatednetwork_controller.go:70-95 | whatever fails, the finalizer is there afterwards; a reconciliation that is done leaves the object ready with everything settled and the endpoint written back, any other leaves readiness and stored cluster as they were |
| IsoNetRunner.DoneExactlyWhen | controllers/cloudstackisolatednetwork_controller.go:70-95 | without failures it is done exactly if the zone is known, the endpoint is written back, the network can be had and there is an address for it |
| IsoNetRunner.FinalizerAndTag | controllers/cloudstackisolatednetwork_controller.go:97-106 | without failures the finalizer goes at once; the cluster's tag stays behind exactly if it was there and the address is unknown |
| IsoNetRunner.LeakedNetworkStays | controllers/cloudstackisolatednetwork_controller.go:97-106 | then, in every later run without a disposal of the network by that cluster, network and tag are there |
| IsoNetRunner.TagLeftBehind | controllers/cloudstackisolatednetwork_controller.go:97-106 | an input on which that happens |
| Stages.FlagIsIfThenElse | controllers/utils/base_reconciler.go:139-161 | stage lists in which every Else follows its RunIf, nested at will, run as plain if-then-else with early exit, whatever the flag held |
| Stages.ReconciliationRunner.RunReconciliationStages | controllers/utils/base_reconciler.go:374-383 | the loop over closures that write the runner's fields is the interpreter |
| BaseRun.OneMainCall | controllers/utils/base_reconciler.go:387-414 | a base run calls neither main method if an earlier stage stops it, else exactly one, once and last, chosen by the deletion mark, whatever the stages that methods run leave in the flag |
| BaseRun.OneMainBody | controllers/utils/base_reconciler.go:139-161 | the same with any nested stages in place of the two methods: just one of the two bodies runs, as a structured program |
| BaseRun.MissingOrPaused | controllers/utils/base_reconciler.go:417-444 | a subject that is missing when it is fetched, or paused when that is checked, is neither reconciled nor deleted, nor is one that is not being deleted when its clusters are found missing |
| Placement.PlacementIsSafe | controllers/cloudstackmachine_controller.go:107-194 | whatever stages fail, no machine reconciliation takes a modulus of zero or writes a nil map; a chosen failure domain is the one asked for, or else one the machine's cluster lists, and the label says so; and a machine without one gets one unless a stage stops the run |
| Placement.AnyCanBeDrawn | controllers/cloudstackmachine_controller.go:186-189 | when CAPI asks for none, each failure domain of the cluster can be the one drawn |
| Placement.AdmittedClustersPlaceSafely | api/v1beta3/cloudstackcluster_webhook.go:57-138 | so it is whenever every stored cluster is the last version of an admitted history |
| DomainRunner.FailureDomainRunner.ReconcileDelete | controllers/cloudstackfailuredomain_controller.go:129-145 | the stages as methods do what the specification of the deletion says |
| DomainRunner.FailureDomainRunner.RequeueIfMachineCannotBeRemoved | controllers/cloudstackfailuredomain_controller.go:177-214 | the nested loops over machines and owners are the replica gate |
| DomainRunner.FailureDomainRunner.ClearMachines | controllers/cloudstackfailuredomain_controller.go:241-261 | the loop over owner references asks the first Machine owner of the first machine to go |
| DomainRunner.FailureDomainRunner.DeleteOwnedObjects | controllers/utils/base_reconciler.go:255-282 | the loops over kinds and listed objects delete what the failure domain owns |
| DomainRunner.FailureDomainRunner.CheckOwnedObjectsDeleted | controllers/utils/base_reconciler.go:286-311 | the loops find out whether anything owned is left |
| DomainRunner.GetSpecAndStatusReplicas | controllers/cloudstackfailuredomain_controller.go:216-238 | both counts, exactly if both are there and at least two are wanted |
| DomainRunner.ClusterRunner.ReconcileDelete | controllers/cloudstackcluster_controller.go:141-156 | the loop over failure domains is the specification of the cluster's deletion |
| Names.LessIs | controllers/cloudstackfailuredomain_controller.go:154-156 | a name comes before another exactly if at the first place where they differ it ends or has the smaller character |
| Names.SortingSorts | controllers/cloudstackfailuredomain_controller.go:148-159 | the listing is ordered by name in Go's order, and no machine is lost or invented |
| DrainEffects.ListingIs | controllers/cloudstackfailuredomain_controller.go:148-159 | the listing holds exactly the machines with the label, and none comes before its first |
| DrainEffects.MachineOwnerIs | controllers/cloudstackfailuredomain_controller.go:243-246 | the Machine that is told to go is the first owner of that kind, if there is one |
| DrainEffects.MachinesGateIs | controllers/cloudstackfailuredomain_controller.go:177-214 | the gate lets pass only if every owner lets go, without failures exactly then, and changes nothing |
| DrainReplicas.OwnerLetsGo | controllers/cloudstackfailuredomain_controller.go:183-238 | an owner lets go exactly if it wants two or more, reports as many, and is ready as far as it says; it is an error exactly if a count is missing or fewer than two are wanted |
| DrainEffects.DrainMarksAtMostOne | controllers/cloudstackfailuredomain_controller.go:131-136 | the drain marks at most the Machine of the first machine, only if every owner lets go and no rolling update is going on, and lets later stages run only if there is no such Machine |
| DrainEffects.DrainProceeds | controllers/cloudstackfailuredomain_controller.go:241-261 | without failures, with owners that let go and no rolling update, it does mark that Machine, or goes on if there is none |
| DrainEffects.DrainWaitsForCluster | controllers/cloudstackfailuredomain_controller.go:162-174 | while the CAPI cluster is not ready and not being deleted, a failure domain that has a machine is left as it is, whatever fails |
| DrainEffects.DeletionMarksOrReleases | controllers/cloudstackfailuredomain_controller.go:129-267 | a reconciliation with any failures marks one Machine at most, or takes the finalizer off, the latter only if no machine stands in the way and no child is left |
| DrainEffects.DeletionReports | controllers/cloudstackfailuredomain_controller.go:129-145 | it changes nothing while it is blocked, and reports completion only if it took the finalizer off, without failures exactly then |
| ClusterTeardown.ReleasedOnlyWhenNoneListed | controllers/cloudstackcluster_controller.go:141-156 | a cluster is released only in a step that listed no failure domain; otherwise failure domains are at most asked to go; completion is reported only when it is gone |
| ClusterTeardown.ReconcileFaultFree | controllers/cloudstackcluster_controller.go:141-156 | without failures a cluster going away is gone exactly if no failure domain is listed, and otherwise each of them is asked to go |
| TeardownRun.TeardownIsOrdered | controllers/cloudstackfailuredomain_controller.go:129-267 | in every run with any failures: machines and children have their failure domain, no failure domain belongs to a released cluster, and what the drain marked is the first machine of a failure domain going away |
| TeardownRun.ReadyOnceReached | controllers/cloudstackcluster_controller.go:90-105 | in every run a cluster is ready, and has its finalizer, exactly if one of its reconciliations reached SetReady and was written back |
| TeardownRun.DrainIsSingleFlight | controllers/cloudstackfailuredomain_controller.go:241-261 | from an empty API server on, at most one machine of a failure domain is in flight because of the drain |
| DrainReplicas.DrainKeepsReplicas | controllers/cloudstackfailuredomain_controller.go:162-261 | with counts of the machines not being deleted and no other deletions, an owner has at all times all the machines it wants but at most one, however many failure domains are drained |
| DrainReplicas.DrainKeepsReplicasCountingAll | controllers/cloudstackfailuredomain_controller.go:162-261 | the same with counts of all existing machines, those being deleted included, while one failure domain is drained |
| DrainReplicas.NoneInFlight | controllers/cloudstackfailuredomain_controller.go:241-261 | in such a run, whenever the next Machine is still to be told to go, no machine is being deleted |
| DrainReplicas.DrainStepKeepsReplicas | controllers/cloudstackfailuredomain_controller.go:177-261 | a deletion takes a machine only from an owner that has all it wants, two or more |
| DrainProgress.DrainEnds | controllers/cloudstackfailuredomain_controller.go:129-267 | in any run, of the steps that get something done there are at most as many as there was work, and after that many the failure domain is gone |
| DrainProgress.WorkNeverGrows | controllers/cloudstackfailuredomain_controller.go:148-267 | no event gives a failure domain that is going away more to do |
| DrainProgress.ProductiveLowers | controllers/cloudstackfailuredomain_controller.go:241-267 | each unblocked reconciliation and each completed deletion lowers the work left |
| DrainProgress.SomethingToDo | controllers/cloudstackfailuredomain_controller.go:241-261 | while the failure domain is there, what is waited for can complete or the next reconciliation gets something done |
| DrainProgress.DrainCanComplete | controllers/cloudstackfailuredomain_controller.go:129-145 | a deletion that is not blocked can be completed in no more steps than there is work |
| DrainProgress.OthersChildrenStay | controllers/utils/base_reconciler.go:266-279 | whatever fails, a reconciliation of a failure domain leaves what others own as it is |
| DrainProgress.DeleteOwnedSucceeds | controllers/utils/base_reconciler.go:255-282 | without failures the deletion of children succeeds and gets something done unless all were asked already |
| TeardownLimits.MachinesLeftBehind | controllers/cloudstackfailuredomain_controller.go:241-267 | when nothing fails, every gate is open and no child is left, a failure domain is released with machines in it exactly if the first by name has no Machine owner |
| TeardownLimits.StrayMachine | controllers/cloudstackfailuredomain_controller.go:243-260 | an input on which that happens |
| TeardownLimits.ClusterDeletedEarly | controllers/cloudstackcluster_controller.go:101-105 | in every run, a cluster that is deleted while it has failure domains is gone at once exactly if no reconciliation of it reached SetReady and was written back |
| TeardownLimits.ClusterGoneFirst | controllers/cloudstackcluster_controller.go:90-105 | a run in which that happens: created, reconciled once, deleted |
| TeardownLimits.MislabelledCluster | controllers/utils/failuredomains.go:59-72 | without failures a cluster is released with failure domains of its label left exactly if it lists by another label and finds nothing |
| VmRun.OneVmPerName | pkg/cloud/instance.go:66-95 | in every run at most one VM per name, with deployments that fail after making the VM, lost writes, and VMs that vanish |
| VmRun.GetOrCreateAdds | pkg/cloud/instance.go:461-574 | getting or creating adds at most one VM, of the machine's name, and only if there was none |
| VmRun.GetOrCreateIsFixedPoint | pkg/cloud/instance.go:44-62 | once it succeeded, doing it again changes neither the cloud nor the machine |
| VmRun.GetOrCreateFinds | pkg/cloud/instance.go:44-95 | after success the machine's VM is there, and identifiers, addresses and state are what the metrics say |
| VmRun.ResolveUpdates | pkg/cloud/instance.go:44-62 | the same for a lookup, which sets the time of the last change of state exactly if the state changed |
| VmRun.AddressesAre | pkg/cloud/instance.go:50-55 | the addresses are those of the network interfaces that have one, in order |
| VmRun.FinalizerHasInstance | controllers/cloudstackmachine_controller.go:221-264 | in every run, even if faults imitate answers, a ready machine has the finalizer and a machine with the finalizer has an instance ID |
| VmReady.ReadyMeansRunning | controllers/cloudstackmachine_controller.go:221-329 | whatever fails, a machine that becomes ready, or whose reconciliation is done, has its finalizer and a VM that is there and runs; if it is done, the VM is behind the load balancer and has a state checker |
| VmReady.DiscardedOnlyIf | controllers/cloudstackmachine_controller.go:197-293 | whatever fails, a CAPI machine is told to go only if it asks for a failure domain the cluster lacks, or its VM is in error |
| VmReady.GetOrCreateSucceeds | pkg/cloud/instance.go:461-574 | without failures the VM recorded or of that name is found, or else one is made as planned |
| VmReady.ReadyExactlyWhen | controllers/cloudstackmachine_controller.go:197-329 | without failures a reconciliation is done exactly if there is bootstrap data and the VM found or made runs, and is repeated otherwise; the CAPI machine is told to go exactly in those two cases |
| VmReady.DeletedExactlyWhen | controllers/cloudstackmachine_controller.go:331-363 | without failures a deletion is done exactly if the recorded VM is absent or may be expunged, and repeated otherwise |
| VmSpec.ProvisionedHasInstance | controllers/cloudstackmachine_controller.go:296-329 | the stages that dereference the instance ID are reached only with it set |
| VmRun.ReleasedOnlyWhenGone | controllers/cloudstackmachine_controller.go:331-363 | the finalizer goes exactly with success, and then the VM is absent, expunging or expunged |
| VmRun.DestroyFaultFree | pkg/cloud/instance.go:604-642 | without failures the destruction is complete at once exactly if the VM is absent or may be expunged; else it is in progress |
| VmLimits.RecordedAfterFailure | pkg/cloud/instance.go:507-533 | a VM made by a failed deployment is recorded exactly if the search works and the failure domain's network is one of its networks |
| VmLimits.NoSecondDeployment | pkg/cloud/instance.go:543-601 | the next attempt without failures finds that VM and makes no other |
| VmLimits.DeletionLeaves | pkg/cloud/instance.go:604-642 | a deletion without failures leaves a VM of the machine's name exactly if another one than the recorded one bears it and the recorded one can go |
| VmLimits.DeletionByName | controllers/cloudstackmachine_controller.go:331-345 | a machine that records no VM: its deletion without failures completes exactly if just one VM bears its name and may be expunged, and then none of the name is left that is not going |
| VmLimits.VmLeftBehind | pkg/cloud/instance.go:511-533 | a run from nothing that comes to that: VM made, vanished, a deployment that fails and makes another, a failed search, deletion |
| VmLimits.ImitatedAnswer | pkg/cloud/instance.go:82-95 | a fault that reads like "no match" leads to a second VM |
| VmClient.CsMachine.SetData | pkg/cloud/instance.go:44-62 | the loop over network interfaces keeps exactly the addresses that are set, in order |
| VmClient.Client.ResolveVMInstanceDetails | pkg/cloud/instance.go:66-95 | the method does what the specification of the lookup says, to cloud and machine |
| VmClient.Client.DeployVM | pkg/cloud/instance.go:461-539 | the same for the deployment, with the path on which CloudStack fails but made the VM |
| VmClient.Client.DestroyVMInstance | pkg/cloud/instance.go:604-642 | the same for the destruction |
| VmClient.Client.AssignVMToLoadBalancerRule | pkg/cloud/isolated_network.go:445-466 | the loop over the rule's instances leaves a VM that is behind the rule and assigns any other |
| VmClient.MachineRunner.DeleteMachineIfFailuredomainNotExist | controllers/cloudstackmachine_controller.go:197-217 | the search for the failure domain CAPI asks for decides whether the CAPI machine is told to go |
| VmClient.MachineRunner.RequeueIfInstanceNotRunning | controllers/cloudstackmachine_controller.go:275-293 | a running VM makes the machine ready, one in error has its CAPI machine told to go, any other is waited for |
| VmClient.MachineRunner.GetOrCreateMachineStateChecker | controllers/cloudstackmachine_controller.go:315-329 | a state checker that exists already is no error |
| VmClient.MachineRunner.Reconcile | controllers/cloudstackmachine_controller.go:119-132 | the stages around the VM, in order, do what the specification says to cloud, machine and verdict |
| VmClient.MachineRunner.ReconcileDelete | controllers/cloudstackmachine_controller.go:331-363 | the same for deletion |
| ClusterReady.ReadyMeansConverged | controllers/cloudstackcluster_controller.go:90-126 | whenever SetReady is reached, every failure domain of the reconciled cluster's spec existed ready under the label listed by, and every one of that label that the fetched cluster does not name was told to go |
| ClusterReady.ReadyUnderOwnName | controllers/cloudstackcluster_controller.go:90-126 | with the cluster under its CAPI cluster's name: every specified failure domain exists and is ready, and every other one was told to go |
| ClusterReady.CreatedAreListed | controllers/utils/base_reconciler.go:483-493 | what is created is listed exactly if the fetched cluster has the label of the reconciled one |
| ClusterReady.ReadyExactlyWhen | controllers/utils/failuredomains.go:45-107 | without failures SetReady is reached exactly if the label leads to a cluster and every specified failure domain already exists under its hashed name and the label listed by, and is ready; otherwise the reconciliation is to be repeated |
| ClusterReady.ReadyIsWritten | controllers/cloudstackcluster_controller.go:101-105 | a reconciliation that is done leaves the cluster ready and with its finalizer; any reconciliation changes clusters only so, and only once SetReady was reached |
| ClusterReady.HashedNames | api/v1beta3/cloudstackfailuredomain_types.go:31-33 | the hashed text tells failure domains apart within a cluster, and not across clusters |
| ClusterReady.ClusterRunner.Reconcile | controllers/cloudstackcluster_controller.go:90-139 | the methods with their loops and presence map, on both cluster objects, are the specification, and the status map lists the specified names |
| ClusterReady.ClusterRunner.VerifyFailureDomainCRDs | controllers/cloudstackcluster_controller.go:108-126 | the nested search with a found flag checks the first listed failure domain of each name |
| Admission.ValidateCreate | api/v1beta3/cloudstackcluster_webhook.go:57-85 | a creation is admitted exactly if there are failure domains and each is well specified; the complaints come in order |
| Admission.ComplaintsMean | api/v1beta3/cloudstackcluster_webhook.go:65-81 | each complaint is made exactly if some failure domain has that fault |
| Admission.HeldOverMeans | api/v1beta3/cloudstackcluster_webhook.go:118-151 | an admitted update can change project, gateway, netmask, offering and routing mode of a name held over, and nothing else |
| Admission.ValidateFailureDomainUpdates | api/v1beta3/cloudstackcluster_webhook.go:118-138 | admitted exactly if a name is held over and every old entry of a name held over equals its last new entry; each refusal names its cause |
| Admission.ValidateUpdate | api/v1beta3/cloudstackcluster_webhook.go:88-114 | an update is admitted exactly if its failure domains are and a host that was set stays, with the port as Go writes it |
| AdmissionHistory.NeverEmpty | api/v1beta3/cloudstackcluster_webhook.go:57-138 | over any admitted history no version is without failure domains, and consecutive versions share one |
| AdmissionHistory.IdentityIsKept | api/v1beta3/cloudstackcluster_webhook.go:118-151 | while a name stays, all its entries in an updated version equal the last entry of every later version |
| AdmissionHistory.LastEntriesAreEqual | api/v1beta3/cloudstackcluster_webhook.go:118-151 | so the last entry of a name is the same from the first version to the last |
| AdmissionHistory.IdentityIsPinned | api/v1beta3/cloudstackcluster_webhook.go:118-151 | of a version that can be updated, every admitted update keeps what a name stands for or lacks it, exactly if the version has the name |
| AdmissionHistory.IdentityOverHistory | api/v1beta3/cloudstackcluster_webhook.go:118-151 | over histories: what comes next stands for what the name stood for at first exactly if the last version still has it |
| AdmissionHistory.UpdatableIs | api/v1beta3/cloudstackcluster_webhook.go:118-138 | a version can be updated exactly if all entries of some name are alike |
| AdmissionHistory.IdentityIsLost | api/v1beta3/cloudstackcluster_webhook.go:118-138 | a history in which a dropped name comes back as another failure domain |
| AdmissionHistory.EndpointIsKept | api/v1beta3/cloudstackcluster_webhook.go:104-110 | along any updates a host that is set stays, and so does a port that is a scalar value other than U+FFFD |
| AdmissionHistory.PortIsPinned | api/v1beta3/cloudstackcluster_webhook.go:107-109 | of any version that can be updated, the webhook pins the port for those ports and no others |
| GoString.SameString | api/v1beta3/cloudstackcluster_webhook.go:107-109 | two integers convert to the same string exactly if they stand for the same character |
| GoString.Utf8RoundTrip | api/v1beta3/cloudstackcluster_webhook.go:107-109 | decoding undoes the UTF-8 encoding of section 3 of RFC 3629 |
| DomainPath.FoldsToRoot | pkg/cloud/user_credentials.go:88 | a token is the root exactly if it spells ROOT in any letter case |
| DomainPath.NormalizedPath | pkg/cloud/user_credentials.go:78-106 | a normalised path starts with exactly ROOT, its search level is its number of delimiters, and a missing name becomes its last token, up to letter case for the root alone |
| DomainPath.NormalizingIsIdempotent | pkg/cloud/user_credentials.go:83-95 | normalising again changes nothing |
| DomainPath.JoinUndoesSplit | pkg/cloud/user_credentials.go:84-94 | joining the tokens of a path gives the path |
| DomainPath.SplitUndoesJoin | pkg/cloud/user_credentials.go:84-94 | splitting a joined list of tokens without delimiters gives the list |
| DomainPath.SamePath | pkg/cloud/user_credentials.go:88-94 | a path with its root in any letter case and the path without root normalise alike |
| DomainPath.DomainObject.ResolveDomain | pkg/cloud/user_credentials.go:78-150 | the method edits the fields, asks the API, checks and searches as the specification says |
| DomainPath.ResolvedByPath | pkg/cloud/user_credentials.go:138-149 | a path is found exactly if the list holds a domain under the normalised path, and the identifier is that of one |
| DomainPath.ResolvedById | pkg/cloud/user_credentials.go:114-128 | an identifier is resolved exactly if one domain is listed and its path is the given one up to letter case, if one was given |
| DomainPath.ResolvedByNameAlone | pkg/cloud/user_credentials.go:130-149 | a name alone is resolved exactly if one domain is listed and its path is empty |
| Affinity.AffinityGroups.AddGroup | pkg/cloud/affinity_groups.go:125-135 | whatever the order of iteration, the groups enumerate the old ones by identifier on top of the new one |
| Affinity.AffinityGroups.RemoveGroup | pkg/cloud/affinity_groups.go:137-148 | whatever the order of iteration, the groups enumerate the old ones by identifier but that one |
| Affinity.AffinityGroups.ToArrayOfIDs | pkg/cloud/affinity_groups.go:117-123 | the identifiers, in order |
| Affinity.AddIsInsertion | pkg/cloud/affinity_groups.go:125-135 | identifiers are distinct and are the old ones and the new one, and an entry that was there wins |
| Affinity.RemoveIsDeletion | pkg/cloud/affinity_groups.go:137-148 | identifiers are distinct and are the old ones but that one |
| Affinity.SetLaws | pkg/cloud/affinity_groups.go:125-148 | adding then removing gives the old identifiers without that one; doing either twice is doing it once |

## Left out

Assumptions about the outside world:

- One reconciliation is atomic: reconciliations of one object do not overlap, and reads are not stale. The isolated-network
  controller runs with one worker.
- The CloudStack client library is modelled by the effect and reply of each call. Listing tags returns a map. CloudStack
  does not refuse to delete a network or VPC that something else still depends on, and does not delete by itself.
- A faulted call takes full effect or none.
- Errors are known by the substrings the code looks for. An error text that joins two others keeps the first.
- All objects live in one namespace; object names are never empty; a machine names an owner at most once.
- The CAPI cluster is fetched by a label and found, so its name is that label.
- Sorting is the library's; it is modelled by insertion into a sorted list, and machine names are distinct.

Parts that are not modelled:

- TagEffects.DeleteTagEffect: for a single tag, which is what every caller passes. For several the code passes the whole map in every turn of its loop, and what CloudStack does with a map that matches in part is not known here.
- CloudClient.Client.DeleteTags: a single tag, for the same reason.
- TeardownRun.TeardownIsOrdered: assumes, as an allowed step, that nothing joins a failure domain that is going away or was not set up, that every machine has a Machine owner, and that a cluster bears its CAPI cluster's name; `TeardownLimits` shows what happens otherwise.
- DrainReplicas.DrainKeepsReplicas: assumes that owners count accurately at the moment the controller looks, and leave machines being deleted out of `status.replicas`; nothing is claimed for stale counts. For owners that count those machines too there is `DrainReplicas.DrainKeepsReplicasCountingAll`, for one failure domain at a time.
- FixedPoint.SetUpIsFixedPoint: assumes that every public address has its own IP, across zones too (`FixedPoint.DistinctIps`), and that faults do not read like answers.
- VmRun.OneVmPerName: assumes that CloudStack looks up VMs by exact name, and that no VM made by others takes a name in use.
- TeardownLimits.ClusterDeletedEarly: garbage collection by owner references is not modelled; it asks the failure domains of a vanished cluster to go later on.
- DomainPath.NormalizedPath: the comparison with ROOT folds ASCII letters, to which no other character folds; for listed paths the folding is a parameter.
- ClusterReady.HashedNames: MD5 is not modelled; what is hashed is compared instead of the hash.
- Service offerings, templates, limits, disk offerings, networks of a VM, volumes, bootstrap secrets and affinity readiness: calls that may fail and otherwise do not matter here.
- The isolated network a machine waits for before its VM is made: taken as there, with its name and rule.
- What becomes of a CAPI machine that was told to go, and of memberships of VMs that are gone: in the hands of CAPI and CloudStack.
- Setting up a failure domain (zone and network resolution, creation of its isolated network): appears in runs only as the event that gives it its finalizer and readiness.
- The validation of DNS names, and MD5, base64, gzip and CIDR parsing: library code; the rules for names are a parameter.
- The machine state checker controller: it is not registered with the manager, so nothing of it takes effect; its objects are created and fetched, and nothing is read from them.
- CKS clusters: optional controllers that register clusters and machines with CloudStack under a finalizer of their own. The model is of a manager without them; with them a cluster stays until that finalizer is gone too.
- The webhooks of machines and machine templates: they check one update at a time, of fields that no modelled controller reads or that it takes as given.
- Conversions between API versions: every controller works on the one version stored.
- The cache of clients: it decides under which account a call is made; calls are modelled by their effect.
- Metrics, logging and events: written and never read back.
- ResolveAccount, ResolveUser and ResolveProject: they use what ResolveDomain found and change nothing it depends on.
