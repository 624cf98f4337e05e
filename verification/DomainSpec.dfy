/** Deletion of a failure domain (controllers/cloudstackfailuredomain_controller.go), stage by stage, as functions. */
module DomainSpec {
  import opened Faults
  import opened ApiServer
  import opened Names
  import opened Stages

  const KINDS: seq<ChildKind> := [AffinityGroup, IsolatedNetwork]

  function GetAllMachines(env: Env, k: Store, domain: string): (Store, Reply<seq<CsMachine>>) {
    var (k1, listing) := ListMachines(env, k, domain);
    (k1, match listing case Failed(text) => Failed(text) case Reply(machines) => Reply(SortByName(machines)))
  }

  predicate NotReady(conditions: seq<(string, string)>) { ("Ready", "False") in conditions }

  function ClusterGate(machines: seq<CsMachine>, cluster: CapiCluster): Result {
    if machines != [] && !cluster.deleting && NotReady(cluster.conditions) then Requeue else Continue
  }

  /** What the replica counts of one owner say. A malformed status.ready or status.readyReplicas counts as absent. */
  function OwnerGate(o: ReplicaOwner): Result {
    if !o.specReplicas.Present? || !o.statusReplicas.Present? || o.specReplicas.value < 2 then Fail
    else if o.specReplicas.value != o.statusReplicas.value then Requeue
    else if o.ready == Present(false) then Requeue
    else if o.readyReplicas.Present? && o.readyReplicas.value != o.statusReplicas.value then Requeue
    else Continue
  }

  function OwnersGate(env: Env, k: Store, refs: seq<OwnerRef>): (Store, Result)
    decreases |refs|
  {
    if refs == [] then (k, Continue)
    else if refs[0].kind.MachineKind? then OwnersGate(env, k, refs[1..])
    else
      var (k1, owner) := GetOwner(env, k, refs[0]);
      if owner.Failed? then (k1, Fail)
      else if OwnerGate(owner.value) != Continue then (k1, OwnerGate(owner.value))
      else OwnersGate(env, k1, refs[1..])
  }

  function MachinesGate(env: Env, k: Store, machines: seq<CsMachine>): (Store, Result)
    decreases |machines|
  {
    if machines == [] then (k, Continue)
    else
      var (k1, res) := OwnersGate(env, k, machines[0].owners);
      if res != Continue then (k1, res) else MachinesGate(env, k1, machines[1..])
  }

  /** The first owner of kind Machine. */
  function MachineOwner(refs: seq<OwnerRef>): Option<string> {
    if refs == [] then None
    else if refs[0].kind.MachineKind? then Some(refs[0].name)
    else MachineOwner(refs[1..])
  }

  /** Falls through when there is no machine, or the first one has no owner of kind Machine. */
  function ClearMachines(env: Env, k: Store, machines: seq<CsMachine>): (Store, Result) {
    if machines == [] || MachineOwner(machines[0].owners).None? then (k, Continue)
    else
      var name := MachineOwner(machines[0].owners).value;
      var (k1, deleting) := GetMachine(env, k, name);
      if deleting.Failed? then (k1, Fail)
      else if deleting.value then (k1, Requeue)
      else
        var (k2, err) := DeleteMachine(env, k1, name);
        (k2, if err.Error? then Fail else Requeue)
  }

  function DeleteListed(env: Env, k: Store, listed: seq<Child>, uid: nat): (Store, Result)
    decreases |listed|
  {
    if listed == [] then (k, Continue)
    else if listed[0].owner != uid then DeleteListed(env, k, listed[1..], uid)
    else
      var (k1, err) := DeleteChild(env, k, listed[0].kind, listed[0].name);
      if err.Error? then (k1, Fail) else DeleteListed(env, k1, listed[1..], uid)
  }

  function DeleteOwned(env: Env, k: Store, kinds: seq<ChildKind>, uid: nat): (Store, Result)
    decreases |kinds|
  {
    if kinds == [] then (k, Continue)
    else
      var (k1, listing) := ListChildren(env, k, kinds[0]);
      if listing.Failed? then (k1, Fail)
      else
        var (k2, res) := DeleteListed(env, k1, listing.value, uid);
        if res != Continue then (k2, res) else DeleteOwned(env, k2, kinds[1..], uid)
  }

  predicate AnyOwned(children: seq<Child>, uid: nat) { exists c :: c in children && c.owner == uid }

  function CheckOwned(env: Env, k: Store, kinds: seq<ChildKind>, uid: nat): (Store, Result)
    decreases |kinds|
  {
    if kinds == [] then (k, Continue)
    else
      var (k1, listing) := ListChildren(env, k, kinds[0]);
      if listing.Failed? then (k1, Fail)
      else if AnyOwned(listing.value, uid) then (k1, Requeue)
      else CheckOwned(env, k1, kinds[1..], uid)
  }

  /** The stages up to and including the one that deletes a machine. */
  function Drain(env: Env, k: Store, domain: string, cluster: CapiCluster): (Store, Result) {
    var (k1, listing) := GetAllMachines(env, k, domain);
    if listing.Failed? then (k1, Fail)
    else if ClusterGate(listing.value, cluster) != Continue then (k1, Requeue)
    else
      var (k2, res) := MachinesGate(env, k1, listing.value);
      if res != Continue then (k2, res) else ClearMachines(env, k2, listing.value)
  }

  /** All stages; `Continue` means that the finalizer is taken off the object. */
  function ReconcileDelete(env: Env, k: Store, domain: string, uid: nat, cluster: CapiCluster): (Store, Result) {
    var (k1, drained) := Drain(env, k, domain, cluster);
    if drained != Continue then (k1, drained)
    else
      var (k2, deleted) := DeleteOwned(env, k1, KINDS, uid);
      if deleted != Continue then (k2, deleted) else CheckOwned(env, k2, KINDS, uid)
  }

  /** A reconciliation of a failure domain marked for deletion: the stages, then the change is written back. */
  function Reconcile(env: Env, k: Store, domain: string, cluster: CapiCluster): (Store, Result)
    requires domain in k.domains
  {
    var (k1, res) := ReconcileDelete(env, k, domain, k.domains[domain].uid, cluster);
    if res != Continue then (k1, res)
    else
      var (k2, err) := ReleaseDomain(env, k1, domain);
      (k2, if err.Error? then Fail else Continue)
  }
}
