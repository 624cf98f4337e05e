/**
 Deletion of failure domains and clusters as it is written: stage methods that store what they listed on the runner and
 call the API server step by step. Each is proved to do exactly what its specification function says.
 */
module DomainRunner {
  import opened Faults
  import opened ApiServer
  import opened Names
  import opened Stages
  import Spec = DomainSpec
  import Teardown = ClusterTeardown

  /** Both replica counts of an owner, if it has them and can spare a machine. */
  method GetSpecAndStatusReplicas(o: ReplicaOwner) returns (specReplicas: int, statusReplicas: int, ok: bool)
    ensures ok <==> o.specReplicas.Present? && o.statusReplicas.Present? && 2 <= o.specReplicas.value
    ensures ok ==> specReplicas == o.specReplicas.value && statusReplicas == o.statusReplicas.value
  {
    if !o.specReplicas.Present? { return 0, 0, false; }
    if !o.statusReplicas.Present? { return o.specReplicas.value, 0, false; }
    return o.specReplicas.value, o.statusReplicas.value, 2 <= o.specReplicas.value;
  }

  class FailureDomainRunner {
    const api: Api
    const domain: string
    const uid: nat
    const cluster: CapiCluster
    var machines: seq<CsMachine>

    constructor (api: Api, domain: string, uid: nat, cluster: CapiCluster)
      ensures this.api == api && this.domain == domain && this.uid == uid && this.cluster == cluster
    {
      this.api, this.domain, this.uid, this.cluster, machines := api, domain, uid, cluster, [];
    }

    method GetAllMachinesInFailureDomain() returns (res: Result)
      modifies this, api
      ensures var (k, listing) := Spec.GetAllMachines(api.env, old(api.store), domain);
              && api.store == k
              && (if listing.Failed? then res == Fail && machines == old(machines)
                  else res == Continue && machines == listing.value)
    {
      var reply := ListMachines(api.env, api.store, domain);
      api.store := reply.0;
      if reply.1.Failed? { return Fail; }
      machines := SortByName(reply.1.value);
      return Continue;
    }

    method RequeueIfClusterNotReady() returns (res: Result)
      ensures res == Spec.ClusterGate(machines, cluster)
    {
      if |machines| > 0 {
        if cluster.deleting { return Continue; }
        var i := 0;
        while i < |cluster.conditions|
          invariant 0 <= i <= |cluster.conditions|
          invariant ("Ready", "False") !in cluster.conditions[..i]
        {
          var condition := cluster.conditions[i];
          if condition.0 == "Ready" && condition.1 == "False" {
            assert condition == ("Ready", "False");
            return Requeue;
          }
          i := i + 1;
        }
        assert cluster.conditions[..i] == cluster.conditions;
      }
      return Continue;
    }

    /** The inner loop: the owners of one machine. */
    method RequeueIfOwnersNotSettled(refs: seq<OwnerRef>) returns (res: Result)
      modifies api
      ensures (api.store, res) == Spec.OwnersGate(api.env, old(api.store), refs)
    {
      var i := 0;
      while i < |refs|
        invariant 0 <= i <= |refs|
        invariant Spec.OwnersGate(api.env, old(api.store), refs) == Spec.OwnersGate(api.env, api.store, refs[i..])
      {
        if !refs[i].kind.MachineKind? {
          var reply := GetOwner(api.env, api.store, refs[i]);
          api.store := reply.0;
          if reply.1.Failed? { return Fail; }
          var owner := reply.1.value;
          var specReplicas, statusReplicas, ok := GetSpecAndStatusReplicas(owner);
          if !ok { return Fail; }
          if specReplicas != statusReplicas { return Requeue; }
          if owner.ready.Present? && !owner.ready.value { return Requeue; }
          if owner.readyReplicas.Present? && owner.readyReplicas.value != statusReplicas { return Requeue; }
        }
        i := i + 1;
      }
      return Continue;
    }

    method RequeueIfMachineCannotBeRemoved() returns (res: Result)
      modifies api
      ensures (api.store, res) == Spec.MachinesGate(api.env, old(api.store), machines)
    {
      var i := 0;
      while i < |machines|
        invariant 0 <= i <= |machines|
        invariant Spec.MachinesGate(api.env, old(api.store), machines)
               == Spec.MachinesGate(api.env, api.store, machines[i..])
      {
        res := RequeueIfOwnersNotSettled(machines[i].owners);
        if res != Continue { return; }
        i := i + 1;
      }
      return Continue;
    }

    method ClearMachines() returns (res: Result)
      modifies api
      ensures (api.store, res) == Spec.ClearMachines(api.env, old(api.store), machines)
    {
      if |machines| > 0 {
        var refs := machines[0].owners;
        var i := 0;
        while i < |refs|
          invariant 0 <= i <= |refs| && api.store == old(api.store)
          invariant Spec.MachineOwner(refs) == Spec.MachineOwner(refs[i..])
        {
          if refs[i].kind.MachineKind? {
            var reply := GetMachine(api.env, api.store, refs[i].name);
            api.store := reply.0;
            if reply.1.Failed? { return Fail; }
            if reply.1.value { return Requeue; }
            var removal := DeleteMachine(api.env, api.store, refs[i].name);
            api.store := removal.0;
            return if removal.1.Error? then Fail else Requeue;
          }
          i := i + 1;
        }
      }
      return Continue;
    }

    /** Deletes those of the listed objects that the failure domain owns. */
    method DeleteListed(listed: seq<Child>) returns (res: Result)
      modifies api
      ensures (api.store, res) == Spec.DeleteListed(api.env, old(api.store), listed, uid)
    {
      var i := 0;
      while i < |listed|
        invariant 0 <= i <= |listed|
        invariant Spec.DeleteListed(api.env, old(api.store), listed, uid)
               == Spec.DeleteListed(api.env, api.store, listed[i..], uid)
      {
        if listed[i].owner == uid {
          var removal := DeleteChild(api.env, api.store, listed[i].kind, listed[i].name);
          api.store := removal.0;
          if removal.1.Error? { return Fail; }
        }
        i := i + 1;
      }
      return Continue;
    }

    method DeleteOwnedObjects(kinds: seq<ChildKind>) returns (res: Result)
      modifies api
      ensures (api.store, res) == Spec.DeleteOwned(api.env, old(api.store), kinds, uid)
    {
      var i := 0;
      while i < |kinds|
        invariant 0 <= i <= |kinds|
        invariant Spec.DeleteOwned(api.env, old(api.store), kinds, uid)
               == Spec.DeleteOwned(api.env, api.store, kinds[i..], uid)
      {
        var reply := ListChildren(api.env, api.store, kinds[i]);
        api.store := reply.0;
        if reply.1.Failed? { return Fail; }
        res := DeleteListed(reply.1.value);
        if res != Continue { return; }
        i := i + 1;
      }
      return Continue;
    }

    method AnyOwned(listed: seq<Child>) returns (found: bool)
      ensures found == Spec.AnyOwned(listed, uid)
    {
      var i := 0;
      while i < |listed|
        invariant 0 <= i <= |listed|
        invariant forall c :: c in listed[..i] ==> c.owner != uid
      {
        if listed[i].owner == uid { return true; }
        i := i + 1;
      }
      assert listed[..i] == listed;
      return false;
    }

    method CheckOwnedObjectsDeleted(kinds: seq<ChildKind>) returns (res: Result)
      modifies api
      ensures (api.store, res) == Spec.CheckOwned(api.env, old(api.store), kinds, uid)
    {
      var i := 0;
      while i < |kinds|
        invariant 0 <= i <= |kinds|
        invariant Spec.CheckOwned(api.env, old(api.store), kinds, uid)
               == Spec.CheckOwned(api.env, api.store, kinds[i..], uid)
      {
        var reply := ListChildren(api.env, api.store, kinds[i]);
        api.store := reply.0;
        if reply.1.Failed? { return Fail; }
        var owned := AnyOwned(reply.1.value);
        if owned { return Requeue; }
        i := i + 1;
      }
      return Continue;
    }

    /** The stages in order, each only if the one before lets it; then the finalizer is taken off and written back. */
    method ReconcileDelete() returns (res: Result)
      requires domain in api.store.domains && api.store.domains[domain].uid == uid
      modifies this, api
      ensures (api.store, res) == Spec.Reconcile(api.env, old(api.store), domain, cluster)
    {
      res := GetAllMachinesInFailureDomain();
      if res != Continue { return; }
      res := RequeueIfClusterNotReady();
      if res != Continue { return; }
      res := RequeueIfMachineCannotBeRemoved();
      if res != Continue { return; }
      res := ClearMachines();
      if res != Continue { return; }
      res := DeleteOwnedObjects(Spec.KINDS);
      if res != Continue { return; }
      res := CheckOwnedObjectsDeleted(Spec.KINDS);
      if res != Continue { return; }
      var patched := ReleaseDomain(api.env, api.store, domain);
      api.store := patched.0;
      return if patched.1.Error? then Fail else Continue;
    }
  }

  class ClusterRunner {
    const api: Api
    const name: string

    constructor (api: Api, name: string)
      ensures this.api == api && this.name == name
    {
      this.api, this.name := api, name;
    }

    /** `order` is how the API server orders what it lists. */
    method ReconcileDelete(order: Order) returns (res: Result)
      requires name in api.store.clusters
      modifies api
      ensures (api.store, res) == Teardown.Reconcile(api.env, old(api.store), name, order)
    {
      var reply := ListDomains(api.env, api.store, ListingLabel(api.store.clusters, name), order);
      api.store := reply.0;
      if reply.1.Failed? { return Fail; }
      var listing := reply.1.value;
      if |listing| > 0 {
        ghost var k1 := api.store;
        var i := 0;
        while i < |listing|
          invariant 0 <= i <= |listing|
          invariant Teardown.DeleteDomains(api.env, k1, listing)
                 == Teardown.DeleteDomains(api.env, api.store, listing[i..])
        {
          var removal := DeleteDomain(api.env, api.store, listing[i].0);
          api.store := removal.0;
          if removal.1.Error? { return Fail; }
          i := i + 1;
        }
        return Requeue;
      }
      var patched := ReleaseCluster(api.env, api.store, name);
      api.store := patched.0;
      return if patched.1.Error? then Fail else Continue;
    }
  }
}
