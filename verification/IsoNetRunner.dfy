/** The isolated-network controller as it is written, and what the disappearance of its finalizer means for the cloud.
    */
module IsoNetRunner {
  import opened Faults
  import opened CloudApi
  import opened TagSpec
  import opened TagEffects
  import Spec = IsoNetSpec
  import Controller = IsoNetController
  import Cloud = CloudClient
  import Endpoint
  import FixedPoint
  import Lifecycle
  import RefCount
  import opened Conservation

  class Runner {
    const client: Cloud.Client
    const net: Cloud.IsolatedNetwork
    const cluster: Cloud.ClusterObject
    var finalizer: bool
    var ready: bool
    /** The cluster as the API server has it; `cluster` is the copy being worked on. */
    var stored: Spec.CsCluster

    constructor (client: Cloud.Client, net: Cloud.IsolatedNetwork, cluster: Cloud.ClusterObject, finalizer: bool, ready: bool)
      ensures this.client == client && this.net == net && this.cluster == cluster
      ensures this.finalizer == finalizer && this.ready == ready && stored == cluster.View()
    {
      this.client, this.net, this.cluster := client, net, cluster;
      this.finalizer, this.ready, stored := finalizer, ready, cluster.View();
    }

    function View(): Controller.IsoNetObject
      reads this, net, net.vpc
    {
      Controller.IsoNetObject(net.View(), finalizer, ready)
    }

    method Reconcile(zone: Id, patched: GoError) returns (v: Controller.Verdict)
      requires stored == cluster.View()
      modifies this, client.cs, net, net.vpc, cluster
      ensures (client.cs.world, View(), stored, v)
           == Controller.Reconcile(client.cs.env, old(client.cs.world), zone, old(View()), old(cluster.View()), patched)
    {
      finalizer := true;
      if zone == 0 { return Controller.Requeue; }
      var err := client.GetOrCreateIsolatedNetwork(zone, net, cluster);
      if err.Error? { return Controller.Failure(err.text); }
      err := client.AddClusterTag(Resource(NetworkKind, net.id), cluster.uid);
      if err.Error? { return Controller.Failure(err.text); }
      if patched.Error? { return Controller.Failure(patched.text); }
      stored := cluster.View();
      ready := true;
      return Controller.Done;
    }

    method ReconcileDelete() returns (v: Controller.Verdict)
      modifies this`finalizer, client.cs
      ensures (client.cs.world, View(), v)
           == Controller.ReconcileDelete(client.cs.env, old(client.cs.world), old(View()), cluster.uid)
    {
      var err := client.DisposeIsoNetResources(net, cluster);
      if err.Error? && err.text != NoMatch { return Controller.Failure(err.text); }
      finalizer := false;
      return Controller.Done;
    }
  }

  /**
   When no call fails the finalizer always goes at once. With it the cluster's tag goes off the network, unless the
   object names a public address the cloud does not know: the disposal then stops before it reaches the network, and a
   tag that was there stays for good.
   */
  lemma FinalizerAndTag(env: Env, w: World, obj: Controller.IsoNetObject, uid: string)
    requires FaultFree(env) && WellFormed(w.registry) && ProperRegistry(w.registry) && ProperEdge(w.edge)
    ensures var (w', obj', v) := Controller.ReconcileDelete(env, w, obj, uid);
            var r := Spec.NetTag(obj.net.id);
            && v == Controller.Done && !obj'.finalizer
            && (ClusterTag(uid) in TagsIn(w'.registry, r)
                <==> ClusterTag(uid) in TagsIn(w.registry, r) && !Addressed(w, obj.net))
  {
    DisposeFaultFree(env, w, obj.net, uid);
    var r := Spec.NetTag(obj.net.id);
    assert (uid, r) in RefCount.Uses(uid, obj.net);
  }

  /** And it stays for good: until this cluster disposes of the network through another object, the network is there. */
  lemma LeakedNetworkStays(env: Env, w: World, obj: Controller.IsoNetObject, uid: string, later: Env,
                           states: seq<RefCount.System>, ops: seq<RefCount.Op>, i: nat)
    requires FaultFree(env) && WellFormed(w.registry) && ProperRegistry(w.registry) && ProperEdge(w.edge)
    requires RefCount.Reserved(w.registry, uid, Spec.NetTag(obj.net.id)) && !Addressed(w, obj.net)
    requires RefCount.IsRun(later, states, ops) && i < |states|
    requires states[0].world == Controller.ReconcileDelete(env, w, obj, uid).0
    requires forall op :: op in ops ==> !RefCount.Disposes(op, uid, Spec.NetTag(obj.net.id))
    ensures !Controller.ReconcileDelete(env, w, obj, uid).1.finalizer
    ensures RefCount.Reserved(states[i].world.registry, uid, Spec.NetTag(obj.net.id))
  {
    FinalizerAndTag(env, w, obj, uid);
    DisposeFaultFree(env, w, obj.net, uid);
    assert states[0].world.registry == w.registry;
    RefCount.TagKeepsResource(later, states, ops, i, uid, Spec.NetTag(obj.net.id));
  }

  const LAN := NetworkInfo("lan", "10.0.0.1", "255.0.0.0", "", 0, "", true)

  /** Such an object: its address was freed by hand, and its network is CAPC's and used by nobody else. */
  lemma TagLeftBehind()
    ensures exists env: Env, w: World, obj: Controller.IsoNetObject, uid ::
      && FaultFree(env) && WellFormed(w.registry) && ProperRegistry(w.registry) && ProperEdge(w.edge)
      && var (w', obj', v) := Controller.ReconcileDelete(env, w, obj, uid);
         && v == Controller.Done && !obj'.finalizer
         && CreatedTag in TagsIn(w'.registry, Spec.NetTag(obj.net.id))
         && RefCount.Reserved(w'.registry, uid, Spec.NetTag(obj.net.id))
  {
    var env: Env := (t: nat) => Normal;
    var tags: Tags := map[CreatedTag := "1", ClusterTag("c") := "1"];
    var registry := Registry(2, map[1 := LAN], map[], map[Spec.NetTag(1) := tags]);
    var w := World(0, registry, Edge([], map[], 1, [], map[], map[]), Catalogue(map[], {}));
    var iso := Spec.IsoNet("lan", 1, "", 0, "", "", "", None, 7, 0, "", false);
    var obj := Controller.IsoNetObject(iso, true, true);
    assert !Addressed(w, iso);
    assert Proper(tags);
    FinalizerAndTag(env, w, obj, "c");
    DisposeFaultFree(env, w, iso, "c");
  }

  lemma ReleaseNeverMisses(env: Env, w: World, r: Resource, uid: string)
    requires Honest(env)
    ensures Spec.Release(env, w, r, uid).1 != Error(NoMatch)
  {
  }

  lemma DeleteTagNeverMisses(env: Env, w: World, r: Resource, key: TagKey)
    requires Honest(env)
    ensures DeleteTag(env, w, r, key, "1").1 != Error(NoMatch)
  {
  }

  lemma DisassociationMisses(env: Env, w: World, iso: Spec.IsoNet)
    requires Honest(env) && Spec.DisassociateIfNotInUse(env, w, iso).1 == Error(NoMatch)
    ensures !AddressKnown(w.edge.addresses, iso.publicIp)
  {
    var r := Spec.AddressTag(iso.publicIp);
    var w1 := DoClusterTagsAllowDisposal(env, w, r).0;
    var w2 := GetAddressByID(env, w1, iso.publicIp).0;
    AddressByIdKnown(w.edge.addresses, iso.publicIp);
    DeleteTagNeverMisses(env, w2, r, CreatedTag);
    DeleteTagEffect(env, w2, r, CreatedTag, "1");
  }

  /** Only an address that the cloud does not know makes a disposal report that nothing matched. */
  lemma AddressMisses(env: Env, w: World, iso: Spec.IsoNet, uid: string)
    requires Honest(env) && Spec.ReleaseAddress(env, w, iso, uid).1 == Error(NoMatch)
    ensures !Addressed(w, iso)
  {
    var r := Spec.AddressTag(iso.publicIp);
    DeleteTagNeverMisses(env, Tick(w), r, ClusterTag(uid));
    DeleteTagEffect(env, Tick(w), r, ClusterTag(uid), "1");
    var w1 := DeleteClusterTag(env, w, r, uid).0;
    assert w1.edge.addresses == w.edge.addresses;
    DisassociationMisses(env, w1, iso);
  }

  /**
   Whatever fails: the finalizer goes only if the disposal succeeded, and then neither the address nor the network nor the
   VPC is left abandoned; or else the object names an address the cloud does not know, and network and VPC were not
   touched. Nothing else about the object changes, and it keeps its finalizer exactly if the reconciliation fails.
   */
  lemma FinalizerGoesOnlyIf(env: Env, w: World, obj: Controller.IsoNetObject, uid: string)
    requires Honest(env) && obj.finalizer
    ensures var (w', obj', v) := Controller.ReconcileDelete(env, w, obj, uid);
            && (obj'.finalizer <==> v.Failure?) && obj' == obj.(finalizer := obj'.finalizer)
            && (!obj'.finalizer ==>
                  || (&& (forall use :: use in RefCount.Uses(uid, obj.net) ==> !Lifecycle.Abandoned(w'.registry, use.1))
                      && (obj.net.publicIp != 0 ==> !Lifecycle.AddressAbandoned(w', obj.net.publicIp)))
                  || (!Addressed(w, obj.net) && w'.registry == w.registry))
  {
    var (w1, released) := Spec.ReleaseAddress(env, w, obj.net, uid);
    ReleaseAddressAside(env, w, obj.net, uid);
    if released == Error(NoMatch) {
      AddressMisses(env, w, obj.net, uid);
    } else if released.Nil? {
      var net, vpc := Spec.NetTag(obj.net.id), Spec.VpcTag(Spec.VpcId(obj.net.vpc));
      ReleaseNeverMisses(env, w1, net, uid);
      ReleaseNeverMisses(env, Spec.Release(env, w1, net, uid).0, vpc, uid);
      if Spec.Dispose(env, w, obj.net, uid).1.Nil? { Lifecycle.NilMeansDisposed(env, w, obj.net, uid); }
    }
  }

  // ---- Readiness -----------------------------------------------------------------------------

  /** The second tagging of the network leaves what is settled settled. */
  lemma SetUpStaysSettled(env: Env, w: World, zone: Id, iso: Spec.IsoNet, cl: Spec.CsCluster)
    requires Honest(env) && WellFormed(w.registry) && FixedPoint.DistinctIps(w.edge.addresses)
    requires Controller.SetUp(env, w, zone, iso, cl).3.Nil?
    ensures var (w', iso', cl', _) := Controller.SetUp(env, w, zone, iso, cl);
            FixedPoint.Settled(w', zone, iso', cl') && cl'.uid == cl.uid
  {
    var (w1, iso1, cl1, _) := Spec.GetOrCreate(env, w, zone, iso, cl);
    FixedPoint.SetUpSettles(env, w, zone, iso, cl);
    GetOrCreateIsTagged(env, w, zone, iso, cl);
    SetUpIsTaggedTwice(env, w, zone, iso, cl);
    AddClusterTagEffect(env, w1, Spec.NetTag(iso1.id), cl1.uid);
  }

  /**
   Whatever fails: after a reconciliation the object has its finalizer. If it is done, the object is ready, the zone
   was known, network, tags, endpoint and rules are as the next set-up wants them, and the endpoint was written back.
   If not, readiness and the stored cluster are as they were.
   */
  lemma ReadyOnlyWhenSettled(env: Env, w: World, zone: Id, obj: Controller.IsoNetObject, cl: Spec.CsCluster,
                             patched: GoError)
    requires Honest(env) && WellFormed(w.registry) && FixedPoint.DistinctIps(w.edge.addresses)
    ensures var (w', obj', cl', v) := Controller.Reconcile(env, w, zone, obj, cl, patched);
            && obj'.finalizer && (v == Controller.Requeue <==> zone == 0)
            && if v == Controller.Done
               then zone != 0 && patched.Nil? && obj'.ready && FixedPoint.Settled(w', zone, obj'.net, cl')
               else obj'.ready == obj.ready && cl' == cl
  {
    if zone != 0 && Controller.SetUp(env, w, zone, obj.net, cl).3.Nil? {
      SetUpStaysSettled(env, w, zone, obj.net, cl);
    }
  }

  /** Without failures the object becomes ready exactly if the zone is known, the endpoint is written back, the network
      can be had and, unless it is routed, there is an address for it. */
  lemma DoneExactlyWhen(env: Env, w: World, zone: Id, obj: Controller.IsoNetObject, cl: Spec.CsCluster, patched: GoError)
    requires FaultFree(env) && WellFormed(w.registry) && FixedPoint.DistinctIps(w.edge.addresses)
    ensures Controller.Reconcile(env, w, zone, obj, cl, patched).3 == Controller.Done <==>
              && zone != 0 && patched.Nil? && Endpoint.Obtainable(w, obj.net)
              && (Spec.ResolveOrCreate(env, w, obj.net).1.routingMode == "" ==>
                    exists a :: a in w.edge.addresses && Endpoint.Eligible(a, zone, cl.host))
  {
    if zone != 0 {
      Endpoint.SetUpSucceedsIff(env, w, zone, obj.net, cl);
      GetOrCreateKept(env, w, zone, obj.net, cl);
      var (w1, iso1, cl1, _) := Spec.GetOrCreate(env, w, zone, obj.net, cl);
      AddClusterTagFaultFree(env, w1, Spec.NetTag(iso1.id), cl1.uid);
    }
  }
}
