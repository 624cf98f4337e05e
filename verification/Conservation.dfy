/** Runs in which no call fails: tags count clusters exactly, and the last cluster out deletes what CAPC made. */
module Conservation {
  import opened Faults
  import opened CloudApi
  import opened TagSpec
  import opened IsoNetSpec
  import opened TagEffects
  import opened IsoNetController
  import opened RefCount

  /** CAPC writes its tags with the value "1". */
  ghost predicate Proper(t: Tags) {
    forall key :: key in t && !key.OtherTag? ==> t[key] == "1"
  }

  ghost predicate ProperRegistry(g: Registry) {
    forall r :: r in g.tags ==> Proper(g.tags[r])
  }

  ghost predicate ProperEdge(e: Edge) {
    forall id :: id in e.addressTags ==> Proper(e.addressTags[id])
  }

  // ---- Addresses -----------------------------------------------------------------------------

  ghost predicate SameIds(a: seq<Address>, b: seq<Address>) {
    |a| == |b| && forall i :: 0 <= i < |a| ==> a[i].id == b[i].id
  }

  /** The pool of addresses stays, and CAPC's tags on them stay proper. */
  ghost predicate Pooled(e: Edge, e': Edge) {
    SameIds(e.addresses, e'.addresses) && (ProperEdge(e) ==> ProperEdge(e'))
  }

  lemma SameIdsKnown(a: seq<Address>, b: seq<Address>, id: Id)
    requires SameIds(a, b)
    ensures AddressKnown(a, id) <==> AddressKnown(b, id)
  {
    if AddressKnown(a, id) {
      var i :| 0 <= i < |a| && a[i].id == id;
      assert b[i].id == id;
    }
  }

  lemma PooledCompose(e: Edge, e1: Edge, e2: Edge)
    requires Pooled(e, e1) && Pooled(e1, e2)
    ensures Pooled(e, e2)
  {
  }

  lemma OnlyTagsPooled(w: World, w': World, r: Resource)
    requires OnlyTags(w, w', r) && (Proper(TagsOf(w, r)) ==> Proper(TagsOf(w', r)))
    ensures Pooled(w.edge, w'.edge)
  {
    if Still(w') != Still(w) && r.kind.AddressKind? && ProperEdge(w.edge) {
      assert w'.edge.addressTags == w.edge.addressTags[r.id := TagsOf(w', r)];
    }
  }

  lemma AddTagsPooled(env: Env, w: World, r: Resource, key: TagKey)
    ensures Pooled(w.edge, AddTags(env, w, r, map[key := "1"]).0.edge)
  {
    AddTagsEffect(env, w, r, map[key := "1"]);
    OnlyTagsPooled(w, AddTags(env, w, r, map[key := "1"]).0, r);
  }

  lemma AddClusterTagPooled(env: Env, w: World, r: Resource, uid: string)
    ensures Pooled(w.edge, AddClusterTag(env, w, r, uid).0.edge)
  {
    AddTagsPooled(env, Tick(w), r, ClusterTag(uid));
  }

  lemma DeleteTagPooled(env: Env, w: World, r: Resource, key: TagKey, value: string)
    ensures Pooled(w.edge, DeleteTag(env, w, r, key, value).0.edge)
  {
    DeleteTagEffect(env, w, r, key, value);
    OnlyTagsPooled(w, DeleteTag(env, w, r, key, value).0, r);
  }

  lemma AssociatePooled(env: Env, w: World, zone: Id, iso: IsoNet, cl: CsCluster)
    ensures Pooled(w.edge, AssociatePublicIP(env, w, zone, iso, cl).0.edge)
  {
    var (w1, chosen) := GetPublicIP(env, w, zone, cl.host);
    if chosen.Reply? {
      var r := AddressTag(chosen.value.id);
      var w2 := AssociateAddress(env, w1, chosen.value.ip, iso.id, VpcId(iso.vpc)).0;
      AddClusterTagPooled(env, w2, r, cl.uid);
      var w3 := AddClusterTag(env, w2, r, cl.uid).0;
      AddTagsPooled(env, w3, r, CreatedTag);
      PooledCompose(w.edge, w2.edge, w3.edge);
      PooledCompose(w.edge, w3.edge, AddCreatedTag(env, w3, r).0.edge);
    }
  }

  lemma LbRulePooled(env: Env, w: World, iso: IsoNet, cl: CsCluster)
    ensures Pooled(w.edge, GetOrCreateLbRule(env, w, iso, cl).0.edge)
  {
  }

  lemma {:induction false} FirewallRulesPooled(env: Env, w: World, iso: IsoNet, protocols: seq<Protocol>)
    ensures Pooled(w.edge, CreateFirewallRules(env, w, iso, protocols).0.edge)
    decreases |protocols|
  {
    if protocols != [] {
      FirewallRulesPooled(env, CreateFirewallRule(env, w, iso, protocols[0]).0, iso, protocols[1..]);
    }
  }

  lemma SetUpEndpointPooled(env: Env, w: World, zone: Id, iso: IsoNet, cl: CsCluster)
    ensures Pooled(w.edge, SetUpEndpoint(env, w, zone, iso, cl).0.edge)
  {
    if iso.routingMode == "" {
      AssociatePooled(env, w, zone, iso, cl);
      var (w1, iso1, cl1, _) := AssociatePublicIP(env, w, zone, iso, cl);
      LbRulePooled(env, w1, iso1, cl1);
      PooledCompose(w.edge, w1.edge, GetOrCreateLbRule(env, w1, iso1, cl1).0.edge);
    }
  }

  lemma OpenFirewallPooled(env: Env, w: World, iso: IsoNet)
    ensures Pooled(w.edge, OpenFirewall(env, w, iso).0.edge)
  {
    FirewallRulesPooled(env, CheckFirewallRules(env, GetNetworkByID(env, w, iso.id).0, iso).0, iso, PROTOCOLS);
  }

  lemma TagBothAside(env: Env, w: World, iso: IsoNet, uid: string)
    ensures TagBoth(env, w, iso, uid).0.edge == w.edge
  {
    AddClusterTagEffect(env, w, NetTag(iso.id), uid);
    AddClusterTagEffect(env, AddClusterTag(env, w, NetTag(iso.id), uid).0, VpcTag(VpcId(iso.vpc)), uid);
  }

  lemma SetUpPooled(env: Env, w: World, zone: Id, iso: IsoNet, cl: CsCluster)
    ensures Pooled(w.edge, SetUp(env, w, zone, iso, cl).0.edge)
  {
    var (w1, iso1, _) := ResolveOrCreate(env, w, iso);
    ResolveOrCreateAside(env, w, iso);
    var (w2, _) := TagBoth(env, w1, iso1, cl.uid);
    TagBothAside(env, w1, iso1, cl.uid);
    var (w3, iso3, _, _) := SetUpEndpoint(env, w2, zone, iso1, cl);
    SetUpEndpointPooled(env, w2, zone, iso1, cl);
    OpenFirewallPooled(env, w3, iso3);
    var (w4, iso4, cl4, _) := GetOrCreate(env, w, zone, iso, cl);
    assert Pooled(w.edge, w4.edge);
    AddClusterTagEffect(env, w4, NetTag(iso4.id), cl4.uid);
  }

  lemma DisassociatePooled(env: Env, w: World, iso: IsoNet)
    ensures Pooled(w.edge, DisassociatePublicIP(env, w, iso).0.edge)
  {
    var w1 := DeleteCreatedTag(env, w, AddressTag(iso.publicIp)).0;
    DeleteTagPooled(env, w, AddressTag(iso.publicIp), CreatedTag, "1");
    PooledCompose(w.edge, w1.edge, DisassociateAddress(env, w1, iso.publicIp).0.edge);
  }

  lemma ReleaseAddressPooled(env: Env, w: World, iso: IsoNet, uid: string)
    ensures Pooled(w.edge, ReleaseAddress(env, w, iso, uid).0.edge)
  {
    var r := AddressTag(iso.publicIp);
    DeleteTagPooled(env, Tick(w), r, ClusterTag(uid), "1");
    var (w1, _) := DeleteClusterTag(env, w, r, uid);
    var (w2, _) := DoClusterTagsAllowDisposal(env, w1, r);
    var (w3, _) := GetAddressByID(env, w2, iso.publicIp);
    DisassociatePooled(env, w3, iso);
    PooledCompose(w.edge, w1.edge, DisassociatePublicIP(env, w3, iso).0.edge);
  }

  lemma ReleaseAside(env: Env, w: World, r: Resource, uid: string)
    requires !r.kind.AddressKind?
    ensures Release(env, w, r, uid).0.edge == w.edge
  {
    RemoveClusterTagEffect(env, w, r, uid);
  }

  lemma DisposePooled(env: Env, w: World, iso: IsoNet, uid: string)
    ensures Pooled(w.edge, Dispose(env, w, iso, uid).0.edge)
  {
    var w1 := ReleaseAddress(env, w, iso, uid).0;
    ReleaseAddressPooled(env, w, iso, uid);
    ReleaseAside(env, w1, NetTag(iso.id), uid);
    ReleaseAside(env, Release(env, w1, NetTag(iso.id), uid).0, VpcTag(VpcId(iso.vpc)), uid);
  }

  // ---- A disposal in which no call fails -----------------------------------------------------

  /** The object names no public address, or one the cloud knows. */
  predicate Addressed(w: World, iso: IsoNet) {
    iso.publicIp == 0 || AddressKnown(w.edge.addresses, iso.publicIp)
  }

  lemma {:induction false} AddressByIdKnown(addresses: seq<Address>, id: Id)
    ensures AddressById(addresses, id).Some? <==> AddressKnown(addresses, id)
  {
    if addresses != [] {
      AddressByIdKnown(addresses[1..], id);
      if AddressKnown(addresses[1..], id) {
        var i :| 0 <= i < |addresses[1..]| && addresses[1..][i].id == id;
        assert addresses[i + 1].id == id;
      }
      if AddressKnown(addresses, id) && addresses[0].id != id {
        var i :| 0 <= i < |addresses| && addresses[i].id == id;
        assert addresses[1..][i - 1].id == id;
      }
    }
  }

  lemma DeleteTagFaultFree(env: Env, w: World, r: Resource, key: TagKey)
    requires FaultFree(env) && Proper(TagsOf(w, r)) && !key.OtherTag?
    ensures var (w', err) := DeleteTag(env, w, r, key, "1");
            err.Nil? && TagsOf(w', r) == TagsOf(w, r) - {key} && OnlyTags(w, w', r)
            && w'.edge.addresses == w.edge.addresses
  {
    if key !in TagsOf(w, r) { assert TagsOf(w, r) - {key} == TagsOf(w, r); }
  }

  /** Releasing the address fails exactly when the cloud does not know it, and then with "no match found". */
  lemma ReleaseAddressFaultFree(env: Env, w: World, iso: IsoNet, uid: string)
    requires FaultFree(env) && ProperEdge(w.edge)
    ensures var err := ReleaseAddress(env, w, iso, uid).1;
            err == if Addressed(w, iso) then Nil else Error(NoMatch)
  {
    var r := AddressTag(iso.publicIp);
    assert Proper(TagsOf(w, r));
    DeleteTagFaultFree(env, Tick(w), r, ClusterTag(uid));
    var (w1, _) := DeleteClusterTag(env, w, r, uid);
    assert w1.edge.addresses == w.edge.addresses && Proper(TagsOf(w1, r));
    AddressByIdKnown(w.edge.addresses, iso.publicIp);
    var (w2, _) := DoClusterTagsAllowDisposal(env, w1, r);
    var (w3, _) := GetAddressByID(env, w2, iso.publicIp);
    DeleteTagFaultFree(env, w3, r, CreatedTag);
  }

  /** After a release: the tag is off, and the resource is gone exactly if CAPC made it and nobody else uses it. */
  ghost predicate Released(g: Registry, g': Registry, uid: string, r: Resource) {
    if Present(g, r) && CreatedTag in TagsIn(g, r) && ClusterTags(TagsIn(g, r)) <= {ClusterTag(uid)}
    then !Present(g', r) && TagsIn(g', r) == map[]
    else Present(g', r) == Present(g, r) && TagsIn(g', r) == TagsIn(g, r) - {ClusterTag(uid)}
  }

  lemma ReleaseFaultFree(env: Env, w: World, r: Resource, uid: string)
    requires FaultFree(env) && WellFormed(w.registry) && ProperRegistry(w.registry) && !r.kind.AddressKind?
    ensures var (w', err) := Release(env, w, r, uid);
            && err.Nil?
            && Released(w.registry, w'.registry, uid, r)
            && ProperRegistry(w'.registry)
            && (forall s :: s != r ==> TagsIn(w'.registry, s) == TagsIn(w.registry, s)
                                       && Present(w'.registry, s) == Present(w.registry, s))
  {
    RemoveClusterTagFaultFree(env, w, r, uid);
    var (w1, _) := RemoveClusterTag(env, w, r, uid);
    var g, g1 := w.registry, w1.registry;
    var t := TagsIn(g, r);
    assert ClusterTags(t - {ClusterTag(uid)}) == ClusterTags(t) - {ClusterTag(uid)};
    var g' := Release(env, w, r, uid).0.registry;
    assert g' == (if AllowDisposal(TagsIn(g1, r)) && Present(g, r) then Minus(g1, r) else g1);
    assert CreatedTag in t ==> t[CreatedTag] == "1";
    assert !Present(g, r) ==> t == map[];
  }

  lemma RemoveClusterTagFaultFree(env: Env, w: World, r: Resource, uid: string)
    requires FaultFree(env) && WellFormed(w.registry) && ProperRegistry(w.registry) && !r.kind.AddressKind?
    ensures var (w', err) := RemoveClusterTag(env, w, r, uid);
            && err.Nil?
            && TagsIn(w'.registry, r) == TagsIn(w.registry, r) - {ClusterTag(uid)}
            && w'.registry.networks == w.registry.networks && w'.registry.vpcs == w.registry.vpcs
            && ProperRegistry(w'.registry)
            && forall s :: s != r ==> TagsIn(w'.registry, s) == TagsIn(w.registry, s)
  {
    var t := TagsOf(w, r);
    assert Proper(t);
    if ClusterTag(uid) in t {
      DeleteTagFaultFree(env, Tick(w), r, ClusterTag(uid));
    } else {
      assert t - {ClusterTag(uid)} == t;
    }
  }

  /**
   When no call fails, a disposal returns nil exactly if the object names no address unknown to the cloud. Then the
   cluster's tags are off network and VPC, and whichever of them CAPC made and no other cluster uses is deleted.
   Otherwise it stops at once with "no match found", which the controller takes for success, and changes neither.
   */
  lemma DisposeFaultFree(env: Env, w: World, iso: IsoNet, uid: string)
    requires FaultFree(env) && WellFormed(w.registry) && ProperRegistry(w.registry) && ProperEdge(w.edge)
    ensures var (w', err) := Dispose(env, w, iso, uid);
            && (err.Nil? <==> Addressed(w, iso))
            && (err.Nil? ==> forall use :: use in Uses(uid, iso) ==> Released(w.registry, w'.registry, uid, use.1))
            && (!err.Nil? ==> err == Error(NoMatch) && w'.registry == w.registry)
            && ProperRegistry(w'.registry)
  {
    ReleaseAddressAside(env, w, iso, uid);
    ReleaseAddressFaultFree(env, w, iso, uid);
    var (w1, released) := ReleaseAddress(env, w, iso, uid);
    if released.Nil? { ReleaseBothFaultFree(env, w1, iso, uid); }
  }

  /** The part of a disposal that comes after the address. */
  function ReleaseBoth(env: Env, w: World, iso: IsoNet, uid: string): (World, GoError) {
    var (w1, err) := Release(env, w, NetTag(iso.id), uid);
    if err.Error? || VpcId(iso.vpc) == 0 then (w1, err) else Release(env, w1, VpcTag(VpcId(iso.vpc)), uid)
  }

  lemma ReleaseBothFaultFree(env: Env, w: World, iso: IsoNet, uid: string)
    requires FaultFree(env) && WellFormed(w.registry) && ProperRegistry(w.registry)
    ensures var (w', err) := ReleaseBoth(env, w, iso, uid);
            && err.Nil? && ProperRegistry(w'.registry)
            && Released(w.registry, w'.registry, uid, NetTag(iso.id))
            && (VpcId(iso.vpc) != 0 ==> Released(w.registry, w'.registry, uid, VpcTag(VpcId(iso.vpc))))
  {
    var net, vpc := NetTag(iso.id), VpcTag(VpcId(iso.vpc));
    ReleaseFaultFree(env, w, net, uid);
    var (w1, _) := Release(env, w, net, uid);
    if VpcId(iso.vpc) != 0 {
      ReleaseGivenUp(env, w, net, uid);
      ReleaseFaultFree(env, w1, vpc, uid);
      assert net != vpc;
    }
  }

  // ---- Conservation over runs ----------------------------------------------------------------

  /** On everything CAPC made, the cluster tags are exactly those of the clusters using it. */
  ghost predicate Conserved(s: System) {
    var g := s.world.registry;
    && WellFormed(g) && ProperRegistry(g) && ProperEdge(s.world.edge)
    && (forall use :: use in s.used ==> Present(g, use.1))
    && (forall r, uid :: Present(g, r) && CreatedTag in TagsIn(g, r)
          ==> (ClusterTag(uid) in TagsIn(g, r) <==> (uid, r) in s.used))
  }

  lemma GrownConserved(s: System, w': World)
    requires Conserved(s) && Grown(s.world.registry, w'.registry) && ProperEdge(w'.edge)
    ensures Conserved(s.(world := w'))
  {
    var g, g' := s.world.registry, w'.registry;
    forall r ensures r in g'.tags ==> Proper(g'.tags[r]) {
      assert GrownAt(g, g', r);
      assert r in g'.tags ==> TagsIn(g', r) == g'.tags[r];
    }
    forall use | use in s.used ensures Present(g', use.1) {
      assert Known(g, use.1) && GrownAt(g, g', use.1);
    }
    forall r, uid | Present(g', r) && CreatedTag in TagsIn(g', r)
      ensures ClusterTag(uid) in TagsIn(g', r) <==> (uid, r) in s.used
    {
      assert GrownAt(g, g', r);
    }
  }

  lemma AddClusterTagFaultFree(env: Env, w: World, r: Resource, uid: string)
    requires FaultFree(env) && (WellFormed(w.registry) || Exists(w, r)) && !r.kind.AddressKind?
    ensures AddClusterTag(env, w, r, uid).1.Nil?
  {
    if CreatedTag in TagsOf(w, r) { AddTagsEffect(env, Tick(w), r, map[ClusterTag(uid) := "1"]); }
  }

  /** One use, if the resource is there. */
  function UseOf(g: Registry, uid: string, r: Resource): set<Use> { if Present(g, r) then {(uid, r)} else {} }

  /** Tagging one present network or VPC is counting one more user. */
  lemma TagConserved(env: Env, s: System, r: Resource, uid: string)
    requires FaultFree(env) && Conserved(s) && !r.kind.AddressKind?
    ensures var (w', err) := AddClusterTag(env, s.world, r, uid);
            err.Nil? && Conserved(System(w', s.active, s.used + UseOf(s.world.registry, uid, r)))
  {
    AddClusterTagFaultFree(env, s.world, r, uid);
    AddClusterTagEffect(env, s.world, r, uid);
  }

  lemma ReconciledConserved(env: Env, s: System, zone: Id, obj: IsoNetObject, cl: CsCluster, patched: GoError)
    requires FaultFree(env) && Conserved(s) && zone != 0
    ensures Conserved(Step(env, s, Reconciled(zone, obj, cl, patched)))
  {
    var (w1, iso1, resolved) := ResolveOrCreate(env, s.world, obj.net);
    ResolveOrCreateGrown(env, s.world, obj.net);
    ResolveOrCreateAside(env, s.world, obj.net);
    var s1 := s.(world := w1);
    GrownConserved(s, w1);
    GetOrCreateIsTagged(env, s.world, zone, obj.net, cl);
    SetUpPooled(env, s.world, zone, obj.net, cl);
    if resolved.Nil? {
      ResolvedExists(env, s.world, obj.net);
      BothConserved(env, s1, iso1, cl.uid);
      SetUpIsTaggedTwice(env, s.world, zone, obj.net, cl);
    }
  }

  /** Tagging network and VPC is counting one more user of each that exists. */
  lemma BothConserved(env: Env, s: System, iso: IsoNet, uid: string)
    requires FaultFree(env) && Conserved(s)
    ensures var w' := TagBoth(env, s.world, iso, uid).0;
            Conserved(System(w', s.active, s.used + UsesIn(w'.registry, uid, iso)))
  {
    var net, vpc := NetTag(iso.id), VpcTag(VpcId(iso.vpc));
    TagConserved(env, s, net, uid);
    var w1 := AddClusterTag(env, s.world, net, uid).0;
    var s1 := System(w1, s.active, s.used + UseOf(s.world.registry, uid, net));
    TagConserved(env, s1, vpc, uid);
    BothUses(env, s.world, iso, uid);
  }

  lemma BothUses(env: Env, w: World, iso: IsoNet, uid: string)
    requires FaultFree(env) && WellFormed(w.registry)
    ensures var net, vpc := NetTag(iso.id), VpcTag(VpcId(iso.vpc));
            var w1 := AddClusterTag(env, w, net, uid).0;
            var w' := TagBoth(env, w, iso, uid).0;
            && w' == (if VpcId(iso.vpc) != 0 then AddClusterTag(env, w1, vpc, uid).0 else w1)
            && UsesIn(w'.registry, uid, iso)
               == UseOf(w.registry, uid, net) + (if VpcId(iso.vpc) != 0 then UseOf(w1.registry, uid, vpc) else {})
  {
    AddClusterTagFaultFree(env, w, NetTag(iso.id), uid);
    AddClusterTagEffect(env, w, NetTag(iso.id), uid);
    var w1 := AddClusterTag(env, w, NetTag(iso.id), uid).0;
    AddClusterTagEffect(env, w1, VpcTag(VpcId(iso.vpc)), uid);
  }

  /** Tagged by this cluster, if made by CAPC. */
  predicate TaggedIn(g: Registry, r: Resource, uid: string) {
    CreatedTag in TagsIn(g, r) ==> Lookup(TagsIn(g, r), ClusterTag(uid)) == "1"
  }

  lemma BothTagged(env: Env, w: World, iso: IsoNet, uid: string)
    requires TagBoth(env, w, iso, uid).1.Nil?
    ensures TaggedIn(TagBoth(env, w, iso, uid).0.registry, NetTag(iso.id), uid)
  {
    AddClusterTagEffect(env, w, NetTag(iso.id), uid);
    var w1 := AddClusterTag(env, w, NetTag(iso.id), uid).0;
    assert TaggedIn(w1.registry, NetTag(iso.id), uid);
    AddClusterTagEffect(env, w1, VpcTag(VpcId(iso.vpc)), uid);
  }

  lemma TaggedAgain(env: Env, w: World, r: Resource, uid: string)
    requires TaggedIn(w.registry, r, uid) && !r.kind.AddressKind?
    ensures AddClusterTag(env, w, r, uid).0.registry == w.registry
  {
    if CreatedTag in TagsOf(w, r) {
      assert MissingTags(map[ClusterTag(uid) := "1"], TagsOf(w, r)) == map[];
    }
  }

  /** The second tagging of the network finds nothing to do. */
  lemma SetUpIsTaggedTwice(env: Env, w: World, zone: Id, iso: IsoNet, cl: CsCluster)
    ensures SetUp(env, w, zone, iso, cl).0.registry == GetOrCreate(env, w, zone, iso, cl).0.registry
  {
    var (w1, iso1, resolved) := ResolveOrCreate(env, w, iso);
    var (w4, iso4, cl4, err) := GetOrCreate(env, w, zone, iso, cl);
    GetOrCreateIsTagged(env, w, zone, iso, cl);
    if err.Nil? {
      BothTagged(env, w1, iso1, cl.uid);
      TaggedAgain(env, w4, NetTag(iso4.id), cl4.uid);
    }
  }

  lemma DeletedConserved(env: Env, s: System, obj: IsoNetObject, uid: string)
    requires FaultFree(env) && Conserved(s) && Addressed(s.world, obj.net)
    ensures Conserved(Step(env, s, Deleted(obj, uid)))
  {
    var s' := Step(env, s, Deleted(obj, uid));
    var g, g' := s.world.registry, s'.world.registry;
    DisposeFaultFree(env, s.world, obj.net, uid);
    DisposeGivenUp(env, s.world, obj.net, uid);
    DisposePooled(env, s.world, obj.net, uid);
    forall r: Resource, u: string
      ensures Present(g', r) && CreatedTag in TagsIn(g', r) ==> (ClusterTag(u) in TagsIn(g', r) <==> (u, r) in s'.used)
      ensures (u, r) in s'.used ==> Present(g', r)
    {
      if (uid, r) in Uses(uid, obj.net) {
        assert Released(g, g', uid, r);
        assert (u, r) in s'.used && CreatedTag in TagsIn(g, r) ==> ClusterTag(u) in ClusterTags(TagsIn(g, r));
      } else if !r.kind.AddressKind? {
        DisposeElsewhere(env, s.world, obj.net, uid, r);
      }
    }
    forall use | use in s'.used ensures Present(g', use.1) { assert (use.0, use.1) in s'.used; }
  }

  /** Every disposal in the run names an address of the pool. */
  ghost predicate AllAddressed(addresses: seq<Address>, ops: seq<Op>) {
    forall op :: op in ops && op.Deleted? ==>
      op.obj.net.publicIp == 0 || AddressKnown(addresses, op.obj.net.publicIp)
  }

  /**
   In a run without failures, on every network and VPC that CAPC made, the cluster tags are at all times exactly those
   of the clusters whose set-up reached it and that have not begun to dispose of it.
   */
  lemma {:induction false} TagsAreConserved(env: Env, states: seq<System>, ops: seq<Op>, i: nat)
    requires FaultFree(env) && IsRun(env, states, ops) && i < |states|
    requires Conserved(states[0]) && AllAddressed(states[0].world.edge.addresses, ops)
    ensures Conserved(states[i]) && SameIds(states[0].world.edge.addresses, states[i].world.edge.addresses)
  {
    if i > 0 {
      TagsAreConserved(env, states, ops, i - 1);
      var s, op := states[i - 1], ops[i - 1];
      assert Follows(env, s, op, states[i - 1 + 1]) && op in ops;
      if op.Deleted? {
        SameIdsKnown(states[0].world.edge.addresses, s.world.edge.addresses, op.obj.net.publicIp);
      }
      StepConserved(env, s, op);
    }
  }

  lemma StepConserved(env: Env, s: System, op: Op)
    requires FaultFree(env) && Conserved(s) && (op.Deleted? ==> Addressed(s.world, op.obj.net))
    ensures var s' := Step(env, s, op);
            Conserved(s') && SameIds(s.world.edge.addresses, s'.world.edge.addresses)
  {
    match op {
      case Reconciled(zone, obj, cl, patched) =>
        if zone != 0 {
          ReconciledConserved(env, s, zone, obj, cl, patched);
          SetUpPooled(env, s.world, zone, obj.net, cl);
        }
      case Deleted(obj, uid) =>
        DeletedConserved(env, s, obj, uid);
        DisposePooled(env, s.world, obj.net, uid);
    }
  }

  function Users(used: set<Use>, r: Resource): set<string> {
    set use | use in used && use.1 == r :: use.0
  }

  /** Conservation as a count. */
  lemma CountIsConserved(s: System, r: Resource)
    requires Conserved(s) && Present(s.world.registry, r) && CreatedTag in TagsIn(s.world.registry, r)
    ensures |ClusterTags(TagsIn(s.world.registry, r))| == |Users(s.used, r)|
  {
    var tags, users := ClusterTags(TagsIn(s.world.registry, r)), Users(s.used, r);
    forall key | key in tags ensures key.uid in users {
      assert key == ClusterTag(key.uid) && (key.uid, r) in s.used;
    }
    forall uid | uid in users ensures ClusterTag(uid) in tags {
      assert (uid, r) in s.used;
    }
    SameCount(tags, users);
  }

  lemma {:induction false} SameCount(tags: set<TagKey>, users: set<string>)
    requires forall key :: key in tags ==> key.ClusterTag? && key.uid in users
    requires forall uid :: uid in users ==> ClusterTag(uid) in tags
    ensures |tags| == |users|
    decreases tags
  {
    if tags == {} {
      assert users == {};
    } else {
      var key :| key in tags;
      SameCount(tags - {key}, users - {key.uid});
    }
  }
}
