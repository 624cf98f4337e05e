/** What one tag operation, and one set-up or disposal by a cluster, can change about networks, VPCs and their tags. */
module TagEffects {
  import opened Faults
  import opened CloudApi
  import opened TagSpec
  import opened IsoNetSpec

  // ---- Single operations ---------------------------------------------------------------------

  /** Nothing but the tags of `r`, and the count of calls, differs. */
  ghost predicate OnlyTags(w: World, w': World, r: Resource) {
    Still(w') == Still(w) || Still(w') == Still(WithTags(w, r, TagsOf(w', r)))
  }

  lemma AddTagsEffect(env: Env, w: World, r: Resource, wanted: Tags)
    ensures var (w', err) := AddTags(env, w, r, wanted);
            && OnlyTags(w, w', r)
            && (TagsOf(w', r) == TagsOf(w, r) || (Exists(w, r) && TagsOf(w', r) == TagsOf(w, r) + wanted))
            && (err.Nil? ==> TagsOf(w', r) == TagsOf(w, r) + wanted)
            && (Exists(w, r) && env(w.clock).Normal? && env(w.clock + 1).Normal? ==> err.Nil?)
  {
    var missing := MissingTags(wanted, TagsOf(w, r));
    assert TagsOf(w, r) + missing == TagsOf(w, r) + wanted;
    if missing == map[] {
      assert forall key :: key in wanted ==> key !in missing;
      assert TagsOf(w, r) + wanted == TagsOf(w, r);
    }
  }

  lemma AddClusterTagEffect(env: Env, w: World, r: Resource, uid: string)
    ensures var (w', err) := AddClusterTag(env, w, r, uid);
            && OnlyTags(w, w', r)
            && (|| TagsOf(w', r) == TagsOf(w, r)
                || (Exists(w, r) && CreatedTag in TagsOf(w, r)
                    && TagsOf(w', r) == TagsOf(w, r)[ClusterTag(uid) := "1"]))
            && (err.Nil? && CreatedTag in TagsOf(w, r) ==> TagsOf(w', r) == TagsOf(w, r)[ClusterTag(uid) := "1"])
  {
    var tag: Tags := map[ClusterTag(uid) := "1"];
    assert TagsOf(w, r) + tag == TagsOf(w, r)[ClusterTag(uid) := "1"];
    AddTagsEffect(env, Tick(w), r, tag);
  }

  lemma DeleteTagEffect(env: Env, w: World, r: Resource, key: TagKey, value: string)
    ensures var (w', err) := DeleteTag(env, w, r, key, value);
            && OnlyTags(w, w', r)
            && (TagsOf(w', r) == TagsOf(w, r) || (key in TagsOf(w, r) && TagsOf(w', r) == TagsOf(w, r) - {key}))
  {
  }

  lemma RemoveClusterTagEffect(env: Env, w: World, r: Resource, uid: string)
    ensures var (w', err) := RemoveClusterTag(env, w, r, uid);
            && OnlyTags(w, w', r)
            && (|| TagsOf(w', r) == TagsOf(w, r)
                || (ClusterTag(uid) in TagsOf(w, r) && TagsOf(w', r) == TagsOf(w, r) - {ClusterTag(uid)}))
  {
    DeleteTagEffect(env, Tick(w), r, ClusterTag(uid), Lookup(TagsOf(w, r), ClusterTag(uid)));
  }

  // ---- Set-up --------------------------------------------------------------------------------

  /** A network or VPC identifier that has been handed out. */
  ghost predicate Known(g: Registry, r: Resource) { !r.kind.AddressKind? && r.id < g.nextId }

  /** All a set-up by cluster `uid` does to a network or VPC that is already there: it may add its own tag, and that
      only to one made by CAPC. */
  ghost predicate KeptAt(g: Registry, g': Registry, uid: string, r: Resource) {
    && (Present(g, r) <==> Present(g', r))
    && (|| TagsIn(g', r) == TagsIn(g, r)
        || (CreatedTag in TagsIn(g, r) && TagsIn(g', r) == TagsIn(g, r)[ClusterTag(uid) := "1"]))
  }

  ghost predicate Kept(g: Registry, g': Registry, uid: string) {
    && WellFormed(g')
    && g.nextId <= g'.nextId
    && forall r :: Known(g, r) ==> KeptAt(g, g', uid, r)
  }

  lemma KeptCompose(g: Registry, g1: Registry, g2: Registry, uid: string)
    requires Kept(g, g1, uid) && Kept(g1, g2, uid)
    ensures Kept(g, g2, uid)
  {
    forall r | Known(g, r) ensures KeptAt(g, g2, uid, r) {
      assert KeptAt(g, g1, uid, r) && KeptAt(g1, g2, uid, r);
    }
  }

  lemma SameKept(g: Registry, uid: string)
    requires WellFormed(g)
    ensures Kept(g, g, uid)
  {
    forall r | Known(g, r) ensures KeptAt(g, g, uid, r) {}
  }

  lemma AddClusterTagKept(env: Env, w: World, r: Resource, uid: string)
    requires WellFormed(w.registry)
    ensures Kept(w.registry, AddClusterTag(env, w, r, uid).0.registry, uid)
  {
    AddClusterTagEffect(env, w, r, uid);
    var g' := AddClusterTag(env, w, r, uid).0.registry;
    forall s | Known(w.registry, s) ensures KeptAt(w.registry, g', uid, s) {}
  }

  /** Resolving and creating leave what is there exactly as it is; what is new carries no cluster tag yet. */
  ghost predicate GrownAt(g: Registry, g': Registry, r: Resource) {
    if Known(g, r) then (Present(g, r) <==> Present(g', r)) && TagsIn(g', r) == TagsIn(g, r)
    else TagsIn(g', r) == map[] || TagsIn(g', r) == map[CreatedTag := "1"]
  }

  ghost predicate Grown(g: Registry, g': Registry) {
    && WellFormed(g')
    && g.nextId <= g'.nextId
    && forall r :: GrownAt(g, g', r)
  }

  lemma GrownKept(g: Registry, g': Registry, uid: string)
    requires Grown(g, g')
    ensures Kept(g, g', uid)
  {
    forall r | Known(g, r) ensures KeptAt(g, g', uid, r) { assert GrownAt(g, g', r); }
  }

  lemma GrownCompose(g: Registry, g1: Registry, g2: Registry)
    requires Grown(g, g1) && Grown(g1, g2)
    ensures Grown(g, g2)
  {
    forall r ensures GrownAt(g, g2, r) { assert GrownAt(g, g1, r) && GrownAt(g1, g2, r); }
  }

  lemma SameGrown(g: Registry)
    requires WellFormed(g)
    ensures Grown(g, g)
  {
    forall r ensures GrownAt(g, g, r) {}
  }

  lemma NetworkMade(g: Registry, info: NetworkInfo)
    requires WellFormed(g)
    ensures Grown(g, PlusNetwork(g, info))
  {
    forall r ensures GrownAt(g, PlusNetwork(g, info), r) {}
  }

  lemma VpcMade(g: Registry, info: VpcInfo)
    requires WellFormed(g)
    ensures Grown(g, PlusVpc(g, info))
  {
    forall r ensures GrownAt(g, PlusVpc(g, info), r) {}
  }

  /** Tagging as made by CAPC what has just been made. */
  lemma NewTagged(env: Env, w: World, r: Resource, g: Registry)
    requires WellFormed(g) && Grown(g, w.registry) && g.nextId <= r.id && !r.kind.AddressKind?
    ensures Grown(g, AddCreatedTag(env, w, r).0.registry)
  {
    AddTagsEffect(env, w, r, map[CreatedTag := "1"]);
    TaggedGrown(g, w.registry, AddCreatedTag(env, w, r).0.registry, r);
  }

  lemma TaggedGrown(g: Registry, g1: Registry, g2: Registry, r: Resource)
    requires Grown(g, g1) && g.nextId <= r.id && !r.kind.AddressKind?
    requires g2 == g1.(tags := g2.tags) && WellFormed(g2)
    requires TagsIn(g2, r) == TagsIn(g1, r) || TagsIn(g2, r) == TagsIn(g1, r) + map[CreatedTag := "1"]
    requires forall s :: s != r ==> TagsIn(g2, s) == TagsIn(g1, s)
    ensures Grown(g, g2)
  {
    forall s ensures GrownAt(g, g2, s) {
      assert GrownAt(g, g1, s);
      assert Present(g2, s) == Present(g1, s);
    }
  }

  lemma CreateVpcGrown(env: Env, w: World, vpc: Vpc)
    requires WellFormed(w.registry)
    ensures Grown(w.registry, CreateVPC(env, w, vpc).0.registry)
  {
    SameGrown(w.registry);
    var offeringName := if vpc.offering != "" then vpc.offering else VPC_OFFERING;
    var w1 := GetVpcOffering(env, w, offeringName).0;
    var info := VpcInfo(vpc.name, vpc.cidr, offeringName);
    VpcMade(w.registry, info);
    NewTagged(env, CreateVpc(env, w1, info).0, VpcTag(w.registry.nextId), w.registry);
  }

  lemma PrepareVpcGrown(env: Env, w: World, iso: IsoNet)
    requires WellFormed(w.registry)
    ensures Grown(w.registry, PrepareVpc(env, w, iso).0.registry)
  {
    SameGrown(w.registry);
    if WantsVpc(iso) {
      var (w1, resolved, err) := ResolveVpc(env, w, iso.vpc.value);
      CreateVpcGrown(env, w1, resolved);
    }
  }

  lemma CreateIsolatedNetworkGrown(env: Env, w: World, iso: IsoNet)
    requires WellFormed(w.registry)
    ensures Grown(w.registry, CreateIsolatedNetwork(env, w, iso).0.registry)
  {
    var (w1, iso1, prepared) := PrepareVpc(env, w, iso);
    PrepareVpcGrown(env, w, iso);
    var (w2, offering) := GetNetworkOffering(env, w1, OfferingName(iso));
    if prepared.Nil? && offering.Reply? {
      var info := NetworkFor(w2.registry, iso.name, offering.value, iso.gateway, iso.netmask, VpcId(iso1.vpc));
      SameGrown(w2.registry);
      NetworkMade(w2.registry, info);
      NewTagged(env, CreateNetwork(env, w2, info).0, NetTag(w2.registry.nextId), w2.registry);
      GrownCompose(w.registry, w2.registry, CreateIsolatedNetwork(env, w, iso).0.registry);
    }
  }

  lemma ResolveOrCreateGrown(env: Env, w: World, iso: IsoNet)
    requires WellFormed(w.registry)
    ensures Grown(w.registry, ResolveOrCreate(env, w, iso).0.registry)
  {
    SameGrown(w.registry);
    CreateIsolatedNetworkGrown(env, ResolveNetwork(env, w, NetworkOf(iso)).0, iso);
  }

  lemma CreateVpcAside(env: Env, w: World, vpc: Vpc)
    ensures CreateVPC(env, w, vpc).0.edge == w.edge
  {
    var offeringName := if vpc.offering != "" then vpc.offering else VPC_OFFERING;
    var w1 := GetVpcOffering(env, w, offeringName).0;
    var w2 := CreateVpc(env, w1, VpcInfo(vpc.name, vpc.cidr, offeringName)).0;
    AddTagsEffect(env, w2, VpcTag(w1.registry.nextId), map[CreatedTag := "1"]);
  }

  lemma ResolveOrCreateAside(env: Env, w: World, iso: IsoNet)
    ensures ResolveOrCreate(env, w, iso).0.edge == w.edge
  {
    var (w1, net, err) := ResolveNetwork(env, w, NetworkOf(iso));
    if err.Error? {
      var (w2, iso2, prepared) := PrepareVpc(env, w1, iso);
      if WantsVpc(iso) {
        var (wr, resolved, _) := ResolveVpc(env, w1, iso.vpc.value);
        CreateVpcAside(env, wr, resolved);
      }
      assert w2.edge == w.edge;
      var (w3, offering) := GetNetworkOffering(env, w2, OfferingName(iso));
      if prepared.Nil? && offering.Reply? {
        var info := NetworkFor(w3.registry, iso.name, offering.value, iso.gateway, iso.netmask, VpcId(iso2.vpc));
        var w4 := CreateNetwork(env, w3, info).0;
        AddTagsEffect(env, w4, NetTag(w3.registry.nextId), map[CreatedTag := "1"]);
      }
    }
  }

  /** Endpoint and firewall do not touch networks, VPCs or their tags. */
  lemma AssociatePublicIPAside(env: Env, w: World, zone: Id, iso: IsoNet, cl: CsCluster)
    ensures var (w', iso', cl', _) := AssociatePublicIP(env, w, zone, iso, cl);
            w'.registry == w.registry && iso'.id == iso.id && iso'.vpc == iso.vpc && cl'.uid == cl.uid
  {
    var (w1, chosen) := GetPublicIP(env, w, zone, cl.host);
    if chosen.Reply? {
      var w2 := AssociateAddress(env, w1, chosen.value.ip, iso.id, VpcId(iso.vpc)).0;
      AddClusterTagEffect(env, w2, AddressTag(chosen.value.id), cl.uid);
      var w3 := AddClusterTag(env, w2, AddressTag(chosen.value.id), cl.uid).0;
      AddTagsEffect(env, w3, AddressTag(chosen.value.id), map[CreatedTag := "1"]);
    }
  }

  lemma LbRuleAside(env: Env, w: World, iso: IsoNet, cl: CsCluster)
    ensures var (w', iso', cl', _) := GetOrCreateLbRule(env, w, iso, cl);
            w'.registry == w.registry && iso'.id == iso.id && iso'.vpc == iso.vpc && cl'.uid == cl.uid
  {
  }

  lemma SetUpEndpointAside(env: Env, w: World, zone: Id, iso: IsoNet, cl: CsCluster)
    ensures var (w', iso', cl', _) := SetUpEndpoint(env, w, zone, iso, cl);
            w'.registry == w.registry && iso'.id == iso.id && iso'.vpc == iso.vpc && cl'.uid == cl.uid
  {
    AssociatePublicIPAside(env, w, zone, iso, cl);
    var (w1, iso1, cl1, associated) := AssociatePublicIP(env, w, zone, iso, cl);
    if associated.Nil? { LbRuleAside(env, w1, iso1, cl1); }
  }

  lemma {:induction false} CreateFirewallRulesAside(env: Env, w: World, iso: IsoNet, protocols: seq<Protocol>)
    ensures CreateFirewallRules(env, w, iso, protocols).0.registry == w.registry
    decreases |protocols|
  {
    if protocols != [] {
      CreateFirewallRulesAside(env, CreateFirewallRule(env, w, iso, protocols[0]).0, iso, protocols[1..]);
    }
  }

  lemma OpenFirewallAside(env: Env, w: World, iso: IsoNet)
    ensures var (w', iso', _) := OpenFirewall(env, w, iso);
            w'.registry == w.registry && iso'.id == iso.id && iso'.vpc == iso.vpc
  {
    var w2 := CheckFirewallRules(env, GetNetworkByID(env, w, iso.id).0, iso).0;
    CreateFirewallRulesAside(env, w2, iso, PROTOCOLS);
  }

  /** The calls of a set-up that put the cluster's tags on the network and its VPC. */
  function TagBoth(env: Env, w: World, iso: IsoNet, uid: string): (World, GoError) {
    var (w1, used) := AddClusterTag(env, w, NetTag(iso.id), uid);
    if used.Error? then (w1, used) else TagVpc(env, w1, iso, uid)
  }

  /** After resolving and tagging, a set-up changes neither registry nor the network and VPC the object names. */
  lemma GetOrCreateIsTagged(env: Env, w: World, zone: Id, iso: IsoNet, cl: CsCluster)
    ensures var (w1, iso1, resolved) := ResolveOrCreate(env, w, iso);
            var (w', iso', cl', err) := GetOrCreate(env, w, zone, iso, cl);
            cl'.uid == cl.uid &&
            if resolved.Error? then w' == w1 && iso' == iso1 && err == resolved
            else
              var (w2, tagged) := TagBoth(env, w1, iso1, cl.uid);
              && w'.registry == w2.registry && iso'.id == iso1.id && iso'.vpc == iso1.vpc
              && (err.Nil? ==> tagged.Nil?)
  {
    var (w1, iso1, resolved) := ResolveOrCreate(env, w, iso);
    if resolved.Nil? {
      var (w2, tagged) := TagBoth(env, w1, iso1, cl.uid);
      if tagged.Nil? {
        SetUpEndpointAside(env, w2, zone, iso1, cl);
        var (w3, iso3, _, endpoint) := SetUpEndpoint(env, w2, zone, iso1, cl);
        if endpoint.Nil? { OpenFirewallAside(env, w3, iso3); }
      }
    }
  }

  lemma TagBothKept(env: Env, w: World, iso: IsoNet, uid: string)
    requires WellFormed(w.registry)
    ensures Kept(w.registry, TagBoth(env, w, iso, uid).0.registry, uid)
  {
    var w1 := AddClusterTag(env, w, NetTag(iso.id), uid).0;
    AddClusterTagKept(env, w, NetTag(iso.id), uid);
    AddClusterTagKept(env, w1, VpcTag(VpcId(iso.vpc)), uid);
    SameKept(w1.registry, uid);
    KeptCompose(w.registry, w1.registry, TagBoth(env, w, iso, uid).0.registry, uid);
  }

  /** Any set-up by a cluster, however far it gets. */
  lemma GetOrCreateKept(env: Env, w: World, zone: Id, iso: IsoNet, cl: CsCluster)
    requires WellFormed(w.registry)
    ensures Kept(w.registry, GetOrCreate(env, w, zone, iso, cl).0.registry, cl.uid)
  {
    var (w1, iso1, _) := ResolveOrCreate(env, w, iso);
    ResolveOrCreateGrown(env, w, iso);
    GrownKept(w.registry, w1.registry, cl.uid);
    TagBothKept(env, w1, iso1, cl.uid);
    GetOrCreateIsTagged(env, w, zone, iso, cl);
    KeptCompose(w.registry, w1.registry, TagBoth(env, w1, iso1, cl.uid).0.registry, cl.uid);
  }

  /** If CAPC made `r`, cluster `uid` has its tag on it. */
  ghost predicate Referenced(g: Registry, uid: string, r: Resource) {
    CreatedTag in TagsIn(g, r) ==> ClusterTag(uid) in TagsIn(g, r)
  }

  lemma TagBothReferences(env: Env, w: World, iso: IsoNet, uid: string)
    requires TagBoth(env, w, iso, uid).1.Nil?
    ensures var g := TagBoth(env, w, iso, uid).0.registry;
            && Referenced(g, uid, NetTag(iso.id))
            && (VpcId(iso.vpc) != 0 ==> Referenced(g, uid, VpcTag(VpcId(iso.vpc))))
            && g.networks == w.registry.networks && g.vpcs == w.registry.vpcs
  {
    AddClusterTagEffect(env, w, NetTag(iso.id), uid);
    var w1 := AddClusterTag(env, w, NetTag(iso.id), uid).0;
    AddClusterTagEffect(env, w1, VpcTag(VpcId(iso.vpc)), uid);
  }

  lemma ResolvedExists(env: Env, w: World, iso: IsoNet)
    requires ResolveOrCreate(env, w, iso).2.Nil?
    ensures var (w', iso', _) := ResolveOrCreate(env, w, iso); iso'.id in w'.registry.networks
  {
    var (w1, net, err) := ResolveNetwork(env, w, NetworkOf(iso));
    if err.Error? {
      var (w2, iso2, _) := PrepareVpc(env, w1, iso);
      var (w3, offering) := GetNetworkOffering(env, w2, OfferingName(iso));
      var info := NetworkFor(w3.registry, iso.name, offering.value, iso.gateway, iso.netmask, VpcId(iso2.vpc));
      var w4 := CreateNetwork(env, w3, info).0;
      AddTagsEffect(env, w4, NetTag(w3.registry.nextId), map[CreatedTag := "1"]);
    }
  }

  /** A set-up that succeeds leaves the network in place and the cluster's tag on all it used that CAPC made. */
  lemma GetOrCreateReferences(env: Env, w: World, zone: Id, iso: IsoNet, cl: CsCluster)
    requires GetOrCreate(env, w, zone, iso, cl).3.Nil?
    ensures var (w', iso', cl', _) := GetOrCreate(env, w, zone, iso, cl);
            && Present(w'.registry, NetTag(iso'.id))
            && Referenced(w'.registry, cl.uid, NetTag(iso'.id))
            && (VpcId(iso'.vpc) != 0 ==> Referenced(w'.registry, cl.uid, VpcTag(VpcId(iso'.vpc))))
  {
    var (w1, iso1, _) := ResolveOrCreate(env, w, iso);
    GetOrCreateIsTagged(env, w, zone, iso, cl);
    ResolvedExists(env, w, iso);
    TagBothReferences(env, w1, iso1, cl.uid);
  }

  // ---- Disposal ------------------------------------------------------------------------------

  /** All a disposal by cluster `uid` does to a network or VPC: take its own tag off, or delete one made by CAPC that
      no other cluster has tagged. */
  ghost predicate GivenUpAt(g: Registry, g': Registry, uid: string, r: Resource) {
    || ((Present(g, r) <==> Present(g', r))
        && (TagsIn(g', r) == TagsIn(g, r) || TagsIn(g', r) == TagsIn(g, r) - {ClusterTag(uid)}))
    || (Present(g, r) && !Present(g', r) && TagsIn(g', r) == map[]
        && CreatedTag in TagsIn(g, r) && ClusterTags(TagsIn(g, r)) <= {ClusterTag(uid)})
  }

  ghost predicate GivenUp(g: Registry, g': Registry, uid: string) {
    && WellFormed(g')
    && g.nextId == g'.nextId
    && forall r :: Known(g, r) ==> GivenUpAt(g, g', uid, r)
  }

  lemma GivenUpCompose(g: Registry, g1: Registry, g2: Registry, uid: string)
    requires WellFormed(g) && GivenUp(g, g1, uid) && GivenUp(g1, g2, uid)
    ensures GivenUp(g, g2, uid)
  {
    forall r | Known(g, r) ensures GivenUpAt(g, g2, uid, r) {
      assert GivenUpAt(g, g1, uid, r) && GivenUpAt(g1, g2, uid, r);
      if Present(g1, r) && !Present(g2, r) && TagsIn(g1, r) == TagsIn(g, r) - {ClusterTag(uid)} {
        forall key | key in ClusterTags(TagsIn(g, r)) ensures key == ClusterTag(uid) {
          assert key == ClusterTag(uid) || key in ClusterTags(TagsIn(g1, r));
        }
      }
    }
  }

  lemma SameGivenUp(g: Registry, uid: string)
    requires WellFormed(g)
    ensures GivenUp(g, g, uid)
  {
    forall r | Known(g, r) ensures GivenUpAt(g, g, uid, r) {}
  }

  lemma DisassociateAside(env: Env, w: World, iso: IsoNet)
    ensures DisassociateIfNotInUse(env, w, iso).0.registry == w.registry
  {
    var r := AddressTag(iso.publicIp);
    var w1 := DoClusterTagsAllowDisposal(env, w, r).0;
    var w2 := GetAddressByID(env, w1, iso.publicIp).0;
    DeleteTagEffect(env, w2, r, CreatedTag, "1");
  }

  lemma ReleaseAddressAside(env: Env, w: World, iso: IsoNet, uid: string)
    ensures ReleaseAddress(env, w, iso, uid).0.registry == w.registry
  {
    var r := AddressTag(iso.publicIp);
    DeleteTagEffect(env, Tick(w), r, ClusterTag(uid), "1");
    DisassociateAside(env, DeleteClusterTag(env, w, r, uid).0, iso);
  }

  lemma DeleteIfNotInUseGivenUp(env: Env, w: World, r: Resource, uid: string)
    requires WellFormed(w.registry) && !r.kind.AddressKind?
    ensures GivenUp(w.registry, DeleteIfNotInUse(env, w, r).0.registry, uid)
  {
    var g' := DeleteIfNotInUse(env, w, r).0.registry;
    assert g' == w.registry || (g' == Minus(w.registry, r) && Present(w.registry, r) && AllowDisposal(TagsOf(w, r)));
    forall s | Known(w.registry, s) ensures GivenUpAt(w.registry, g', uid, s) {}
  }

  lemma ReleaseGivenUp(env: Env, w: World, r: Resource, uid: string)
    requires WellFormed(w.registry) && !r.kind.AddressKind?
    ensures GivenUp(w.registry, Release(env, w, r, uid).0.registry, uid)
  {
    var (w1, err) := RemoveClusterTag(env, w, r, uid);
    RemoveClusterTagEffect(env, w, r, uid);
    assert GivenUp(w.registry, w1.registry, uid) by {
      forall s | Known(w.registry, s) ensures GivenUpAt(w.registry, w1.registry, uid, s) {}
    }
    DeleteIfNotInUseGivenUp(env, w1, r, uid);
    GivenUpCompose(w.registry, w1.registry, DeleteIfNotInUse(env, w1, r).0.registry, uid);
  }

  /** Any disposal by a cluster, however far it gets. */
  lemma DisposeGivenUp(env: Env, w: World, iso: IsoNet, uid: string)
    requires WellFormed(w.registry)
    ensures GivenUp(w.registry, Dispose(env, w, iso, uid).0.registry, uid)
  {
    var (w1, released) := ReleaseAddress(env, w, iso, uid);
    ReleaseAddressAside(env, w, iso, uid);
    SameGivenUp(w.registry, uid);
    var (w2, err) := Release(env, w1, NetTag(iso.id), uid);
    ReleaseGivenUp(env, w1, NetTag(iso.id), uid);
    ReleaseGivenUp(env, w2, VpcTag(VpcId(iso.vpc)), uid);
    GivenUpCompose(w.registry, w2.registry, Release(env, w2, VpcTag(VpcId(iso.vpc)), uid).0.registry, uid);
  }
}
