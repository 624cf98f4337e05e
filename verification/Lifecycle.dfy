/**
 From set-up to disposal: how what a set-up makes is marked and what it is made from, what a disposal without error
 means, and that the one takes away what the other made.
 */
module Lifecycle {
  import opened Faults
  import opened CloudApi
  import opened TagSpec
  import opened IsoNetSpec
  import opened TagEffects
  import opened RefCount
  import Controller = IsoNetController
  import FixedPoint
  import Conservation

  // ---- What is made --------------------------------------------------------------------------

  /** There now and not before. */
  ghost predicate New(g: Registry, g': Registry, r: Resource) { Present(g', r) && !Present(g, r) }

  /** All that is new is this network and its VPC, and that is tagged as made by CAPC. */
  ghost predicate NewIsMarked(g: Registry, g': Registry, net: Id, vpc: Id) {
    forall r :: New(g, g', r) ==>
      (r == NetTag(net) || (vpc != 0 && r == VpcTag(vpc))) && TagsIn(g', r) == map[CreatedTag := "1"]
  }

  /** A VPC of this name and address range, from the offering asked for or else the default one. */
  predicate VpcAsAsked(info: VpcInfo, vpc: Vpc) {
    && info.name == vpc.name && info.cidr == vpc.cidr
    && info.offering == if vpc.offering == "" then "Default VPC offering" else vpc.offering
  }

  lemma CreatedTagWritten(env: Env, w: World, r: Resource)
    requires !r.kind.AddressKind? && AddCreatedTag(env, w, r).1.Nil?
    ensures var w' := AddCreatedTag(env, w, r).0;
            && w'.registry == w.registry.(tags := w'.registry.tags) && w'.catalogue == w.catalogue
            && TagsIn(w'.registry, r) == TagsIn(w.registry, r)[CreatedTag := "1"]
            && forall s :: s != r ==> TagsIn(w'.registry, s) == TagsIn(w.registry, s)
  {
    AddTagsEffect(env, w, r, map[CreatedTag := "1"]);
  }

  lemma VpcIsMade(env: Env, w: World, vpc: Vpc)
    requires WellFormed(w.registry) && CreateVPC(env, w, vpc).2.Nil?
    ensures var (w', vpc', _) := CreateVPC(env, w, vpc);
            && vpc' == vpc.(id := w.registry.nextId)
            && w'.registry.networks == w.registry.networks && w'.catalogue == w.catalogue
            && w'.registry.vpcs.Keys == w.registry.vpcs.Keys + {vpc'.id}
            && VpcAsAsked(w'.registry.vpcs[vpc'.id], vpc)
            && TagsIn(w'.registry, VpcTag(vpc'.id)) == map[CreatedTag := "1"]
  {
    var offeringName := if vpc.offering != "" then vpc.offering else VPC_OFFERING;
    var w1 := GetVpcOffering(env, w, offeringName).0;
    var w2 := CreateVpc(env, w1, VpcInfo(vpc.name, vpc.cidr, offeringName)).0;
    CreatedTagWritten(env, w2, VpcTag(w.registry.nextId));
  }

  predicate VpcMirrored(info: VpcInfo, vpc: Vpc) {
    vpc.name == info.name && vpc.cidr == info.cidr && vpc.offering == info.offering
  }

  /** The VPC is the one asked for by identifier, or else by name, or it is new. */
  lemma VpcIsPrepared(env: Env, w: World, iso: IsoNet)
    requires WellFormed(w.registry) && PrepareVpc(env, w, iso).2.Nil?
    ensures var (w', iso', _) := PrepareVpc(env, w, iso);
            var vpc := VpcId(iso'.vpc);
            && w'.registry.networks == w.registry.networks && w'.catalogue == w.catalogue
            && iso' == iso.(vpc := iso'.vpc)
            && (vpc != 0 <==> WantsVpc(iso))
            && (vpc != 0 ==>
                  && VpcAnswers(w.registry, w'.registry, iso.vpc.value, vpc)
                  && (vpc in w.registry.vpcs ==> VpcMirrored(w.registry.vpcs[vpc], iso'.vpc.value)))
            && (forall r :: New(w.registry, w'.registry, r) ==>
                  r == VpcTag(vpc) && TagsIn(w'.registry, r) == map[CreatedTag := "1"])
  {
    if WantsVpc(iso) {
      var (w1, resolved, err) := ResolveVpc(env, w, iso.vpc.value);
      FixedPoint.FirstVpcNamed(w.registry, iso.vpc.value.name, 0);
      if err.Error? {
        assert resolved == iso.vpc.value;
        VpcIsMade(env, w1, resolved);
      }
    }
  }

  /** This VPC was asked for by identifier or name, or was made as asked. */
  ghost predicate VpcAnswers(g: Registry, g': Registry, asked: Vpc, vpc: Id) {
    && vpc in g'.vpcs
    && if vpc in g.vpcs then vpc == asked.id || (asked.id == 0 && g.vpcs[vpc].name == asked.name)
       else VpcAsAsked(g'.vpcs[vpc], asked)
  }

  /** A network in this VPC, as asked for; what was left open is as the offering has it. */
  predicate NetworkAsAsked(info: NetworkInfo, iso: IsoNet, o: Offering, vpc: Id) {
    && info.name == iso.name && info.vpc == vpc
    && info.gateway == (if iso.gateway == "" then o.gateway else iso.gateway)
    && info.netmask == (if iso.netmask == "" then o.netmask else iso.netmask)
    && info.routingMode == o.routingMode && info.egressDefault == o.egressDefault
  }

  /** The offering asked for, or else the default one, which for a network in a VPC is another. */
  predicate Offered(offerings: map<string, Offering>, iso: IsoNet, o: Offering) {
    exists name :: name in offerings && offerings[name] == o
      && if iso.offering != "" then name == iso.offering
         else if WantsVpc(iso) then name == "DefaultIsolatedNetworkOfferingForVpcNetworks"
         else name == "DefaultIsolatedNetworkOfferingWithSourceNatService"
  }

  lemma NetworkIsMade(env: Env, w: World, iso: IsoNet, o: Offering)
    requires WellFormed(w.registry) && MakeNetwork(env, w, iso, o).2.Nil?
    ensures var (w', iso', _) := MakeNetwork(env, w, iso, o);
            && iso'.id == w.registry.nextId && iso'.vpc == iso.vpc
            && w'.registry.networks.Keys == w.registry.networks.Keys + {iso'.id}
            && w'.registry.vpcs == w.registry.vpcs
            && NetworkAsAsked(w'.registry.networks[iso'.id], iso, o, VpcId(iso.vpc))
            && TagsIn(w'.registry, NetTag(iso'.id)) == map[CreatedTag := "1"]
            && (forall r :: r != NetTag(iso'.id) ==> TagsIn(w'.registry, r) == TagsIn(w.registry, r))
  {
    var info := NetworkFor(w.registry, iso.name, o, iso.gateway, iso.netmask, VpcId(iso.vpc));
    CreatedTagWritten(env, CreateNetwork(env, w, info).0, NetTag(w.registry.nextId));
  }

  /** A network that had to be made, with its VPC. */
  ghost predicate MadeAsAsked(w: World, w': World, iso: IsoNet, iso': IsoNet) {
    var vpc := VpcId(iso'.vpc);
    && iso'.id in w'.registry.networks
    && (exists o :: Offered(w.catalogue.offerings, iso, o)
                    && NetworkAsAsked(w'.registry.networks[iso'.id], iso, o, vpc))
    && (vpc != 0 <==> WantsVpc(iso))
    && (vpc != 0 ==> VpcAnswers(w.registry, w'.registry, iso.vpc.value, vpc))
  }

  lemma CreatedAsAsked(env: Env, w: World, iso: IsoNet)
    requires WellFormed(w.registry) && CreateIsolatedNetwork(env, w, iso).2.Nil?
    ensures var (w', iso', _) := CreateIsolatedNetwork(env, w, iso);
            && MadeAsAsked(w, w', iso, iso')
            && NewIsMarked(w.registry, w'.registry, iso'.id, VpcId(iso'.vpc))
  {
    VpcIsPrepared(env, w, iso);
    PrepareVpcGrown(env, w, iso);
    var (w1, iso1, _) := PrepareVpc(env, w, iso);
    var (w2, offering) := GetNetworkOffering(env, w1, OfferingName(iso));
    NetworkIsMade(env, w2, iso1, offering.value);
    assert Offered(w.catalogue.offerings, iso, offering.value);
  }

  /**
   When the network is resolved or created, all that is new is that network and its VPC, made as the object asks, and
   both are tagged as made by CAPC.
   */
  lemma WhatIsMadeIsMarked(env: Env, w: World, iso: IsoNet)
    requires WellFormed(w.registry) && ResolveOrCreate(env, w, iso).2.Nil?
    ensures var (w', iso', _) := ResolveOrCreate(env, w, iso);
            && NewIsMarked(w.registry, w'.registry, iso'.id, VpcId(iso'.vpc))
            && (iso'.id !in w.registry.networks ==>
                  MadeAsAsked(w, w', iso, iso') && CreatedTag in TagsIn(w'.registry, NetTag(iso'.id)))
  {
    var (w1, net, err) := ResolveNetwork(env, w, NetworkOf(iso));
    if err.Error? { CreatedAsAsked(env, w1, iso); }
  }

  /** Everything new after a successful set-up carries the created tag and the cluster's tag, and no other. */
  lemma WhatIsMadeIsCounted(env: Env, w: World, zone: Id, iso: IsoNet, cl: CsCluster)
    requires WellFormed(w.registry) && GetOrCreate(env, w, zone, iso, cl).3.Nil?
    ensures var (w', iso', _, _) := GetOrCreate(env, w, zone, iso, cl);
            forall r :: New(w.registry, w'.registry, r) ==>
              && (cl.uid, r) in Uses(cl.uid, iso')
              && TagsIn(w'.registry, r) == map[CreatedTag := "1", ClusterTag(cl.uid) := "1"]
  {
    var (w1, iso1, _) := ResolveOrCreate(env, w, iso);
    WhatIsMadeIsMarked(env, w, iso);
    GetOrCreateIsTagged(env, w, zone, iso, cl);
    MarkedIsCounted(env, w, w1, iso1, cl.uid);
  }

  lemma MarkedIsCounted(env: Env, w: World, w1: World, iso: IsoNet, uid: string)
    requires NewIsMarked(w.registry, w1.registry, iso.id, VpcId(iso.vpc)) && TagBoth(env, w1, iso, uid).1.Nil?
    ensures var g' := TagBoth(env, w1, iso, uid).0.registry;
            forall r :: New(w.registry, g', r) ==>
              && (uid, r) in Uses(uid, iso)
              && TagsIn(g', r) == map[CreatedTag := "1", ClusterTag(uid) := "1"]
  {
    AddClusterTagEffect(env, w1, NetTag(iso.id), uid);
    var w2 := AddClusterTag(env, w1, NetTag(iso.id), uid).0;
    AddClusterTagEffect(env, w2, VpcTag(VpcId(iso.vpc)), uid);
    var g' := TagBoth(env, w1, iso, uid).0.registry;
    forall r | New(w.registry, g', r)
      ensures (uid, r) in Uses(uid, iso) && TagsIn(g', r) == map[CreatedTag := "1", ClusterTag(uid) := "1"]
    {
      assert New(w.registry, w1.registry, r);
    }
  }

  // ---- What a disposal without error means ---------------------------------------------------

  /** Made by CAPC and used by nobody, and still there. */
  predicate Abandoned(g: Registry, r: Resource) { Present(g, r) && AllowDisposal(TagsIn(g, r)) }

  /** The one way in which a removal of the tag of a cluster is not noticed to have failed: it failed without effect,
      and so did the check. A tag without value is not removed at all. */
  predicate KeptSilently(env: Env, w: World, r: Resource, uid: string) {
    var t := TagsOf(w, r);
    ClusterTag(uid) in t
    && (t[ClusterTag(uid)] == "" || (env(w.clock + 1).Fault? && !env(w.clock + 1).applied && env(w.clock + 2).Fault?))
  }

  lemma RemovedUnlessKept(env: Env, w: World, r: Resource, uid: string)
    requires RemoveClusterTag(env, w, r, uid).1.Nil?
    ensures ClusterTag(uid) in TagsOf(RemoveClusterTag(env, w, r, uid).0, r) <==> KeptSilently(env, w, r, uid)
  {
  }

  /** A nil from giving up one network or VPC: nothing abandoned is left, and the tag is off unless it was silently
      kept. */
  lemma NilMeansReleased(env: Env, w: World, r: Resource, uid: string)
    requires Honest(env) && !r.kind.AddressKind? && Release(env, w, r, uid).1.Nil?
    ensures var g' := Release(env, w, r, uid).0.registry;
            && !Abandoned(g', r)
            && (ClusterTag(uid) in TagsIn(g', r) <==> KeptSilently(env, w, r, uid))
  {
    RemovedUnlessKept(env, w, r, uid);
    var w1 := RemoveClusterTag(env, w, r, uid).0;
    RemoveClusterTagEffect(env, w, r, uid);
    if ClusterTag(uid) in TagsIn(w1.registry, r) {
      assert ClusterTag(uid) in ClusterTags(TagsIn(w1.registry, r));
    }
  }

  /** Made by CAPC and used by nobody, not for source NAT, and still taken. */
  predicate AddressAbandoned(w: World, id: Id) {
    && AllowDisposal(TagsOf(w, AddressTag(id)))
    && match AddressById(w.edge.addresses, id) case None => false case Some(a) => !a.sourceNat && a.taken
  }

  lemma {:induction false} DisassociatedIsFree(addresses: seq<Address>, id: Id)
    ensures match AddressById(Disassociate(addresses, id), id)
            case None => AddressById(addresses, id).None?
            case Some(a) => !a.taken
  {
    if addresses != [] {
      DisassociatedIsFree(addresses[1..], id);
      assert Disassociate(addresses, id)[1..] == Disassociate(addresses[1..], id);
    }
  }

  lemma NilMeansDisassociated(env: Env, w: World, iso: IsoNet)
    requires Honest(env) && DisassociateIfNotInUse(env, w, iso).1.Nil?
    ensures !AddressAbandoned(DisassociateIfNotInUse(env, w, iso).0, iso.publicIp)
  {
    var (w1, _) := DoClusterTagsAllowDisposal(env, w, AddressTag(iso.publicIp));
    var (w2, _) := GetAddressByID(env, w1, iso.publicIp);
    DeleteTagEffect(env, w2, AddressTag(iso.publicIp), CreatedTag, "1");
    DisassociatedIsFree(w.edge.addresses, iso.publicIp);
  }

  /** A nil from giving up the address: it is not left abandoned, and of one made by CAPC the cluster's tag is off, unless
      both its removal and the check failed. */
  lemma NilMeansAddressReleased(env: Env, w: World, iso: IsoNet, uid: string)
    requires Honest(env) && ReleaseAddress(env, w, iso, uid).1.Nil? && iso.publicIp != 0
    ensures var w' := ReleaseAddress(env, w, iso, uid).0;
            var r := AddressTag(iso.publicIp);
            && !AddressAbandoned(w', iso.publicIp)
            && (CreatedTag in TagsOf(w, r) && ClusterTag(uid) in TagsOf(w', r) ==>
                  env(w.clock + 2).Fault? && (env(w.clock + 1).Fault? || TagsOf(w, r)[ClusterTag(uid)] != "1"))
  {
    var r := AddressTag(iso.publicIp);
    var (w1, _) := DeleteClusterTag(env, w, r, uid);
    DeleteTagEffect(env, Tick(w), r, ClusterTag(uid), "1");
    NilMeansDisassociated(env, w1, iso);
    DisassociationKeepsOff(env, w1, iso, uid);
  }

  lemma DisassociationKeepsOff(env: Env, w: World, iso: IsoNet, uid: string)
    ensures var r := AddressTag(iso.publicIp);
            ClusterTag(uid) in TagsOf(DisassociateIfNotInUse(env, w, iso).0, r) ==> ClusterTag(uid) in TagsOf(w, r)
  {
    var (w1, _) := DoClusterTagsAllowDisposal(env, w, AddressTag(iso.publicIp));
    var (w2, _) := GetAddressByID(env, w1, iso.publicIp);
    DeleteTagEffect(env, w2, AddressTag(iso.publicIp), CreatedTag, "1");
  }

  /** Whatever failed on the way: a disposal that returns nil leaves neither address, network nor VPC abandoned. */
  lemma NilMeansDisposed(env: Env, w: World, iso: IsoNet, uid: string)
    requires Honest(env) && Dispose(env, w, iso, uid).1.Nil?
    ensures forall use :: use in Uses(uid, iso) ==> !Abandoned(Dispose(env, w, iso, uid).0.registry, use.1)
    ensures iso.publicIp != 0 ==> !AddressAbandoned(Dispose(env, w, iso, uid).0, iso.publicIp)
  {
    var net, vpc := NetTag(iso.id), VpcTag(VpcId(iso.vpc));
    var w1 := ReleaseAddress(env, w, iso, uid).0;
    if iso.publicIp != 0 { NilMeansAddressReleased(env, w, iso, uid); }
    Conservation.ReleaseAside(env, w1, net, uid);
    Conservation.ReleaseAside(env, Release(env, w1, net, uid).0, vpc, uid);
    NilMeansReleased(env, w1, net, uid);
    if VpcId(iso.vpc) != 0 {
      var w2 := Release(env, w1, net, uid).0;
      NilMeansReleased(env, w2, vpc, uid);
      ReleaseElsewhere(env, w2, vpc, uid, net);
    }
  }

  // ---- Set-up and disposal -------------------------------------------------------------------

  lemma SetUpProper(env: Env, w: World, zone: Id, iso: IsoNet, cl: CsCluster)
    requires WellFormed(w.registry) && Conservation.ProperRegistry(w.registry) && Conservation.ProperEdge(w.edge)
    requires GetOrCreate(env, w, zone, iso, cl).3.Nil?
    ensures var w' := Controller.SetUp(env, w, zone, iso, cl).0;
            Conservation.ProperRegistry(w'.registry) && Conservation.ProperEdge(w'.edge)
  {
    var g, g' := w.registry, GetOrCreate(env, w, zone, iso, cl).0.registry;
    Conservation.SetUpPooled(env, w, zone, iso, cl);
    Conservation.SetUpIsTaggedTwice(env, w, zone, iso, cl);
    GetOrCreateKept(env, w, zone, iso, cl);
    WhatIsMadeIsCounted(env, w, zone, iso, cl);
    forall r | r in g'.tags ensures Conservation.Proper(g'.tags[r]) { ProperAt(g, g', cl.uid, r); }
  }

  lemma ProperAt(g: Registry, g': Registry, uid: string, r: Resource)
    requires WellFormed(g) && Conservation.ProperRegistry(g) && Kept(g, g', uid) && r in g'.tags
    requires New(g, g', r) ==> TagsIn(g', r) == map[CreatedTag := "1", ClusterTag(uid) := "1"]
    ensures Conservation.Proper(g'.tags[r])
  {
    assert TagsIn(g', r) == g'.tags[r];
    if Present(g, r) {
      assert Known(g, r) && KeptAt(g, g', uid, r);
    } else {
      assert New(g, g', r);
    }
  }

  /** Of what was there, this goes with the last cluster that uses it, if that is this one. */
  ghost predicate LastUsed(g: Registry, uid: string, iso: IsoNet, r: Resource) {
    (uid, r) in Uses(uid, iso) && CreatedTag in TagsIn(g, r) && ClusterTags(TagsIn(g, r)) <= {ClusterTag(uid)}
  }

  /**
   What a set-up made, a disposal by the same cluster without failures takes away again. Of what was there before, it
   deletes exactly the network and VPC that CAPC made and that no other cluster uses.
   */
  lemma DisposalUndoesSetUp(env: Env, w: World, zone: Id, iso: IsoNet, cl: CsCluster, later: Env)
    requires WellFormed(w.registry) && Conservation.ProperRegistry(w.registry) && Conservation.ProperEdge(w.edge)
    requires GetOrCreate(env, w, zone, iso, cl).3.Nil? && FaultFree(later)
    requires var (w', iso', _, _) := Controller.SetUp(env, w, zone, iso, cl); Conservation.Addressed(w', iso')
    ensures var (w', iso', _, _) := Controller.SetUp(env, w, zone, iso, cl);
            var (w'', err) := Dispose(later, w', iso', cl.uid);
            && err.Nil?
            && forall r :: Present(w''.registry, r) <==> Present(w.registry, r) && !LastUsed(w.registry, cl.uid, iso', r)
  {
    var g := w.registry;
    var (w', iso', _, _) := Controller.SetUp(env, w, zone, iso, cl);
    var g' := w'.registry;
    SetUpProper(env, w, zone, iso, cl);
    GetOrCreateKept(env, w, zone, iso, cl);
    WhatIsMadeIsCounted(env, w, zone, iso, cl);
    Conservation.SetUpIsTaggedTwice(env, w, zone, iso, cl);
    Conservation.DisposeFaultFree(later, w', iso', cl.uid);
    var g'' := Dispose(later, w', iso', cl.uid).0.registry;
    forall r: Resource ensures Present(g'', r) <==> Present(g, r) && !LastUsed(g, cl.uid, iso', r) {
      if !r.kind.AddressKind? { UndoneAt(g, g', g'', later, w', iso', cl.uid, r); }
    }
  }

  lemma UndoneAt(g: Registry, g': Registry, g'': Registry, later: Env, w: World, iso: IsoNet, uid: string, r: Resource)
    requires WellFormed(g) && Kept(g, g', uid) && w.registry == g' && !r.kind.AddressKind?
    requires g'' == Dispose(later, w, iso, uid).0.registry
    requires New(g, g', r) ==>
               (uid, r) in Uses(uid, iso) && TagsIn(g', r) == map[CreatedTag := "1", ClusterTag(uid) := "1"]
    requires (uid, r) in Uses(uid, iso) ==> Conservation.Released(g', g'', uid, r)
    ensures Present(g'', r) <==> Present(g, r) && !LastUsed(g, uid, iso, r)
  {
    if (uid, r) !in Uses(uid, iso) { DisposeElsewhere(later, w, iso, uid, r); }
    if Present(g, r) {
      assert Known(g, r) && KeptAt(g, g', uid, r);
      OwnTagAside(TagsIn(g, r), uid);
    } else if Present(g', r) {
      assert ClusterTags(TagsIn(g', r)) <= {ClusterTag(uid)};
    }
  }

  lemma OwnTagAside(t: Tags, uid: string)
    ensures ClusterTags(t[ClusterTag(uid) := "1"]) == ClusterTags(t) + {ClusterTag(uid)}
  {
  }
}
