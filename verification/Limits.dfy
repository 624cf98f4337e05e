/** Where tags do not count references, and where a cleanup is lost: exact conditions, and inputs that meet them. */
module Limits {
  import opened Faults
  import opened CloudApi
  import opened TagSpec
  import opened IsoNetSpec
  import opened TagEffects
  import FixedPoint
  import RefCount
  import Conservation

  lemma ChosenIsKnown(env: Env, w: World, zone: Id, ip: string)
    requires GetPublicIP(env, w, zone, ip).1.Reply?
    ensures AddressKnown(w.edge.addresses, GetPublicIP(env, w, zone, ip).1.value.id)
  {
    var found := Listed(w.edge.addresses, zone, ip);
    FixedPoint.ListedFrom(w.edge.addresses, zone, ip);
    FixedPoint.FirstFreeFrom(found);
    var a := GetPublicIP(env, w, zone, ip).1.value;
    assert a in found;
    var i :| 0 <= i < |w.edge.addresses| && w.edge.addresses[i] == a;
    assert w.edge.addresses[i].id == a.id;
  }

  /**
   Public addresses are not reference counted: the cluster's tag is written before the created tag. An association puts
   the cluster's tag on an address only if the address already was tagged as made by CAPC.
   */
  lemma AssociationTags(env: Env, w: World, zone: Id, iso: IsoNet, cl: CsCluster)
    requires AssociatePublicIP(env, w, zone, iso, cl).3.Nil?
    requires !IsAssociated(GetPublicIP(env, w, zone, cl.host).1.value, iso)
    ensures var (w', iso', _, _) := AssociatePublicIP(env, w, zone, iso, cl);
            var r := AddressTag(iso'.publicIp);
            && CreatedTag in TagsOf(w', r)
            && (ClusterTag(cl.uid) in TagsOf(w', r)
                <==> CreatedTag in TagsOf(w, r) || ClusterTag(cl.uid) in TagsOf(w, r))
  {
    var (w1, chosen) := GetPublicIP(env, w, zone, cl.host);
    ChosenIsKnown(env, w, zone, cl.host);
    var r := AddressTag(chosen.value.id);
    var w2 := AssociateAddress(env, w1, chosen.value.ip, iso.id, VpcId(iso.vpc)).0;
    assert TagsOf(w2, r) == TagsOf(w, r);
    AddClusterTagEffect(env, w2, r, cl.uid);
    var w3 := AddClusterTag(env, w2, r, cl.uid).0;
    AddTagsEffect(env, w3, r, map[CreatedTag := "1"]);
  }

  /** A removal reports success with the tag still in place exactly when the tag is there, the removal is refused for
      its value or fails without effect, and the check of the tags fails too. */
  lemma SilentlyKeptTag(env: Env, w: World, r: Resource, key: TagKey, value: string)
    ensures var (w', err) := DeleteTag(env, w, r, key, value);
            var t := TagsOf(w, r);
            err.Nil? && key in TagsOf(w', r)
            <==> && key in t
                 && (t[key] != value || (env(w.clock).Fault? && !env(w.clock).applied))
                 && env(w.clock + 1).Fault?
  {
  }

  const LAN := NetworkInfo("lan", "10.0.0.1", "255.0.0.0", "Static", 0, "", true)
  const DMZ := NetworkInfo("dmz", "10.0.0.1", "255.0.0.0", "Static", 0, "", true)

  /** The exception to the fixed point occurs: a first lookup by name fails, and the identifier stored in the object
      leads to a network of another name. */
  lemma MisledSetUp()
    ensures exists env: Env, w: World, iso: IsoNet, cl: CsCluster ::
      && Honest(env) && WellFormed(w.registry) && FixedPoint.DistinctIps(w.edge.addresses)
      && GetOrCreate(env, w, 1, iso, cl).3.Nil?
      && FixedPoint.MisledAt(env, w, iso) && !FixedPoint.NameStable(w.registry, iso)
  {
    var env: Env := (t: nat) => if t == 0 then Fault(Other, false) else Normal;
    var registry := Registry(3, map[1 := LAN, 2 := DMZ], map[], map[]);
    var w := World(0, registry, Edge([], map[], 1, [], map[], map[]), Catalogue(map[], {}));
    var iso := IsoNet("dmz", 1, "", 0, "", "", "", None, 0, 0, "", false);
    assert GetOrCreate(env, w, 1, iso, CsCluster("c", "", 0)).3.Nil?;
    assert FixedPoint.Unique(registry, "dmz", 2);
  }

  /**
   Any error of the lookup leads to a create, so a name does not stand for one network. With exactly one network of the
   name there, a set-up that gets its network makes a second one exactly if the lookup by name fails and the stored
   identifier does not help.
   */
  lemma SecondNetwork(env: Env, w: World, iso: IsoNet, id: Id)
    requires WellFormed(w.registry) && FixedPoint.Unique(w.registry, iso.name, id)
    requires ResolveOrCreate(env, w, iso).2.Nil?
    ensures var (w', iso', _) := ResolveOrCreate(env, w, iso);
            (iso'.id != id && iso'.id !in w.registry.networks && FixedPoint.Named(w'.registry, iso.name, iso'.id))
            <==> env(w.clock).Fault? && (env(w.clock + 1).Fault? || iso.id !in w.registry.networks)
  {
    if env(w.clock).Normal? {
      FixedPoint.LookupByName(env, w, iso.name);
    } else {
      var (w1, _, err) := ResolveNetwork(env, w, NetworkOf(iso));
      if err.Error? { CreatedIsNew(env, w1, iso); }
    }
  }

  lemma CreatedIsNew(env: Env, w: World, iso: IsoNet)
    requires WellFormed(w.registry) && CreateIsolatedNetwork(env, w, iso).2.Nil?
    ensures var (w', iso', _) := CreateIsolatedNetwork(env, w, iso);
            iso'.id !in w.registry.networks && FixedPoint.Named(w'.registry, iso.name, iso'.id)
  {
    PrepareVpcGrown(env, w, iso);
    FixedPoint.CreatedSettles(env, w, iso);
    var w1 := PrepareVpc(env, w, iso).0;
    assert w.registry.nextId <= w1.registry.nextId;
    assert CreateIsolatedNetwork(env, w, iso).1.id == w1.registry.nextId;
  }

  /** What has no tags gets the created tag exactly if its tags can be read and the call that writes it has an effect. */
  lemma TagIsWritten(env: Env, w: World, r: Resource)
    requires TagsOf(w, r) == map[] && Exists(w, r)
    ensures var (w', err) := AddCreatedTag(env, w, r);
            && TagsOf(w', r) == (if env(w.clock).Normal? && (env(w.clock + 1).Normal? || env(w.clock + 1).applied)
                                 then map[CreatedTag := "1"] else map[])
            && (err.Nil? ==> TagsOf(w', r) == map[CreatedTag := "1"])
  {
    AddTagsEffect(env, w, r, map[CreatedTag := "1"]);
    assert MissingTags(map[CreatedTag := "1"], map[]) == map[CreatedTag := "1"];
  }

  /**
   A network is made by one call and tagged by two more. It is left without a tag exactly if the first reported an error
   after all, the second failed, or the third failed without effect.
   */
  lemma UntaggedNetwork(env: Env, w: World, iso: IsoNet, o: Offering)
    requires WellFormed(w.registry) && MakeNetwork(env, w, iso, o).0.registry.networks != w.registry.networks
    ensures var (w', _, err) := MakeNetwork(env, w, iso, o);
            && (RefCount.Foreign(w'.registry, NetTag(w.registry.nextId))
                <==> env(w.clock).Fault? || env(w.clock + 1).Fault?
                     || (env(w.clock + 2).Fault? && !env(w.clock + 2).applied))
            && (RefCount.Foreign(w'.registry, NetTag(w.registry.nextId)) ==> err.Error?)
  {
    var r := NetTag(w.registry.nextId);
    var info := NetworkFor(w.registry, iso.name, o, iso.gateway, iso.netmask, VpcId(iso.vpc));
    var w1 := CreateNetwork(env, w, info).0;
    assert TagsOf(w1, r) == map[] && Exists(w1, r);
    TagIsWritten(env, w1, r);
    AddTagsEffect(env, w1, r, map[CreatedTag := "1"]);
    assert ClusterTags(map[]) == {};
  }

  /** Such a network takes no part in the counting of references: at no point of any run that follows does it carry a
      tag of CAPC, and it is never deleted. */
  lemma UntaggedForGood(env: Env, w: World, iso: IsoNet, o: Offering, later: Env, states: seq<RefCount.System>,
                        ops: seq<RefCount.Op>, i: nat)
    requires WellFormed(w.registry) && MakeNetwork(env, w, iso, o).0.registry.networks != w.registry.networks
    requires env(w.clock).Fault? || env(w.clock + 1).Fault? || (env(w.clock + 2).Fault? && !env(w.clock + 2).applied)
    requires RefCount.IsRun(later, states, ops) && states[0].world == MakeNetwork(env, w, iso, o).0 && i < |states|
    ensures RefCount.Foreign(states[i].world.registry, NetTag(w.registry.nextId))
  {
    UntaggedNetwork(env, w, iso, o);
    var info := NetworkFor(w.registry, iso.name, o, iso.gateway, iso.netmask, VpcId(iso.vpc));
    NetworkMade(w.registry, info);
    SameGrown(w.registry);
    NewTagged(env, CreateNetwork(env, w, info).0, NetTag(w.registry.nextId), w.registry);
    RefCount.ForeignUntouched(later, states, ops, i, NetTag(w.registry.nextId));
  }

  /**
   A VPC is tagged for a cluster, not for an isolated network. When nothing fails, disposing of one isolated network
   takes the cluster's only tag off the VPC, whatever other networks the cluster has in it, and deletes the VPC exactly
   if CAPC made it and no other cluster uses it.
   */
  lemma VpcIsPerCluster(env: Env, w: World, iso: IsoNet, uid: string)
    requires FaultFree(env) && WellFormed(w.registry) && Conservation.ProperRegistry(w.registry)
    requires Conservation.ProperEdge(w.edge) && Conservation.Addressed(w, iso)
    requires VpcId(iso.vpc) in w.registry.vpcs
    ensures var vpc := VpcTag(VpcId(iso.vpc));
            var g' := Dispose(env, w, iso, uid).0.registry;
            && ClusterTag(uid) !in TagsIn(g', vpc)
            && (!Present(g', vpc) <==> CreatedTag in TagsIn(w.registry, vpc)
                                       && ClusterTags(TagsIn(w.registry, vpc)) <= {ClusterTag(uid)})
  {
    Conservation.DisposeFaultFree(env, w, iso, uid);
    assert (uid, VpcTag(VpcId(iso.vpc))) in RefCount.Uses(uid, iso);
  }

  // ---- Inputs that meet the conditions -------------------------------------------------------

  const OPEN := Offering("", "", "", true)

  function Nets(nets: map<Id, NetworkInfo>, vpcs: map<Id, VpcInfo>, tags: map<Resource, Tags>): World {
    World(0, Registry(4, nets, vpcs, tags), Edge([], map[], 1, [], map[], map[]),
          Catalogue(map["o" := OPEN], {}))
  }

  const NAMED := IsoNet("lan", 0, "", 0, "", "", "o", None, 0, 0, "", false)

  /** One lookup fails, and there are two networks of the name. */
  lemma SecondNetworkOccurs() returns (env: Env, w: World, iso: IsoNet, id: Id)
    ensures Honest(env) && WellFormed(w.registry) && FixedPoint.Unique(w.registry, iso.name, id)
    ensures var (w', iso', err) := ResolveOrCreate(env, w, iso);
            && err.Nil? && iso'.id != id
            && FixedPoint.Named(w'.registry, iso.name, id) && FixedPoint.Named(w'.registry, iso.name, iso'.id)
  {
    env := (t: nat) => if t == 0 then Fault(Other, false) else Normal;
    w, iso, id := Nets(map[1 := LAN], map[], map[]), NAMED, 1;
    assert FixedPoint.Unique(w.registry, "lan", 1);
    var (w1, _, err) := ResolveNetwork(env, w, NetworkOf(NAMED));
    assert err.Error? && w1.registry == w.registry && w1.clock == 2;
    SecondIsMade(env, w1);
  }

  lemma SecondIsMade(env: Env, w: World)
    requires w == Nets(map[1 := LAN], map[], map[]).(clock := 2) && forall t: nat :: t >= 2 ==> env(t).Normal?
    ensures var (w', iso', made) := CreateIsolatedNetwork(env, w, NAMED);
            && made.Nil? && iso'.id == 4
            && w'.registry.networks == map[1 := LAN, 4 := NetworkFor(w.registry, "lan", OPEN, "", "", 0)]
  {
  }

  /** The call that writes the created tag fails, and the new network is left without one. */
  lemma UntaggedOccurs() returns (env: Env, w: World, iso: IsoNet, id: Id)
    ensures Honest(env) && WellFormed(w.registry) && id !in w.registry.networks
    ensures var (w', _, err) := ResolveOrCreate(env, w, iso);
            err.Error? && FixedPoint.Unique(w'.registry, iso.name, id) && RefCount.Foreign(w'.registry, NetTag(id))
  {
    env := (t: nat) => if t == 5 then Fault(Other, false) else Normal;
    w, iso, id := Nets(map[], map[], map[]), NAMED, 4;
    var (w1, _, err) := ResolveNetwork(env, w, NetworkOf(NAMED));
    assert err.Error? && w1.registry == w.registry && w1.clock == 2;
    UntaggedIsMade(env, w1);
    assert ResolveOrCreate(env, w, NAMED) == CreateIsolatedNetwork(env, w1, NAMED);
  }

  lemma UntaggedIsMade(env: Env, w: World)
    requires w == Nets(map[], map[], map[]).(clock := 2)
    requires env(2).Normal? && env(3).Normal? && env(4).Normal? && env(5) == Fault(Other, false)
    ensures var (w', _, made) := CreateIsolatedNetwork(env, w, NAMED);
            made.Error? && FixedPoint.Unique(w'.registry, "lan", 4) && RefCount.Foreign(w'.registry, NetTag(4))
  {
    var w1 := Tick(w);
    assert CreateIsolatedNetwork(env, w, NAMED) == MakeNetwork(env, w1, NAMED, OPEN);
    var (w', _, _) := MakeNetwork(env, w1, NAMED, OPEN);
    UntaggedCall(env, w1);
    assert w'.registry.networks == map[4 := NetworkFor(w1.registry, "lan", OPEN, "", "", 0)];
    UntaggedNetwork(env, w1, NAMED, OPEN);
    assert FixedPoint.Named(w'.registry, "lan", 4);
  }

  lemma UntaggedCall(env: Env, w: World)
    requires w.registry == Nets(map[], map[], map[]).registry && env(w.clock).Normal?
    ensures MakeNetwork(env, w, NAMED, OPEN).0.registry.networks
            == map[4 := NetworkFor(w.registry, "lan", OPEN, "", "", 0)]
  {
    var info := NetworkFor(w.registry, "lan", OPEN, "", "", 0);
    assert map[][4 := info] == map[4 := info];
    AddTagsEffect(env, CreateNetwork(env, w, info).0, NetTag(4), map[CreatedTag := "1"]);
  }

  const TIER := NetworkInfo("tier", "10.0.0.1", "255.0.0.0", "", 3, "vpc", true)

  /** A VPC that CAPC made, and two networks of one cluster in it. */
  function Shared(): World {
    Nets(map[1 := LAN.(vpc := 3), 2 := TIER], map[3 := VpcInfo("vpc", "", "")],
         map[NetTag(1) := map[CreatedTag := "1", ClusterTag("c") := "1"],
             NetTag(2) := map[CreatedTag := "1", ClusterTag("c") := "1"],
             VpcTag(3) := map[CreatedTag := "1", ClusterTag("c") := "1"]])
  }

  /** The first of the two networks is disposed of, and the VPC goes with it under the second. */
  lemma VpcGoesUnderNetwork() returns (env: Env, w: World, iso: IsoNet, other: Id, uid: string)
    ensures FaultFree(env) && WellFormed(w.registry) && VpcId(iso.vpc) in w.registry.vpcs
    ensures other != iso.id && other in w.registry.networks && w.registry.networks[other].vpc == VpcId(iso.vpc)
    ensures ClusterTag(uid) in TagsIn(w.registry, NetTag(other))
    ensures var g' := Dispose(env, w, iso, uid).0.registry;
            && other in g'.networks && ClusterTag(uid) in TagsIn(g', NetTag(other))
            && VpcId(iso.vpc) !in g'.vpcs
  {
    env, w, iso, other, uid := (t: nat) => Normal, Shared(), FIRST, 2, "c";
    FirstTierGoes(env);
    SharedIs();
  }

  const FIRST := NAMED.(id := 1, vpc := Some(Vpc(3, "vpc", "", "")))

  lemma FirstTierGoes(env: Env)
    requires FaultFree(env)
    ensures var g' := Dispose(env, Shared(), FIRST, "c").0.registry;
            2 in g'.networks && ClusterTag("c") in TagsIn(g', NetTag(2)) && 3 !in g'.vpcs
  {
    SharedIs();
    VpcIsPerCluster(env, Shared(), FIRST, "c");
    RefCount.DisposeElsewhere(env, Shared(), FIRST, "c", NetTag(2));
  }

  lemma SharedIs()
    ensures var w := Shared();
            && WellFormed(w.registry) && Conservation.ProperRegistry(w.registry) && Conservation.ProperEdge(w.edge)
            && TagsIn(w.registry, VpcTag(3)) == TagsIn(w.registry, NetTag(2))
            == map[CreatedTag := "1", ClusterTag("c") := "1"]
            && ClusterTags(TagsIn(w.registry, VpcTag(3))) == {ClusterTag("c")}
  {
    var t: Tags := map[CreatedTag := "1", ClusterTag("c") := "1"];
    assert ClusterTags(t) == {ClusterTag("c")};
    assert Conservation.Proper(t);
  }
}
