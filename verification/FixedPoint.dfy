/**
 Set-up is a fixed point: when it has succeeded, running it again without failures succeeds and changes nothing, for
 networks behind NAT, in a VPC, and routed. The one exception is stated exactly.
 */
module FixedPoint {
  import opened Faults
  import opened CloudApi
  import opened TagSpec
  import opened IsoNetSpec
  import opened TagEffects

  // ---- Networks by name ----------------------------------------------------------------------

  ghost predicate Named(g: Registry, name: string, id: Id) {
    id in g.networks && g.networks[id].name == name
  }

  ghost predicate Unique(g: Registry, name: string, id: Id) {
    Named(g, name, id) && forall other :: Named(g, name, other) ==> other == id
  }

  lemma {:induction false} NamedFrom(g: Registry, name: string, from: Id)
    requires WellFormed(g)
    ensures forall id :: id in NetworksNamed(g, name, from) <==> from <= id && Named(g, name, id)
    decreases g.nextId - from
  {
    if from < g.nextId { NamedFrom(g, name, from + 1); }
  }

  lemma {:induction false} NoneNamed(g: Registry, name: string, from: Id)
    requires forall id: Id :: from <= id ==> !Named(g, name, id)
    ensures NetworksNamed(g, name, from) == []
    decreases g.nextId - from
  {
    if from < g.nextId {
      assert !Named(g, name, from);
      NoneNamed(g, name, from + 1);
    }
  }

  lemma {:induction false} NamedAlone(g: Registry, name: string, from: Id, id: Id)
    requires WellFormed(g) && from <= id && Unique(g, name, id)
    ensures NetworksNamed(g, name, from) == [id]
    decreases g.nextId - from
  {
    if from < id {
      assert !Named(g, name, from);
      NamedAlone(g, name, from + 1, id);
    } else {
      NoneNamed(g, name, from + 1);
    }
  }

  lemma LookupByName(env: Env, w: World, name: string)
    requires WellFormed(w.registry) && env(w.clock).Normal?
    ensures var (w', reply) := GetNetworkByName(env, w, name);
            && w' == Tick(w)
            && (reply.Reply? && reply.value.One? ==>
                  Unique(w.registry, name, reply.value.id) && reply.value.info == w.registry.networks[reply.value.id])
            && (forall id :: Unique(w.registry, name, id) ==> reply == Reply(One(id, w.registry.networks[id])))
  {
    NamedFrom(w.registry, name, 0);
    var ids := NetworksNamed(w.registry, name, 0);
    if |ids| == 1 {
      assert ids == [ids[0]];
      assert Unique(w.registry, name, ids[0]);
    }
    forall id: Id | Unique(w.registry, name, id) ensures ids == [id] { NamedAlone(w.registry, name, 0, id); }
  }

  /** The network the object's name stands for, if it stands for one, is the network the object names by identifier. */
  ghost predicate NameStable(g: Registry, iso: IsoNet) {
    forall id :: Unique(g, iso.name, id) ==> id == iso.id
  }

  lemma SameNames(g: Registry, g': Registry, iso: IsoNet, iso': IsoNet)
    requires g'.networks == g.networks && iso'.name == iso.name && iso'.id == iso.id
    ensures NameStable(g, iso) <==> NameStable(g', iso')
  {
    assert forall id :: Named(g, iso.name, id) <==> Named(g', iso.name, id);
    assert forall id :: Unique(g, iso.name, id) <==> Unique(g', iso.name, id);
  }

  // ---- What a successful set-up leaves behind ------------------------------------------------

  ghost predicate Mirrors(iso: IsoNet, info: NetworkInfo) {
    && iso.gateway == info.gateway && iso.netmask == info.netmask && iso.routingMode == info.routingMode
    && (info.vpc != 0 ==> iso.vpc.Some? && iso.vpc.value.id == info.vpc && iso.vpc.value.name == info.vpcName)
  }

  ghost predicate NetworkSettled(g: Registry, iso: IsoNet) {
    iso.id in g.networks && Mirrors(iso, g.networks[iso.id])
  }

  ghost predicate TagSettled(g: Registry, uid: string, r: Resource) {
    CreatedTag in TagsIn(g, r) ==> ClusterTag(uid) in TagsIn(g, r) && TagsIn(g, r)[ClusterTag(uid)] == "1"
  }

  ghost predicate TagsSettled(g: Registry, iso: IsoNet, uid: string) {
    TagSettled(g, uid, NetTag(iso.id)) && (VpcId(iso.vpc) != 0 ==> TagSettled(g, uid, VpcTag(VpcId(iso.vpc))))
  }

  ghost predicate AddressSettled(e: Edge, zone: Id, iso: IsoNet, cl: CsCluster) {
    var found := Listed(e.addresses, zone, cl.host);
    && cl.host != "" && iso.host == cl.host
    && |found| == 1
    && found[0].ip == cl.host && found[0].id == iso.publicIp && IsAssociated(found[0], iso)
  }

  ghost predicate PortSettled(e: Edge, iso: IsoNet, cl: CsCluster) {
    && cl.port != 0 && iso.port == cl.port
    && RuleAtPort(RulesOf(e.lbRules, iso.publicIp), iso.port) == Some(iso.lbRule)
  }

  ghost predicate EndpointSettled(e: Edge, zone: Id, iso: IsoNet, cl: CsCluster) {
    iso.routingMode == "" ==> AddressSettled(e, zone, iso, cl) && PortSettled(e, iso, cl)
  }

  function RulesFor(e: Edge, iso: IsoNet): seq<FirewallRule> {
    RulesAt(if iso.routingMode != "" then e.routing else e.egress, iso.id)
  }

  ghost predicate FirewallSettled(g: Registry, e: Edge, iso: IsoNet) {
    VpcId(iso.vpc) == 0 ==>
      && iso.firewallOpened
      && iso.id in g.networks
      && (|| g.networks[iso.id].egressDefault
          || AllOpen(RulesAt(e.egress, iso.id))
          || (iso.routingMode != "" && forall p :: p in PROTOCOLS ==> WideOpen(p) in RulesFor(e, iso)))
  }

  ghost predicate Settled(w: World, zone: Id, iso: IsoNet, cl: CsCluster) {
    && WellFormed(w.registry)
    && NetworkSettled(w.registry, iso)
    && TagsSettled(w.registry, iso, cl.uid)
    && EndpointSettled(w.edge, zone, iso, cl)
    && FirewallSettled(w.registry, w.edge, iso)
  }

  // ---- Settled is a fixed point --------------------------------------------------------------

  lemma ResolveAgain(env: Env, w: World, iso: IsoNet)
    requires FaultFree(env) && WellFormed(w.registry) && NetworkSettled(w.registry, iso)
    ensures var (w', iso', err) := ResolveOrCreate(env, w, iso);
            && Still(w') == Still(w) && err.Nil?
            && if NameStable(w.registry, iso) then iso' == iso else iso'.id != iso.id
  {
    LookupByName(env, w, iso.name);
  }

  lemma TagAgain(env: Env, w: World, r: Resource, uid: string)
    requires FaultFree(env) && !r.kind.AddressKind? && TagSettled(w.registry, uid, r)
    ensures var (w', err) := AddClusterTag(env, w, r, uid); Still(w') == Still(w) && err.Nil?
  {
    assert CreatedTag in TagsOf(w, r) ==> MissingTags(map[ClusterTag(uid) := "1"], TagsOf(w, r)) == map[];
  }

  lemma EndpointAgain(env: Env, w: World, zone: Id, iso: IsoNet, cl: CsCluster)
    requires FaultFree(env) && EndpointSettled(w.edge, zone, iso, cl)
    ensures var (w', iso', cl', err) := SetUpEndpoint(env, w, zone, iso, cl);
            Still(w') == Still(w) && iso' == iso && cl' == cl && err.Nil?
  {
  }

  lemma {:induction false} RulesAgain(env: Env, w: World, iso: IsoNet, protocols: seq<Protocol>)
    requires FaultFree(env) && forall p :: p in protocols ==> WideOpen(p) in RulesFor(w.edge, iso)
    ensures var (w', err) := CreateFirewallRules(env, w, iso, protocols); Still(w') == Still(w) && err.Nil?
    decreases |protocols|
  {
    if protocols != [] {
      var (w1, err) := CreateFirewallRule(env, w, iso, protocols[0]);
      assert Still(w1) == Still(w) && w1.edge == w.edge && err.Nil?;
      RulesAgain(env, w1, iso, protocols[1..]);
    }
  }

  lemma FirewallAgain(env: Env, w: World, iso: IsoNet)
    requires FaultFree(env) && FirewallSettled(w.registry, w.edge, iso)
    ensures var (w', iso', err) := OpenFirewall(env, w, iso); Still(w') == Still(w) && iso' == iso && err.Nil?
  {
    var (w2, _) := CheckFirewallRules(env, GetNetworkByID(env, w, iso.id).0, iso);
    if iso.routingMode != "" && forall p :: p in PROTOCOLS ==> WideOpen(p) in RulesFor(w.edge, iso) {
      RulesAgain(env, w2, iso, PROTOCOLS);
    }
  }

  lemma SettledIsFixed(env: Env, w: World, zone: Id, iso: IsoNet, cl: CsCluster)
    requires FaultFree(env) && Settled(w, zone, iso, cl) && NameStable(w.registry, iso)
    ensures var (w', iso', cl', err) := GetOrCreate(env, w, zone, iso, cl);
            Still(w') == Still(w) && iso' == iso && cl' == cl && err.Nil?
  {
    ResolveAgain(env, w, iso);
    var (w1, _, _) := ResolveOrCreate(env, w, iso);
    TagAgain(env, w1, NetTag(iso.id), cl.uid);
    var (w2, _) := AddClusterTag(env, w1, NetTag(iso.id), cl.uid);
    if VpcId(iso.vpc) != 0 { TagAgain(env, w2, VpcTag(VpcId(iso.vpc)), cl.uid); }
    var (w3, _) := TagVpc(env, w2, iso, cl.uid);
    EndpointAgain(env, w3, zone, iso, cl);
    var (w4, _, _, _) := SetUpEndpoint(env, w3, zone, iso, cl);
    FirewallAgain(env, w4, iso);
  }

  // ---- A successful set-up settles -----------------------------------------------------------

  lemma {:induction false} FirstVpcNamed(g: Registry, name: string, from: Id)
    ensures forall id :: id in VpcsNamed(g, name, from) ==> id in g.vpcs && g.vpcs[id].name == name
    decreases g.nextId - from
  {
    if from < g.nextId { FirstVpcNamed(g, name, from + 1); }
  }

  /** A VPC value that says what the cloud says. */
  ghost predicate VpcNamed(g: Registry, vpc: Vpc) {
    vpc.id != 0 ==> vpc.id in g.vpcs && g.vpcs[vpc.id].name == vpc.name
  }

  lemma VpcPrepared(env: Env, w: World, vpc: Vpc)
    requires WellFormed(w.registry)
    requires ResolveOrCreateVpc(env, w, vpc).2.Nil?
    ensures var (w', vpc', _) := ResolveOrCreateVpc(env, w, vpc); VpcNamed(w'.registry, vpc')
  {
    FirstVpcNamed(w.registry, vpc.name, 0);
    var (w1, resolved, err) := ResolveVpc(env, w, vpc);
    if err.Error? {
      var offeringName := if resolved.offering != "" then resolved.offering else VPC_OFFERING;
      var w2 := GetVpcOffering(env, w1, offeringName).0;
      var w3 := CreateVpc(env, w2, VpcInfo(resolved.name, resolved.cidr, offeringName)).0;
      AddTagsEffect(env, w3, VpcTag(w2.registry.nextId), map[CreatedTag := "1"]);
    }
  }

  lemma CreatedSettles(env: Env, w: World, iso: IsoNet)
    requires WellFormed(w.registry) && CreateIsolatedNetwork(env, w, iso).2.Nil?
    ensures var (w', iso', _) := CreateIsolatedNetwork(env, w, iso);
            NetworkSettled(w'.registry, iso') && NameStable(w'.registry, iso') && iso'.name == iso.name
  {
    var (w1, iso1, _) := PrepareVpc(env, w, iso);
    if WantsVpc(iso) { VpcPrepared(env, w, iso.vpc.value); }
    assert iso1.vpc.Some? ==> VpcNamed(w1.registry, iso1.vpc.value);
    var (w2, offering) := GetNetworkOffering(env, w1, OfferingName(iso));
    var info := NetworkFor(w2.registry, iso.name, offering.value, iso.gateway, iso.netmask, VpcId(iso1.vpc));
    var w3 := CreateNetwork(env, w2, info).0;
    AddTagsEffect(env, w3, NetTag(w2.registry.nextId), map[CreatedTag := "1"]);
    var (w', iso', _) := CreateIsolatedNetwork(env, w, iso);
    assert w'.registry.networks == w2.registry.networks[w2.registry.nextId := info];
    assert Named(w'.registry, iso.name, iso'.id);
  }

  /** The one way to settle on a network other than the one of that name: the lookup by name fails, the lookup of the
      stored identifier works, and it finds a network of another name. */
  predicate MisledAt(env: Env, w: World, iso: IsoNet) {
    env(w.clock).Fault? && env(w.clock + 1).Normal? && iso.id in w.registry.networks
  }

  lemma ResolvedSettles(env: Env, w: World, iso: IsoNet)
    requires WellFormed(w.registry) && ResolveOrCreate(env, w, iso).2.Nil?
    ensures var (w', iso', _) := ResolveOrCreate(env, w, iso);
            && NetworkSettled(w'.registry, iso')
            && (NameStable(w'.registry, iso') <==> (MisledAt(env, w, iso) ==> NameStable(w.registry, iso)))
            && iso'.name == iso.name
  {
    if env(w.clock).Normal? { LookupByName(env, w, iso.name); }
    var (w1, net, err) := ResolveNetwork(env, w, NetworkOf(iso));
    if err.Error? {
      CreatedSettles(env, w1, iso);
    } else {
      var (_, iso', _) := ResolveOrCreate(env, w, iso);
      assert w1.registry == w.registry;
      if env(w.clock).Fault? {
        assert iso'.id == iso.id;
        assert NameStable(w1.registry, iso') <==> NameStable(w.registry, iso);
      }
    }
  }

  lemma TagBothSettles(env: Env, w: World, iso: IsoNet, uid: string)
    requires TagBoth(env, w, iso, uid).1.Nil?
    ensures TagsSettled(TagBoth(env, w, iso, uid).0.registry, iso, uid)
    ensures TagBoth(env, w, iso, uid).0.edge == w.edge
  {
    AddClusterTagEffect(env, w, NetTag(iso.id), uid);
    var w1 := AddClusterTag(env, w, NetTag(iso.id), uid).0;
    AddClusterTagEffect(env, w1, VpcTag(VpcId(iso.vpc)), uid);
  }

  /** Every address has an IP of its own. */
  ghost predicate DistinctIps(addresses: seq<Address>) {
    && (forall i :: 0 <= i < |addresses| ==> addresses[i].ip != "")
    && (forall i, j :: 0 <= i < j < |addresses| ==> addresses[i].ip != addresses[j].ip)
  }

  lemma {:induction false} ListedFrom(addresses: seq<Address>, zone: Id, ip: string)
    ensures forall a :: a in Listed(addresses, zone, ip) <==> a in addresses && a.zone == zone && (ip == "" || a.ip == ip)
  {
    if addresses != [] { ListedFrom(addresses[1..], zone, ip); }
  }

  lemma {:induction false} NoneListed(addresses: seq<Address>, zone: Id, ip: string)
    requires ip != "" && forall i :: 0 <= i < |addresses| ==> addresses[i].ip != ip
    ensures Listed(addresses, zone, ip) == []
  {
    if addresses != [] { NoneListed(addresses[1..], zone, ip); }
  }

  lemma {:induction false} ListedAlone(addresses: seq<Address>, zone: Id, i: nat)
    requires DistinctIps(addresses) && i < |addresses| && addresses[i].zone == zone
    ensures Listed(addresses, zone, addresses[i].ip) == [addresses[i]]
  {
    var rest := addresses[1..];
    var ip := addresses[i].ip;
    if i == 0 {
      NoneListed(rest, zone, ip);
    } else {
      ListedAlone(rest, zone, i - 1);
    }
  }

  lemma {:induction false} FirstFreeFrom(addresses: seq<Address>)
    ensures FirstFree(addresses).Some? ==> FirstFree(addresses).value in addresses
  {
    if addresses != [] { FirstFreeFrom(addresses[1..]); }
  }

  /** The address chosen is one of the pool, and the only one listed under its IP. */
  lemma ChosenAlone(addresses: seq<Address>, zone: Id, ip: string) returns (i: nat)
    requires DistinctIps(addresses) && ChooseAddress(Listed(addresses, zone, ip), ip).Some?
    ensures i < |addresses| && addresses[i] == ChooseAddress(Listed(addresses, zone, ip), ip).value
    ensures addresses[i].zone == zone && Listed(addresses, zone, addresses[i].ip) == [addresses[i]]
  {
    var found := Listed(addresses, zone, ip);
    var a := ChooseAddress(found, ip).value;
    FirstFreeFrom(found);
    assert a in found;
    ListedFrom(addresses, zone, ip);
    i :| 0 <= i < |addresses| && addresses[i] == a;
    ListedAlone(addresses, zone, i);
  }

  /** Associating an address leaves it the only one listed under its IP. */
  lemma AssociatedAlone(addresses: seq<Address>, zone: Id, i: nat, network: Id, vpc: Id)
    requires DistinctIps(addresses) && i < |addresses| && addresses[i].zone == zone
    ensures Listed(Associate(addresses, addresses[i].ip, network, vpc), zone, addresses[i].ip)
         == [Associated(addresses[i], network, vpc)]
  {
    ListedAlone(Associate(addresses, addresses[i].ip, network, vpc), zone, i);
  }

  lemma TaggedAddresses(env: Env, w: World, r: Resource, uid: string)
    ensures var (w1, _) := AddClusterTag(env, w, r, uid);
            w1.edge.addresses == w.edge.addresses && AddCreatedTag(env, w1, r).0.edge.addresses == w.edge.addresses
  {
    AddClusterTagEffect(env, w, r, uid);
    AddTagsEffect(env, AddClusterTag(env, w, r, uid).0, r, map[CreatedTag := "1"]);
  }

  lemma AssociateSettles(env: Env, w: World, zone: Id, iso: IsoNet, cl: CsCluster)
    requires DistinctIps(w.edge.addresses) && AssociatePublicIP(env, w, zone, iso, cl).3.Nil?
    ensures var (w', iso', cl', _) := AssociatePublicIP(env, w, zone, iso, cl);
            && AddressSettled(w'.edge, zone, iso', cl')
            && iso' == iso.(host := iso'.host, publicIp := iso'.publicIp)
  {
    var (w1, chosen) := GetPublicIP(env, w, zone, cl.host);
    var a := chosen.value;
    var i := ChosenAlone(w.edge.addresses, zone, cl.host);
    var iso1 := iso.(host := a.ip, publicIp := a.id);
    AssociatedAlone(w.edge.addresses, zone, i, iso1.id, VpcId(iso1.vpc));
    TaggedAddresses(env, AssociateAddress(env, w1, a.ip, iso1.id, VpcId(iso1.vpc)).0, AddressTag(a.id), cl.uid);
  }

  lemma {:induction false} RuleAppended(rules: seq<LbRule>, r: LbRule)
    ensures RulesOf(rules + [r], r.address) == RulesOf(rules, r.address) + [r]
  {
    if rules == [] {
      assert rules + [r] == [r];
    } else {
      RuleAppended(rules[1..], r);
      assert (rules + [r])[1..] == rules[1..] + [r];
    }
  }

  lemma {:induction false} RuleFoundLast(rules: seq<LbRule>, r: LbRule)
    requires RuleAtPort(rules, r.publicPort).None?
    ensures RuleAtPort(rules + [r], r.publicPort) == Some(r.id)
  {
    if rules == [] {
      assert rules + [r] == [r];
    } else {
      RuleFoundLast(rules[1..], r);
      assert (rules + [r])[1..] == rules[1..] + [r];
    }
  }

  lemma LbRuleSettles(env: Env, w: World, iso: IsoNet, cl: CsCluster)
    requires Honest(env) && GetOrCreateLbRule(env, w, iso, cl).3.Nil?
    ensures var (w', iso', cl', _) := GetOrCreateLbRule(env, w, iso, cl);
            && PortSettled(w'.edge, iso', cl')
            && w'.edge.addresses == w.edge.addresses
            && iso' == iso.(port := iso'.port, lbRule := iso'.lbRule) && cl' == cl.(port := cl'.port)
  {
    var port := AgreedPort(iso, cl);
    var r := LbRule(w.edge.nextRule, iso.publicIp, port);
    RuleAppended(w.edge.lbRules, r);
    if RuleAtPort(RulesOf(w.edge.lbRules, iso.publicIp), port).None? {
      RuleFoundLast(RulesOf(w.edge.lbRules, iso.publicIp), r);
    }
  }

  lemma EndpointSettles(env: Env, w: World, zone: Id, iso: IsoNet, cl: CsCluster)
    requires Honest(env) && DistinctIps(w.edge.addresses) && SetUpEndpoint(env, w, zone, iso, cl).3.Nil?
    ensures var (w', iso', cl', _) := SetUpEndpoint(env, w, zone, iso, cl);
            && EndpointSettled(w'.edge, zone, iso', cl')
            && w'.registry == w.registry && cl'.uid == cl.uid
            && iso' == iso.(host := iso'.host, publicIp := iso'.publicIp, port := iso'.port, lbRule := iso'.lbRule)
  {
    if iso.routingMode == "" {
      AssociateSettles(env, w, zone, iso, cl);
      AssociatePublicIPAside(env, w, zone, iso, cl);
      var (w1, iso1, cl1, _) := AssociatePublicIP(env, w, zone, iso, cl);
      LbRuleSettles(env, w1, iso1, cl1);
    }
  }

  lemma RuleSettles(env: Env, w: World, iso: IsoNet, protocol: Protocol)
    requires Honest(env) && CreateFirewallRule(env, w, iso, protocol).1.Nil?
    ensures var e := CreateFirewallRule(env, w, iso, protocol).0.edge;
            && WideOpen(protocol) in RulesFor(e, iso)
            && (forall rule :: rule in RulesFor(w.edge, iso) ==> rule in RulesFor(e, iso))
            && e.addresses == w.edge.addresses && e.lbRules == w.edge.lbRules
            && (iso.routingMode != "" ==> e.egress == w.edge.egress)
  {
  }

  lemma {:induction false} RulesSettle(env: Env, w: World, iso: IsoNet, protocols: seq<Protocol>)
    requires Honest(env) && CreateFirewallRules(env, w, iso, protocols).1.Nil?
    ensures var e := CreateFirewallRules(env, w, iso, protocols).0.edge;
            && (forall p :: p in protocols ==> WideOpen(p) in RulesFor(e, iso))
            && (forall rule :: rule in RulesFor(w.edge, iso) ==> rule in RulesFor(e, iso))
            && e.addresses == w.edge.addresses && e.lbRules == w.edge.lbRules
            && (iso.routingMode != "" ==> e.egress == w.edge.egress)
    decreases |protocols|
  {
    if protocols != [] {
      RuleSettles(env, w, iso, protocols[0]);
      RulesSettle(env, CreateFirewallRule(env, w, iso, protocols[0]).0, iso, protocols[1..]);
    }
  }

  lemma FirewallSettles(env: Env, w: World, iso: IsoNet)
    requires Honest(env) && OpenFirewall(env, w, iso).2.Nil?
    ensures var (w', iso', _) := OpenFirewall(env, w, iso);
            && FirewallSettled(w'.registry, w'.edge, iso')
            && w'.registry == w.registry && iso' == iso.(firewallOpened := iso'.firewallOpened)
            && w'.edge.addresses == w.edge.addresses && w'.edge.lbRules == w.edge.lbRules
  {
    OpenFirewallAside(env, w, iso);
    if VpcId(iso.vpc) == 0 && iso.id in w.registry.networks && !w.registry.networks[iso.id].egressDefault {
      var (w2, open) := CheckFirewallRules(env, GetNetworkByID(env, w, iso.id).0, iso);
      if open.Reply? && !open.value {
        RulesSettle(env, w2, iso, PROTOCOLS);
        var e := CreateFirewallRules(env, w2, iso, PROTOCOLS).0.edge;
        forall p | p in PROTOCOLS ensures Opens(WideOpen(p), p) {}
        assert iso.routingMode == "" ==> AllOpen(RulesAt(e.egress, iso.id));
      }
    }
  }

  /** Resolving and tagging settle network and tags, and keep the addresses apart. */
  lemma TaggedSettles(env: Env, w: World, iso: IsoNet, uid: string)
    requires WellFormed(w.registry) && ResolveOrCreate(env, w, iso).2.Nil?
    requires var (w1, iso1, _) := ResolveOrCreate(env, w, iso); TagBoth(env, w1, iso1, uid).1.Nil?
    ensures var (w1, iso1, _) := ResolveOrCreate(env, w, iso);
            var w2 := TagBoth(env, w1, iso1, uid).0;
            && WellFormed(w2.registry) && NetworkSettled(w2.registry, iso1) && TagsSettled(w2.registry, iso1, uid)
            && (NameStable(w2.registry, iso1) <==> (MisledAt(env, w, iso) ==> NameStable(w.registry, iso)))
            && w2.edge == w.edge
  {
    var (w1, iso1, _) := ResolveOrCreate(env, w, iso);
    ResolvedSettles(env, w, iso);
    ResolveOrCreateGrown(env, w, iso);
    ResolveOrCreateAside(env, w, iso);
    TagBothSettles(env, w1, iso1, uid);
    TagBothReferences(env, w1, iso1, uid);
    TagBothKept(env, w1, iso1, uid);
    SameNames(w1.registry, TagBoth(env, w1, iso1, uid).0.registry, iso1, iso1);
  }

  lemma SetUpSettles(env: Env, w: World, zone: Id, iso: IsoNet, cl: CsCluster)
    requires Honest(env) && WellFormed(w.registry) && DistinctIps(w.edge.addresses)
    requires GetOrCreate(env, w, zone, iso, cl).3.Nil?
    ensures var (w', iso', cl', _) := GetOrCreate(env, w, zone, iso, cl);
            && Settled(w', zone, iso', cl')
            && (NameStable(w'.registry, iso') <==> (MisledAt(env, w, iso) ==> NameStable(w.registry, iso)))
  {
    var (w1, iso1, _) := ResolveOrCreate(env, w, iso);
    TaggedSettles(env, w, iso, cl.uid);
    var (w2, _) := TagBoth(env, w1, iso1, cl.uid);
    EndpointSettles(env, w2, zone, iso1, cl);
    var (w3, iso3, cl3, _) := SetUpEndpoint(env, w2, zone, iso1, cl);
    FirewallSettles(env, w3, iso3);
    var (w4, iso4, _) := OpenFirewall(env, w3, iso3);
    assert GetOrCreate(env, w, zone, iso, cl) == (w4, iso4, cl3, Nil);
    SameNames(w2.registry, w4.registry, iso1, iso4);
  }

  // ---- Main result ---------------------------------------------------------------------------

  /** A further set-up without failures succeeds and leaves the cloud, the isolated network and the cluster as they
      are. */
  ghost predicate Fixed(env: Env, w: World, zone: Id, iso: IsoNet, cl: CsCluster) {
    var (w', iso', cl', err) := GetOrCreate(env, w, zone, iso, cl);
    err.Nil? && Still(w') == Still(w) && iso' == iso && cl' == cl
  }

  /**
   After a set-up that succeeded, whatever failed on the way, a further one without failures changes nothing, exactly
   unless the lookup by name failed while the stored identifier led to a network other than the one of that name.
   */
  lemma SetUpIsFixedPoint(env: Env, w: World, zone: Id, iso: IsoNet, cl: CsCluster, again: Env)
    requires Honest(env) && WellFormed(w.registry) && DistinctIps(w.edge.addresses)
    requires GetOrCreate(env, w, zone, iso, cl).3.Nil?
    requires FaultFree(again)
    ensures var (w', iso', cl', _) := GetOrCreate(env, w, zone, iso, cl);
            Fixed(again, w', zone, iso', cl') <==> (MisledAt(env, w, iso) ==> NameStable(w.registry, iso))
  {
    SetUpSettles(env, w, zone, iso, cl);
    var (w', iso', cl', _) := GetOrCreate(env, w, zone, iso, cl);
    if NameStable(w'.registry, iso') {
      SettledIsFixed(again, w', zone, iso', cl');
    } else {
      ResolveAgain(again, w', iso');
      GetOrCreateIsTagged(again, w', zone, iso', cl');
    }
  }
}
