/**
 The client of pkg/cloud as it is written: methods that call CloudStack step by step and write through the objects they
 are passed. Each method is proved to do exactly what its specification function says.
 */
module CloudClient {
  import opened Faults
  import opened CloudApi
  import Tagging = TagSpec
  import Spec = IsoNetSpec

  class VpcObject {
    var id: Id
    var name: string
    var cidr: string
    var offering: string

    constructor (id: Id, name: string)
      ensures View() == Spec.Vpc(id, name, "", "")
    {
      this.id, this.name, this.cidr, this.offering := id, name, "", "";
    }

    function View(): Spec.Vpc
      reads this
    {
      Spec.Vpc(id, name, cidr, offering)
    }
  }

  function ViewOf(vpc: VpcObject?): Option<Spec.Vpc>
    reads vpc
  {
    if vpc == null then None else Some(vpc.View())
  }

  /** The network details passed to ResolveNetwork; its VPC is the very object of the isolated network. */
  class NetworkObject {
    var name: string
    var id: Id
    var gateway: string
    var netmask: string
    var routingMode: string
    var vpc: VpcObject?

    constructor (iso: IsolatedNetwork)
      ensures View() == Spec.NetworkOf(iso.View()) && vpc == iso.vpc
    {
      name, id, gateway, netmask := iso.name, iso.id, iso.gateway, iso.netmask;
      routingMode, vpc := iso.routingMode, iso.vpc;
    }

    function View(): Spec.Net
      reads this, vpc
    {
      Spec.Net(name, id, gateway, netmask, routingMode, ViewOf(vpc))
    }
  }

  class IsolatedNetwork {
    var name: string
    var id: Id
    var host: string
    var port: int
    var gateway: string
    var netmask: string
    var offering: string
    var vpc: VpcObject?
    var publicIp: Id
    var lbRule: Id
    var routingMode: string
    var firewallOpened: bool

    constructor (v: Spec.IsoNet, vpc: VpcObject?)
      requires v.vpc == ViewOf(vpc)
      ensures View() == v && this.vpc == vpc
    {
      this.name, this.id, this.host, this.port := v.name, v.id, v.host, v.port;
      this.gateway, this.netmask, this.offering, this.vpc := v.gateway, v.netmask, v.offering, vpc;
      this.publicIp, this.lbRule, this.routingMode := v.publicIp, v.lbRule, v.routingMode;
      this.firewallOpened := v.firewallOpened;
    }

    function View(): Spec.IsoNet
      reads this, vpc
    {
      Spec.IsoNet(name, id, host, port, gateway, netmask, offering, ViewOf(vpc), publicIp, lbRule, routingMode,
                  firewallOpened)
    }
  }

  class ClusterObject {
    const uid: string
    var host: string
    var port: int

    constructor (uid: string, host: string, port: int)
      ensures View() == Spec.CsCluster(uid, host, port)
    {
      this.uid, this.host, this.port := uid, host, port;
    }

    function View(): Spec.CsCluster
      reads this
    {
      Spec.CsCluster(uid, host, port)
    }
  }

  /** The count every disposal decision rests on. */
  method CountClusterTags(tags: Tags) returns (n: nat)
    ensures n == |Tagging.ClusterTags(tags)|
  {
    n := 0;
    var rest := tags.Keys;
    ghost var seen: set<TagKey> := {};
    while rest != {}
      invariant rest <= tags.Keys && seen == set key | key in tags.Keys - rest && key.ClusterTag?
      invariant n == |seen|
      decreases |rest|
    {
      var key :| key in rest;
      if key.ClusterTag? {
        n := n + 1;
        seen := seen + {key};
      }
      rest := rest - {key};
    }
    assert seen == Tagging.ClusterTags(tags);
  }

  /** Whether the tags say that a resource may be disposed of. */
  method TagsAllowDisposal(tags: Tags) returns (allow: bool)
    ensures allow == Tagging.AllowDisposal(tags)
  {
    var count := CountClusterTags(tags);
    allow := count == 0 && Tagging.Lookup(tags, CreatedTag) != "";
  }

  /** The wanted tags that a resource does not have, or has with another value. */
  method TagsToAdd(wanted: Tags, existing: Tags) returns (missing: Tags)
    ensures missing == Tagging.MissingTags(wanted, existing)
  {
    missing := map[];
    var rest := wanted.Keys;
    while rest != {}
      invariant rest <= wanted.Keys
      invariant missing == map key | key in wanted && key !in rest && (key !in existing || existing[key] != wanted[key])
                           :: wanted[key]
      decreases |rest|
    {
      var key :| key in rest;
      if key !in existing || existing[key] != wanted[key] {
        missing := missing[key := wanted[key]];
      }
      rest := rest - {key};
    }
  }

  ghost predicate OpenIn(rules: seq<FirewallRule>, p: Protocol) {
    exists rule :: rule in rules && Spec.Opens(rule, p)
  }

  lemma OpenInMore(rules: seq<FirewallRule>, rule: FirewallRule, p: Protocol)
    ensures OpenIn(rules + [rule], p) <==> OpenIn(rules, p) || Spec.Opens(rule, p)
  {
    assert rule in rules + [rule];
    if OpenIn(rules, p) {
      var other :| other in rules && Spec.Opens(other, p);
      assert other in rules + [rule];
    }
  }

  /** Whether egress rules open every protocol, by ticking off the protocols rule by rule. */
  method AllProtocolsOpen(rules: seq<FirewallRule>) returns (open: bool)
    ensures open == Spec.AllOpen(rules)
  {
    var found: map<Protocol, bool> := map[Tcp := false, Udp := false, Icmp := false];
    var i := 0;
    while i < |rules|
      invariant 0 <= i <= |rules|
      invariant found.Keys == {Tcp, Udp, Icmp}
      invariant forall p :: p in found ==> (found[p] <==> OpenIn(rules[..i], p))
    {
      var rule := rules[i];
      assert rules[..i + 1] == rules[..i] + [rule];
      forall p ensures OpenIn(rules[..i + 1], p) <==> OpenIn(rules[..i], p) || Spec.Opens(rule, p) {
        OpenInMore(rules[..i], rule, p);
      }
      if rule.protocol in found {
        if rule.protocol.Icmp? {
          if rule.icmpType == -1 && rule.icmpCode == -1 {
            found := found[rule.protocol := true];
          }
        } else if rule.startPort == 0 && rule.endPort == 0 {
          found := found[rule.protocol := true];
        }
      }
      i := i + 1;
    }
    assert rules[..i] == rules;
    open := found[Tcp] && found[Udp] && found[Icmp];
    assert forall p :: p in Spec.PROTOCOLS <==> p in found;
    assert Spec.AllOpen(rules) <==> forall p :: p in Spec.PROTOCOLS ==> OpenIn(rules, p);
  }

  /** The first address that is not taken. */
  method PickAddress(found: seq<Address>) returns (chosen: Option<Address>)
    ensures chosen == Spec.FirstFree(found)
  {
    var i := 0;
    while i < |found|
      invariant 0 <= i <= |found|
      invariant Spec.FirstFree(found) == Spec.FirstFree(found[i..])
    {
      if !found[i].taken { return Some(found[i]); }
      i := i + 1;
    }
    return None;
  }

  /** The first load balancer rule at a port. */
  method FindRule(rules: seq<LbRule>, port: int) returns (rule: Option<Id>)
    ensures rule == Spec.RuleAtPort(rules, port)
  {
    var i := 0;
    while i < |rules|
      invariant 0 <= i <= |rules|
      invariant Spec.RuleAtPort(rules, port) == Spec.RuleAtPort(rules[i..], port)
    {
      if rules[i].publicPort == port { return Some(rules[i].id); }
      i := i + 1;
    }
    return None;
  }

  class Client {
    const cs: CloudStack

    constructor (cs: CloudStack)
      ensures this.cs == cs
    {
      this.cs := cs;
    }

    // ---- Tags (tags.go) ----------------------------------------------------------------------

    method GetTags(r: Resource) returns (tags: Reply<Tags>)
      modifies cs
      ensures (cs.world, tags) == ListTags(cs.env, old(cs.world), r)
    {
      var reply := ListTags(cs.env, cs.world, r);
      cs.world, tags := reply.0, reply.1;
    }

    method IsCapcManaged(r: Resource) returns (managed: Reply<bool>)
      modifies cs
      ensures (cs.world, managed) == Tagging.IsCapcManaged(cs.env, old(cs.world), r)
    {
      var tags := GetTags(r);
      if tags.Failed? { return Failed(tags.text); }
      return Reply(CreatedTag in tags.value);
    }

    method AddTags(r: Resource, wanted: Tags) returns (err: GoError)
      modifies cs
      ensures (cs.world, err) == Tagging.AddTags(cs.env, old(cs.world), r, wanted)
    {
      var existing := GetTags(r);
      if existing.Failed? { return Error(existing.text); }
      var missing := TagsToAdd(wanted, existing.value);
      if missing == map[] { return Nil; }
      var created := CreateTags(cs.env, cs.world, r, missing);
      cs.world, err := created.0, created.1;
    }

    method AddClusterTag(r: Resource, uid: string) returns (err: GoError)
      modifies cs
      ensures (cs.world, err) == Tagging.AddClusterTag(cs.env, old(cs.world), r, uid)
    {
      var managed := IsCapcManaged(r);
      if managed.Failed? { return Error(managed.text); }
      if managed.value {
        err := AddTags(r, map[ClusterTag(uid) := "1"]);
        return;
      }
      return Nil;
    }

    method AddCreatedByCAPCTag(r: Resource) returns (err: GoError)
      modifies cs
      ensures (cs.world, err) == Tagging.AddCreatedTag(cs.env, old(cs.world), r)
    {
      err := AddTags(r, map[CreatedTag := "1"]);
    }

    method DeleteTags(r: Resource, key: TagKey, value: string) returns (err: GoError)
      modifies cs
      ensures (cs.world, err) == Tagging.DeleteTag(cs.env, old(cs.world), r, key, value)
    {
      var removal := RemoveTag(cs.env, cs.world, r, key, value);
      cs.world := removal.0;
      if removal.1.Error? {
        var tags := GetTags(r);
        if tags.Reply? && key in tags.value { return removal.1; }
      }
      return Nil;
    }

    method DeleteClusterTag(r: Resource, uid: string) returns (err: GoError)
      modifies cs
      ensures (cs.world, err) == Tagging.DeleteClusterTag(cs.env, old(cs.world), r, uid)
    {
      var managed := IsCapcManaged(r);
      if managed.Failed? { return Error(managed.text); }
      if managed.value {
        err := DeleteTags(r, ClusterTag(uid), "1");
        return;
      }
      return Nil;
    }

    method DoClusterTagsAllowDisposal(r: Resource) returns (allow: Reply<bool>)
      modifies cs
      ensures (cs.world, allow) == Tagging.DoClusterTagsAllowDisposal(cs.env, old(cs.world), r)
    {
      var tags := GetTags(r);
      if tags.Failed? { return Failed(tags.text); }
      var count := TagsAllowDisposal(tags.value);
      return Reply(count);
    }

    // ---- Networks and VPCs (network.go, vpc.go) ----------------------------------------------

    method FillNetwork(net: NetworkObject, id: Id, info: NetworkInfo)
      modifies net, net.vpc
      ensures net.View() == Spec.Filled(old(net.View()), id, info)
      ensures net.vpc == old(net.vpc) || (old(net.vpc) == null && fresh(net.vpc))
    {
      net.id, net.gateway, net.netmask, net.routingMode := id, info.gateway, info.netmask, info.routingMode;
      if info.vpc != 0 {
        if net.vpc == null {
          net.vpc := new VpcObject(0, "");
        }
        net.vpc.id, net.vpc.name := info.vpc, info.vpcName;
      }
    }

    method ResolveNetwork(net: NetworkObject) returns (err: GoError)
      modifies cs, net, net.vpc
      ensures (cs.world, net.View(), err) == Spec.ResolveNetwork(cs.env, old(cs.world), old(net.View()))
      ensures net.vpc == old(net.vpc) || (old(net.vpc) == null && fresh(net.vpc))
      ensures err.Error? ==> net.vpc == old(net.vpc)
    {
      var byName := GetNetworkByName(cs.env, cs.world, net.name);
      cs.world := byName.0;
      if byName.1.Reply? && byName.1.value.One? {
        FillNetwork(net, byName.1.value.id, byName.1.value.info);
        return Nil;
      }
      var byId := GetNetworkByID(cs.env, cs.world, net.id);
      cs.world := byId.0;
      if byId.1.Failed? { return Error(byId.1.text); }
      if byId.1.value.Several? { return Error(Other); }
      FillNetwork(net, byId.1.value.id, byId.1.value.info);
      net.name := byId.1.value.info.name;
      return Nil;
    }

    /** RemoveClusterTagFromNetwork and RemoveClusterTagFromVPC. */
    method RemoveClusterTag(r: Resource, uid: string) returns (err: GoError)
      modifies cs
      ensures (cs.world, err) == Tagging.RemoveClusterTag(cs.env, old(cs.world), r, uid)
    {
      var tags := GetTags(r);
      if tags.Failed? { return Error(tags.text); }
      var value := Tagging.Lookup(tags.value, ClusterTag(uid));
      if value != "" {
        err := DeleteTags(r, ClusterTag(uid), value);
        return;
      }
      return Nil;
    }

    /** DeleteNetworkIfNotInUse and DeleteVPCIfNotInUse. */
    method DeleteIfNotInUse(r: Resource) returns (err: GoError)
      modifies cs
      ensures (cs.world, err) == Spec.DeleteIfNotInUse(cs.env, old(cs.world), r)
    {
      var tags := GetTags(r);
      if tags.Failed? { return Error(tags.text); }
      var allow := TagsAllowDisposal(tags.value);
      if allow {
        var deletion := Delete(cs.env, cs.world, r);
        cs.world, err := deletion.0, deletion.1;
        return;
      }
      return Nil;
    }

    method ResolveVPC(vpc: VpcObject) returns (err: GoError)
      modifies cs, vpc
      ensures (cs.world, vpc.View(), err) == Spec.ResolveVpc(cs.env, old(cs.world), old(vpc.View()))
    {
      if vpc.id == 0 && vpc.name == "" { return Nil; }
      if vpc.id != 0 {
        var found := GetVpcByID(cs.env, cs.world, vpc.id);
        cs.world := found.0;
        if found.1.Failed? { return Error(found.1.text); }
        vpc.name, vpc.cidr, vpc.offering := found.1.value.name, found.1.value.cidr, found.1.value.offering;
        return Nil;
      }
      var found := GetVpcByName(cs.env, cs.world, vpc.name);
      cs.world := found.0;
      if found.1.Failed? { return Error(found.1.text); }
      vpc.id, vpc.cidr, vpc.offering := found.1.value.0, found.1.value.1.cidr, found.1.value.1.offering;
      return Nil;
    }

    method CreateVPC(vpc: VpcObject) returns (err: GoError)
      modifies cs, vpc
      ensures (cs.world, vpc.View(), err) == Spec.CreateVPC(cs.env, old(cs.world), old(vpc.View()))
    {
      if vpc.name == "" { return Error(Other); }
      var offeringName := Spec.VPC_OFFERING;
      if vpc.offering != "" { offeringName := vpc.offering; }
      var offering := GetVpcOffering(cs.env, cs.world, offeringName);
      cs.world := offering.0;
      if offering.1.Failed? { return Error(offering.1.text); }
      var id := cs.world.registry.nextId;
      var created := CreateVpc(cs.env, cs.world, VpcInfo(vpc.name, vpc.cidr, offeringName));
      cs.world := created.0;
      if created.1.Error? { return created.1; }
      vpc.id := id;
      err := AddCreatedByCAPCTag(Resource(VpcKind, id));
    }

    // ---- Set-up (isolated_network.go) --------------------------------------------------------

    /** The VPC of the network to be created: found, or made when it cannot be found. */
    method ResolveOrCreateVPC(iso: IsolatedNetwork) returns (err: GoError)
      modifies cs, iso.vpc
      ensures (cs.world, iso.View(), err) == Spec.PrepareVpc(cs.env, old(cs.world), old(iso.View()))
    {
      if iso.vpc != null && (iso.vpc.name != "" || iso.vpc.id != 0) {
        err := ResolveVPC(iso.vpc);
        if err.Error? {
          err := CreateVPC(iso.vpc);
        }
        return;
      }
      return Nil;
    }

    method CreateIsolatedNetwork(iso: IsolatedNetwork) returns (err: GoError)
      modifies cs, iso, iso.vpc
      ensures (cs.world, iso.View(), err) == Spec.CreateIsolatedNetwork(cs.env, old(cs.world), old(iso.View()))
      ensures iso.vpc == old(iso.vpc)
    {
      var offeringName := Spec.OfferingName(iso.View());
      err := ResolveOrCreateVPC(iso);
      if err.Error? { return; }
      var offering := GetNetworkOffering(cs.env, cs.world, offeringName);
      cs.world := offering.0;
      if offering.1.Failed? { return Error(offering.1.text); }
      err := MakeNetwork(iso, offering.1.value);
    }

    /** The last part of CreateIsolatedNetwork: make the network, note what came of it, tag it as made by CAPC. */
    method MakeNetwork(iso: IsolatedNetwork, offering: Offering) returns (err: GoError)
      modifies cs, iso
      ensures (cs.world, iso.View(), err) == Spec.MakeNetwork(cs.env, old(cs.world), old(iso.View()), offering)
      ensures iso.vpc == old(iso.vpc)
    {
      var vpcId := if iso.vpc != null then iso.vpc.id else 0;
      var id := cs.world.registry.nextId;
      var info := NetworkFor(cs.world.registry, iso.name, offering, iso.gateway, iso.netmask, vpcId);
      var created := CreateNetwork(cs.env, cs.world, info);
      cs.world := created.0;
      if created.1.Error? { return created.1; }
      iso.id, iso.gateway, iso.netmask, iso.routingMode := id, info.gateway, info.netmask, info.routingMode;
      err := AddCreatedByCAPCTag(Resource(NetworkKind, id));
    }

    method GetPublicIP(zone: Id, ip: string) returns (address: Reply<Address>)
      modifies cs
      ensures (cs.world, address) == Spec.GetPublicIP(cs.env, old(cs.world), zone, ip)
    {
      var listing := ListAddresses(cs.env, cs.world, zone, ip);
      cs.world := listing.0;
      if listing.1.Failed? { return Failed(listing.1.text); }
      var found := listing.1.value;
      if ip != "" && |found| == 1 { return Reply(found[0]); }
      var chosen := PickAddress(found);
      if chosen.None? { return Failed(Other); }
      return Reply(chosen.value);
    }

    method AssociatePublicIPAddress(zone: Id, iso: IsolatedNetwork, cl: ClusterObject) returns (err: GoError)
      modifies cs, iso, cl
      ensures (cs.world, iso.View(), cl.View(), err)
           == Spec.AssociatePublicIP(cs.env, old(cs.world), zone, old(iso.View()), old(cl.View()))
      ensures iso.vpc == old(iso.vpc)
    {
      var chosen := GetPublicIP(zone, cl.host);
      if chosen.Failed? { return Error(chosen.text); }
      var address := chosen.value;
      iso.host := address.ip;
      cl.host := address.ip;
      iso.publicIp := address.id;
      if address.network == iso.id || (iso.vpc != null && address.vpc == iso.vpc.id) { return Nil; }
      var vpcId := if iso.vpc != null then iso.vpc.id else 0;
      var associated := AssociateAddress(cs.env, cs.world, address.ip, iso.id, vpcId);
      cs.world := associated.0;
      if associated.1.Error? { return associated.1; }
      err := AddClusterTag(Resource(AddressKind, address.id), cl.uid);
      if err.Error? { return; }
      err := AddCreatedByCAPCTag(Resource(AddressKind, iso.publicIp));
    }

    method ResolveLoadBalancerRuleDetails(iso: IsolatedNetwork) returns (err: GoError)
      modifies cs, iso
      ensures iso.vpc == old(iso.vpc)
      ensures var (w, rule) := Spec.ResolveLbRule(cs.env, old(cs.world), old(iso.View()));
              && cs.world == w
              && (rule.Reply? ==> err.Nil? && iso.View() == old(iso.View()).(lbRule := rule.value))
              && (rule.Failed? ==> err == Error(rule.text) && iso.View() == old(iso.View()))
    {
      var listing := ListLbRules(cs.env, cs.world, iso.publicIp);
      cs.world := listing.0;
      if listing.1.Failed? { return Error(listing.1.text); }
      var rule := FindRule(listing.1.value, iso.port);
      if rule.None? { return Error(NoLbRule); }
      iso.lbRule := rule.value;
      return Nil;
    }

    /** The port of the cluster, or else of the isolated network, or else the default, for both of them. */
    method AgreePort(iso: IsolatedNetwork, cl: ClusterObject)
      modifies iso`port, cl`port
      ensures var port := Spec.AgreedPort(old(iso.View()), old(cl.View())); iso.port == cl.port == port
    {
      if cl.port != 0 {
        iso.port := cl.port;
      } else if iso.port != 0 {
        cl.port := iso.port;
      } else {
        cl.port, iso.port := Spec.DEFAULT_API_PORT, Spec.DEFAULT_API_PORT;
      }
    }

    method GetOrCreateLoadBalancerRule(iso: IsolatedNetwork, cl: ClusterObject) returns (err: GoError)
      modifies cs, iso, cl
      ensures (cs.world, iso.View(), cl.View(), err)
           == Spec.GetOrCreateLbRule(cs.env, old(cs.world), old(iso.View()), old(cl.View()))
      ensures iso.vpc == old(iso.vpc)
    {
      AgreePort(iso, cl);
      err := ResolveLoadBalancerRuleDetails(iso);
      if err != Error(NoLbRule) { return; }
      var id := cs.world.edge.nextRule;
      var created := CreateLbRule(cs.env, cs.world, iso.publicIp, cl.port);
      cs.world := created.0;
      if created.1.Error? { return created.1; }
      iso.lbRule := id;
      return Nil;
    }

    method CheckFirewallRules(iso: IsolatedNetwork) returns (open: Reply<bool>)
      modifies cs
      ensures (cs.world, open) == Spec.CheckFirewallRules(cs.env, old(cs.world), iso.View())
    {
      var listing := ListEgressRules(cs.env, cs.world, iso.id);
      cs.world := listing.0;
      if listing.1.Failed? { return Failed(listing.1.text); }
      var all := AllProtocolsOpen(listing.1.value);
      return Reply(all);
    }

    method CreateFirewallRule(iso: IsolatedNetwork, protocol: Protocol) returns (err: GoError)
      modifies cs
      ensures (cs.world, err) == Spec.CreateFirewallRule(cs.env, old(cs.world), iso.View(), protocol)
    {
      if iso.routingMode != "" {
        var created := CreateRoutingRule(cs.env, cs.world, iso.id, Spec.WideOpen(protocol));
        cs.world, err := created.0, created.1;
      } else {
        var created := CreateEgressRule(cs.env, cs.world, iso.id, Spec.WideOpen(protocol));
        cs.world, err := created.0, created.1;
      }
      if err == Error(Duplicate) { return Nil; }
    }

    method CreateFirewallRules(iso: IsolatedNetwork, protocols: seq<Protocol>) returns (err: GoError)
      modifies cs
      ensures (cs.world, err) == Spec.CreateFirewallRules(cs.env, old(cs.world), iso.View(), protocols)
    {
      ghost var w0, view := cs.world, iso.View();
      var i := 0;
      while i < |protocols|
        invariant 0 <= i <= |protocols| && iso.View() == view
        invariant Spec.CreateFirewallRules(cs.env, w0, view, protocols)
               == Spec.CreateFirewallRules(cs.env, cs.world, view, protocols[i..])
      {
        err := CreateFirewallRule(iso, protocols[i]);
        if err.Error? { return; }
        assert protocols[i..][1..] == protocols[i + 1..];
        i := i + 1;
      }
      return Nil;
    }

    method OpenFirewallRules(iso: IsolatedNetwork) returns (err: GoError)
      modifies cs, iso
      ensures (cs.world, iso.View(), err) == Spec.OpenFirewall(cs.env, old(cs.world), old(iso.View()))
      ensures iso.vpc == old(iso.vpc)
    {
      if iso.vpc != null && iso.vpc.id != 0 { return Nil; }
      var network := GetNetworkByID(cs.env, cs.world, iso.id);
      cs.world := network.0;
      if network.1.Failed? { return Error(network.1.text); }
      if network.1.value.Several? { return Error(Other); }
      if network.1.value.info.egressDefault {
        iso.firewallOpened := true;
        return Nil;
      }
      var open := CheckFirewallRules(iso);
      if open.Failed? { return Error(open.text); }
      if open.value {
        iso.firewallOpened := true;
        return Nil;
      }
      iso.firewallOpened := false;
      ghost var before, w := iso.View(), cs.world;
      err := CreateFirewallRules(iso, Spec.PROTOCOLS);
      SameRules(cs.env, w, old(iso.View()), before, Spec.PROTOCOLS);
      if err.Error? { return; }
      iso.firewallOpened := true;
    }

    /** The first half of set-up. The VPC of the details looked up is, or becomes, the one of the isolated network. */
    method ResolveOrCreateNetwork(iso: IsolatedNetwork) returns (err: GoError)
      modifies cs, iso, iso.vpc
      ensures (cs.world, iso.View(), err) == Spec.ResolveOrCreate(cs.env, old(cs.world), old(iso.View()))
      ensures iso.vpc == old(iso.vpc) || (old(iso.vpc) == null && fresh(iso.vpc))
    {
      var net := new NetworkObject(iso);
      err := ResolveNetwork(net);
      if err.Error? {
        err := CreateIsolatedNetwork(iso);
      } else {
        iso.id, iso.gateway, iso.netmask, iso.routingMode := net.id, net.gateway, net.netmask, net.routingMode;
        if net.vpc != null && net.vpc.id != 0 { iso.vpc := net.vpc; }
      }
    }

    /** Public address and load balancer rule, for networks that are not routed. */
    method SetUpEndpoint(zone: Id, iso: IsolatedNetwork, cl: ClusterObject) returns (err: GoError)
      modifies cs, iso, cl
      ensures (cs.world, iso.View(), cl.View(), err)
           == Spec.SetUpEndpoint(cs.env, old(cs.world), zone, old(iso.View()), old(cl.View()))
      ensures iso.vpc == old(iso.vpc)
    {
      if iso.routingMode == "" {
        err := AssociatePublicIPAddress(zone, iso, cl);
        if err.Error? { return; }
        err := GetOrCreateLoadBalancerRule(iso, cl);
        return;
      }
      return Nil;
    }

    method GetOrCreateIsolatedNetwork(zone: Id, iso: IsolatedNetwork, cl: ClusterObject) returns (err: GoError)
      modifies cs, iso, iso.vpc, cl
      ensures (cs.world, iso.View(), cl.View(), err)
           == Spec.GetOrCreate(cs.env, old(cs.world), zone, old(iso.View()), old(cl.View()))
    {
      err := ResolveOrCreateNetwork(iso);
      if err.Error? { return; }
      err := AddClusterTag(Resource(NetworkKind, iso.id), cl.uid);
      if err.Error? { return; }
      if iso.vpc != null && iso.vpc.id != 0 {
        err := AddClusterTag(Resource(VpcKind, iso.vpc.id), cl.uid);
        if err.Error? { return; }
      }
      err := SetUpEndpoint(zone, iso, cl);
      if err.Error? { return; }
      err := OpenFirewallRules(iso);
    }

    // ---- Disposal ----------------------------------------------------------------------------

    method DisassociatePublicIPAddress(iso: IsolatedNetwork) returns (err: GoError)
      modifies cs
      ensures (cs.world, err) == Spec.DisassociatePublicIP(cs.env, old(cs.world), iso.View())
    {
      err := DeleteTags(Resource(AddressKind, iso.publicIp), CreatedTag, "1");
      if err.Error? { return; }
      var disassociated := DisassociateAddress(cs.env, cs.world, iso.publicIp);
      cs.world, err := disassociated.0, disassociated.1;
    }

    method DisassociatePublicIPAddressIfNotInUse(iso: IsolatedNetwork) returns (err: GoError)
      modifies cs
      ensures (cs.world, err) == Spec.DisassociateIfNotInUse(cs.env, old(cs.world), iso.View())
    {
      var allowed := DoClusterTagsAllowDisposal(Resource(AddressKind, iso.publicIp));
      if allowed.Failed? { return Error(allowed.text); }
      var address := GetAddressByID(cs.env, cs.world, iso.publicIp);
      cs.world := address.0;
      if address.1.Failed? { return Error(address.1.text); }
      if address.1.value.sourceNat { return Nil; }
      if allowed.value {
        err := DisassociatePublicIPAddress(iso);
        return;
      }
      return Nil;
    }

    /** The part of a disposal that is about the public address. */
    method ReleaseAddress(iso: IsolatedNetwork, uid: string) returns (err: GoError)
      modifies cs
      ensures (cs.world, err) == Spec.ReleaseAddress(cs.env, old(cs.world), iso.View(), uid)
    {
      if iso.publicIp != 0 {
        err := DeleteClusterTag(Resource(AddressKind, iso.publicIp), uid);
        if err.Error? { return; }
        err := DisassociatePublicIPAddressIfNotInUse(iso);
        return;
      }
      return Nil;
    }

    /** The part of a disposal that is about the network, and the one about the VPC. */
    method Release(r: Resource, uid: string) returns (err: GoError)
      modifies cs
      ensures (cs.world, err) == Spec.Release(cs.env, old(cs.world), r, uid)
    {
      err := RemoveClusterTag(r, uid);
      if err.Error? { return; }
      err := DeleteIfNotInUse(r);
      if err.Error? && err.text != NoMatch { return; }
      return Nil;
    }

    method DisposeIsoNetResources(iso: IsolatedNetwork, cl: ClusterObject) returns (err: GoError)
      modifies cs
      ensures (cs.world, err) == Spec.Dispose(cs.env, old(cs.world), iso.View(), cl.uid)
    {
      err := ReleaseAddress(iso, cl.uid);
      if err.Error? { return; }
      err := Release(Resource(NetworkKind, iso.id), cl.uid);
      if err.Error? { return; }
      if iso.vpc != null && iso.vpc.id != 0 {
        err := Release(Resource(VpcKind, iso.vpc.id), cl.uid);
      }
    }
  }

  /** Firewall rules depend on the network and its routing mode alone. */
  lemma {:induction false} SameRules(env: Env, w: World, iso: Spec.IsoNet, iso': Spec.IsoNet, protocols: seq<Protocol>)
    requires iso.id == iso'.id && iso.routingMode == iso'.routingMode
    ensures Spec.CreateFirewallRules(env, w, iso, protocols) == Spec.CreateFirewallRules(env, w, iso', protocols)
    decreases |protocols|
  {
    if protocols != [] {
      SameRules(env, Spec.CreateFirewallRule(env, w, iso, protocols[0]).0, iso, iso', protocols[1..]);
    }
  }
}
