/** The endpoint a set-up gives a cluster: which address, which port, which rules; and when a set-up succeeds. */
module Endpoint {
  import opened Faults
  import opened CloudApi
  import opened TagSpec
  import opened IsoNetSpec
  import opened TagEffects
  import opened FixedPoint
  import Conservation

  // ---- The address ---------------------------------------------------------------------------

  /** An address of the zone that may be chosen: the one asked for, or any that is not taken if none is. */
  predicate Eligible(a: Address, zone: Id, host: string) {
    a.zone == zone && if host == "" then !a.taken else a.ip == host
  }

  lemma {:induction false} FirstFreeIs(addresses: seq<Address>)
    ensures match FirstFree(addresses)
            case Some(a) => a in addresses && !a.taken
            case None => forall a :: a in addresses ==> a.taken
  {
    if addresses != [] { FirstFreeIs(addresses[1..]); }
  }

  /** An address is chosen exactly if there is an eligible one, and then it is one. */
  lemma ChosenIsEligible(addresses: seq<Address>, zone: Id, host: string)
    requires DistinctIps(addresses)
    ensures match ChooseAddress(Listed(addresses, zone, host), host)
            case Some(a) => a in addresses && Eligible(a, zone, host)
            case None => forall a :: a in addresses ==> !Eligible(a, zone, host)
  {
    var found := Listed(addresses, zone, host);
    ListedFrom(addresses, zone, host);
    FirstFreeIs(found);
    if found != [] { assert found[0] in found; }
    forall a | a in addresses && host != "" && Eligible(a, zone, host) ensures found == [a] {
      var i :| 0 <= i < |addresses| && addresses[i] == a;
      ListedAlone(addresses, zone, i);
    }
  }

  /** The address at this place was eligible and is now the object's. */
  ghost predicate IsAddress(e: Edge, i: nat, zone: Id, host: string, iso: IsoNet) {
    && i < |e.addresses| && Eligible(e.addresses[i], zone, host)
    && e.addresses[i].ip == iso.host && e.addresses[i].id == iso.publicIp
  }

  /** Only the object's own address changes, to being taken by its VPC or else its network, and only if it was eligible;
      only the tags under its identifier do. */
  ghost predicate AddressesTouched(e: Edge, e': Edge, zone: Id, host: string, iso: IsoNet) {
    && |e'.addresses| == |e.addresses|
    && (forall i :: 0 <= i < |e.addresses| && e'.addresses[i] != e.addresses[i] ==>
          IsAddress(e, i, zone, host, iso) && TakenBy(e.addresses[i], e'.addresses[i], iso))
    && e'.addressTags - {iso.publicIp} == e.addressTags - {iso.publicIp}
    && e' == e.(addresses := e'.addresses, addressTags := e'.addressTags)
  }

  predicate TakenBy(a: Address, a': Address, iso: IsoNet) {
    a' == if VpcId(iso.vpc) != 0 then a.(taken := true, vpc := VpcId(iso.vpc)) else a.(taken := true, network := iso.id)
  }

  lemma AssociatesOne(addresses: seq<Address>, i: nat, network: Id, vpc: Id)
    requires DistinctIps(addresses) && i < |addresses|
    ensures Associate(addresses, addresses[i].ip, network, vpc) == addresses[i := Associated(addresses[i], network, vpc)]
  {
  }

  /** Only the tags of this address differ. */
  ghost predicate TagsTouched(e: Edge, e': Edge, id: Id) {
    && e' == e.(addressTags := e'.addressTags)
    && e'.addressTags - {id} == e.addressTags - {id}
  }

  lemma TaggingTouches(env: Env, w: World, id: Id, uid: string)
    ensures var (w1, _) := AddClusterTag(env, w, AddressTag(id), uid);
            && TagsTouched(w.edge, w1.edge, id)
            && TagsTouched(w.edge, AddCreatedTag(env, w1, AddressTag(id)).0.edge, id)
  {
    AddClusterTagEffect(env, w, AddressTag(id), uid);
    AddTagsEffect(env, AddClusterTag(env, w, AddressTag(id), uid).0, AddressTag(id), map[CreatedTag := "1"]);
  }

  /** What an association, however far it gets, does to the addresses and their tags. */
  lemma AssociationTouches(env: Env, w: World, zone: Id, iso: IsoNet, cl: CsCluster)
    requires DistinctIps(w.edge.addresses)
    ensures var (w', iso', _, _) := AssociatePublicIP(env, w, zone, iso, cl);
            AddressesTouched(w.edge, w'.edge, zone, cl.host, iso')
  {
    var (w1, chosen) := GetPublicIP(env, w, zone, cl.host);
    if chosen.Reply? {
      var a := chosen.value;
      var iso1 := iso.(host := a.ip, publicIp := a.id);
      ChosenIsEligible(w.edge.addresses, zone, cl.host);
      var i := ChosenAlone(w.edge.addresses, zone, cl.host);
      AssociatesOne(w.edge.addresses, i, iso.id, VpcId(iso.vpc));
      var w2 := AssociateAddress(env, w1, a.ip, iso.id, VpcId(iso.vpc)).0;
      TaggingTouches(env, w2, a.id, cl.uid);
      assert IsAddress(w.edge, i, zone, cl.host, iso1);
      OneTouched(w.edge, w2.edge, AssociatePublicIP(env, w, zone, iso, cl).0.edge, zone, cl.host, iso1, i);
    }
  }

  lemma OneTouched(e: Edge, e1: Edge, e2: Edge, zone: Id, host: string, iso: IsoNet, i: nat)
    requires IsAddress(e, i, zone, host, iso)
    requires e2 == e || TagsTouched(e1, e2, iso.publicIp)
    requires e1 == e.(addresses := e1.addresses)
    requires e1.addresses == e.addresses
             || e1.addresses == e.addresses[i := Associated(e.addresses[i], iso.id, VpcId(iso.vpc))]
    ensures AddressesTouched(e, e2, zone, host, iso)
  {
  }

  /** A successful association is of an eligible address, and both objects name it. */
  lemma AssociationChooses(env: Env, w: World, zone: Id, iso: IsoNet, cl: CsCluster) returns (i: nat)
    requires DistinctIps(w.edge.addresses) && AssociatePublicIP(env, w, zone, iso, cl).3.Nil?
    ensures var (_, iso', cl', _) := AssociatePublicIP(env, w, zone, iso, cl);
            && cl'.host == iso'.host && (cl.host != "" ==> cl'.host == cl.host)
            && IsAddress(w.edge, i, zone, cl.host, iso')
  {
    ChosenIsEligible(w.edge.addresses, zone, cl.host);
    i := ChosenAlone(w.edge.addresses, zone, cl.host);
  }

  // ---- The port and its rule -----------------------------------------------------------------

  lemma {:induction false} RuleAtPortIs(rules: seq<LbRule>, port: int)
    ensures match RuleAtPort(rules, port)
            case Some(id) => exists rule :: rule in rules && rule.publicPort == port && rule.id == id
            case None => forall rule :: rule in rules ==> rule.publicPort != port
  {
    if rules != [] {
      RuleAtPortIs(rules[1..], port);
      assert rules[0] in rules;
      assert forall rule :: rule in rules[1..] ==> rule in rules;
    }
  }

  lemma {:induction false} RulesOfIs(rules: seq<LbRule>, address: Id)
    ensures forall rule :: rule in RulesOf(rules, address) <==> rule in rules && rule.address == address
  {
    if rules != [] { RulesOfIs(rules[1..], address); }
  }

  /** Traffic to this port of this address has a rule. */
  ghost predicate Routed(rules: seq<LbRule>, address: Id, port: int) {
    exists rule :: rule in rules && rule.address == address && rule.publicPort == port
  }

  /** What the agreement on the port, however far it gets, does to the two objects and the rules. */
  lemma RuleIsAdded(env: Env, w: World, iso: IsoNet, cl: CsCluster)
    ensures var (w', iso', cl', err) := GetOrCreateLbRule(env, w, iso, cl);
            && iso' == iso.(port := iso'.port, lbRule := iso'.lbRule) && iso'.port == cl'.port == AgreedPort(iso, cl)
            && w'.edge == w.edge.(lbRules := w'.edge.lbRules, nextRule := w'.edge.nextRule)
            && RulesAdded(w.edge, w'.edge, iso')
            && (Honest(env) && w'.edge.lbRules != w.edge.lbRules ==>
                  RuleAtPort(RulesOf(w.edge.lbRules, iso.publicIp), iso'.port).None?)
            && (err.Nil? ==>
                  || RuleAtPort(RulesOf(w.edge.lbRules, iso.publicIp), iso'.port) == Some(iso'.lbRule)
                  || w'.edge.lbRules == w.edge.lbRules + [LbRule(iso'.lbRule, iso.publicIp, iso'.port)])
  {
  }

  predicate RulesAdded(e: Edge, e': Edge, iso: IsoNet) {
    e'.lbRules == e.lbRules || e'.lbRules == e.lbRules + [LbRule(e.nextRule, iso.publicIp, iso.port)]
  }

  lemma RuleIsFound(rules: seq<LbRule>, address: Id, port: int)
    ensures match RuleAtPort(RulesOf(rules, address), port)
            case Some(id) => LbRule(id, address, port) in rules
            case None => !Routed(rules, address, port)
  {
    var found := RulesOf(rules, address);
    RulesOfIs(rules, address);
    RuleAtPortIs(found, port);
    if RuleAtPort(found, port).Some? {
      var rule :| rule in found && rule.publicPort == port && rule.id == RuleAtPort(found, port).value;
      assert rule == LbRule(rule.id, address, port);
    }
  }

  /**
   The port is the cluster's if it has one, else the isolated network's, else 6443, and afterwards both have it. Success
   means that the recorded rule routes it; a rule is added only if none did, and none is changed or removed.
   */
  lemma PortIsAgreed(env: Env, w: World, iso: IsoNet, cl: CsCluster)
    ensures var (w', iso', cl', err) := GetOrCreateLbRule(env, w, iso, cl);
            && iso'.port == cl'.port
            && (cl.port != 0 ==> cl'.port == cl.port)
            && (cl.port == 0 && iso.port != 0 ==> cl'.port == iso.port)
            && (cl.port == 0 && iso.port == 0 ==> cl'.port == 6443)
            && RulesAdded(w.edge, w'.edge, iso')
            && (Honest(env) && w'.edge.lbRules != w.edge.lbRules ==> !Routed(w.edge.lbRules, iso.publicIp, cl'.port))
            && (err.Nil? ==> LbRule(iso'.lbRule, iso.publicIp, cl'.port) in w'.edge.lbRules)
  {
    RuleIsAdded(env, w, iso, cl);
    RuleIsFound(w.edge.lbRules, iso.publicIp, AgreedPort(iso, cl));
  }

  // ---- The firewall --------------------------------------------------------------------------

  /** All ports of TCP and UDP and all types of ICMP. */
  ghost predicate LetsAllOut(rules: seq<FirewallRule>) {
    && (exists rule :: rule in rules && rule.protocol == Tcp && rule.startPort == 0 == rule.endPort)
    && (exists rule :: rule in rules && rule.protocol == Udp && rule.startPort == 0 == rule.endPort)
    && (exists rule :: rule in rules && rule.protocol == Icmp && rule.icmpType == -1 == rule.icmpCode)
  }

  /** Rules are added to this network alone, and none is removed. */
  ghost predicate RulesTouched(rules: map<Id, seq<FirewallRule>>, rules': map<Id, seq<FirewallRule>>, network: Id) {
    && (forall n :: n != network ==> RulesAt(rules', n) == RulesAt(rules, n))
    && RulesAt(rules, network) <= RulesAt(rules', network)
  }

  lemma RuleTouches(env: Env, w: World, iso: IsoNet, protocol: Protocol)
    ensures var e := CreateFirewallRule(env, w, iso, protocol).0.edge;
            && e == w.edge.(egress := e.egress, routing := e.routing)
            && RulesTouched(w.edge.egress, e.egress, iso.id) && RulesTouched(w.edge.routing, e.routing, iso.id)
            && (if iso.routingMode != "" then e.egress == w.edge.egress else e.routing == w.edge.routing)
  {
  }

  lemma {:induction false} FirewallTouches(env: Env, w: World, iso: IsoNet, protocols: seq<Protocol>)
    ensures var e := CreateFirewallRules(env, w, iso, protocols).0.edge;
            && e == w.edge.(egress := e.egress, routing := e.routing)
            && RulesTouched(w.edge.egress, e.egress, iso.id) && RulesTouched(w.edge.routing, e.routing, iso.id)
            && (if iso.routingMode != "" then e.egress == w.edge.egress else e.routing == w.edge.routing)
    decreases |protocols|
  {
    if protocols != [] {
      RuleTouches(env, w, iso, protocols[0]);
      FirewallTouches(env, CreateFirewallRule(env, w, iso, protocols[0]).0, iso, protocols[1..]);
    }
  }

  lemma OpenMeansAll(rules: seq<FirewallRule>)
    ensures AllOpen(rules) ==> LetsAllOut(rules)
  {
    assert Tcp == PROTOCOLS[0] && Udp == PROTOCOLS[1] && Icmp == PROTOCOLS[2];
    if AllOpen(rules) {
      assert Tcp in PROTOCOLS && Udp in PROTOCOLS && Icmp in PROTOCOLS;
    }
  }

  lemma WideOpenMeansAll(rules: seq<FirewallRule>)
    requires forall p :: p in PROTOCOLS ==> WideOpen(p) in rules
    ensures LetsAllOut(rules)
  {
    forall p | p in PROTOCOLS ensures Opens(WideOpen(p), p) {}
    OpenMeansAll(rules);
  }

  predicate NeedsNoRules(g: Registry, iso: IsoNet) {
    VpcId(iso.vpc) != 0 || (iso.id in g.networks && g.networks[iso.id].egressDefault)
  }

  /**
   In a VPC, or where the network lets everything out by itself, no rule is made. Otherwise success means that the rules
   of the network let everything out: those of its egress firewall or, if it is routed, possibly its routing rules.
   */
  lemma FirewallIsOpened(env: Env, w: World, iso: IsoNet)
    ensures var (w', _, err) := OpenFirewall(env, w, iso);
            && RulesTouched(w.edge.egress, w'.edge.egress, iso.id)
            && RulesTouched(w.edge.routing, w'.edge.routing, iso.id)
            && w'.edge == w.edge.(egress := w'.edge.egress, routing := w'.edge.routing)
            && (NeedsNoRules(w.registry, iso) ==> w'.edge == w.edge)
            && (Honest(env) && err.Nil? && VpcId(iso.vpc) == 0 ==>
                  && iso.id in w.registry.networks
                  && (|| w.registry.networks[iso.id].egressDefault
                      || LetsAllOut(RulesAt(w'.edge.egress, iso.id))
                      || (iso.routingMode != "" && LetsAllOut(RulesAt(w'.edge.routing, iso.id)))))
  {
    var (w1, network) := GetNetworkByID(env, w, iso.id);
    var (w2, open) := CheckFirewallRules(env, w1, iso);
    FirewallTouches(env, w2, iso, PROTOCOLS);
    var (w3, err) := CreateFirewallRules(env, w2, iso, PROTOCOLS);
    OpenMeansAll(RulesAt(w.edge.egress, iso.id));
    if Honest(env) && err.Nil? {
      RulesSettle(env, w2, iso, PROTOCOLS);
      WideOpenMeansAll(RulesFor(w3.edge, iso));
    }
  }

  // ---- The whole set-up ----------------------------------------------------------------------

  /** What a set-up, however far it gets, does to addresses, load balancer rules and firewalls: nothing but to the one
      address, network and port it ends with, and only to the firewall of a routed network. */
  ghost predicate EdgeTouched(e: Edge, e': Edge, zone: Id, host: string, iso: IsoNet) {
    && AddressesTouched(e, e.(addresses := e'.addresses, addressTags := e'.addressTags), zone, host, iso)
    && RulesAdded(e, e', iso)
    && RulesTouched(e.egress, e'.egress, iso.id) && RulesTouched(e.routing, e'.routing, iso.id)
    && (iso.routingMode != "" ==> e' == e.(egress := e'.egress, routing := e'.routing))
  }

  lemma BothTouch(e: Edge, e1: Edge, e2: Edge, zone: Id, host: string, iso: IsoNet, iso': IsoNet)
    requires AddressesTouched(e, e1, zone, host, iso)
    requires iso' == iso.(port := iso'.port, lbRule := iso'.lbRule) && iso.routingMode == ""
    requires e2 == e1.(lbRules := e2.lbRules, nextRule := e2.nextRule) && RulesAdded(e1, e2, iso')
    ensures EdgeTouched(e, e2, zone, host, iso')
  {
    var a := e.(addresses := e2.addresses, addressTags := e2.addressTags);
    assert a == e1;
    forall i | 0 <= i < |e.addresses| && a.addresses[i] != e.addresses[i]
      ensures IsAddress(e, i, zone, host, iso') && TakenBy(e.addresses[i], a.addresses[i], iso')
    {
      assert IsAddress(e, i, zone, host, iso) && TakenBy(e.addresses[i], e1.addresses[i], iso);
    }
  }

  lemma AssociationKeeps(env: Env, w: World, zone: Id, iso: IsoNet, cl: CsCluster)
    ensures var iso' := AssociatePublicIP(env, w, zone, iso, cl).1;
            iso' == iso.(host := iso'.host, publicIp := iso'.publicIp)
  {
  }

  lemma EndpointTouches(env: Env, w: World, zone: Id, iso: IsoNet, cl: CsCluster)
    requires DistinctIps(w.edge.addresses)
    ensures var (w', iso', _, _) := SetUpEndpoint(env, w, zone, iso, cl);
            && EdgeTouched(w.edge, w'.edge, zone, cl.host, iso')
            && iso'.id == iso.id && iso'.routingMode == iso.routingMode && iso'.vpc == iso.vpc
  {
    if iso.routingMode == "" {
      AssociationTouches(env, w, zone, iso, cl);
      AssociationKeeps(env, w, zone, iso, cl);
      var (w1, iso1, cl1, associated) := AssociatePublicIP(env, w, zone, iso, cl);
      if associated.Nil? { RuleIsAdded(env, w1, iso1, cl1); }
      var (w2, iso2, _, _) := SetUpEndpoint(env, w, zone, iso, cl);
      BothTouch(w.edge, w1.edge, w2.edge, zone, cl.host, iso1, iso2);
    }
  }

  lemma FirewallTouchesLast(e: Edge, e1: Edge, e2: Edge, zone: Id, host: string, iso: IsoNet, iso': IsoNet)
    requires EdgeTouched(e, e1, zone, host, iso) && e2 == e1.(egress := e2.egress, routing := e2.routing)
    requires RulesTouched(e1.egress, e2.egress, iso.id) && RulesTouched(e1.routing, e2.routing, iso.id)
    requires iso' == iso.(firewallOpened := iso'.firewallOpened)
    ensures EdgeTouched(e, e2, zone, host, iso')
  {
    var a := e.(addresses := e1.addresses, addressTags := e1.addressTags);
    forall i | 0 <= i < |e.addresses| && a.addresses[i] != e.addresses[i]
      ensures IsAddress(e, i, zone, host, iso') && TakenBy(e.addresses[i], a.addresses[i], iso')
    {
      assert IsAddress(e, i, zone, host, iso) && TakenBy(e.addresses[i], a.addresses[i], iso);
    }
  }

  lemma FirewallKeeps(env: Env, w: World, iso: IsoNet)
    ensures var iso' := OpenFirewall(env, w, iso).1; iso' == iso.(firewallOpened := iso'.firewallOpened)
  {
  }

  lemma UntouchedEdge(e: Edge, zone: Id, host: string, iso: IsoNet)
    ensures EdgeTouched(e, e, zone, host, iso)
  {
  }

  /** Whatever fails: a set-up touches nothing of another network, address or cluster. */
  lemma SetUpTouches(env: Env, w: World, zone: Id, iso: IsoNet, cl: CsCluster)
    requires DistinctIps(w.edge.addresses)
    ensures var (w', iso', _, _) := GetOrCreate(env, w, zone, iso, cl);
            EdgeTouched(w.edge, w'.edge, zone, cl.host, iso')
  {
    var (w1, iso1, resolved) := ResolveOrCreate(env, w, iso);
    ResolveOrCreateAside(env, w, iso);
    UntouchedEdge(w.edge, zone, cl.host, iso1);
    if resolved.Nil? {
      Conservation.TagBothAside(env, w1, iso1, cl.uid);
      var (w2, tagged) := TagBoth(env, w1, iso1, cl.uid);
      if tagged.Nil? { LaterStepsTouch(env, w2, zone, iso1, cl); }
    }
  }

  /** The steps of a set-up after the tagging. */
  lemma LaterStepsTouch(env: Env, w: World, zone: Id, iso: IsoNet, cl: CsCluster)
    requires DistinctIps(w.edge.addresses)
    ensures var (w1, iso1, _, endpoint) := SetUpEndpoint(env, w, zone, iso, cl);
            var (w2, iso2, _) := OpenFirewall(env, w1, iso1);
            EdgeTouched(w.edge, w1.edge, zone, cl.host, iso1) && EdgeTouched(w.edge, w2.edge, zone, cl.host, iso2)
  {
    EndpointTouches(env, w, zone, iso, cl);
    var (w1, iso1, _, _) := SetUpEndpoint(env, w, zone, iso, cl);
    FirewallIsOpened(env, w1, iso1);
    FirewallKeeps(env, w1, iso1);
    var (w2, iso2, _) := OpenFirewall(env, w1, iso1);
    FirewallTouchesLast(w.edge, w1.edge, w2.edge, zone, cl.host, iso1, iso2);
  }

  /** The endpoint of a cluster behind NAT. */
  ghost predicate Reachable(e: Edge, e': Edge, zone: Id, before: CsCluster, iso: IsoNet, cl: CsCluster) {
    && cl.host == iso.host && cl.port == iso.port
    && (before.host != "" ==> cl.host == before.host)
    && (before.port != 0 ==> cl.port == before.port)
    && (exists i :: IsAddress(e, i, zone, before.host, iso))
    && LbRule(iso.lbRule, iso.publicIp, cl.port) in e'.lbRules
  }

  lemma EndpointIsGiven(env: Env, w: World, zone: Id, iso: IsoNet, cl: CsCluster)
    requires DistinctIps(w.edge.addresses) && SetUpEndpoint(env, w, zone, iso, cl).3.Nil?
    ensures var (w', iso', cl', _) := SetUpEndpoint(env, w, zone, iso, cl);
            && (if iso.routingMode == "" then Reachable(w.edge, w'.edge, zone, cl, iso', cl') else cl' == cl)
            && (iso.routingMode == "" && cl.port == 0 ==> cl'.port == if iso.port != 0 then iso.port else 6443)
  {
    if iso.routingMode == "" {
      var i := AssociationChooses(env, w, zone, iso, cl);
      var (w1, iso1, cl1, _) := AssociatePublicIP(env, w, zone, iso, cl);
      AssociationTouches(env, w, zone, iso, cl);
      PortIsAgreed(env, w1, iso1, cl1);
      RuleIsAdded(env, w1, iso1, cl1);
      assert IsAddress(w.edge, i, zone, cl.host, SetUpEndpoint(env, w, zone, iso, cl).1);
    }
  }

  /** Outside of a VPC: the network lets everything out by itself, or its rules do. */
  ghost predicate LetOut(w: World, iso: IsoNet) {
    VpcId(iso.vpc) == 0 ==>
      && iso.id in w.registry.networks
      && (|| w.registry.networks[iso.id].egressDefault
          || LetsAllOut(RulesAt(w.edge.egress, iso.id))
          || (iso.routingMode != "" && LetsAllOut(RulesAt(w.edge.routing, iso.id))))
  }

  lemma FirewallLetsOut(env: Env, w: World, iso: IsoNet)
    requires Honest(env) && OpenFirewall(env, w, iso).2.Nil?
    ensures var (w', iso', _) := OpenFirewall(env, w, iso);
            && LetOut(w', iso') && w'.edge.lbRules == w.edge.lbRules
            && iso' == iso.(firewallOpened := iso'.firewallOpened)
  {
    FirewallIsOpened(env, w, iso);
    OpenFirewallAside(env, w, iso);
  }

  /**
   A cluster that was set up without error behind NAT has as its host the address asked for, or one that was not taken,
   and as its port the one asked for, with a rule that routes it; a routed cluster is left as it is. Either way,
   outside of a VPC everything is let out.
   */
  lemma SetUpGivesEndpoint(env: Env, w: World, zone: Id, iso: IsoNet, cl: CsCluster)
    requires Honest(env) && DistinctIps(w.edge.addresses) && GetOrCreate(env, w, zone, iso, cl).3.Nil?
    ensures var (w', iso', cl', _) := GetOrCreate(env, w, zone, iso, cl);
            && LetOut(w', iso')
            && if iso'.routingMode == "" then Reachable(w.edge, w'.edge, zone, cl, iso', cl') else cl' == cl
  {
    var (w1, iso1, _) := ResolveOrCreate(env, w, iso);
    ResolveOrCreateAside(env, w, iso);
    Conservation.TagBothAside(env, w1, iso1, cl.uid);
    var w2 := TagBoth(env, w1, iso1, cl.uid).0;
    EndpointIsGiven(env, w2, zone, iso1, cl);
    var (w3, iso3, cl3, _) := SetUpEndpoint(env, w2, zone, iso1, cl);
    EndpointTouches(env, w2, zone, iso1, cl);
    FirewallLetsOut(env, w3, iso3);
    var (w4, iso4, _) := OpenFirewall(env, w3, iso3);
    assert GetOrCreate(env, w, zone, iso, cl) == (w4, iso4, cl3, Nil);
    if iso4.routingMode == "" { StaysReachable(w.edge, w3.edge, w4.edge, zone, cl, iso3, iso4, cl3); }
  }

  lemma StaysReachable(e: Edge, e1: Edge, e2: Edge, zone: Id, before: CsCluster, iso: IsoNet, iso': IsoNet, cl: CsCluster)
    requires Reachable(e, e1, zone, before, iso, cl) && e2.lbRules == e1.lbRules
    requires iso' == iso.(firewallOpened := iso'.firewallOpened)
    ensures Reachable(e, e2, zone, before, iso', cl)
  {
    var i :| IsAddress(e, i, zone, before.host, iso);
    assert IsAddress(e, i, zone, before.host, iso');
  }

  // ---- When it succeeds ----------------------------------------------------------------------

  /** The network can be had: its name or else the stored identifier leads to one, or it can be made. */
  ghost predicate Obtainable(w: World, iso: IsoNet) {
    || (exists id :: Unique(w.registry, iso.name, id))
    || iso.id in w.registry.networks
    || (OfferingName(iso) in w.catalogue.offerings && (WantsVpc(iso) ==> VpcObtainable(w, iso.vpc.value)))
  }

  /** The VPC asked for is there, or has a name and an offering to be made from. */
  ghost predicate VpcObtainable(w: World, vpc: Vpc) {
    || vpc.id in w.registry.vpcs
    || (vpc.id == 0 && exists id :: id in w.registry.vpcs && w.registry.vpcs[id].name == vpc.name)
    || (vpc.name != "" && (if vpc.offering != "" then vpc.offering else VPC_OFFERING) in w.catalogue.vpcOfferings)
  }

  lemma {:induction false} NamedVpcFound(g: Registry, name: string, from: Id, id: Id)
    requires WellFormed(g) && id in g.vpcs && g.vpcs[id].name == name && from <= id
    ensures VpcsNamed(g, name, from) != []
    decreases g.nextId - from
  {
    if from < id { NamedVpcFound(g, name, from + 1, id); }
  }

  lemma VpcIsObtained(env: Env, w: World, vpc: Vpc)
    requires FaultFree(env) && WellFormed(w.registry) && (vpc.id != 0 || vpc.name != "")
    ensures ResolveOrCreateVpc(env, w, vpc).2.Nil? <==> VpcObtainable(w, vpc)
  {
    var (w1, resolved, err) := ResolveVpc(env, w, vpc);
    FirstVpcNamed(w.registry, vpc.name, 0);
    forall id | id in w.registry.vpcs && w.registry.vpcs[id].name == vpc.name
      ensures VpcsNamed(w.registry, vpc.name, 0) != []
    {
      NamedVpcFound(w.registry, vpc.name, 0, id);
    }
    if err.Nil? {
      if vpc.id == 0 { assert VpcsNamed(w.registry, vpc.name, 0)[0] in VpcsNamed(w.registry, vpc.name, 0); }
    } else {
      CreationSucceeds(env, w1, vpc);
    }
  }

  lemma CreationSucceeds(env: Env, w: World, vpc: Vpc)
    requires FaultFree(env)
    ensures CreateVPC(env, w, vpc).2.Nil?
            <==> vpc.name != "" && (if vpc.offering != "" then vpc.offering else VPC_OFFERING) in w.catalogue.vpcOfferings
  {
    var offeringName := if vpc.offering != "" then vpc.offering else VPC_OFFERING;
    var w1 := GetVpcOffering(env, w, offeringName).0;
    var w2 := CreateVpc(env, w1, VpcInfo(vpc.name, vpc.cidr, offeringName)).0;
    AddTagsEffect(env, w2, VpcTag(w1.registry.nextId), map[CreatedTag := "1"]);
  }

  lemma NetworkIsObtained(env: Env, w: World, iso: IsoNet)
    requires FaultFree(env) && WellFormed(w.registry)
    ensures ResolveOrCreate(env, w, iso).2.Nil? <==> Obtainable(w, iso)
  {
    LookupByName(env, w, iso.name);
    var (w1, net, err) := ResolveNetwork(env, w, NetworkOf(iso));
    if err.Error? {
      if WantsVpc(iso) { VpcIsObtained(env, w1, iso.vpc.value); }
      var (w2, iso2, prepared) := PrepareVpc(env, w1, iso);
      CatalogueStays(env, w1, iso);
      var (w3, offering) := GetNetworkOffering(env, w2, OfferingName(iso));
      if prepared.Nil? && offering.Reply? { MakingSucceeds(env, w3, iso2, offering.value); }
    }
  }

  lemma CatalogueStays(env: Env, w: World, iso: IsoNet)
    ensures PrepareVpc(env, w, iso).0.catalogue == w.catalogue
  {
    if WantsVpc(iso) {
      var (w1, vpc, _) := ResolveVpc(env, w, iso.vpc.value);
      var offeringName := if vpc.offering != "" then vpc.offering else VPC_OFFERING;
      var w2 := GetVpcOffering(env, w1, offeringName).0;
      var w3 := CreateVpc(env, w2, VpcInfo(vpc.name, vpc.cidr, offeringName)).0;
      AddTagsEffect(env, w3, VpcTag(w2.registry.nextId), map[CreatedTag := "1"]);
    }
  }

  lemma MakingSucceeds(env: Env, w: World, iso: IsoNet, o: Offering)
    requires FaultFree(env)
    ensures MakeNetwork(env, w, iso, o).2.Nil?
  {
    var info := NetworkFor(w.registry, iso.name, o, iso.gateway, iso.netmask, VpcId(iso.vpc));
    AddTagsEffect(env, CreateNetwork(env, w, info).0, NetTag(w.registry.nextId), map[CreatedTag := "1"]);
  }

  lemma TaggingSucceeds(env: Env, w: World, iso: IsoNet, uid: string)
    requires FaultFree(env) && WellFormed(w.registry)
    ensures TagBoth(env, w, iso, uid).1.Nil?
  {
    Conservation.AddClusterTagFaultFree(env, w, NetTag(iso.id), uid);
    AddClusterTagKept(env, w, NetTag(iso.id), uid);
    var w1 := AddClusterTag(env, w, NetTag(iso.id), uid).0;
    Conservation.AddClusterTagFaultFree(env, w1, VpcTag(VpcId(iso.vpc)), uid);
  }

  lemma AssociationSucceeds(env: Env, w: World, zone: Id, iso: IsoNet, cl: CsCluster)
    requires FaultFree(env) && DistinctIps(w.edge.addresses)
    ensures AssociatePublicIP(env, w, zone, iso, cl).3.Nil?
            <==> exists a :: a in w.edge.addresses && Eligible(a, zone, cl.host)
  {
    var (w1, chosen) := GetPublicIP(env, w, zone, cl.host);
    ChosenIsEligible(w.edge.addresses, zone, cl.host);
    if chosen.Reply? {
      var a := chosen.value;
      var i := ChosenAlone(w.edge.addresses, zone, cl.host);
      var w2 := AssociateAddress(env, w1, a.ip, iso.id, VpcId(iso.vpc)).0;
      assert w2.edge.addresses[i].id == a.id;
      AddressTaggingSucceeds(env, w2, a.id, cl.uid);
    }
  }

  lemma AddressTaggingSucceeds(env: Env, w: World, id: Id, uid: string)
    requires FaultFree(env) && AddressKnown(w.edge.addresses, id)
    ensures var (w1, used) := AddClusterTag(env, w, AddressTag(id), uid);
            used.Nil? && AddCreatedTag(env, w1, AddressTag(id)).1.Nil?
  {
    AddTagsEffect(env, Tick(w), AddressTag(id), map[ClusterTag(uid) := "1"]);
    TaggedAddresses(env, w, AddressTag(id), uid);
    AddTagsEffect(env, AddClusterTag(env, w, AddressTag(id), uid).0, AddressTag(id), map[CreatedTag := "1"]);
  }

  lemma LbRuleSucceeds(env: Env, w: World, iso: IsoNet, cl: CsCluster)
    requires FaultFree(env)
    ensures GetOrCreateLbRule(env, w, iso, cl).3.Nil?
  {
  }

  lemma {:induction false} FirewallRulesSucceed(env: Env, w: World, iso: IsoNet, protocols: seq<Protocol>)
    requires FaultFree(env)
    ensures CreateFirewallRules(env, w, iso, protocols).1.Nil?
    decreases |protocols|
  {
    if protocols != [] {
      FirewallRulesSucceed(env, CreateFirewallRule(env, w, iso, protocols[0]).0, iso, protocols[1..]);
    }
  }

  lemma FirewallSucceeds(env: Env, w: World, iso: IsoNet)
    requires FaultFree(env) && iso.id in w.registry.networks
    ensures OpenFirewall(env, w, iso).2.Nil?
  {
    FirewallRulesSucceed(env, CheckFirewallRules(env, GetNetworkByID(env, w, iso.id).0, iso).0, iso, PROTOCOLS);
  }

  /**
   Without failures a set-up succeeds exactly if the network can be had and, unless it is routed, the zone has the
   address asked for, or one that is not taken if none is asked for.
   */
  lemma SetUpSucceedsIff(env: Env, w: World, zone: Id, iso: IsoNet, cl: CsCluster)
    requires FaultFree(env) && WellFormed(w.registry) && DistinctIps(w.edge.addresses)
    ensures GetOrCreate(env, w, zone, iso, cl).3.Nil? <==>
              && Obtainable(w, iso)
              && (ResolveOrCreate(env, w, iso).1.routingMode == "" ==>
                    exists a :: a in w.edge.addresses && Eligible(a, zone, cl.host))
  {
    NetworkIsObtained(env, w, iso);
    var (w1, iso1, resolved) := ResolveOrCreate(env, w, iso);
    if resolved.Nil? {
      ResolveOrCreateAside(env, w, iso);
      ResolveOrCreateGrown(env, w, iso);
      ResolvedExists(env, w, iso);
      TaggingSucceeds(env, w1, iso1, cl.uid);
      TagBothReferences(env, w1, iso1, cl.uid);
      Conservation.TagBothAside(env, w1, iso1, cl.uid);
      var w2 := TagBoth(env, w1, iso1, cl.uid).0;
      EndpointSucceeds(env, w2, zone, iso1, cl);
      var (w3, iso3, _, endpoint) := SetUpEndpoint(env, w2, zone, iso1, cl);
      if endpoint.Nil? {
        SetUpEndpointAside(env, w2, zone, iso1, cl);
        FirewallSucceeds(env, w3, iso3);
      }
    }
  }

  lemma EndpointSucceeds(env: Env, w: World, zone: Id, iso: IsoNet, cl: CsCluster)
    requires FaultFree(env) && DistinctIps(w.edge.addresses)
    ensures SetUpEndpoint(env, w, zone, iso, cl).3.Nil?
            <==> (iso.routingMode == "" ==> exists a :: a in w.edge.addresses && Eligible(a, zone, cl.host))
  {
    if iso.routingMode == "" {
      AssociationSucceeds(env, w, zone, iso, cl);
      var (w1, iso1, cl1, _) := AssociatePublicIP(env, w, zone, iso, cl);
      LbRuleSucceeds(env, w1, iso1, cl1);
    }
  }
}
