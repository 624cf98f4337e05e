/**
 Set-up and disposal of an isolated network (pkg/cloud/isolated_network.go, network.go, vpc.go) as functions of the
 cloud, the objects passed and the fault oracle.
 */
module IsoNetSpec {
  import opened Faults
  import opened CloudApi
  import opened TagSpec

  const NET_OFFERING := "DefaultIsolatedNetworkOfferingWithSourceNatService"
  const NET_VPC_OFFERING := "DefaultIsolatedNetworkOfferingForVpcNetworks"
  const VPC_OFFERING := "Default VPC offering"
  const DEFAULT_API_PORT := 6443
  const PROTOCOLS: seq<Protocol> := [Tcp, Udp, Icmp]

  datatype Vpc = Vpc(id: Id, name: string, cidr: string, offering: string)

  datatype IsoNet = IsoNet(name: string, id: Id, host: string, port: int, gateway: string, netmask: string,
                           offering: string, vpc: Option<Vpc>, publicIp: Id, lbRule: Id, routingMode: string,
                           firewallOpened: bool)

  datatype CsCluster = CsCluster(uid: string, host: string, port: int)

  /** What ResolveNetwork fills in of the network it is given. */
  datatype Net = Net(name: string, id: Id, gateway: string, netmask: string, routingMode: string, vpc: Option<Vpc>)

  function NetworkOf(iso: IsoNet): Net {
    Net(iso.name, iso.id, iso.gateway, iso.netmask, iso.routingMode, iso.vpc)
  }

  function NetTag(id: Id): Resource { Resource(NetworkKind, id) }
  function VpcTag(id: Id): Resource { Resource(VpcKind, id) }
  function AddressTag(id: Id): Resource { Resource(AddressKind, id) }

  function VpcId(vpc: Option<Vpc>): Id { match vpc case None => 0 case Some(v) => v.id }

  // ---- Networks ------------------------------------------------------------------------------

  function Filled(net: Net, id: Id, info: NetworkInfo): Net {
    var vpc := if info.vpc == 0 then net.vpc
               else match net.vpc
                    case None => Some(Vpc(info.vpc, info.vpcName, "", ""))
                    case Some(v) => Some(v.(id := info.vpc, name := info.vpcName));
    net.(id := id, gateway := info.gateway, netmask := info.netmask, routingMode := info.routingMode, vpc := vpc)
  }

  function ResolveNetwork(env: Env, w: World, net: Net): (World, Net, GoError) {
    var (w1, byName) := GetNetworkByName(env, w, net.name);
    if byName.Reply? && byName.value.One? then (w1, Filled(net, byName.value.id, byName.value.info), Nil)
    else
      var (w2, byId) := GetNetworkByID(env, w1, net.id);
      match byId
      case Failed(text) => (w2, net, Error(text))
      case Reply(Several) => (w2, net, Error(Other))
      case Reply(One(id, info)) => (w2, Filled(net, id, info).(name := info.name), Nil)
  }

  function DeleteIfNotInUse(env: Env, w: World, r: Resource): (World, GoError) {
    var (w1, tags) := ListTags(env, w, r);
    if tags.Failed? then (w1, Error(tags.text))
    else if !AllowDisposal(tags.value) then (w1, Nil)
    else Delete(env, w1, r)
  }

  // ---- VPCs ----------------------------------------------------------------------------------

  function ResolveVpc(env: Env, w: World, vpc: Vpc): (World, Vpc, GoError) {
    if vpc.id == 0 && vpc.name == "" then (w, vpc, Nil)
    else if vpc.id != 0 then
      var (w1, found) := GetVpcByID(env, w, vpc.id);
      match found
      case Failed(text) => (w1, vpc, Error(text))
      case Reply(v) => (w1, Vpc(vpc.id, v.name, v.cidr, v.offering), Nil)
    else
      var (w1, found) := GetVpcByName(env, w, vpc.name);
      match found
      case Failed(text) => (w1, vpc, Error(text))
      case Reply((id, v)) => (w1, Vpc(id, vpc.name, v.cidr, v.offering), Nil)
  }

  /** On an error of the tagging the new identifier is already in the caller's object. */
  function CreateVPC(env: Env, w: World, vpc: Vpc): (World, Vpc, GoError) {
    if vpc.name == "" then (w, vpc, Error(Other))
    else
      var offeringName := if vpc.offering != "" then vpc.offering else VPC_OFFERING;
      var (w1, offering) := GetVpcOffering(env, w, offeringName);
      if offering.Failed? then (w1, vpc, Error(offering.text))
      else
        var (w2, created) := CreateVpc(env, w1, VpcInfo(vpc.name, vpc.cidr, offeringName));
        if created.Error? then (w2, vpc, created)
        else
          var (w3, tagged) := AddCreatedTag(env, w2, VpcTag(w1.registry.nextId));
          (w3, vpc.(id := w1.registry.nextId), tagged)
  }

  function ResolveOrCreateVpc(env: Env, w: World, vpc: Vpc): (World, Vpc, GoError) {
    var (w1, resolved, err) := ResolveVpc(env, w, vpc);
    if err.Nil? then (w1, resolved, Nil) else CreateVPC(env, w1, resolved)
  }

  // ---- Creating the network ------------------------------------------------------------------

  function WantsVpc(iso: IsoNet): bool { iso.vpc.Some? && (iso.vpc.value.name != "" || iso.vpc.value.id != 0) }

  function PrepareVpc(env: Env, w: World, iso: IsoNet): (World, IsoNet, GoError) {
    if WantsVpc(iso) then
      var (w1, vpc, err) := ResolveOrCreateVpc(env, w, iso.vpc.value);
      (w1, iso.(vpc := Some(vpc)), err)
    else (w, iso, Nil)
  }

  function OfferingName(iso: IsoNet): string {
    if iso.offering != "" then iso.offering else if WantsVpc(iso) then NET_VPC_OFFERING else NET_OFFERING
  }

  function MakeNetwork(env: Env, w: World, iso: IsoNet, offering: Offering): (World, IsoNet, GoError) {
    var info := NetworkFor(w.registry, iso.name, offering, iso.gateway, iso.netmask, VpcId(iso.vpc));
    var (w1, created) := CreateNetwork(env, w, info);
    if created.Error? then (w1, iso, created)
    else
      var (w2, tagged) := AddCreatedTag(env, w1, NetTag(w.registry.nextId));
      (w2,
       iso.(id := w.registry.nextId, gateway := info.gateway, netmask := info.netmask, routingMode := info.routingMode),
       tagged)
  }

  function CreateIsolatedNetwork(env: Env, w: World, iso: IsoNet): (World, IsoNet, GoError) {
    var (w1, iso1, prepared) := PrepareVpc(env, w, iso);
    if prepared.Error? then (w1, iso1, prepared)
    else
      var (w2, offering) := GetNetworkOffering(env, w1, OfferingName(iso));
      if offering.Failed? then (w2, iso1, Error(offering.text)) else MakeNetwork(env, w2, iso1, offering.value)
  }

  /** The first half of set-up: afterwards the object names its network. Any error of the lookup leads to a create. */
  function ResolveOrCreate(env: Env, w: World, iso: IsoNet): (World, IsoNet, GoError) {
    var (w1, net, err) := ResolveNetwork(env, w, NetworkOf(iso));
    if err.Error? then CreateIsolatedNetwork(env, w1, iso)
    else
      (w1,
       iso.(id := net.id, gateway := net.gateway, netmask := net.netmask, routingMode := net.routingMode,
            vpc := net.vpc),
       Nil)
  }

  // ---- Endpoint ------------------------------------------------------------------------------

  function FirstFree(addresses: seq<Address>): Option<Address> {
    if addresses == [] then None
    else if !addresses[0].taken then Some(addresses[0])
    else FirstFree(addresses[1..])
  }

  function ChooseAddress(found: seq<Address>, ip: string): Option<Address> {
    if ip != "" && |found| == 1 then Some(found[0]) else FirstFree(found)
  }

  function GetPublicIP(env: Env, w: World, zone: Id, ip: string): (World, Reply<Address>) {
    var (w1, found) := ListAddresses(env, w, zone, ip);
    match found
    case Failed(text) => (w1, Failed(text))
    case Reply(addresses) =>
      (w1, match ChooseAddress(addresses, ip) case None => Failed(Other) case Some(a) => Reply(a))
  }

  predicate IsAssociated(a: Address, iso: IsoNet) {
    a.network == iso.id || (iso.vpc.Some? && a.vpc == iso.vpc.value.id)
  }

  function AssociatePublicIP(env: Env, w: World, zone: Id, iso: IsoNet, cl: CsCluster)
    : (World, IsoNet, CsCluster, GoError)
  {
    var (w1, chosen) := GetPublicIP(env, w, zone, cl.host);
    if chosen.Failed? then (w1, iso, cl, Error(chosen.text))
    else
      var a := chosen.value;
      var iso1, cl1 := iso.(host := a.ip, publicIp := a.id), cl.(host := a.ip);
      if IsAssociated(a, iso1) then (w1, iso1, cl1, Nil)
      else
        var (w2, associated) := AssociateAddress(env, w1, a.ip, iso1.id, VpcId(iso1.vpc));
        if associated.Error? then (w2, iso1, cl1, associated)
        else
          var (w3, used) := AddClusterTag(env, w2, AddressTag(a.id), cl.uid);
          if used.Error? then (w3, iso1, cl1, used)
          else
            var (w4, made) := AddCreatedTag(env, w3, AddressTag(a.id));
            (w4, iso1, cl1, made)
  }

  function AgreedPort(iso: IsoNet, cl: CsCluster): int {
    if cl.port != 0 then cl.port else if iso.port != 0 then iso.port else DEFAULT_API_PORT
  }

  function RuleAtPort(rules: seq<LbRule>, port: int): Option<Id> {
    if rules == [] then None
    else if rules[0].publicPort == port then Some(rules[0].id)
    else RuleAtPort(rules[1..], port)
  }

  function ResolveLbRule(env: Env, w: World, iso: IsoNet): (World, Reply<Id>) {
    var (w1, rules) := ListLbRules(env, w, iso.publicIp);
    match rules
    case Failed(text) => (w1, Failed(text))
    case Reply(found) =>
      (w1, match RuleAtPort(found, iso.port) case None => Failed(NoLbRule) case Some(id) => Reply(id))
  }

  function GetOrCreateLbRule(env: Env, w: World, iso: IsoNet, cl: CsCluster): (World, IsoNet, CsCluster, GoError) {
    var port := AgreedPort(iso, cl);
    var iso1, cl1 := iso.(port := port), cl.(port := port);
    var (w1, rule) := ResolveLbRule(env, w, iso1);
    if rule.Reply? then (w1, iso1.(lbRule := rule.value), cl1, Nil)
    else if rule.text != NoLbRule then (w1, iso1, cl1, Error(rule.text))
    else
      var (w2, created) := CreateLbRule(env, w1, iso1.publicIp, port);
      if created.Error? then (w2, iso1, cl1, created)
      else (w2, iso1.(lbRule := w1.edge.nextRule), cl1, Nil)
  }

  // ---- Firewall ------------------------------------------------------------------------------

  function WideOpen(protocol: Protocol): FirewallRule {
    if protocol.Icmp? then FirewallRule(protocol, 0, 0, -1, -1) else FirewallRule(protocol, 0, 0, 0, 0)
  }

  predicate Opens(rule: FirewallRule, protocol: Protocol) {
    && rule.protocol == protocol
    && if protocol.Icmp? then rule.icmpType == -1 && rule.icmpCode == -1
       else rule.startPort == 0 && rule.endPort == 0
  }

  predicate AllOpen(rules: seq<FirewallRule>) {
    forall protocol :: protocol in PROTOCOLS ==> exists rule :: rule in rules && Opens(rule, protocol)
  }

  function CheckFirewallRules(env: Env, w: World, iso: IsoNet): (World, Reply<bool>) {
    var (w1, rules) := ListEgressRules(env, w, iso.id);
    (w1, match rules case Failed(text) => Failed(text) case Reply(found) => Reply(AllOpen(found)))
  }

  /** A refusal as duplicate is not an error. */
  function CreateFirewallRule(env: Env, w: World, iso: IsoNet, protocol: Protocol): (World, GoError) {
    var (w1, err) := if iso.routingMode != "" then CreateRoutingRule(env, w, iso.id, WideOpen(protocol))
                     else CreateEgressRule(env, w, iso.id, WideOpen(protocol));
    (w1, if err == Error(Duplicate) then Nil else err)
  }

  function CreateFirewallRules(env: Env, w: World, iso: IsoNet, protocols: seq<Protocol>): (World, GoError)
    decreases |protocols|
  {
    if protocols == [] then (w, Nil)
    else
      var (w1, err) := CreateFirewallRule(env, w, iso, protocols[0]);
      if err.Error? then (w1, err) else CreateFirewallRules(env, w1, iso, protocols[1..])
  }

  function OpenFirewall(env: Env, w: World, iso: IsoNet): (World, IsoNet, GoError) {
    if VpcId(iso.vpc) != 0 then (w, iso, Nil)
    else
      var (w1, network) := GetNetworkByID(env, w, iso.id);
      match network
      case Failed(text) => (w1, iso, Error(text))
      case Reply(Several) => (w1, iso, Error(Other))
      case Reply(One(_, info)) =>
        if info.egressDefault then (w1, iso.(firewallOpened := true), Nil)
        else
          var (w2, open) := CheckFirewallRules(env, w1, iso);
          if open.Failed? then (w2, iso, Error(open.text))
          else if open.value then (w2, iso.(firewallOpened := true), Nil)
          else
            var (w3, err) := CreateFirewallRules(env, w2, iso, PROTOCOLS);
            (w3, iso.(firewallOpened := err.Nil?), err)
  }

  // ---- Set-up --------------------------------------------------------------------------------

  function TagVpc(env: Env, w: World, iso: IsoNet, uid: string): (World, GoError) {
    if VpcId(iso.vpc) != 0 then AddClusterTag(env, w, VpcTag(VpcId(iso.vpc)), uid) else (w, Nil)
  }

  function SetUpEndpoint(env: Env, w: World, zone: Id, iso: IsoNet, cl: CsCluster): (World, IsoNet, CsCluster, GoError) {
    if iso.routingMode != "" then (w, iso, cl, Nil)
    else
      var (w1, iso1, cl1, associated) := AssociatePublicIP(env, w, zone, iso, cl);
      if associated.Error? then (w1, iso1, cl1, associated) else GetOrCreateLbRule(env, w1, iso1, cl1)
  }

  function GetOrCreate(env: Env, w: World, zone: Id, iso: IsoNet, cl: CsCluster): (World, IsoNet, CsCluster, GoError) {
    var (w1, iso1, resolved) := ResolveOrCreate(env, w, iso);
    if resolved.Error? then (w1, iso1, cl, resolved)
    else
      var (w2, used) := AddClusterTag(env, w1, NetTag(iso1.id), cl.uid);
      if used.Error? then (w2, iso1, cl, used)
      else
        var (w3, vpcUsed) := TagVpc(env, w2, iso1, cl.uid);
        if vpcUsed.Error? then (w3, iso1, cl, vpcUsed)
        else
          var (w4, iso4, cl4, endpoint) := SetUpEndpoint(env, w3, zone, iso1, cl);
          if endpoint.Error? then (w4, iso4, cl4, endpoint)
          else
            var (w5, iso5, firewall) := OpenFirewall(env, w4, iso4);
            (w5, iso5, cl4, firewall)
  }

  // ---- Disposal ------------------------------------------------------------------------------

  /** The created tag goes before the address is disassociated. */
  function DisassociatePublicIP(env: Env, w: World, iso: IsoNet): (World, GoError) {
    var (w1, err) := DeleteCreatedTag(env, w, AddressTag(iso.publicIp));
    if err.Error? then (w1, err) else DisassociateAddress(env, w1, iso.publicIp)
  }

  function DisassociateIfNotInUse(env: Env, w: World, iso: IsoNet): (World, GoError) {
    var (w1, allowed) := DoClusterTagsAllowDisposal(env, w, AddressTag(iso.publicIp));
    if allowed.Failed? then (w1, Error(allowed.text))
    else
      var (w2, address) := GetAddressByID(env, w1, iso.publicIp);
      if address.Failed? then (w2, Error(address.text))
      else if address.value.sourceNat || !allowed.value then (w2, Nil)
      else DisassociatePublicIP(env, w2, iso)
  }

  function ReleaseAddress(env: Env, w: World, iso: IsoNet, uid: string): (World, GoError) {
    if iso.publicIp == 0 then (w, Nil)
    else
      var (w1, err) := DeleteClusterTag(env, w, AddressTag(iso.publicIp), uid);
      if err.Error? then (w1, err) else DisassociateIfNotInUse(env, w1, iso)
  }

  /** Give up one network or VPC: take the cluster's tag off, and delete the resource if that was the last one. */
  function Release(env: Env, w: World, r: Resource, uid: string): (World, GoError) {
    var (w1, err) := RemoveClusterTag(env, w, r, uid);
    if err.Error? then (w1, err)
    else
      var (w2, deleted) := DeleteIfNotInUse(env, w1, r);
      (w2, if deleted == Error(NoMatch) then Nil else deleted)
  }

  function Dispose(env: Env, w: World, iso: IsoNet, uid: string): (World, GoError) {
    var (w1, released) := ReleaseAddress(env, w, iso, uid);
    if released.Error? then (w1, released)
    else
      var (w2, err) := Release(env, w1, NetTag(iso.id), uid);
      if err.Error? || VpcId(iso.vpc) == 0 then (w2, err)
      else Release(env, w2, VpcTag(VpcId(iso.vpc)), uid)
  }
}
