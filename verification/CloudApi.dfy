/**
 The CloudStack side: resources, their tags, and the API calls of the CloudStack client library.
 The library is not part of this repository; a call is modelled by its effect on the cloud and its reply.
 */
module CloudApi {
  import opened Faults

  /** Resource identifiers; 0 stands for the empty string of an identifier that is not set. */
  type Id = nat

  datatype Kind = NetworkKind | VpcKind | AddressKind
  datatype Resource = Resource(kind: Kind, id: Id)

  /** Tag keys by their meaning; module TagNames relates them to the strings the API carries. */
  datatype TagKey = ClusterTag(uid: string) | CreatedTag | OtherTag(name: string)
  type Tags = map<TagKey, string>

  datatype Protocol = Tcp | Udp | Icmp | OtherProtocol(name: string)

  datatype NetworkInfo = NetworkInfo(name: string, gateway: string, netmask: string, routingMode: string,
                                     vpc: Id, vpcName: string, egressDefault: bool)
  datatype VpcInfo = VpcInfo(name: string, cidr: string, offering: string)
  datatype Address = Address(id: Id, ip: string, zone: Id, taken: bool, network: Id, vpc: Id, sourceNat: bool)
  datatype LbRule = LbRule(id: Id, address: Id, publicPort: int)
  datatype FirewallRule = FirewallRule(protocol: Protocol, startPort: int, endPort: int, icmpType: int, icmpCode: int)
  /** What a network offering decides about the networks made from it. */
  datatype Offering = Offering(gateway: string, netmask: string, routingMode: string, egressDefault: bool)

  /** Networks and VPCs with their tags. */
  datatype Registry = Registry(nextId: Id, networks: map<Id, NetworkInfo>, vpcs: map<Id, VpcInfo>,
                               tags: map<Resource, Tags>)

  /** What connects networks to the outside: addresses with their tags, load balancer and firewall rules. */
  datatype Edge = Edge(addresses: seq<Address>, addressTags: map<Id, Tags>, nextRule: Id, lbRules: seq<LbRule>,
                       egress: map<Id, seq<FirewallRule>>, routing: map<Id, seq<FirewallRule>>)

  datatype Catalogue = Catalogue(offerings: map<string, Offering>, vpcOfferings: set<string>)

  datatype World = World(clock: nat, registry: Registry, edge: Edge, catalogue: Catalogue)

  class CloudStack {
    const env: Env
    var world: World

    constructor (env: Env, world: World)
      ensures this.env == env && this.world == world
    {
      this.env, this.world := env, world;
    }
  }

  // ---- State of the cloud --------------------------------------------------------------------

  function Tick(w: World): World { w.(clock := w.clock + 1) }

  /** The cloud without the count of calls made to it. */
  function Still(w: World): World { w.(clock := 0) }

  predicate Present(g: Registry, r: Resource) {
    match r.kind
    case NetworkKind => r.id in g.networks
    case VpcKind => r.id in g.vpcs
    case AddressKind => false
  }

  predicate AddressKnown(addresses: seq<Address>, id: Id) {
    exists i :: 0 <= i < |addresses| && addresses[i].id == id
  }

  predicate Exists(w: World, r: Resource) {
    if r.kind.AddressKind? then AddressKnown(w.edge.addresses, r.id) else Present(w.registry, r)
  }

  function TagsIn(g: Registry, r: Resource): Tags {
    if r in g.tags then g.tags[r] else map[]
  }

  function TagsOf(w: World, r: Resource): Tags {
    if !r.kind.AddressKind? then TagsIn(w.registry, r)
    else if r.id in w.edge.addressTags then w.edge.addressTags[r.id] else map[]
  }

  function WithTags(w: World, r: Resource, t: Tags): World {
    if r.kind.AddressKind? then w.(edge := w.edge.(addressTags := w.edge.addressTags[r.id := t]))
    else w.(registry := w.registry.(tags := w.registry.tags[r := t]))
  }

  /** Identifiers are set and were handed out before `nextId`; only what exists carries tags. */
  ghost predicate WellFormed(g: Registry) {
    && 0 < g.nextId
    && (forall id :: id in g.networks ==> 0 < id < g.nextId)
    && (forall id :: id in g.vpcs ==> 0 < id < g.nextId)
    && (forall r :: r in g.tags ==> Present(g, r))
  }

  // ---- One call: its fault, its refusal, or its effect ---------------------------------------

  function Change(env: Env, w: World, accepted: bool, refusal: Text, done: World): (World, GoError) {
    var (w1, err) := Attempt(env(w.clock), accepted, refusal, w, done);
    (Tick(w1), err)
  }

  function Read<T>(env: Env, w: World, reply: Reply<T>): (World, Reply<T>) {
    (Tick(w), Answer(env(w.clock), reply))
  }

  // ---- Tags ----------------------------------------------------------------------------------

  function ListTags(env: Env, w: World, r: Resource): (World, Reply<Tags>) {
    Read(env, w, Reply(TagsOf(w, r)))
  }

  function CreateTags(env: Env, w: World, r: Resource, t: Tags): (World, GoError) {
    Change(env, w, Exists(w, r), NoMatch, WithTags(w, r, TagsOf(w, r) + t))
  }

  /** The API takes key and value of the tag, and refuses when the resource has no such tag. */
  function RemoveTag(env: Env, w: World, r: Resource, key: TagKey, value: string): (World, GoError) {
    var present := key in TagsOf(w, r) && TagsOf(w, r)[key] == value;
    Change(env, w, present, Other, WithTags(w, r, TagsOf(w, r) - {key}))
  }

  // ---- Networks and VPCs ---------------------------------------------------------------------

  /** Networks of the given name, in the order they were created, from identifier `from` on. */
  function NetworksNamed(g: Registry, name: string, from: Id): (ids: seq<Id>)
    decreases g.nextId - from
  {
    if g.nextId <= from then []
    else (if from in g.networks && g.networks[from].name == name then [from] else [])
         + NetworksNamed(g, name, from + 1)
  }

  function VpcsNamed(g: Registry, name: string, from: Id): (ids: seq<Id>)
    decreases g.nextId - from
  {
    if g.nextId <= from then []
    else (if from in g.vpcs && g.vpcs[from].name == name then [from] else [])
         + VpcsNamed(g, name, from + 1)
  }

  /** The replies to a network query: how many were found and, for a single one, which. */
  datatype NetworkHit = One(id: Id, info: NetworkInfo) | Several

  function GetNetworkByName(env: Env, w: World, name: string): (World, Reply<NetworkHit>) {
    var ids := NetworksNamed(w.registry, name, 0);
    Read(env, w,
         if ids == [] then Failed(NoMatch)
         else if |ids| == 1 && ids[0] in w.registry.networks then Reply(One(ids[0], w.registry.networks[ids[0]]))
         else Reply(Several))
  }

  function GetNetworkByID(env: Env, w: World, id: Id): (World, Reply<NetworkHit>) {
    Read(env, w, if id in w.registry.networks then Reply(One(id, w.registry.networks[id])) else Failed(NoMatch))
  }

  function GetNetworkOffering(env: Env, w: World, name: string): (World, Reply<Offering>) {
    Read(env, w, if name in w.catalogue.offerings then Reply(w.catalogue.offerings[name]) else Failed(NoMatch))
  }

  /** A new network; what the caller leaves open is decided by the offering. */
  function NetworkFor(g: Registry, name: string, o: Offering, gateway: string, netmask: string, vpc: Id): NetworkInfo {
    NetworkInfo(name, if gateway == "" then o.gateway else gateway, if netmask == "" then o.netmask else netmask,
                o.routingMode, vpc, if vpc in g.vpcs then g.vpcs[vpc].name else "", o.egressDefault)
  }

  function PlusNetwork(g: Registry, info: NetworkInfo): Registry {
    g.(nextId := g.nextId + 1, networks := g.networks[g.nextId := info])
  }

  function PlusVpc(g: Registry, info: VpcInfo): Registry {
    g.(nextId := g.nextId + 1, vpcs := g.vpcs[g.nextId := info])
  }

  function Minus(g: Registry, r: Resource): Registry {
    match r.kind
    case NetworkKind => g.(networks := g.networks - {r.id}, tags := g.tags - {r})
    case VpcKind => g.(vpcs := g.vpcs - {r.id}, tags := g.tags - {r})
    case AddressKind => g
  }

  function CreateNetwork(env: Env, w: World, info: NetworkInfo): (World, GoError) {
    Change(env, w, true, Other, w.(registry := PlusNetwork(w.registry, info)))
  }

  function CreateVpc(env: Env, w: World, info: VpcInfo): (World, GoError) {
    Change(env, w, true, Other, w.(registry := PlusVpc(w.registry, info)))
  }

  /** DeleteNetwork and DeleteVPC. */
  function Delete(env: Env, w: World, r: Resource): (World, GoError) {
    Change(env, w, Present(w.registry, r), NoMatch, w.(registry := Minus(w.registry, r)))
  }

  function GetVpcByID(env: Env, w: World, id: Id): (World, Reply<VpcInfo>) {
    Read(env, w, if id in w.registry.vpcs then Reply(w.registry.vpcs[id]) else Failed(NoMatch))
  }

  /** The first VPC of that name. */
  function GetVpcByName(env: Env, w: World, name: string): (World, Reply<(Id, VpcInfo)>) {
    var ids := VpcsNamed(w.registry, name, 0);
    Read(env, w,
         if ids == [] || ids[0] !in w.registry.vpcs then Failed(NoMatch)
         else Reply((ids[0], w.registry.vpcs[ids[0]])))
  }

  function GetVpcOffering(env: Env, w: World, name: string): (World, Reply<()>) {
    Read(env, w, if name in w.catalogue.vpcOfferings then Reply(()) else Failed(NoMatch))
  }

  // ---- Public addresses ----------------------------------------------------------------------

  /** Addresses of a zone, all of them or those with a given IP. */
  function Listed(addresses: seq<Address>, zone: Id, ip: string): (found: seq<Address>) {
    if addresses == [] then []
    else (if addresses[0].zone == zone && (ip == "" || addresses[0].ip == ip) then [addresses[0]] else [])
         + Listed(addresses[1..], zone, ip)
  }

  function AddressById(addresses: seq<Address>, id: Id): (found: Option<Address>) {
    if addresses == [] then None
    else if addresses[0].id == id then Some(addresses[0])
    else AddressById(addresses[1..], id)
  }

  function ListAddresses(env: Env, w: World, zone: Id, ip: string): (World, Reply<seq<Address>>) {
    Read(env, w, Reply(Listed(w.edge.addresses, zone, ip)))
  }

  function GetAddressByID(env: Env, w: World, id: Id): (World, Reply<Address>) {
    Read(env, w, match AddressById(w.edge.addresses, id) case Some(a) => Reply(a) case None => Failed(NoMatch))
  }

  /** Association with a VPC when one is given, and with the network otherwise. */
  function Associated(a: Address, network: Id, vpc: Id): Address {
    if vpc != 0 then a.(taken := true, vpc := vpc) else a.(taken := true, network := network)
  }

  function Associate(addresses: seq<Address>, ip: string, network: Id, vpc: Id): seq<Address> {
    seq(|addresses|, i requires 0 <= i < |addresses| =>
        if addresses[i].ip == ip then Associated(addresses[i], network, vpc) else addresses[i])
  }

  function Disassociate(addresses: seq<Address>, id: Id): seq<Address> {
    seq(|addresses|, i requires 0 <= i < |addresses| =>
        if addresses[i].id == id then addresses[i].(taken := false, network := 0, vpc := 0) else addresses[i])
  }

  function AssociateAddress(env: Env, w: World, ip: string, network: Id, vpc: Id): (World, GoError) {
    Change(env, w, true, Other, w.(edge := w.edge.(addresses := Associate(w.edge.addresses, ip, network, vpc))))
  }

  function DisassociateAddress(env: Env, w: World, id: Id): (World, GoError) {
    Change(env, w, AddressKnown(w.edge.addresses, id), NoMatch,
           w.(edge := w.edge.(addresses := Disassociate(w.edge.addresses, id))))
  }

  // ---- Load balancer and firewall rules ------------------------------------------------------

  function RulesOf(rules: seq<LbRule>, address: Id): (found: seq<LbRule>) {
    if rules == [] then []
    else (if rules[0].address == address then [rules[0]] else []) + RulesOf(rules[1..], address)
  }

  function ListLbRules(env: Env, w: World, address: Id): (World, Reply<seq<LbRule>>) {
    Read(env, w, Reply(RulesOf(w.edge.lbRules, address)))
  }

  /** The new rule's identifier is `nextRule`. */
  function CreateLbRule(env: Env, w: World, address: Id, publicPort: int): (World, GoError) {
    Change(env, w, true, Other,
           w.(edge := w.edge.(nextRule := w.edge.nextRule + 1,
                              lbRules := w.edge.lbRules + [LbRule(w.edge.nextRule, address, publicPort)])))
  }

  function RulesAt(rules: map<Id, seq<FirewallRule>>, network: Id): seq<FirewallRule> {
    if network in rules then rules[network] else []
  }

  function WithRule(rules: map<Id, seq<FirewallRule>>, network: Id, rule: FirewallRule): map<Id, seq<FirewallRule>> {
    rules[network := RulesAt(rules, network) + [rule]]
  }

  function ListEgressRules(env: Env, w: World, network: Id): (World, Reply<seq<FirewallRule>>) {
    Read(env, w, Reply(RulesAt(w.edge.egress, network)))
  }

  /** A rule the network already has is refused as a duplicate. */
  function CreateEgressRule(env: Env, w: World, network: Id, rule: FirewallRule): (World, GoError) {
    Change(env, w, rule !in RulesAt(w.edge.egress, network), Duplicate,
           w.(edge := w.edge.(egress := WithRule(w.edge.egress, network, rule))))
  }

  function CreateRoutingRule(env: Env, w: World, network: Id, rule: FirewallRule): (World, GoError) {
    Change(env, w, rule !in RulesAt(w.edge.routing, network), Duplicate,
           w.(edge := w.edge.(routing := WithRule(w.edge.routing, network, rule))))
  }
}
