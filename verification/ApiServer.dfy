/** The Kubernetes API server: the objects the failure-domain and cluster controllers read, delete and release. */
module ApiServer {
  import opened Faults

  /** A field of an unstructured object. */
  datatype Field<+T> = Absent | Malformed | Present(value: T)

  datatype RefKind = MachineKind | OtherKind(name: string)
  datatype OwnerRef = OwnerRef(kind: RefKind, name: string)

  /** A CloudStackMachine: its name, its failure-domain label and its owners. */
  datatype CsMachine = CsMachine(name: string, domain: string, owners: seq<OwnerRef>)

  /** A MachineSet, a control plane, or whatever else owns machines. */
  datatype ReplicaOwner = ReplicaOwner(specReplicas: Field<int>, statusReplicas: Field<int>, ready: Field<bool>,
                                       readyReplicas: Field<int>)

  /** The CAPI cluster: whether it is being deleted, and its conditions as (type, status). */
  datatype CapiCluster = CapiCluster(deleting: bool, conditions: seq<(string, string)>)

  datatype ChildKind = AffinityGroup | IsolatedNetwork

  /** An object owned by the failure domain with that UID. */
  datatype Child = Child(kind: ChildKind, name: string, owner: nat, finalizer: bool, deleting: bool)

  /** A CloudStackFailureDomain: its UID, the name in its spec, and the CAPI cluster it is labelled with. */
  datatype Domain = Domain(uid: nat, name: string, cluster: string, ready: bool, finalizer: bool, deleting: bool)

  type Domains = map<string, Domain>

  /** A CloudStackCluster: the CAPI cluster it is labelled with, and the failure domains its spec asks for. */
  datatype OwnCluster = OwnCluster(capi: string, wanted: seq<string>, ready: bool, finalizer: bool, deleting: bool)

  type Clusters = map<string, OwnCluster>

  /** `machines` holds the CAPI machines, each with whether it is being deleted; `nextUid` is the next UID given out. */
  datatype Store = Store(clock: nat, machines: map<string, bool>, csMachines: seq<CsMachine>,
                         owners: map<OwnerRef, ReplicaOwner>, children: seq<Child>,
                         nextUid: nat, domains: Domains, clusters: Clusters)

  class Api {
    const env: Env
    var store: Store

    constructor (env: Env, store: Store)
      ensures this.env == env && this.store == store
    {
      this.env, this.store := env, store;
    }
  }

  function Tick(k: Store): Store { k.(clock := k.clock + 1) }

  function Still(k: Store): Store { k.(clock := 0) }

  function Change(env: Env, k: Store, accepted: bool, refusal: Text, done: Store): (Store, GoError) {
    var (k1, err) := Attempt(env(k.clock), accepted, refusal, k, done);
    (Tick(k1), err)
  }

  function Read<T>(env: Env, k: Store, reply: Reply<T>): (Store, Reply<T>) {
    (Tick(k), Answer(env(k.clock), reply))
  }

  // ---- Machines ------------------------------------------------------------------------------

  function InDomain(machines: seq<CsMachine>, domain: string): (found: seq<CsMachine>) {
    if machines == [] then []
    else (if machines[0].domain == domain then [machines[0]] else []) + InDomain(machines[1..], domain)
  }

  function ListMachines(env: Env, k: Store, domain: string): (Store, Reply<seq<CsMachine>>) {
    Read(env, k, Reply(InDomain(k.csMachines, domain)))
  }

  function GetOwner(env: Env, k: Store, ref: OwnerRef): (Store, Reply<ReplicaOwner>) {
    Read(env, k, if ref in k.owners then Reply(k.owners[ref]) else Failed(NoMatch))
  }

  /** Whether the CAPI machine is being deleted. */
  function GetMachine(env: Env, k: Store, name: string): (Store, Reply<bool>) {
    Read(env, k, if name in k.machines then Reply(k.machines[name]) else Failed(NoMatch))
  }

  /** CAPI machines carry a finalizer, so a deletion marks them. */
  function DeleteMachine(env: Env, k: Store, name: string): (Store, GoError) {
    Change(env, k, name in k.machines, NoMatch, k.(machines := k.machines[name := true]))
  }

  // ---- Children of a failure domain ----------------------------------------------------------

  function OfKind(children: seq<Child>, kind: ChildKind): (found: seq<Child>) {
    if children == [] then []
    else (if children[0].kind == kind then [children[0]] else []) + OfKind(children[1..], kind)
  }

  function ListChildren(env: Env, k: Store, kind: ChildKind): (Store, Reply<seq<Child>>) {
    Read(env, k, Reply(OfKind(k.children, kind)))
  }

  predicate Is(c: Child, kind: ChildKind, name: string) { c.kind == kind && c.name == name }

  /** An object with a finalizer is marked; one without is gone. */
  function Without(children: seq<Child>, kind: ChildKind, name: string): seq<Child> {
    if children == [] then []
    else
      var rest := Without(children[1..], kind, name);
      if !Is(children[0], kind, name) then [children[0]] + rest
      else if children[0].finalizer then [children[0].(deleting := true)] + rest
      else rest
  }

  function DeleteChild(env: Env, k: Store, kind: ChildKind, name: string): (Store, GoError) {
    Change(env, k, exists c :: c in k.children && Is(c, kind, name), NoMatch,
           k.(children := Without(k.children, kind, name)))
  }

  // ---- Failure domains -----------------------------------------------------------------------

  function NewDomain(uid: nat, name: string, cluster: string): Domain {
    Domain(uid, name, cluster, false, false, false)
  }

  /** Creation is refused with "already exists", for which `Duplicate` stands here. */
  function CreateDomain(env: Env, k: Store, meta: string, name: string, cluster: string): (Store, GoError) {
    Change(env, k, meta !in k.domains, Duplicate,
           k.(nextUid := k.nextUid + 1, domains := k.domains[meta := NewDomain(k.nextUid, name, cluster)]))
  }

  /** What is left of a failure domain that is deleted: marked, or gone. */
  function Deleted(domains: Domains, meta: string): Domains {
    if meta !in domains then domains
    else if domains[meta].finalizer then domains[meta := domains[meta].(deleting := true)]
    else domains - {meta}
  }

  function DeleteDomain(env: Env, k: Store, meta: string): (Store, GoError) {
    Change(env, k, meta in k.domains, NoMatch, k.(domains := Deleted(k.domains, meta)))
  }

  /** A failure domain without finalizer that is marked for deletion vanishes. */
  function Unfinalized(domains: Domains, meta: string): Domains {
    if meta !in domains then domains
    else if domains[meta].deleting then domains - {meta}
    else domains[meta := domains[meta].(finalizer := false)]
  }

  function ReleaseDomain(env: Env, k: Store, meta: string): (Store, GoError) {
    Change(env, k, meta in k.domains, NoMatch, k.(domains := Unfinalized(k.domains, meta)))
  }

  /** The failure domains that carry a cluster's label. */
  function DomainsOf(domains: Domains, cluster: string): set<string> {
    set meta | meta in domains && domains[meta].cluster == cluster
  }

  // ---- Clusters ------------------------------------------------------------------------------

  function UnfinalizedCluster(clusters: Clusters, name: string): Clusters {
    if name !in clusters then clusters
    else if clusters[name].deleting then clusters - {name}
    else clusters[name := clusters[name].(finalizer := false)]
  }

  function ReleaseCluster(env: Env, k: Store, name: string): (Store, GoError) {
    Change(env, k, name in k.clusters, NoMatch, k.(clusters := UnfinalizedCluster(k.clusters, name)))
  }

  function ReadyCluster(clusters: Clusters, name: string): Clusters {
    if name !in clusters then clusters else clusters[name := clusters[name].(ready := true, finalizer := true)]
  }

  function MarkReady(env: Env, k: Store, name: string): (Store, GoError) {
    Change(env, k, name in k.clusters, NoMatch, k.(clusters := ReadyCluster(k.clusters, name)))
  }

  /**
   The label by which a reconciliation lists failure domains: that of the CloudStackCluster fetched by the label of the
   one being reconciled, or the empty string if there is none. It is the same object if it bears its CAPI cluster's
   name.
   */
  function ListingLabel(clusters: Clusters, name: string): string
    requires name in clusters
  {
    if clusters[name].capi in clusters then clusters[clusters[name].capi].capi else ""
  }

  /** An item of a listing: the object's name, and the object as it was when listed. */
  type Item = (string, Domain)

  /** An order in which the API server may list the failure domains with this label. */
  ghost predicate Lists(domains: Domains, cluster: string, listing: seq<Item>) {
    && (forall item :: item in listing <==>
          item.0 in domains && domains[item.0] == item.1 && item.1.cluster == cluster)
    && (forall i, j :: 0 <= i < j < |listing| ==> listing[i].0 != listing[j].0)
  }

  /** How the API server orders what it lists. */
  type Order = (Domains, string) -> seq<Item>

  ghost predicate Faithful(order: Order) {
    forall domains, cluster :: Lists(domains, cluster, order(domains, cluster))
  }

  function ListDomains(env: Env, k: Store, cluster: string, order: Order): (Store, Reply<seq<Item>>) {
    Read(env, k, Reply(order(k.domains, cluster)))
  }
}
