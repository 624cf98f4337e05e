/**
 Teardown over whole runs: clusters, failure domains, machines and the children of failure domains come and go, users
 and other controllers interfere, and the failure-domain and cluster controllers reconcile with any failures.
 */
module TeardownRun {
  import opened Faults
  import opened ApiServer
  import opened Names
  import opened DomainSpec
  import opened DrainEffects
  import Stages
  import Teardown = ClusterTeardown
  import Ready = ClusterReady

  /** What can happen next. The first three are steps of the modelled controllers. */
  datatype Event =
    | DomainReconciled(env: Env, domain: string, cluster: CapiCluster)
    | ClusterSetUp(env: Env, name: string, hash: Ready.Hash, order: Order)
    | ClusterTornDown(env: Env, name: string, order: Order)
    | ClusterCreated(name: string, capi: string, wanted: seq<string>)
    | ClusterUpdated(name: string, wanted: seq<string>)
    | ClusterDeleted(name: string)
    | DomainCreated(domain: string, spec: string, ofCluster: string)
    | DomainSetUp(domain: string, ready: bool)
    | DomainDeleted(domain: string)
    | MachineCreated(name: string)
    | MachineDeleted(name: string)
    | MachineGone(name: string)
    | CsMachineJoined(m: CsMachine)
    | CsMachineGone(m: CsMachine)
    | ChildJoined(child: Child)
    | ChildDeleted(kind: ChildKind, name: string)
    | ChildFinished(kind: ChildKind, name: string)
    | OwnersChanged(owners: map<OwnerRef, ReplicaOwner>)

  /**
   The API server and three records kept by the reader of the run: `drained` are the Machines the drain has marked,
   `released` the clusters whose finalizer the controller took off, and `readied` those of which a reconciliation
   reached SetReady, with the write that follows taking effect.
   */
  datatype System = System(k: Store, drained: set<string>, released: set<string>, readied: set<string>)

  function OwnerOf(m: CsMachine): Option<string> { MachineOwner(m.owners) }

  /** A failure domain that was set up and is not going away. */
  predicate Open(domains: Domains, name: string) {
    name in domains && domains[name].finalizer && !domains[name].deleting
  }

  /** What the environment respects: nothing joins a failure domain that is going away, identities are not shared, and a
      cluster bears the name of its CAPI cluster. */
  ghost predicate Allowed(s: System, e: Event) {
    match e
    case DomainReconciled(_, domain, _) => domain in s.k.domains && s.k.domains[domain].deleting
    case ClusterSetUp(_, name, _, order) =>
      name in s.k.clusters && !s.k.clusters[name].deleting && Faithful(order)
    case ClusterTornDown(_, name, order) =>
      name in s.k.clusters && s.k.clusters[name].deleting && Faithful(order)
    case ClusterCreated(name, capi, _) => name !in s.k.clusters && capi == name
    case ClusterUpdated(name, _) => name in s.k.clusters
    case ClusterDeleted(name) => name in s.k.clusters
    case DomainCreated(domain, _, cluster) =>
      domain !in s.k.domains && cluster in s.k.clusters && !s.k.clusters[cluster].deleting
    case DomainSetUp(domain, _) => domain in s.k.domains && !s.k.domains[domain].deleting
    case MachineCreated(name) => name !in s.k.machines
    case MachineDeleted(name) => name in s.k.machines
    case MachineGone(name) =>
      name in s.k.machines && s.k.machines[name] && forall m :: m in s.k.csMachines ==> OwnerOf(m) != Some(name)
    case CsMachineJoined(m) =>
      && Open(s.k.domains, m.domain)
      && OwnerOf(m).Some? && OwnerOf(m).value in s.k.machines && !s.k.machines[OwnerOf(m).value]
      && forall m' :: m' in s.k.csMachines ==> m'.name != m.name && OwnerOf(m') != OwnerOf(m)
    case ChildJoined(c) =>
      && !c.deleting
      && (exists name :: Open(s.k.domains, name) && s.k.domains[name].uid == c.owner)
      && forall c' :: c' in s.k.children ==> !Is(c', c.kind, c.name)
    case _ => true
  }

  function RemoveMachine(machines: seq<CsMachine>, m: CsMachine): seq<CsMachine> {
    if machines == [] then []
    else
      var rest := RemoveMachine(machines[1..], m);
      if machines[0] == m then rest else [machines[0]] + rest
  }

  /** The finalizer of a child being deleted is taken off. */
  function Finish(children: seq<Child>, kind: ChildKind, name: string): seq<Child> {
    if children == [] then []
    else
      var rest := Finish(children[1..], kind, name);
      if Is(children[0], kind, name) && children[0].deleting then rest else [children[0]] + rest
  }

  function DeletedCluster(clusters: Clusters, name: string): Clusters {
    if name !in clusters then clusters
    else if clusters[name].finalizer then clusters[name := clusters[name].(deleting := true)]
    else clusters - {name}
  }

  function NewlyMarked(before: map<string, bool>, after: map<string, bool>): set<string> {
    set name | name in after && after[name] && name in before && !before[name]
  }

  /** The API server after an event that is not a step of the modelled controllers. */
  function Changed(k: Store, e: Event): Store {
    match e
    case ClusterCreated(name, capi, wanted) =>
      k.(clusters := k.clusters[name := OwnCluster(capi, wanted, false, false, false)])
    case ClusterUpdated(name, wanted) =>
      if name in k.clusters then k.(clusters := k.clusters[name := k.clusters[name].(wanted := wanted)]) else k
    case ClusterDeleted(name) => k.(clusters := DeletedCluster(k.clusters, name))
    case DomainCreated(domain, spec, cluster) =>
      k.(nextUid := k.nextUid + 1, domains := k.domains[domain := NewDomain(k.nextUid, spec, cluster)])
    case DomainSetUp(domain, ready) =>
      if domain in k.domains
      then k.(domains := k.domains[domain := k.domains[domain].(ready := ready, finalizer := true)]) else k
    case DomainDeleted(domain) => k.(domains := Deleted(k.domains, domain))
    case MachineCreated(name) => k.(machines := k.machines[name := false])
    case MachineDeleted(name) => k.(machines := k.machines[name := true])
    case MachineGone(name) => k.(machines := k.machines - {name})
    case CsMachineJoined(m) => k.(csMachines := k.csMachines + [m])
    case CsMachineGone(m) => k.(csMachines := RemoveMachine(k.csMachines, m))
    case ChildJoined(c) => k.(children := k.children + [c])
    case ChildDeleted(kind, name) => k.(children := Without(k.children, kind, name))
    case ChildFinished(kind, name) => k.(children := Finish(k.children, kind, name))
    case OwnersChanged(owners) => k.(owners := owners)
    case _ => k
  }

  /** The reconciliation reaches SetReady, and writing that back has an effect. */
  predicate ReachesReady(env: Env, k: Store, hash: Ready.Hash, name: string, order: Order)
    requires name in k.clusters
  {
    var (k1, res) := Ready.Converge(env, k, hash, name, order);
    res == Stages.Continue && (env(k1.clock).Normal? || env(k1.clock).applied)
  }

  /** Events that are not allowed in a state do not happen in it. */
  ghost function Step(s: System, e: Event): System {
    if !Allowed(s, e) then s
    else match e
      case DomainReconciled(env, domain, cluster) =>
        var k' := Reconcile(env, s.k, domain, cluster).0;
        s.(k := k', drained := s.drained + NewlyMarked(s.k.machines, k'.machines))
      case ClusterSetUp(env, name, hash, order) =>
        s.(k := Ready.Reconciliation(env, s.k, hash, name, order).0,
           readied := if ReachesReady(env, s.k, hash, name, order) then s.readied + {name} else s.readied)
      case ClusterTornDown(env, name, order) =>
        var k' := Teardown.Reconcile(env, s.k, name, order).0;
        s.(k := k', released := if name in k'.clusters then s.released else s.released + {name})
      case ClusterCreated(name, _, _) =>
        s.(k := Changed(s.k, e), released := s.released - {name}, readied := s.readied - {name})
      case MachineGone(name) => s.(k := Changed(s.k, e), drained := s.drained - {name})
      case _ => s.(k := Changed(s.k, e))
  }

  ghost function Run(s: System, events: seq<Event>): System
    decreases |events|
  {
    if |events| == 0 then s else Run(Step(s, events[0]), events[1..])
  }

  // ---- What every step keeps -----------------------------------------------------------------

  /** Every CloudStackMachine has its own name and its own Machine. */
  ghost predicate Owned(machines: map<string, bool>, cs: seq<CsMachine>) {
    && (forall m :: m in cs ==> OwnerOf(m).Some? && OwnerOf(m).value in machines)
    && (forall a, b :: a in cs && b in cs && (a.name == b.name || OwnerOf(a) == OwnerOf(b)) ==> a == b)
  }

  predicate Guarded(domains: Domains, name: string) { name in domains && domains[name].finalizer }

  ghost predicate HasParent(domains: Domains, c: Child) {
    exists name :: Guarded(domains, name) && domains[name].uid == c.owner
  }

  /** No machine and no child of a failure domain outlives it. */
  ghost predicate Rooted(cs: seq<CsMachine>, children: seq<Child>, domains: Domains) {
    && (forall m :: m in cs ==> Guarded(domains, m.domain))
    && (forall c :: c in children ==> HasParent(domains, c))
  }

  /** No failure domain outlives a cluster that the controller released. */
  ghost predicate ClustersFirst(s: System) {
    && (forall name :: name in s.released ==> name !in s.k.clusters)
    && (forall d :: d in s.k.domains ==> s.k.domains[d].cluster !in s.released)
  }

  /** Clusters bear their CAPI cluster's name, and are ready and have their finalizer exactly once one of their
      reconciliations reached SetReady and was written back. */
  ghost predicate ClustersProper(clusters: Clusters, readied: set<string>) {
    forall name :: name in clusters ==>
      && clusters[name].capi == name
      && (clusters[name].ready <==> name in readied) && (clusters[name].finalizer <==> name in readied)
  }

  ghost predicate FirstByName(cs: seq<CsMachine>, m: CsMachine) {
    forall m' :: m' in cs && m'.domain == m.domain ==> !Less(m'.name, m.name)
  }

  /** A machine whose Machine the drain has marked is the first of its failure domain, which is going away. */
  ghost predicate SingleFlight(k: Store, drained: set<string>) {
    && (forall name :: name in drained ==> name in k.machines && k.machines[name])
    && (forall m :: m in k.csMachines && OwnerOf(m).Some? && OwnerOf(m).value in drained ==>
          && m.domain in k.domains && k.domains[m.domain].deleting
          && FirstByName(k.csMachines, m))
  }

  ghost predicate Inv(s: System) {
    && Owned(s.k.machines, s.k.csMachines)
    && Rooted(s.k.csMachines, s.k.children, s.k.domains)
    && Ready.DistinctUids(s.k.domains, s.k.nextUid)
    && ClustersFirst(s)
    && ClustersProper(s.k.clusters, s.readied)
    && SingleFlight(s.k, s.drained)
  }

  // ---- Steps of the failure-domain controller ------------------------------------------------

  /** With every machine behind a Machine, there is no first Machine only if there is no machine. */
  lemma NoneLeft(k: Store, domain: string)
    requires Owned(k.machines, k.csMachines)
    ensures FirstMachine(k, domain).None? <==> forall m :: m in k.csMachines ==> m.domain != domain
    ensures FirstMachine(k, domain).Some? ==>
              && Listing(k, domain) != []
              && var m := Listing(k, domain)[0];
                 && m in k.csMachines && m.domain == domain && OwnerOf(m) == FirstMachine(k, domain)
                 && FirstByName(k.csMachines, m)
  {
    ListingIs(k, domain);
    if Listing(k, domain) != [] { assert Listing(k, domain)[0] in Listing(k, domain); }
  }

  lemma DomainStepMachines(s: System, e: Event)
    requires Inv(s) && Allowed(s, e) && e.DomainReconciled?
    ensures var s' := Step(s, e); Owned(s'.k.machines, s'.k.csMachines) && SingleFlight(s'.k, s'.drained)
  {
    var s' := Step(s, e);
    var k, k' := s.k, s'.k;
    DeletionMarksOrReleases(e.env, k, e.domain, e.cluster);
    NoneLeft(k, e.domain);
    if k'.machines == k.machines {
      assert NewlyMarked(k.machines, k'.machines) == {};
    } else {
      var first := Listing(k, e.domain)[0];
      var name := FirstMachine(k, e.domain).value;
      assert NewlyMarked(k.machines, k'.machines) == {name};
      forall m | m in k.csMachines && OwnerOf(m).Some? && OwnerOf(m).value in s'.drained
        ensures m.domain in k'.domains && k'.domains[m.domain].deleting && FirstByName(k.csMachines, m)
      {
        if OwnerOf(m).value == name { assert m == first; }
      }
    }
  }

  lemma DomainStepRoots(s: System, e: Event)
    requires Inv(s) && Allowed(s, e) && e.DomainReconciled?
    ensures var s' := Step(s, e);
            && Rooted(s'.k.csMachines, s'.k.children, s'.k.domains)
            && Ready.DistinctUids(s'.k.domains, s'.k.nextUid) && ClustersFirst(s')
            && ClustersProper(s'.k.clusters, s'.readied)
  {
    var s' := Step(s, e);
    var k, k' := s.k, s'.k;
    DeletionMarksOrReleases(e.env, k, e.domain, e.cluster);
    NoneLeft(k, e.domain);
    forall c | c in k'.children ensures HasParent(k'.domains, c) {
      var c0 := if c in k.children then c else c.(deleting := false);
      assert HasParent(k.domains, c0);
      var name :| Guarded(k.domains, name) && k.domains[name].uid == c.owner;
      assert Guarded(k'.domains, name);
    }
  }

  // ---- The other steps -----------------------------------------------------------------------

  lemma ShrunkKeeps(s: System, k': Store)
    requires Inv(s) && Teardown.Shrunk(s.k.domains, k'.domains)
    requires k'.csMachines == s.k.csMachines && k'.children == s.k.children && k'.machines == s.k.machines
    ensures Rooted(k'.csMachines, k'.children, k'.domains) && Ready.DistinctUids(k'.domains, s.k.nextUid)
    ensures SingleFlight(k', s.drained)
    ensures forall d :: d in k'.domains ==> k'.domains[d].cluster !in s.released
  {
    forall c | c in k'.children ensures HasParent(k'.domains, c) {
      assert HasParent(s.k.domains, c);
      var name :| Guarded(s.k.domains, name) && s.k.domains[name].uid == c.owner;
      assert Guarded(k'.domains, name);
    }
  }

  lemma TeardownStepKeeps(s: System, e: Event)
    requires Inv(s) && Allowed(s, e) && e.ClusterTornDown?
    ensures Inv(Step(s, e))
  {
    var s' := Step(s, e);
    Teardown.ReleasedOnlyWhenNoneListed(e.env, s.k, e.name, e.order);
    ShrunkKeeps(s, s'.k);
    assert ListingLabel(s.k.clusters, e.name) == e.name;
    forall d | d in s'.k.domains && s'.k.domains[d].cluster == e.name ensures d in DomainsOf(s.k.domains, e.name) {
    }
  }

  /** What is there stays rooted when failure domains are added. */
  lemma GrownKeeps(s: System, k': Store, cluster: string)
    requires Inv(s) && Ready.Grown(s.k, k', cluster) && cluster in s.k.clusters
    ensures Inv(s.(k := k'))
  {
    forall c | c in k'.children ensures HasParent(k'.domains, c) {
      assert HasParent(s.k.domains, c);
      var name :| Guarded(s.k.domains, name) && s.k.domains[name].uid == c.owner;
      assert Guarded(k'.domains, name);
    }
    forall d | d in k'.domains ensures k'.domains[d].cluster !in s.released {
      if d !in s.k.domains { assert Ready.Fresh(k'.domains[d], cluster, s.k.nextUid); }
    }
  }

  /** What a reconciliation of a cluster leaves alone, and what it does to failure domains and clusters. */
  lemma SetUpFrame(env: Env, k: Store, hash: Ready.Hash, name: string, order: Order) returns (k1: Store)
    requires name in k.clusters
    ensures var k' := Ready.Reconciliation(env, k, hash, name, order).0;
            && Ready.Grown(k, k1, k.clusters[name].capi) && Teardown.Shrunk(k1.domains, k'.domains)
            && k'.machines == k1.machines && k'.csMachines == k1.csMachines && k'.children == k1.children
            && k'.nextUid == k1.nextUid && k1.clusters == k.clusters
            && k'.clusters == (if ReachesReady(env, k, hash, name, order) then ReadyCluster(k.clusters, name)
                               else k.clusters)
  {
    k1 := Ready.ConvergeGrowsThenShrinks(env, k, hash, name, order);
    assert Ready.Converge(env, k, hash, name, order).0.clusters == k.clusters;
  }

  lemma SetUpStepKeeps(s: System, e: Event)
    requires Inv(s) && Allowed(s, e) && e.ClusterSetUp?
    ensures Inv(Step(s, e))
  {
    var k1 := SetUpFrame(e.env, s.k, e.hash, e.name, e.order);
    GrownKeeps(s, k1, s.k.clusters[e.name].capi);
    var grown := s.(k := k1);
    var k' := Step(s, e).k;
    ShrunkKeeps(grown, k');
    assert ClustersProper(k'.clusters, Step(s, e).readied);
    assert ClustersFirst(Step(s, e));
  }

  lemma UserClusterStepKeeps(s: System, e: Event)
    requires Inv(s) && (e.ClusterCreated? || e.ClusterUpdated? || e.ClusterDeleted?)
    ensures Inv(Step(s, e))
  {
  }

  /** A failure domain created by somebody else is one more. */
  lemma DomainCreatedKeeps(s: System, e: Event)
    requires Inv(s) && Allowed(s, e) && e.DomainCreated?
    ensures Inv(Step(s, e))
  {
    GrownKeeps(s, Step(s, e).k, e.ofCluster);
  }

  lemma DomainSetUpKeeps(s: System, e: Event)
    requires Inv(s) && Allowed(s, e) && e.DomainSetUp?
    ensures Inv(Step(s, e))
  {
    var s' := Step(s, e);
    forall c | c in s.k.children ensures HasParent(s'.k.domains, c) {
      assert HasParent(s.k.domains, c);
      var name :| Guarded(s.k.domains, name) && s.k.domains[name].uid == c.owner;
      assert Guarded(s'.k.domains, name);
    }
  }

  lemma {:induction false} RemoveMachineIs(machines: seq<CsMachine>, m: CsMachine)
    ensures forall x :: x in RemoveMachine(machines, m) <==> x in machines && x != m
  {
    if machines != [] { RemoveMachineIs(machines[1..], m); }
  }

  /** What happens to Machines alone. */
  lemma MachineStepKeeps(s: System, e: Event)
    requires Inv(s) && Allowed(s, e) && (e.MachineCreated? || e.MachineDeleted? || e.MachineGone?)
    ensures Inv(Step(s, e))
  {
  }

  lemma CsMachineJoinedKeeps(s: System, e: Event)
    requires Inv(s) && Allowed(s, e) && e.CsMachineJoined?
    ensures Inv(Step(s, e))
  {
    var k' := Step(s, e).k;
    assert Owned(k'.machines, k'.csMachines);
    assert SingleFlight(k', s.drained);
  }

  lemma CsMachineGoneKeeps(s: System, e: Event)
    requires Inv(s) && Allowed(s, e) && e.CsMachineGone?
    ensures Inv(Step(s, e))
  {
    RemoveMachineIs(s.k.csMachines, e.m);
  }

  lemma {:induction false} FinishIsFewer(children: seq<Child>, kind: ChildKind, name: string)
    ensures Fewer(children, Finish(children, kind, name))
  {
    if children != [] { FinishIsFewer(children[1..], kind, name); }
  }

  lemma ChildStepKeeps(s: System, e: Event)
    requires Inv(s) && Allowed(s, e) && (e.ChildJoined? || e.ChildDeleted? || e.ChildFinished?)
    ensures Inv(Step(s, e))
  {
    var s' := Step(s, e);
    if e.ChildDeleted? { WithoutIsFewer(s.k.children, e.kind, e.name); }
    if e.ChildFinished? { FinishIsFewer(s.k.children, e.kind, e.name); }
    forall c | c in s'.k.children ensures HasParent(s'.k.domains, c) {
      if e.ChildJoined? && c == e.child {
        var name :| Open(s.k.domains, name) && s.k.domains[name].uid == c.owner;
        assert Guarded(s.k.domains, name);
      } else {
        var c0 := if c in s.k.children then c else c.(deleting := false);
        assert HasParent(s.k.domains, c0);
        var name :| Guarded(s.k.domains, name) && s.k.domains[name].uid == c.owner;
      }
    }
  }

  lemma StepKeeps(s: System, e: Event)
    requires Inv(s)
    ensures Inv(Step(s, e))
  {
    if Allowed(s, e) {
      match e
      case DomainReconciled(_, _, _) => DomainStepMachines(s, e); DomainStepRoots(s, e);
      case ClusterSetUp(_, _, _, _) => SetUpStepKeeps(s, e);
      case ClusterTornDown(_, _, _) => TeardownStepKeeps(s, e);
      case ClusterCreated(_, _, _) => UserClusterStepKeeps(s, e);
      case ClusterUpdated(_, _) => UserClusterStepKeeps(s, e);
      case ClusterDeleted(_) => UserClusterStepKeeps(s, e);
      case DomainCreated(_, _, _) => DomainCreatedKeeps(s, e);
      case DomainSetUp(_, _) => DomainSetUpKeeps(s, e);
      case DomainDeleted(domain) => Teardown.DeletedIsShrunk(s.k.domains, domain); ShrunkKeeps(s, Step(s, e).k);
      case MachineCreated(_) => MachineStepKeeps(s, e);
      case MachineDeleted(_) => MachineStepKeeps(s, e);
      case MachineGone(_) => MachineStepKeeps(s, e);
      case CsMachineJoined(_) => CsMachineJoinedKeeps(s, e);
      case CsMachineGone(_) => CsMachineGoneKeeps(s, e);
      case ChildJoined(_) => ChildStepKeeps(s, e);
      case ChildDeleted(_, _) => ChildStepKeeps(s, e);
      case ChildFinished(_, _) => ChildStepKeeps(s, e);
      case OwnersChanged(_) =>
    }
  }

  /**
   Teardown order, whatever fails and whoever interferes: at every point of a run each machine and each child still has
   its failure domain, no failure domain belongs to a cluster the controller released, and what the drain has marked is
   the first machine of a failure domain that is going away.
   */
  lemma {:induction false} TeardownIsOrdered(s: System, events: seq<Event>)
    requires Inv(s)
    ensures Inv(Run(s, events))
    decreases |events|
  {
    if |events| != 0 {
      StepKeeps(s, events[0]);
      TeardownIsOrdered(Step(s, events[0]), events[1..]);
    }
  }

  const NOTHING := System(Store(0, map[], [], map[], [], 0, map[], map[]), {}, {}, {})

  /** From an empty API server on, the drain never has two machines of one failure domain in flight. */
  lemma DrainIsSingleFlight(events: seq<Event>, a: CsMachine, b: CsMachine)
    requires var s := Run(NOTHING, events);
             && a in s.k.csMachines && b in s.k.csMachines && a.domain == b.domain
             && OwnerOf(a).Some? && OwnerOf(a).value in s.drained
             && OwnerOf(b).Some? && OwnerOf(b).value in s.drained
    ensures a == b
  {
    assert Inv(NOTHING);
    TeardownIsOrdered(NOTHING, events);
    LessTotal(a.name, b.name);
  }

  /** From an empty API server on, a cluster is ready, and has its finalizer, exactly if one of its reconciliations
      reached SetReady with the write that follows taking effect. */
  lemma ReadyOnceReached(events: seq<Event>, name: string)
    requires name in Run(NOTHING, events).k.clusters
    ensures var s := Run(NOTHING, events);
            && (s.k.clusters[name].ready <==> name in s.readied)
            && (s.k.clusters[name].finalizer <==> name in s.readied)
  {
    assert Inv(NOTHING);
    TeardownIsOrdered(NOTHING, events);
  }
}
