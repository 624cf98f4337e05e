/** What the stages of a failure-domain deletion see and change. */
module DrainEffects {
  import opened Faults
  import opened ApiServer
  import opened Names
  import opened Stages
  import opened DomainSpec

  /** The machines of a failure domain as the controller works on them: sorted by name. */
  function Listing(k: Store, domain: string): seq<CsMachine> { SortByName(InDomain(k.csMachines, domain)) }

  lemma {:induction false} InDomainIs(machines: seq<CsMachine>, domain: string)
    ensures forall m :: m in InDomain(machines, domain) <==> m in machines && m.domain == domain
    ensures |InDomain(machines, domain)| <= |machines|
  {
    if machines != [] { InDomainIs(machines[1..], domain); }
  }

  /** The listing holds exactly the machines of the domain, the first by name first. */
  lemma ListingIs(k: Store, domain: string)
    ensures forall m :: m in Listing(k, domain) <==> m in k.csMachines && m.domain == domain
    ensures Listing(k, domain) != [] ==>
              forall m :: m in k.csMachines && m.domain == domain ==> !Less(m.name, Listing(k, domain)[0].name)
    ensures |Listing(k, domain)| == |InDomain(k.csMachines, domain)|
  {
    InDomainIs(k.csMachines, domain);
    FirstSorted(InDomain(k.csMachines, domain));
    assert InDomain(k.csMachines, domain) == [] ==> Listing(k, domain) == [];
  }

  /** Every non-Machine owner named here exists and lets a machine go. */
  ghost predicate OwnersOpen(k: Store, refs: seq<OwnerRef>) {
    forall ref :: ref in refs && !ref.kind.MachineKind? ==> ref in k.owners && OwnerGate(k.owners[ref]) == Continue
  }

  ghost predicate GatesOpen(k: Store, machines: seq<CsMachine>) {
    forall m :: m in machines ==> OwnersOpen(k, m.owners)
  }

  /** A rolling update is going on: the CAPI cluster says that it is not ready, and it is not being deleted. */
  predicate Updating(cluster: CapiCluster) { !cluster.deleting && ("Ready", "False") in cluster.conditions }

  ghost predicate Empty(k: Store, domain: string) { forall m :: m in k.csMachines ==> m.domain != domain }

  /** The controller finds nothing in its way: every owner lets go, and no machine is in the middle of an update. */
  ghost predicate Unblocked(k: Store, domain: string, cluster: CapiCluster) {
    GatesOpen(k, Listing(k, domain)) && (Updating(cluster) ==> Empty(k, domain))
  }

  lemma ClusterGateIs(k: Store, domain: string, cluster: CapiCluster)
    ensures ClusterGate(Listing(k, domain), cluster)
            == if Updating(cluster) && !Empty(k, domain) then Requeue else Continue
  {
    ListingIs(k, domain);
    if Listing(k, domain) != [] { assert Listing(k, domain)[0] in Listing(k, domain); }
  }

  lemma {:induction false} OwnersGateIs(env: Env, k: Store, refs: seq<OwnerRef>)
    ensures var (k', res) := OwnersGate(env, k, refs);
            && Still(k') == Still(k)
            && (res == Continue ==> OwnersOpen(k, refs))
            && (FaultFree(env) && OwnersOpen(k, refs) ==> res == Continue)
    decreases |refs|
  {
    if refs != [] {
      assert refs == [refs[0]] + refs[1..];
      var k1 := if refs[0].kind.MachineKind? then k else GetOwner(env, k, refs[0]).0;
      OwnersGateIs(env, k1, refs[1..]);
    }
  }

  lemma {:induction false} MachinesGateIs(env: Env, k: Store, machines: seq<CsMachine>)
    ensures var (k', res) := MachinesGate(env, k, machines);
            && Still(k') == Still(k)
            && (res == Continue ==> GatesOpen(k, machines))
            && (FaultFree(env) && GatesOpen(k, machines) ==> res == Continue)
    decreases |machines|
  {
    if machines != [] {
      assert machines == [machines[0]] + machines[1..];
      OwnersGateIs(env, k, machines[0].owners);
      var (k1, res) := OwnersGate(env, k, machines[0].owners);
      MachinesGateIs(env, k1, machines[1..]);
    }
  }

  /** The first owner of kind Machine, at the place given. */
  ghost predicate FirstMachineOwner(refs: seq<OwnerRef>, i: nat) {
    i < |refs| && refs[i].kind.MachineKind? && forall j :: 0 <= j < i ==> !refs[j].kind.MachineKind?
  }

  lemma {:induction false} MachineOwnerIs(refs: seq<OwnerRef>)
    ensures match MachineOwner(refs)
            case None => forall ref :: ref in refs ==> !ref.kind.MachineKind?
            case Some(name) => exists i: nat :: FirstMachineOwner(refs, i) && refs[i].name == name
  {
    if refs != [] {
      MachineOwnerIs(refs[1..]);
      assert refs == [refs[0]] + refs[1..];
      if refs[0].kind.MachineKind? {
        assert FirstMachineOwner(refs, 0);
      } else if MachineOwner(refs).Some? {
        var i: nat :| FirstMachineOwner(refs[1..], i) && refs[1..][i].name == MachineOwner(refs).value;
        assert FirstMachineOwner(refs, i + 1);
      }
    }
  }

  /** The Machine behind the first of these machines. */
  function FirstOf(machines: seq<CsMachine>): Option<string> {
    if machines == [] then None else MachineOwner(machines[0].owners)
  }

  function FirstMachine(k: Store, domain: string): Option<string> { FirstOf(Listing(k, domain)) }

  /** This Machine is there, unmarked before and marked after; nothing else differs. */
  ghost predicate Marked(k: Store, k': Store, name: string) {
    && name in k.machines && !k.machines[name]
    && Still(k') == Still(k.(machines := k.machines[name := true]))
  }

  lemma ClearMachinesIs(env: Env, k: Store, machines: seq<CsMachine>)
    ensures var (k', res) := ClearMachines(env, k, machines);
            && (res == Continue <==> FirstOf(machines).None?)
            && (Still(k') == Still(k) || (FirstOf(machines).Some? && Marked(k, k', FirstOf(machines).value)))
            && (FaultFree(env) && FirstOf(machines).Some? && FirstOf(machines).value in k.machines ==>
                  && res == Requeue
                  && Still(k') == Still(k.(machines := k.machines[FirstOf(machines).value := true])))
  {
    if FirstOf(machines).Some? {
      var name := FirstOf(machines).value;
      if name in k.machines && k.machines[name] { assert k.machines[name := true] == k.machines; }
    }
  }

  /**
   The drain changes at most one thing: it marks the Machine of the first machine by name. It does so only if nothing is
   in its way, and it lets the later stages run only if there is no such Machine to wait for.
   */
  lemma DrainMarksAtMostOne(env: Env, k: Store, domain: string, cluster: CapiCluster)
    ensures var (k', res) := Drain(env, k, domain, cluster);
            && (res == Continue ==>
                  Still(k') == Still(k) && FirstMachine(k, domain).None? && Unblocked(k, domain, cluster))
            && (|| Still(k') == Still(k)
                || (&& FirstMachine(k, domain).Some? && Marked(k, k', FirstMachine(k, domain).value)
                    && Unblocked(k, domain, cluster)))
  {
    var (k1, listing) := GetAllMachines(env, k, domain);
    if listing.Reply? {
      var machines := Listing(k, domain);
      assert listing.value == machines;
      ClusterGateIs(k, domain, cluster);
      MachinesGateIs(env, k1, machines);
      ClearMachinesIs(env, MachinesGate(env, k1, machines).0, machines);
    }
  }

  /** Without failures and with nothing in its way, the drain does mark the Machine, unless it is marked already. */
  lemma DrainProceeds(env: Env, k: Store, domain: string, cluster: CapiCluster)
    requires FaultFree(env) && Unblocked(k, domain, cluster)
    requires FirstMachine(k, domain).Some? ==> FirstMachine(k, domain).value in k.machines
    ensures var (k', res) := Drain(env, k, domain, cluster);
            match FirstMachine(k, domain)
            case None => res == Continue && Still(k') == Still(k)
            case Some(name) => res == Requeue && Still(k') == Still(k.(machines := k.machines[name := true]))
  {
    var (k1, listing) := GetAllMachines(env, k, domain);
    var machines := Listing(k, domain);
    assert listing == Reply(machines);
    ClusterGateIs(k, domain, cluster);
    MachinesGateIs(env, k1, machines);
    var k2 := MachinesGate(env, k1, machines).0;
    ClearMachinesIs(env, k2, machines);
    assert k2.machines == k.machines;
  }

  /** During a rolling update of its cluster, a failure domain that has a machine is left as it is. */
  lemma DrainWaitsForCluster(env: Env, k: Store, domain: string, cluster: CapiCluster)
    requires domain in k.domains && Updating(cluster) && !Empty(k, domain)
    ensures var (k', res) := Reconcile(env, k, domain, cluster);
            && Still(k') == Still(k) && res != Continue
            && (FaultFree(env) ==> res == Requeue)
  {
    ClusterGateIs(k, domain, cluster);
    DrainMarksAtMostOne(env, k, domain, cluster);
  }

  // ---- Children ------------------------------------------------------------------------------

  lemma {:induction false} OfKindIs(children: seq<Child>, kind: ChildKind)
    ensures forall c :: c in OfKind(children, kind) <==> c in children && c.kind == kind
  {
    if children != [] { OfKindIs(children[1..], kind); }
  }

  /** Nothing but the children differs. */
  ghost predicate OnlyChildren(k: Store, k': Store) {
    Still(k').(children := []) == Still(k).(children := [])
  }

  /** No child is new, and none has another owner. */
  ghost predicate Fewer(children: seq<Child>, children': seq<Child>) {
    forall c' :: c' in children' ==> c' in children || (c'.deleting && c'.(deleting := false) in children)
  }

  lemma {:induction false} WithoutIsFewer(children: seq<Child>, kind: ChildKind, name: string)
    ensures Fewer(children, Without(children, kind, name))
  {
    if children != [] {
      WithoutIsFewer(children[1..], kind, name);
      var c := children[0];
      assert !c.deleting ==> c.(deleting := true).(deleting := false) == c;
      assert c.deleting ==> c.(deleting := true) == c;
    }
  }

  lemma FewerCompose(a: seq<Child>, b: seq<Child>, c: seq<Child>)
    requires Fewer(a, b) && Fewer(b, c)
    ensures Fewer(a, c)
  {
    forall c' | c' in c ensures c' in a || (c'.deleting && c'.(deleting := false) in a) {
      if c' !in b { assert c'.(deleting := false) in b; }
    }
  }

  lemma DeleteChildIs(env: Env, k: Store, kind: ChildKind, name: string)
    ensures var k' := DeleteChild(env, k, kind, name).0;
            && OnlyChildren(k, k') && Fewer(k.children, k'.children)
            && (k'.children == k.children || k'.children == Without(k.children, kind, name))
  {
    var k' := DeleteChild(env, k, kind, name).0;
    DeleteChildCall(env, k, kind, name);
    if k'.children == k.children { SameIsFewer(k.children); } else { WithoutIsFewer(k.children, kind, name); }
  }

  lemma DeleteChildCall(env: Env, k: Store, kind: ChildKind, name: string)
    ensures var k' := DeleteChild(env, k, kind, name).0;
            && OnlyChildren(k, k')
            && (k'.children == k.children || k'.children == Without(k.children, kind, name))
  {
  }

  lemma SameIsFewer(children: seq<Child>)
    ensures Fewer(children, children)
  {
  }

  lemma {:induction false} DeleteListedIs(env: Env, k: Store, listed: seq<Child>, uid: nat)
    ensures OnlyChildren(k, DeleteListed(env, k, listed, uid).0)
    ensures Fewer(k.children, DeleteListed(env, k, listed, uid).0.children)
    decreases |listed|
  {
    if listed == [] {
    } else if listed[0].owner != uid {
      DeleteListedIs(env, k, listed[1..], uid);
    } else {
      DeleteChildIs(env, k, listed[0].kind, listed[0].name);
      var (k1, err) := DeleteChild(env, k, listed[0].kind, listed[0].name);
      if err.Nil? {
        DeleteListedIs(env, k1, listed[1..], uid);
        FewerCompose(k.children, k1.children, DeleteListed(env, k1, listed[1..], uid).0.children);
      }
    }
  }

  lemma {:induction false} DeleteOwnedIs(env: Env, k: Store, kinds: seq<ChildKind>, uid: nat)
    ensures OnlyChildren(k, DeleteOwned(env, k, kinds, uid).0)
    ensures Fewer(k.children, DeleteOwned(env, k, kinds, uid).0.children)
    decreases |kinds|
  {
    if kinds != [] {
      var (k1, listing) := ListChildren(env, k, kinds[0]);
      if listing.Reply? {
        DeleteListedIs(env, k1, listing.value, uid);
        var (k2, res) := DeleteListed(env, k1, listing.value, uid);
        if res == Continue {
          DeleteOwnedIs(env, k2, kinds[1..], uid);
          FewerCompose(k.children, k2.children, DeleteOwned(env, k2, kinds[1..], uid).0.children);
        }
      }
    }
  }

  lemma {:induction false} CheckOwnedIs(env: Env, k: Store, kinds: seq<ChildKind>, uid: nat)
    ensures var (k', res) := CheckOwned(env, k, kinds, uid);
            && Still(k') == Still(k)
            && (res == Continue ==> forall c :: c in k.children && c.kind in kinds ==> c.owner != uid)
            && (FaultFree(env) && !AnyOwned(k.children, uid) ==> res == Continue)
    decreases |kinds|
  {
    if kinds != [] {
      OfKindIs(k.children, kinds[0]);
      CheckOwnedIs(env, ListChildren(env, k, kinds[0]).0, kinds[1..], uid);
    }
  }

  lemma AllKinds()
    ensures forall kind: ChildKind :: kind in KINDS
  {
    forall kind: ChildKind ensures kind in KINDS { assert KINDS[if kind.AffinityGroup? then 0 else 1] == kind; }
  }

  /** The states a reconciliation can lead to, as seen by machines, children and failure domains. */
  ghost predicate Marks(k: Store, k': Store, domain: string) {
    && FirstMachine(k, domain).Some?
    && var name := FirstMachine(k, domain).value;
       && name in k.machines && !k.machines[name]
       && k'.machines == k.machines[name := true]
       && GatesOpen(k, Listing(k, domain))
  }

  ghost predicate Releases(k: Store, k': Store, domain: string) {
    && domain in k.domains
    && k'.domains == Unfinalized(k.domains, domain)
    && FirstMachine(k, domain).None?
    && (forall c :: c in k'.children ==> c.owner != k.domains[domain].uid)
  }

  /**
   A reconciliation of a failure domain being deleted marks at most one Machine, that of the first machine by name, with
   all gates open; and it takes the finalizer off only if no machine stands in the way and no child is left.
   */
  lemma DeletionMarksOrReleases(env: Env, k: Store, domain: string, cluster: CapiCluster)
    requires domain in k.domains
    ensures var k' := Reconcile(env, k, domain, cluster).0;
            && k'.csMachines == k.csMachines && k'.owners == k.owners && k'.clusters == k.clusters
            && k'.nextUid == k.nextUid
            && (k'.machines == k.machines || Marks(k, k', domain))
            && Fewer(k.children, k'.children)
            && (k'.domains == k.domains || (Releases(k, k', domain) && k'.machines == k.machines))
  {
    DrainMarksAtMostOne(env, k, domain, cluster);
    var (k1, drained) := Drain(env, k, domain, cluster);
    assert k1.children == k.children && k1.domains == k.domains && k1.csMachines == k.csMachines;
    SameIsFewer(k.children);
    if drained == Continue { CleanUpIs(env, k1, domain); }
    assert Reconcile(env, k, domain, cluster).0 == if drained == Continue then CleanUp(env, k1, domain).0 else k1;
  }

  /** It changes something only if nothing blocks it, and reports completion only if it took the finalizer off; without
      failures it then does report it. */
  lemma DeletionReports(env: Env, k: Store, domain: string, cluster: CapiCluster)
    requires domain in k.domains
    ensures var (k', res) := Reconcile(env, k, domain, cluster);
            && (Still(k') == Still(k) || Unblocked(k, domain, cluster))
            && (res == Continue ==> Releases(k, k', domain))
            && (FaultFree(env) && k'.domains != k.domains ==> res == Continue)
  {
    DrainMarksAtMostOne(env, k, domain, cluster);
    var (k1, drained) := Drain(env, k, domain, cluster);
    if drained == Continue {
      assert k1.children == k.children && k1.domains == k.domains;
      CleanUpIs(env, k1, domain);
      CleanUpReports(env, k1, domain);
    }
    assert Reconcile(env, k, domain, cluster)
        == if drained == Continue then CleanUp(env, k1, domain) else (k1, drained);
  }

  /** What follows the drain. */
  function CleanUp(env: Env, k: Store, domain: string): (Store, Result)
    requires domain in k.domains
  {
    var uid := k.domains[domain].uid;
    var (k1, deleted) := DeleteOwned(env, k, KINDS, uid);
    if deleted != Continue then (k1, deleted)
    else
      var (k2, checked) := CheckOwned(env, k1, KINDS, uid);
      if checked != Continue then (k2, checked)
      else
        var (k3, err) := ReleaseDomain(env, k2, domain);
        (k3, if err.Error? then Fail else Continue)
  }

  lemma CleanUpIs(env: Env, k: Store, domain: string)
    requires domain in k.domains
    ensures var k' := CleanUp(env, k, domain).0;
            && Still(k').(children := [], domains := map[]) == Still(k).(children := [], domains := map[])
            && Fewer(k.children, k'.children)
            && (|| k'.domains == k.domains
                || (&& k'.domains == Unfinalized(k.domains, domain)
                    && forall c :: c in k'.children ==> c.owner != k.domains[domain].uid))
  {
    var uid := k.domains[domain].uid;
    ChildrenCleaned(env, k, uid);
    var k1 := DeleteOwned(env, k, KINDS, uid).0;
    var k2 := CheckOwned(env, k1, KINDS, uid).0;
    assert k2.children == k1.children && k2.domains == k1.domains == k.domains;
  }

  lemma CleanUpReports(env: Env, k: Store, domain: string)
    requires domain in k.domains
    ensures var (k', res) := CleanUp(env, k, domain);
            && (res == Continue ==>
                  && k'.domains == Unfinalized(k.domains, domain)
                  && forall c :: c in k'.children ==> c.owner != k.domains[domain].uid)
            && (FaultFree(env) && k'.domains != k.domains ==> res == Continue)
  {
    var uid := k.domains[domain].uid;
    ChildrenCleaned(env, k, uid);
    var k1 := DeleteOwned(env, k, KINDS, uid).0;
    var k2 := CheckOwned(env, k1, KINDS, uid).0;
    assert k2.children == k1.children && k2.domains == k1.domains == k.domains;
  }

  /** The children's part: deletion, and the check that lets the finalizer go only when none is left. */
  lemma ChildrenCleaned(env: Env, k: Store, uid: nat)
    ensures var (k1, deleted) := DeleteOwned(env, k, KINDS, uid);
            var (k2, checked) := CheckOwned(env, k1, KINDS, uid);
            && OnlyChildren(k, k1) && Still(k2) == Still(k1) && Fewer(k.children, k1.children)
            && (checked == Continue ==> forall c :: c in k1.children ==> c.owner != uid)
  {
    DeleteOwnedIs(env, k, KINDS, uid);
    CheckOwnedIs(env, DeleteOwned(env, k, KINDS, uid).0, KINDS, uid);
    AllKinds();
  }
}
