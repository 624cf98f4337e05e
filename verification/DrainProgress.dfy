/** The drain comes to an end: a measure that no step raises and every step that gets something done lowers. */
module DrainProgress {
  import opened Faults
  import opened ApiServer
  import opened Names
  import opened DomainSpec
  import opened DrainEffects
  import opened TeardownRun
  import Stages
  import Teardown = ClusterTeardown
  import Ready = ClusterReady

  // ---- What is left to do --------------------------------------------------------------------

  function Weight(c: Child, uid: nat): nat { if c.owner != uid then 0 else if c.deleting then 1 else 2 }

  function Pending(children: seq<Child>, uid: nat): nat {
    if children == [] then 0 else Weight(children[0], uid) + Pending(children[1..], uid)
  }

  /** 1 if the next Machine to go has not been told so yet. */
  function Untold(k: Store, domain: string): nat {
    match FirstMachine(k, domain)
    case Some(name) => if name in k.machines && !k.machines[name] then 1 else 0
    case None => 0
  }

  /** Going away under this identity. */
  predicate Leaving(k: Store, domain: string, uid: nat) {
    domain in k.domains && k.domains[domain].uid == uid && k.domains[domain].deleting
  }

  function Work(k: Store, domain: string, uid: nat): nat {
    if !Leaving(k, domain, uid) then 0
    else 2 * |InDomain(k.csMachines, domain)| + Untold(k, domain) + Pending(k.children, uid) + 1
  }

  // ---- Children ------------------------------------------------------------------------------

  type Key = (ChildKind, string)

  function KeyOf(c: Child): Key { (c.kind, c.name) }

  function Keys(children: seq<Child>): set<Key> {
    if children == [] then {} else {KeyOf(children[0])} + Keys(children[1..])
  }

  /** Names are unique among the children of one kind. */
  predicate Distinct(children: seq<Child>) {
    children == [] || (KeyOf(children[0]) !in Keys(children[1..]) && Distinct(children[1..]))
  }

  /** Names stay unique, none is new, and nothing more is left to do. */
  ghost predicate Reduced(a: seq<Child>, b: seq<Child>) {
    && (Distinct(a) ==> Distinct(b))
    && Keys(b) <= Keys(a)
    && forall uid :: Pending(b, uid) <= Pending(a, uid)
  }

  lemma {:induction false} WithoutReduces(children: seq<Child>, kind: ChildKind, name: string)
    ensures Reduced(children, Without(children, kind, name))
  {
    if children != [] {
      WithoutReduces(children[1..], kind, name);
      var rest := Without(children[1..], kind, name);
      var c := children[0];
      assert ([c] + rest)[1..] == rest;
      assert ([c.(deleting := true)] + rest)[1..] == rest;
    }
  }

  lemma {:induction false} WithoutKeeps(children: seq<Child>, kind: ChildKind, name: string, c: Child)
    requires c in children && !Is(c, kind, name)
    ensures c in Without(children, kind, name)
  {
    if c != children[0] { WithoutKeeps(children[1..], kind, name, c); }
  }

  /** Deleting a child that is not being deleted yet leaves less to do. */
  lemma {:induction false} WithoutLowers(children: seq<Child>, c: Child)
    requires c in children && !c.deleting
    ensures Pending(Without(children, c.kind, c.name), c.owner) < Pending(children, c.owner)
  {
    var rest := Without(children[1..], c.kind, c.name);
    WithoutReduces(children[1..], c.kind, c.name);
    var d := children[0];
    assert ([d] + rest)[1..] == rest;
    assert ([d.(deleting := true)] + rest)[1..] == rest;
    if c != d { WithoutLowers(children[1..], c); }
  }

  lemma {:induction false} FinishReduces(children: seq<Child>, kind: ChildKind, name: string)
    ensures Reduced(children, Finish(children, kind, name))
  {
    if children != [] {
      FinishReduces(children[1..], kind, name);
      var rest := Finish(children[1..], kind, name);
      assert ([children[0]] + rest)[1..] == rest;
    }
  }

  lemma {:induction false} FinishLowers(children: seq<Child>, c: Child)
    requires c in children && c.deleting
    ensures Pending(Finish(children, c.kind, c.name), c.owner) < Pending(children, c.owner)
  {
    var rest := Finish(children[1..], c.kind, c.name);
    FinishReduces(children[1..], c.kind, c.name);
    assert ([children[0]] + rest)[1..] == rest;
    if c != children[0] { FinishLowers(children[1..], c); }
  }

  lemma {:induction false} JoinKeepsDistinct(children: seq<Child>, c: Child)
    requires Distinct(children) && forall c' :: c' in children ==> KeyOf(c') != KeyOf(c)
    ensures Distinct(children + [c]) && Keys(children + [c]) == Keys(children) + {KeyOf(c)}
    ensures forall uid :: uid != c.owner ==> Pending(children + [c], uid) == Pending(children, uid)
  {
    if children == [] {
      assert [c][1..] == [];
    } else {
      JoinKeepsDistinct(children[1..], c);
      assert (children + [c])[1..] == children[1..] + [c];
    }
  }

  // ---- Deletion of the children --------------------------------------------------------------

  lemma {:induction false} DeleteListedReduces(env: Env, k: Store, listed: seq<Child>, uid: nat)
    ensures Reduced(k.children, DeleteListed(env, k, listed, uid).0.children)
    decreases |listed|
  {
    if listed == [] {
    } else if listed[0].owner != uid {
      DeleteListedReduces(env, k, listed[1..], uid);
    } else {
      WithoutReduces(k.children, listed[0].kind, listed[0].name);
      DeleteChildCall(env, k, listed[0].kind, listed[0].name);
      var (k1, err) := DeleteChild(env, k, listed[0].kind, listed[0].name);
      if err.Nil? { DeleteListedReduces(env, k1, listed[1..], uid); }
    }
  }

  lemma {:induction false} DeleteOwnedReduces(env: Env, k: Store, kinds: seq<ChildKind>, uid: nat)
    ensures Reduced(k.children, DeleteOwned(env, k, kinds, uid).0.children)
    decreases |kinds|
  {
    if kinds != [] {
      var (k1, listing) := ListChildren(env, k, kinds[0]);
      if listing.Reply? {
        DeleteListedReduces(env, k1, listing.value, uid);
        DeleteOwnedReduces(env, DeleteListed(env, k1, listing.value, uid).0, kinds[1..], uid);
      }
    }
  }

  lemma {:induction false} KeysAre(children: seq<Child>)
    ensures forall c :: c in children ==> KeyOf(c) in Keys(children)
  {
    if children != [] { KeysAre(children[1..]); }
  }

  /** Without failures the deletion of listed children succeeds, touches no others, and gets something done if it
      can. */
  lemma {:induction false} DeleteListedSucceeds(env: Env, k: Store, listed: seq<Child>, uid: nat)
    requires FaultFree(env) && Distinct(listed) && forall c :: c in listed ==> c in k.children
    ensures var (k', res) := DeleteListed(env, k, listed, uid);
            && res == Stages.Continue
            && (forall c :: c in k.children && KeyOf(c) !in Keys(listed) ==> c in k'.children)
            && ((exists c :: c in listed && c.owner == uid && !c.deleting)
                  ==> Pending(k'.children, uid) < Pending(k.children, uid))
    decreases |listed|
  {
    if listed != [] {
      var c := listed[0];
      assert c in k.children;
      KeysAre(listed[1..]);
      forall d | d in k.children && KeyOf(d) != KeyOf(c) ensures d in Without(k.children, c.kind, c.name) {
        WithoutKeeps(k.children, c.kind, c.name, d);
      }
      if c.owner != uid {
        DeleteListedSucceeds(env, k, listed[1..], uid);
      } else {
        WithoutReduces(k.children, c.kind, c.name);
        if !c.deleting { WithoutLowers(k.children, c); }
        var k1 := DeleteChild(env, k, c.kind, c.name).0;
        assert Is(c, c.kind, c.name);
        DeleteListedSucceeds(env, k1, listed[1..], uid);
        DeleteListedReduces(env, k1, listed[1..], uid);
      }
    }
  }

  lemma {:induction false} OfKindDistinct(children: seq<Child>, kind: ChildKind)
    requires Distinct(children)
    ensures Distinct(OfKind(children, kind)) && Keys(OfKind(children, kind)) <= Keys(children)
    ensures forall key :: key in Keys(OfKind(children, kind)) ==> key.0 == kind
  {
    if children != [] {
      OfKindDistinct(children[1..], kind);
      var rest := OfKind(children[1..], kind);
      assert [] + rest == rest;
      assert ([children[0]] + rest)[1..] == rest;
    }
  }

  ghost predicate Unasked(children: seq<Child>, kinds: seq<ChildKind>, uid: nat) {
    exists c :: c in children && c.owner == uid && c.kind in kinds && !c.deleting
  }

  /** Without failures every child is asked to go, which gets something done unless all were asked already. */
  lemma {:induction false} DeleteOwnedSucceeds(env: Env, k: Store, kinds: seq<ChildKind>, uid: nat)
    requires FaultFree(env) && Distinct(k.children)
    ensures var (k', res) := DeleteOwned(env, k, kinds, uid);
            && res == Stages.Continue
            && (Unasked(k.children, kinds, uid) ==> Pending(k'.children, uid) < Pending(k.children, uid))
    decreases |kinds|
  {
    if kinds != [] {
      var (k1, listing) := ListChildren(env, k, kinds[0]);
      var listed := listing.value;
      OfKindIs(k.children, kinds[0]);
      OfKindDistinct(k.children, kinds[0]);
      DeleteListedSucceeds(env, k1, listed, uid);
      DeleteListedReduces(env, k1, listed, uid);
      var k2 := DeleteListed(env, k1, listed, uid).0;
      DeleteOwnedSucceeds(env, k2, kinds[1..], uid);
      DeleteOwnedReduces(env, k2, kinds[1..], uid);
      if Unasked(k.children, kinds, uid) {
        var c :| c in k.children && c.owner == uid && c.kind in kinds && !c.deleting;
        if c.kind == kinds[0] {
          assert c in listed;
        } else {
          assert KeyOf(c).0 == c.kind;
          assert c in k2.children && c.kind in kinds[1..];
        }
      }
    }
  }

  lemma {:induction false} OthersOfListedStay(env: Env, k: Store, listed: seq<Child>, uid: nat, c: Child)
    requires c in k.children && c.owner != uid
    requires forall d :: d in listed && d.owner == uid ==> KeyOf(d) != KeyOf(c)
    ensures c in DeleteListed(env, k, listed, uid).0.children
    decreases |listed|
  {
    if listed != [] {
      assert forall d :: d in listed[1..] ==> d in listed;
      if listed[0].owner != uid {
        OthersOfListedStay(env, k, listed[1..], uid, c);
      } else {
        var d := listed[0];
        assert d in listed && KeyOf(d) != KeyOf(c);
        WithoutKeeps(k.children, d.kind, d.name, c);
        DeleteChildCall(env, k, d.kind, d.name);
        var (k1, err) := DeleteChild(env, k, d.kind, d.name);
        if err.Nil? { OthersOfListedStay(env, k1, listed[1..], uid, c); }
      }
    }
  }

  lemma {:induction false} SameKeySame(children: seq<Child>, c: Child, d: Child)
    requires Distinct(children) && c in children && d in children && KeyOf(c) == KeyOf(d)
    ensures c == d
  {
    KeysAre(children[1..]);
    if c != children[0] && d != children[0] { SameKeySame(children[1..], c, d); }
  }

  lemma {:induction false} OthersOfOwnedStay(env: Env, k: Store, kinds: seq<ChildKind>, uid: nat, c: Child)
    requires Distinct(k.children) && c in k.children && c.owner != uid
    ensures c in DeleteOwned(env, k, kinds, uid).0.children
    decreases |kinds|
  {
    if kinds != [] {
      var (k1, listing) := ListChildren(env, k, kinds[0]);
      if listing.Reply? {
        OfKindIs(k.children, kinds[0]);
        forall d | d in listing.value && d.owner == uid ensures KeyOf(d) != KeyOf(c) {
          if KeyOf(d) == KeyOf(c) { SameKeySame(k.children, c, d); }
        }
        OthersOfListedStay(env, k1, listing.value, uid, c);
        DeleteListedReduces(env, k1, listing.value, uid);
        OthersOfOwnedStay(env, DeleteListed(env, k1, listing.value, uid).0, kinds[1..], uid, c);
      }
    }
  }

  /** Whatever fails: a reconciliation of a failure domain leaves what others own as it is. */
  lemma OthersChildrenStay(env: Env, k: Store, domain: string, cluster: CapiCluster, c: Child)
    requires domain in k.domains && Distinct(k.children)
    requires c in k.children && c.owner != k.domains[domain].uid
    ensures c in Reconcile(env, k, domain, cluster).0.children
  {
    var uid := k.domains[domain].uid;
    DrainMarksAtMostOne(env, k, domain, cluster);
    var (k1, drained) := Drain(env, k, domain, cluster);
    assert k1.children == k.children;
    OthersOfOwnedStay(env, k1, KINDS, uid, c);
    var k2 := DeleteOwned(env, k1, KINDS, uid).0;
    CheckOwnedIs(env, k2, KINDS, uid);
    assert CheckOwned(env, k2, KINDS, uid).0.children == k2.children;
  }

  // ---- Steps ---------------------------------------------------------------------------------

  /** The failure domain with this UID is going away, or gone. */
  ghost predicate Doomed(s: System, domain: string, uid: nat) {
    && uid < s.k.nextUid
    && (domain in s.k.domains && s.k.domains[domain].uid == uid ==> s.k.domains[domain].deleting)
  }

  /** All that can be done is to wait for what was asked to go. */
  ghost predicate Waiting(k: Store, domain: string, uid: nat) {
    match FirstMachine(k, domain)
    case Some(name) => name in k.machines && k.machines[name]
    case None => (exists c :: c in k.children && c.owner == uid) && !Unasked(k.children, KINDS, uid)
  }

  lemma MarkingIsWork(s: System, e: Event, uid: nat)
    requires Inv(s) && Allowed(s, e) && e.DomainReconciled? && Leaving(s.k, e.domain, uid)
    requires FaultFree(e.env) && Unblocked(s.k, e.domain, e.cluster) && !Waiting(s.k, e.domain, uid)
    requires FirstMachine(s.k, e.domain).Some?
    ensures Work(Step(s, e).k, e.domain, uid) < Work(s.k, e.domain, uid)
  {
    NoneLeft(s.k, e.domain);
    DrainProceeds(e.env, s.k, e.domain, e.cluster);
    var k' := Step(s, e).k;
    assert k' == Drain(e.env, s.k, e.domain, e.cluster).0;
    assert Listing(k', e.domain) == Listing(s.k, e.domain);
  }

  lemma CleaningIsWork(s: System, e: Event, uid: nat)
    requires Inv(s) && Distinct(s.k.children)
    requires Allowed(s, e) && e.DomainReconciled? && Leaving(s.k, e.domain, uid)
    requires FaultFree(e.env) && Unblocked(s.k, e.domain, e.cluster) && !Waiting(s.k, e.domain, uid)
    requires FirstMachine(s.k, e.domain).None?
    ensures Work(Step(s, e).k, e.domain, uid) < Work(s.k, e.domain, uid)
  {
    var env, k, domain := e.env, s.k, e.domain;
    DrainProceeds(env, k, domain, e.cluster);
    var k1 := Drain(env, k, domain, e.cluster).0;
    assert k1.children == k.children;
    DeleteOwnedSucceeds(env, k1, KINDS, uid);
    DeleteOwnedIs(env, k1, KINDS, uid);
    var k2 := DeleteOwned(env, k1, KINDS, uid).0;
    CheckOwnedIs(env, k2, KINDS, uid);
    AllKinds();
    assert k2.csMachines == k.csMachines && k2.machines == k.machines && k2.domains == k.domains;
    assert Listing(k2, domain) == Listing(k, domain);
    var (k3, checked) := CheckOwned(env, k2, KINDS, uid);
    if checked != Stages.Continue {
      assert AnyOwned(k2.children, uid);
      assert Unasked(k.children, KINDS, uid);
      assert Step(s, e).k == k3 && k3.children == k2.children;
    }
  }

  /** What any reconciliation of any failure domain does to the children. */
  lemma ReconcileReduces(env: Env, k: Store, domain: string, cluster: CapiCluster)
    requires domain in k.domains
    ensures Reduced(k.children, Reconcile(env, k, domain, cluster).0.children)
  {
    var uid := k.domains[domain].uid;
    DrainMarksAtMostOne(env, k, domain, cluster);
    var (k1, drained) := Drain(env, k, domain, cluster);
    assert k1.children == k.children;
    DeleteOwnedReduces(env, k1, KINDS, uid);
    var k2 := DeleteOwned(env, k1, KINDS, uid).0;
    CheckOwnedIs(env, k2, KINDS, uid);
    assert CheckOwned(env, k2, KINDS, uid).0.children == k2.children;
  }

  lemma {:induction false} InDomainJoined(machines: seq<CsMachine>, m: CsMachine, domain: string)
    requires m.domain != domain
    ensures InDomain(machines + [m], domain) == InDomain(machines, domain)
  {
    if machines == [] {
      assert InDomain([m], domain) == [] + InDomain([], domain);
    } else {
      InDomainJoined(machines[1..], m, domain);
      assert (machines + [m])[1..] == machines[1..] + [m];
    }
  }

  lemma {:induction false} InDomainLeft(machines: seq<CsMachine>, m: CsMachine, domain: string)
    ensures var rest := RemoveMachine(machines, m);
            && |InDomain(rest, domain)| <= |InDomain(machines, domain)|
            && (m.domain != domain || m !in machines ==> InDomain(rest, domain) == InDomain(machines, domain))
            && (m.domain == domain && m in machines ==> |InDomain(rest, domain)| < |InDomain(machines, domain)|)
  {
    if machines != [] {
      InDomainLeft(machines[1..], m, domain);
      var rest := RemoveMachine(machines[1..], m);
      assert ([machines[0]] + rest)[1..] == rest;
    }
  }

  /** What neither machines nor children tell apart has no more to do, unless it starts to leave. */
  lemma LessLeaving(k: Store, k': Store, domain: string, uid: nat)
    requires k'.csMachines == k.csMachines && k'.children == k.children
    requires k'.machines == k.machines && (Leaving(k', domain, uid) ==> Leaving(k, domain, uid))
    ensures Work(k', domain, uid) <= Work(k, domain, uid)
  {
    assert Listing(k', domain) == Listing(k, domain);
  }

  /** Machines that are made, told to go, or gone do not bring back what was told. */
  lemma MachinesOnly(s: System, e: Event, domain: string, uid: nat)
    requires Inv(s) && Allowed(s, e) && (e.MachineCreated? || e.MachineDeleted? || e.MachineGone?)
    ensures Work(Step(s, e).k, domain, uid) <= Work(s.k, domain, uid)
  {
    NoneLeft(s.k, domain);
    var k' := Step(s, e).k;
    assert Listing(k', domain) == Listing(s.k, domain);
    assert Untold(k', domain) <= Untold(s.k, domain);
  }

  lemma SameWork(s: System, e: Event, domain: string, uid: nat)
    requires Inv(s) && Allowed(s, e) && Doomed(s, domain, uid)
    requires !e.DomainReconciled? && !e.ClusterTornDown? && !e.ClusterSetUp?
    requires !e.CsMachineGone? && !e.CsMachineJoined? && !e.ChildJoined? && !e.ChildDeleted? && !e.ChildFinished?
    requires !e.DomainDeleted?
    ensures Doomed(Step(s, e), domain, uid) && Work(Step(s, e).k, domain, uid) <= Work(s.k, domain, uid)
  {
    if e.MachineCreated? || e.MachineDeleted? || e.MachineGone? {
      MachinesOnly(s, e, domain, uid);
    } else {
      LessLeaving(s.k, Step(s, e).k, domain, uid);
    }
  }

  lemma MachineWork(s: System, e: Event, domain: string, uid: nat)
    requires Inv(s) && Allowed(s, e) && Doomed(s, domain, uid) && (e.CsMachineJoined? || e.CsMachineGone?)
    ensures Doomed(Step(s, e), domain, uid) && Work(Step(s, e).k, domain, uid) <= Work(s.k, domain, uid)
    ensures e.CsMachineGone? && e.m in s.k.csMachines && e.m.domain == domain && Leaving(s.k, domain, uid) ==>
              Work(Step(s, e).k, domain, uid) < Work(s.k, domain, uid)
  {
    var k' := Step(s, e).k;
    if e.CsMachineJoined? {
      if e.m.domain != domain { InDomainJoined(s.k.csMachines, e.m, domain); }
    } else {
      InDomainLeft(s.k.csMachines, e.m, domain);
    }
  }

  /** Whatever becomes of the children, the rest of the work is the same. */
  lemma WorkWithChildren(k: Store, children: seq<Child>, domain: string, uid: nat)
    ensures var k' := k.(children := children);
            && Leaving(k', domain, uid) == Leaving(k, domain, uid)
            && (Leaving(k, domain, uid) ==>
                  Work(k', domain, uid) - Pending(children, uid) == Work(k, domain, uid) - Pending(k.children, uid))
  {
  }

  lemma ChildWork(s: System, e: Event, domain: string, uid: nat)
    requires Inv(s) && Distinct(s.k.children) && Allowed(s, e) && Doomed(s, domain, uid)
    requires e.ChildJoined? || e.ChildDeleted? || e.ChildFinished?
    ensures Doomed(Step(s, e), domain, uid) && Distinct(Step(s, e).k.children)
    ensures Work(Step(s, e).k, domain, uid) <= Work(s.k, domain, uid)
    ensures e.ChildFinished? && Leaving(s.k, domain, uid)
            && (exists c :: c in s.k.children && Is(c, e.kind, e.name) && c.owner == uid && c.deleting) ==>
              Work(Step(s, e).k, domain, uid) < Work(s.k, domain, uid)
  {
    var k' := Step(s, e).k;
    WorkWithChildren(s.k, k'.children, domain, uid);
    match e {
      case ChildJoined(c) =>
        JoinKeepsDistinct(s.k.children, c);
        assert Leaving(s.k, domain, uid) ==> c.owner != uid;
      case ChildDeleted(kind, name) => WithoutReduces(s.k.children, kind, name);
      case ChildFinished(kind, name) =>
        FinishReduces(s.k.children, kind, name);
        if c :| c in s.k.children && Is(c, e.kind, e.name) && c.owner == uid && c.deleting {
          FinishLowers(s.k.children, c);
        }
    }
  }

  /** Whoever bears the UID after failure domains were added and told to go bore it before, and goes on leaving. */
  lemma GrownThenShrunk(k: Store, k1: Store, domains: Domains, cluster: string, domain: string, uid: nat)
    requires uid < k.nextUid && Ready.Grown(k, k1, cluster) && Teardown.Shrunk(k1.domains, domains)
    requires domain in k.domains && k.domains[domain].uid == uid ==> k.domains[domain].deleting
    ensures domain in domains && domains[domain].uid == uid ==>
              domain in k.domains && k.domains[domain].uid == uid && domains[domain].deleting
  {
    if domain in domains && domain !in k.domains { assert Ready.Fresh(k1.domains[domain], cluster, k.nextUid); }
  }

  lemma SetUpWork(s: System, e: Event, domain: string, uid: nat)
    requires Inv(s) && Allowed(s, e) && Doomed(s, domain, uid) && e.ClusterSetUp?
    ensures Doomed(Step(s, e), domain, uid) && Step(s, e).k.children == s.k.children
    ensures Work(Step(s, e).k, domain, uid) <= Work(s.k, domain, uid)
  {
    var k, k' := s.k, Step(s, e).k;
    var k1 := Ready.ConvergeGrowsThenShrinks(e.env, k, e.hash, e.name, e.order);
    assert k'.domains == Ready.Converge(e.env, k, e.hash, e.name, e.order).0.domains && k'.nextUid == k1.nextUid;
    GrownThenShrunk(k, k1, k'.domains, k.clusters[e.name].capi, domain, uid);
    LessLeaving(k, k', domain, uid);
  }

  lemma DeletionWork(s: System, e: Event, domain: string, uid: nat)
    requires Inv(s) && Allowed(s, e) && Doomed(s, domain, uid) && (e.ClusterTornDown? || e.DomainDeleted?)
    ensures Doomed(Step(s, e), domain, uid) && Step(s, e).k.children == s.k.children
    ensures Work(Step(s, e).k, domain, uid) <= Work(s.k, domain, uid)
  {
    match e {
      case ClusterTornDown(env, name, order) => Teardown.ReleasedOnlyWhenNoneListed(env, s.k, name, order);
      case DomainDeleted(d) => Teardown.DeletedIsShrunk(s.k.domains, d);
    }
    LessLeaving(s.k, Step(s, e).k, domain, uid);
  }

  lemma ReconciliationWork(s: System, e: Event, domain: string, uid: nat)
    requires Inv(s) && Distinct(s.k.children) && Allowed(s, e) && Doomed(s, domain, uid) && e.DomainReconciled?
    ensures Doomed(Step(s, e), domain, uid) && Distinct(Step(s, e).k.children)
    ensures Work(Step(s, e).k, domain, uid) <= Work(s.k, domain, uid)
  {
    NoneLeft(s.k, domain);
    DeletionMarksOrReleases(e.env, s.k, e.domain, e.cluster);
    ReconcileReduces(e.env, s.k, e.domain, e.cluster);
    var k' := Step(s, e).k;
    assert Listing(k', domain) == Listing(s.k, domain);
    assert Untold(k', domain) <= Untold(s.k, domain);
  }

  /** Nothing that can happen gives a failure domain that is going away more to do. */
  lemma WorkNeverGrows(s: System, e: Event, domain: string, uid: nat)
    requires Inv(s) && Distinct(s.k.children) && Doomed(s, domain, uid)
    ensures Doomed(Step(s, e), domain, uid) && Distinct(Step(s, e).k.children)
    ensures Work(Step(s, e).k, domain, uid) <= Work(s.k, domain, uid)
  {
    if Allowed(s, e) {
      if e.DomainReconciled? { ReconciliationWork(s, e, domain, uid); }
      else if e.ClusterTornDown? || e.DomainDeleted? { DeletionWork(s, e, domain, uid); }
      else if e.ClusterSetUp? { SetUpWork(s, e, domain, uid); }
      else if e.CsMachineJoined? || e.CsMachineGone? { MachineWork(s, e, domain, uid); }
      else if e.ChildJoined? || e.ChildDeleted? || e.ChildFinished? { ChildWork(s, e, domain, uid); }
      else { SameWork(s, e, domain, uid); }
    }
  }

  // ---- The end -------------------------------------------------------------------------------

  /** Steps that get something done: a reconciliation without failures that finds nothing in its way and nothing to wait
      for, and the completion of a deletion. */
  ghost predicate Productive(s: System, e: Event, domain: string, uid: nat) {
    && Allowed(s, e) && Leaving(s.k, domain, uid)
    && match e
       case DomainReconciled(env, d, cluster) =>
         d == domain && FaultFree(env) && Unblocked(s.k, d, cluster) && !Waiting(s.k, d, uid)
       case CsMachineGone(m) => m in s.k.csMachines && m.domain == domain
       case ChildFinished(kind, name) =>
         exists c :: c in s.k.children && Is(c, kind, name) && c.owner == uid && c.deleting
       case _ => false
  }

  lemma ProductiveLowers(s: System, e: Event, domain: string, uid: nat)
    requires Inv(s) && Distinct(s.k.children) && Doomed(s, domain, uid) && Productive(s, e, domain, uid)
    ensures Work(Step(s, e).k, domain, uid) < Work(s.k, domain, uid)
  {
    match e {
      case DomainReconciled(_, _, _) =>
        if FirstMachine(s.k, domain).Some? { MarkingIsWork(s, e, uid); } else { CleaningIsWork(s, e, uid); }
      case CsMachineGone(_) => MachineWork(s, e, domain, uid);
      case ChildFinished(_, _) => ChildWork(s, e, domain, uid);
    }
  }

  ghost function ProductiveSteps(s: System, events: seq<Event>, domain: string, uid: nat): nat
    decreases |events|
  {
    if |events| == 0 then 0
    else (if Productive(s, events[0], domain, uid) then 1 else 0)
         + ProductiveSteps(Step(s, events[0]), events[1..], domain, uid)
  }

  /**
   The drain ends: of the steps that get something done there are at most as many as there was work, whatever else
   happens in between; and when there were that many, the failure domain is gone.
   */
  lemma {:induction false} DrainEnds(s: System, events: seq<Event>, domain: string, uid: nat)
    requires Inv(s) && Distinct(s.k.children) && Doomed(s, domain, uid)
    ensures ProductiveSteps(s, events, domain, uid) + Work(Run(s, events).k, domain, uid) <= Work(s.k, domain, uid)
    ensures ProductiveSteps(s, events, domain, uid) == Work(s.k, domain, uid) ==>
              var k' := Run(s, events).k; !(domain in k'.domains && k'.domains[domain].uid == uid)
    decreases |events|
  {
    if |events| != 0 {
      var e := events[0];
      StepKeeps(s, e);
      WorkNeverGrows(s, e, domain, uid);
      if Productive(s, e, domain, uid) { ProductiveLowers(s, e, domain, uid); }
      DrainEnds(Step(s, e), events[1..], domain, uid);
    }
  }

  /** As long as the failure domain is there, something can be done: what is waited for can complete, or else the next
      reconciliation gets something done. */
  lemma SomethingToDo(s: System, env: Env, domain: string, uid: nat, cluster: CapiCluster) returns (e: Event)
    requires Inv(s) && Leaving(s.k, domain, uid) && FaultFree(env) && Unblocked(s.k, domain, cluster)
    ensures Productive(s, e, domain, uid)
    ensures e.DomainReconciled? || e.CsMachineGone? || e.ChildFinished?
  {
    if !Waiting(s.k, domain, uid) {
      e := DomainReconciled(env, domain, cluster);
    } else if FirstMachine(s.k, domain).Some? {
      NoneLeft(s.k, domain);
      e := CsMachineGone(Listing(s.k, domain)[0]);
    } else {
      var c :| c in s.k.children && c.owner == uid;
      AllKinds();
      assert c.deleting;
      e := ChildFinished(c.kind, c.name);
    }
  }

  lemma StaysUnblocked(s: System, e: Event, domain: string, uid: nat, cluster: CapiCluster)
    requires Inv(s) && Productive(s, e, domain, uid) && Unblocked(s.k, domain, cluster)
    ensures Unblocked(Step(s, e).k, domain, cluster)
  {
    var k' := Step(s, e).k;
    if e.DomainReconciled? { DeletionMarksOrReleases(e.env, s.k, domain, e.cluster); }
    if e.CsMachineGone? { RemoveMachineIs(s.k.csMachines, e.m); }
    ListingIs(s.k, domain);
    ListingIs(k', domain);
    if Listing(k', domain) != [] {
      assert Listing(k', domain)[0] in Listing(k', domain);
      assert Listing(k', domain)[0] in Listing(s.k, domain);
    }
  }

  /** So a deletion of a failure domain that is not blocked can always be completed, in no more steps than there is
      work. */
  lemma {:induction false} DrainCanComplete(s: System, env: Env, domain: string, uid: nat, cluster: CapiCluster)
      returns (events: seq<Event>)
    requires Inv(s) && Distinct(s.k.children) && Doomed(s, domain, uid)
    requires FaultFree(env) && Unblocked(s.k, domain, cluster)
    ensures |events| <= Work(s.k, domain, uid)
    ensures !Leaving(Run(s, events).k, domain, uid)
    decreases Work(s.k, domain, uid)
  {
    events := [];
    if Leaving(s.k, domain, uid) {
      var e := SomethingToDo(s, env, domain, uid, cluster);
      StepKeeps(s, e);
      WorkNeverGrows(s, e, domain, uid);
      ProductiveLowers(s, e, domain, uid);
      StaysUnblocked(s, e, domain, uid, cluster);
      var rest := DrainCanComplete(Step(s, e), env, domain, uid, cluster);
      events := [e] + rest;
      assert events[1..] == rest;
    }
  }
}
