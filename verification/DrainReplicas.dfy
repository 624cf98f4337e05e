/** The drain of a failure domain and the owners of its machines: no owner ever loses more than one replica to it. */
module DrainReplicas {
  import opened Faults
  import opened ApiServer
  import opened Names
  import opened DomainSpec
  import opened DrainEffects
  import opened TeardownRun
  import Stages

  /** What an owner must say for a machine of its to be removed. Waiting does not help an owner that says less than how
      many replicas it wants and has, or wants fewer than two. */
  lemma OwnerLetsGo(o: ReplicaOwner)
    ensures OwnerGate(o) == Stages.Continue <==>
            && o.specReplicas.Present? && o.statusReplicas.Present?
            && 2 <= o.specReplicas.value == o.statusReplicas.value
            && o.ready != Present(false)
            && (o.readyReplicas.Present? ==> o.readyReplicas.value == o.specReplicas.value)
    ensures OwnerGate(o) == Stages.Fail <==>
              !(o.specReplicas.Present? && o.statusReplicas.Present? && 2 <= o.specReplicas.value)
  {
  }

  predicate Alive(machines: map<string, bool>, m: CsMachine) {
    OwnerOf(m).Some? && OwnerOf(m).value in machines && !machines[OwnerOf(m).value]
  }

  /** The machines of an owner that are not being deleted. */
  function Live(k: Store, ref: OwnerRef): set<CsMachine> {
    set m | m in k.csMachines && ref in m.owners && Alive(k.machines, m)
  }

  /** Owners report as many replicas as they have machines not being deleted. */
  ghost predicate Accurate(k: Store) {
    forall ref :: ref in k.owners && k.owners[ref].statusReplicas.Present?
      ==> k.owners[ref].statusReplicas.value == |Live(k, ref)|
  }

  /** Owners may report anything at any time, as long as what they want stays the same. */
  ghost predicate SameSpecs(owners: map<OwnerRef, ReplicaOwner>, owners': map<OwnerRef, ReplicaOwner>) {
    forall ref :: ref in owners ==> ref in owners' && owners'[ref].specReplicas == owners[ref].specReplicas
  }

  /** The drain sees accurate counts, and nobody but the drain deletes machines. */
  ghost predicate Calm(s: System, e: Event) {
    match e
    case DomainReconciled(_, _, _) => Accurate(s.k)
    case MachineDeleted(_) => false
    case CsMachineGone(m) => !Alive(s.k.machines, m)
    case OwnersChanged(owners) => SameSpecs(s.k.owners, owners)
    case _ => true
  }

  ghost predicate AllCalm(s: System, events: seq<Event>)
    decreases |events|
  {
    |events| == 0 || (Calm(s, events[0]) && AllCalm(Step(s, events[0]), events[1..]))
  }

  /** All machines the owner wants, except possibly one. */
  ghost predicate AtMostOneShort(k: Store, ref: OwnerRef) {
    ref in k.owners && k.owners[ref].specReplicas.Present? && k.owners[ref].specReplicas.value - 1 <= |Live(k, ref)|
  }

  lemma SubsetCount<T>(a: set<T>, b: set<T>)
    requires a <= b
    ensures |a| <= |b|
  {
    assert b == a + (b - a);
  }

  /** Marking a Machine takes its own machine from the live ones, and no other. */
  lemma MarkTakesOne(k: Store, k': Store, domain: string, ref: OwnerRef)
    requires Owned(k.machines, k.csMachines) && Marks(k, k', domain) && k'.csMachines == k.csMachines
    ensures Listing(k, domain) != []
    ensures Live(k', ref) == Live(k, ref) - {Listing(k, domain)[0]}
  {
    NoneLeft(k, domain);
    var first := Listing(k, domain)[0];
    forall m | m in k.csMachines && m != first ensures Alive(k'.machines, m) <==> Alive(k.machines, m) {
      assert OwnerOf(m) != OwnerOf(first);
    }
  }

  /** A deletion by the drain takes one machine from an owner, and only from one that has all it wants, two or more. */
  lemma DrainStepKeepsReplicas(s: System, e: Event, ref: OwnerRef)
    requires Inv(s) && Allowed(s, e) && e.DomainReconciled? && Accurate(s.k)
    requires AtMostOneShort(s.k, ref) && ref.kind.OtherKind?
    ensures AtMostOneShort(Step(s, e).k, ref)
    ensures var k' := Step(s, e).k; Live(k', ref) != Live(s.k, ref) ==> 2 <= k'.owners[ref].specReplicas.value
  {
    var k, k' := s.k, Step(s, e).k;
    DeletionMarksOrReleases(e.env, k, e.domain, e.cluster);
    if k'.machines == k.machines {
      assert Live(k', ref) == Live(k, ref);
    } else {
      MarkTakesOne(k, k', e.domain, ref);
      var first := Listing(k, e.domain)[0];
      assert first in Listing(k, e.domain);
      if first in Live(k, ref) {
        assert OwnersOpen(k, first.owners);
        OwnerLetsGo(k.owners[ref]);
      }
    }
  }

  /** A reconciliation of a cluster touches neither machines nor their owners. */
  lemma ClusterStepKeepsMachines(s: System, e: Event)
    requires Allowed(s, e) && (e.ClusterSetUp? || e.ClusterTornDown?)
    ensures var k' := Step(s, e).k;
            k'.machines == s.k.machines && k'.csMachines == s.k.csMachines && k'.owners == s.k.owners
  {
    if e.ClusterTornDown? {
      Teardown.ReleasedOnlyWhenNoneListed(e.env, s.k, e.name, e.order);
    } else {
      var k1 := Ready.ConvergeGrowsThenShrinks(e.env, s.k, e.hash, e.name, e.order);
    }
  }

  /** What happens to machines in a calm step does not take a live one from anybody. */
  lemma MachineStepKeepsLive(s: System, e: Event, ref: OwnerRef)
    requires Inv(s) && Allowed(s, e) && Calm(s, e)
    requires e.MachineCreated? || e.MachineGone? || e.CsMachineJoined? || e.CsMachineGone?
    ensures Live(s.k, ref) <= Live(Step(s, e).k, ref) && Step(s, e).k.owners == s.k.owners
  {
    if e.CsMachineGone? { RemoveMachineIs(s.k.csMachines, e.m); }
  }

  lemma OtherStepKeepsReplicas(s: System, e: Event, ref: OwnerRef)
    requires Inv(s) && Allowed(s, e) && !e.DomainReconciled? && Calm(s, e) && AtMostOneShort(s.k, ref)
    ensures AtMostOneShort(Step(s, e).k, ref)
    ensures Step(s, e).k.owners[ref].specReplicas == s.k.owners[ref].specReplicas
  {
    var k, k' := s.k, Step(s, e).k;
    if e.ClusterSetUp? || e.ClusterTornDown? {
      ClusterStepKeepsMachines(s, e);
      assert Live(k', ref) == Live(k, ref);
    } else if e.MachineCreated? || e.MachineGone? || e.CsMachineJoined? || e.CsMachineGone? {
      MachineStepKeepsLive(s, e, ref);
      SubsetCount(Live(k, ref), Live(k', ref));
    } else {
      assert Live(k', ref) == Live(k, ref);
    }
  }

  /**
   However many failure domains are drained at once, and whatever fails: as long as owners count accurately when the
   controller looks and nobody else deletes machines, an owner always keeps all its machines but at most one.
   */
  lemma {:induction false} DrainKeepsReplicas(s: System, events: seq<Event>, ref: OwnerRef)
    requires Inv(s) && AllCalm(s, events)
    requires AtMostOneShort(s.k, ref) && ref.kind.OtherKind?
    ensures AtMostOneShort(Run(s, events).k, ref)
    ensures Run(s, events).k.owners[ref].specReplicas == s.k.owners[ref].specReplicas
    decreases |events|
  {
    if |events| != 0 {
      var e := events[0];
      if Allowed(s, e) {
        if e.DomainReconciled? {
          DeletionMarksOrReleases(e.env, s.k, e.domain, e.cluster);
          DrainStepKeepsReplicas(s, e, ref);
        } else {
          OtherStepKeepsReplicas(s, e, ref);
        }
      }
      StepKeeps(s, e);
      DrainKeepsReplicas(Step(s, e), events[1..], ref);
    }
  }

  // ---- Counts of all machines that exist -----------------------------------------------------

  /** The machines of an owner, those being deleted included. */
  function Existing(k: Store, ref: OwnerRef): set<CsMachine> { set m | m in k.csMachines && ref in m.owners }

  /** Owners report as many replicas as they have machines, those being deleted included. */
  ghost predicate CountsAll(k: Store) {
    forall ref :: ref in k.owners && k.owners[ref].statusReplicas.Present?
      ==> k.owners[ref].statusReplicas.value == |Existing(k, ref)|
  }

  /** The one failure domain is drained, which sees counts of all machines, and nobody but the drain deletes
      machines. */
  ghost predicate CalmIn(s: System, e: Event, domain: string) {
    match e
    case DomainReconciled(_, d, _) => d == domain && CountsAll(s.k)
    case _ => Calm(s, e)
  }

  ghost predicate AllCalmIn(s: System, events: seq<Event>, domain: string)
    decreases |events|
  {
    |events| == 0 || (CalmIn(s, events[0], domain) && AllCalmIn(Step(s, events[0]), events[1..], domain))
  }

  /** Whatever is being deleted is being deleted by the drain of this failure domain. */
  ghost predicate OnlyDrained(s: System, domain: string) {
    forall m :: m in s.k.csMachines && !Alive(s.k.machines, m) ==>
      m.domain == domain && OwnerOf(m).Some? && OwnerOf(m).value in s.drained
  }

  /** When the next Machine is told to go, the one before is gone: no machine is being deleted at that time. */
  lemma NoneInFlight(s: System, domain: string)
    requires Inv(s) && OnlyDrained(s, domain)
    requires FirstMachine(s.k, domain).Some? && FirstMachine(s.k, domain).value in s.k.machines
    requires !s.k.machines[FirstMachine(s.k, domain).value]
    ensures forall m :: m in s.k.csMachines ==> Alive(s.k.machines, m)
  {
    NoneLeft(s.k, domain);
    var first := Listing(s.k, domain)[0];
    forall m | m in s.k.csMachines ensures Alive(s.k.machines, m) {
      LessTotal(m.name, first.name);
      assert Alive(s.k.machines, first);
    }
  }

  lemma CountsAgree(k: Store)
    requires CountsAll(k) && forall m :: m in k.csMachines ==> Alive(k.machines, m)
    ensures Accurate(k)
  {
    forall ref ensures Live(k, ref) == Existing(k, ref) {
    }
  }

  lemma DrainStepCountingAll(s: System, e: Event, ref: OwnerRef)
    requires Inv(s) && Allowed(s, e) && e.DomainReconciled? && CalmIn(s, e, e.domain) && OnlyDrained(s, e.domain)
    requires AtMostOneShort(s.k, ref) && ref.kind.OtherKind?
    ensures AtMostOneShort(Step(s, e).k, ref)
  {
    var k, k' := s.k, Step(s, e).k;
    DeletionMarksOrReleases(e.env, k, e.domain, e.cluster);
    if k'.machines == k.machines {
      assert Live(k', ref) == Live(k, ref);
    } else {
      NoneInFlight(s, e.domain);
      CountsAgree(k);
      DrainStepKeepsReplicas(s, e, ref);
    }
  }

  lemma DrainStepOnlyDrains(s: System, e: Event)
    requires Inv(s) && Allowed(s, e) && e.DomainReconciled? && OnlyDrained(s, e.domain)
    ensures OnlyDrained(Step(s, e), e.domain)
  {
    var k, k' := s.k, Step(s, e).k;
    DeletionMarksOrReleases(e.env, k, e.domain, e.cluster);
    NoneLeft(k, e.domain);
    if k'.machines != k.machines {
      var name := FirstMachine(k, e.domain).value;
      assert name in NewlyMarked(k.machines, k'.machines);
      forall m | m in k.csMachines && OwnerOf(m) == Some(name) ensures m == Listing(k, e.domain)[0] {
      }
    }
  }

  lemma OtherStepOnlyDrains(s: System, e: Event, domain: string)
    requires Inv(s) && Allowed(s, e) && !e.DomainReconciled? && Calm(s, e) && OnlyDrained(s, domain)
    ensures OnlyDrained(Step(s, e), domain)
  {
    if e.ClusterSetUp? || e.ClusterTornDown? { ClusterStepKeepsMachines(s, e); }
    if e.CsMachineGone? { RemoveMachineIs(s.k.csMachines, e.m); }
  }

  /**
   The same for owners that count machines being deleted too: with one failure domain being drained an owner keeps all
   its machines but at most one: the next Machine is told to go only when the one before is gone and replaced.
   */
  lemma {:induction false} DrainKeepsReplicasCountingAll(s: System, events: seq<Event>, domain: string, ref: OwnerRef)
    requires Inv(s) && AllCalmIn(s, events, domain) && OnlyDrained(s, domain)
    requires AtMostOneShort(s.k, ref) && ref.kind.OtherKind?
    ensures AtMostOneShort(Run(s, events).k, ref)
    decreases |events|
  {
    if |events| != 0 {
      var e := events[0];
      if Allowed(s, e) {
        if e.DomainReconciled? {
          DrainStepCountingAll(s, e, ref);
          DrainStepOnlyDrains(s, e);
        } else {
          OtherStepKeepsReplicas(s, e, ref);
          OtherStepOnlyDrains(s, e, domain);
        }
      }
      StepKeeps(s, e);
      DrainKeepsReplicasCountingAll(Step(s, e), events[1..], domain, ref);
    }
  }
}
