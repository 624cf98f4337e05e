/** Where teardown leaves something behind: exact conditions, and an input that meets them. */
module TeardownLimits {
  import opened Faults
  import opened ApiServer
  import opened Names
  import opened DomainSpec
  import opened DrainEffects
  import opened DrainProgress
  import opened TeardownRun
  import Stages
  import Teardown = ClusterTeardown
  import Ready = ClusterReady

  /**
   A failure domain can go while machines carry its label. When nothing fails, nothing blocks and no child is left, it
   does so exactly if the first machine by name has no owner of kind Machine.
   */
  lemma MachinesLeftBehind(env: Env, k: Store, domain: string, cluster: CapiCluster)
    requires domain in k.domains && k.domains[domain].deleting
    requires FaultFree(env) && Unblocked(k, domain, cluster)
    requires FirstMachine(k, domain).Some? ==> FirstMachine(k, domain).value in k.machines
    requires forall c :: c in k.children ==> c.owner != k.domains[domain].uid
    ensures var k' := Reconcile(env, k, domain, cluster).0;
            && (domain !in k'.domains <==> FirstMachine(k, domain).None?)
            && (domain !in k'.domains && InDomain(k'.csMachines, domain) != []
                <==> Listing(k, domain) != [] && MachineOwner(Listing(k, domain)[0].owners).None?)
  {
    var uid := k.domains[domain].uid;
    ListingIs(k, domain);
    DrainProceeds(env, k, domain, cluster);
    var k1 := Drain(env, k, domain, cluster).0;
    if FirstMachine(k, domain).None? {
      assert k1.children == k.children && k1.domains == k.domains;
      ReleaseWithoutChildren(env, k1, uid);
    } else {
      assert k1.domains == k.domains;
    }
    DeletionMarksOrReleases(env, k, domain, cluster);
  }

  lemma ReleaseWithoutChildren(env: Env, k: Store, uid: nat)
    requires FaultFree(env) && forall c :: c in k.children ==> c.owner != uid
    ensures var (k', res) := DeleteOwned(env, k, KINDS, uid);
            && res == Stages.Continue && CheckOwned(env, k', KINDS, uid).1 == Stages.Continue
            && CheckOwned(env, k', KINDS, uid).0.domains == k.domains
  {
    NothingOwned(env, k, KINDS, uid);
    DeleteOwnedIs(env, k, KINDS, uid);
    var k' := DeleteOwned(env, k, KINDS, uid).0;
    assert k'.domains == k.domains;
    CheckOwnedIs(env, k', KINDS, uid);
    var k'' := CheckOwned(env, k', KINDS, uid).0;
    assert Still(k'').domains == Still(k').domains;
  }

  lemma {:induction false} NothingListed(env: Env, k: Store, listed: seq<Child>, uid: nat)
    requires forall c :: c in listed ==> c.owner != uid
    ensures DeleteListed(env, k, listed, uid) == (k, Stages.Continue)
    decreases |listed|
  {
    if listed != [] {
      assert listed[0].owner != uid;
      NothingListed(env, k, listed[1..], uid);
    }
  }

  lemma {:induction false} NothingOwned(env: Env, k: Store, kinds: seq<ChildKind>, uid: nat)
    requires FaultFree(env) && forall c :: c in k.children ==> c.owner != uid
    ensures DeleteOwned(env, k, kinds, uid).1 == Stages.Continue
    decreases |kinds|
  {
    if kinds != [] {
      OfKindIs(k.children, kinds[0]);
      var (k1, listing) := ListChildren(env, k, kinds[0]);
      NothingListed(env, k1, listing.value, uid);
      NothingOwned(env, k1, kinds[1..], uid);
    }
  }

  /** The condition is met by a single machine that somebody else owns. */
  lemma StrayMachine()
    ensures exists env: Env, k: Store, cluster: CapiCluster ::
      && FaultFree(env) && "d" in k.domains && k.domains["d"].deleting
      && "d" !in Reconcile(env, k, "d", cluster).0.domains
      && InDomain(Reconcile(env, k, "d", cluster).0.csMachines, "d") != []
  {
    var env: Env := (t: nat) => Normal;
    var m := CsMachine("m", "d", []);
    var k := Store(0, map[], [m], map[], [], 2, map["d" := Domain(1, "d", "c", true, true, true)], map[]);
    var cluster := CapiCluster(false, []);
    assert InDomain(k.csMachines, "d") == [m] + InDomain(k.csMachines[1..], "d") == [m];
    assert SortByName([m]) == Insert(m, SortByName([m][1..])) == [m];
    MachinesLeftBehind(env, k, "d", cluster);
    DeletionMarksOrReleases(env, k, "d", cluster);
  }

  // ---- Clusters deleted before they were ready -----------------------------------------------

  /**
   A cluster gets its finalizer from the reconciliation that reaches SetReady, when it is written back. In every run, a
   cluster that its user deletes while it has failure domains is gone at once exactly if no reconciliation of it has
   reached SetReady and been written back yet. Otherwise it stays until they are gone, by TeardownIsOrdered.
   */
  lemma ClusterDeletedEarly(events: seq<Event>, name: string, domain: string)
    requires var s := Run(NOTHING, events);
             name in s.k.clusters && domain in s.k.domains && s.k.domains[domain].cluster == name
    ensures var s := Run(NOTHING, events);
            var k' := Step(s, ClusterDeleted(name)).k;
            domain in k'.domains && (name !in k'.clusters <==> name !in s.readied)
  {
    assert Inv(NOTHING);
    TeardownIsOrdered(NOTHING, events);
  }

  ghost function Enumerated(items: set<Item>): seq<Item> {
    if items == {} then [] else var item :| item in items; [item] + Enumerated(items - {item})
  }

  ghost predicate NoRepeats(listing: seq<Item>) { forall i, j :: 0 <= i < j < |listing| ==> listing[i] != listing[j] }

  lemma {:induction false} EnumeratedIs(items: set<Item>)
    ensures forall item :: item in Enumerated(items) <==> item in items
    ensures NoRepeats(Enumerated(items))
  {
    if items != {} {
      var listing := Enumerated(items);
      EnumeratedIs(items - {listing[0]});
      assert listing[1..] == Enumerated(items - {listing[0]});
      assert forall i :: 0 < i < |listing| ==> listing[i] == listing[1..][i - 1] && listing[i] in listing[1..];
    }
  }

  ghost function ItemsOf(domains: Domains, cluster: string): set<Item> {
    set meta | meta in domains && domains[meta].cluster == cluster :: (meta, domains[meta])
  }

  /** There is an order in which to list. */
  lemma SomeOrder() returns (order: Order)
    ensures Faithful(order)
  {
    order := (domains, cluster) => Enumerated(ItemsOf(domains, cluster));
    forall domains, cluster ensures Lists(domains, cluster, order(domains, cluster)) {
      EnumeratedIs(ItemsOf(domains, cluster));
      var listing := Enumerated(ItemsOf(domains, cluster));
      assert order(domains, cluster) == listing;
      forall i, j | 0 <= i < j < |listing| ensures listing[i].0 != listing[j].0 {
        assert listing[i] in listing && listing[j] in listing && listing[i] != listing[j];
        assert listing[i] == (listing[i].0, domains[listing[i].0]) && listing[j] == (listing[j].0, domains[listing[j].0]);
      }
    }
  }

  lemma {:induction false} RunOf(s: System, e: Event, rest: seq<Event>)
    ensures Run(s, [e] + rest) == Run(Step(s, e), rest)
  {
    assert ([e] + rest)[1..] == rest;
  }

  /** It does happen: a cluster is created, reconciled once without failures, and deleted. */
  lemma ClusterGoneFirst() returns (events: seq<Event>, domain: string)
    ensures var s := Run(NOTHING, events);
            "c" !in s.k.clusters && domain in s.k.domains && s.k.domains[domain].cluster == "c"
  {
    var env: Env := (t: nat) => Normal;
    var hash: Ready.Hash := (name, cluster) => name;
    var order := SomeOrder();
    var created, setUp := ClusterCreated("c", "c", ["a"]), ClusterSetUp(env, "c", hash, order);
    var deleted := ClusterDeleted("c");
    domain := "a";
    var s1 := Step(NOTHING, created);
    Ready.WantedAreCreated(env, s1.k, hash, "c", order, "a");
    Ready.ReadyExactlyWhen(env, s1.k, hash, "c", order);
    assert "a" in s1.k.clusters["c"].wanted;
    var s2 := Step(s1, setUp);
    var grown := Ready.ConvergeGrowsThenShrinks(env, s1.k, hash, "c", order);
    assert s2.k == Ready.Converge(env, s1.k, hash, "c", order).0 && s2.k.clusters == s1.k.clusters;
    RunOf(s2, deleted, []);
    RunOf(s1, setUp, [deleted] + []);
    RunOf(NOTHING, created, [setUp] + ([deleted] + []));
    events := [created] + ([setUp] + ([deleted] + []));
  }

  // ---- Clusters that do not bear their CAPI cluster's name -----------------------------------

  /**
   Failure domains are created under a cluster's label and listed by the label of the cluster of that name. Without
   failures a cluster is released with failure domains of its own left exactly if the two labels differ and nothing is
   listed by the second.
   */
  lemma MislabelledCluster(env: Env, k: Store, name: string, order: Order)
    requires FaultFree(env) && Faithful(order) && name in k.clusters && k.clusters[name].deleting
    ensures var own, listed := k.clusters[name].capi, ListingLabel(k.clusters, name);
            var k' := Teardown.Reconcile(env, k, name, order).0;
            name !in k'.clusters && DomainsOf(k'.domains, own) != {}
            <==> own != listed && DomainsOf(k.domains, listed) == {} && DomainsOf(k.domains, own) != {}
  {
    Teardown.ReconcileFaultFree(env, k, name, order);
    Teardown.ReleasedOnlyWhenNoneListed(env, k, name, order);
  }
}
