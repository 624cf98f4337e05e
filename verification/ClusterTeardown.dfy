/** Deletion of a cluster (controllers/cloudstackcluster_controller.go): failure domains first, then the finalizer. */
module ClusterTeardown {
  import opened Faults
  import opened ApiServer
  import opened Stages

  function DeleteDomains(env: Env, k: Store, listing: seq<Item>): (Store, Result)
    decreases |listing|
  {
    if listing == [] then (k, Continue)
    else
      var (k1, err) := DeleteDomain(env, k, listing[0].0);
      if err.Error? then (k1, Fail) else DeleteDomains(env, k1, listing[1..])
  }

  function ReconcileDelete(env: Env, k: Store, name: string, order: Order): (Store, Result)
    requires name in k.clusters
  {
    var (k1, found) := ListDomains(env, k, ListingLabel(k.clusters, name), order);
    if found.Failed? then (k1, Fail)
    else if found.value == [] then (k1, Continue)
    else
      var (k2, res) := DeleteDomains(env, k1, found.value);
      (k2, if res == Continue then Requeue else res)
  }

  /** A reconciliation of a cluster marked for deletion, with the change written back. */
  function Reconcile(env: Env, k: Store, name: string, order: Order): (Store, Result)
    requires name in k.clusters
  {
    var (k1, res) := ReconcileDelete(env, k, name, order);
    if res != Continue then (k1, res)
    else
      var (k2, err) := ReleaseCluster(env, k1, name);
      (k2, if err.Error? then Fail else Continue)
  }

  /** The same failure domain, or the same told to go. */
  predicate Same(a: Domain, b: Domain) { b == a || b == a.(deleting := true) }

  /** Failure domains that were asked to go: what had a finalizer is still there, and nothing else about it changed. */
  ghost predicate Shrunk(domains: Domains, domains': Domains) {
    && (forall meta :: meta in domains' ==> meta in domains && Same(domains[meta], domains'[meta]))
    && (forall meta :: meta in domains && domains[meta].finalizer ==> meta in domains')
  }

  lemma DeletedIsShrunk(domains: Domains, meta: string)
    ensures Shrunk(domains, Deleted(domains, meta))
  {
  }

  lemma ShrunkCompose(a: Domains, b: Domains, c: Domains)
    requires Shrunk(a, b) && Shrunk(b, c)
    ensures Shrunk(a, c)
  {
  }

  /** Nothing but the failure domains differs. */
  ghost predicate OnlyDomains(k: Store, k': Store) {
    Still(k').(domains := map[]) == Still(k).(domains := map[])
  }

  lemma {:induction false} DeletionsOnlyShrink(env: Env, k: Store, listing: seq<Item>)
    ensures var k' := DeleteDomains(env, k, listing).0; Shrunk(k.domains, k'.domains) && OnlyDomains(k, k')
    decreases |listing|
  {
    if listing != [] {
      var (k1, err) := DeleteDomain(env, k, listing[0].0);
      DeletedIsShrunk(k.domains, listing[0].0);
      if err.Nil? {
        DeletionsOnlyShrink(env, k1, listing[1..]);
        ShrunkCompose(k.domains, k1.domains, DeleteDomains(env, k1, listing[1..]).0.domains);
      }
    }
  }

  /** Either failure domains are asked to go, or the cluster is released, and that only if no failure domain is listed.
      A deletion that reports completion has released it. */
  lemma ReleasedOnlyWhenNoneListed(env: Env, k: Store, name: string, order: Order)
    requires name in k.clusters && Faithful(order)
    ensures var (k', res) := Reconcile(env, k, name, order);
            && Shrunk(k.domains, k'.domains)
            && (k.clusters[name].deleting && res == Continue ==> name !in k'.clusters)
            && k'.machines == k.machines && k'.csMachines == k.csMachines && k'.children == k.children
            && k'.owners == k.owners && k'.nextUid == k.nextUid
            && (|| k'.clusters == k.clusters
                || (&& k'.clusters == UnfinalizedCluster(k.clusters, name)
                    && DomainsOf(k.domains, ListingLabel(k.clusters, name)) == {} && k'.domains == k.domains))
  {
    var cluster := ListingLabel(k.clusters, name);
    var k1 := ListDomains(env, k, cluster, order).0;
    var listing := order(k.domains, cluster);
    assert Lists(k.domains, cluster, listing);
    DeletionsOnlyShrink(env, k1, listing);
    if listing == [] {
      forall meta ensures meta !in DomainsOf(k.domains, cluster) {
        assert meta in k.domains ==> (meta, k.domains[meta]) !in listing;
      }
    }
  }

  /** Without failures every listed failure domain is asked to go. */
  lemma {:induction false} AllAskedToGo(env: Env, k: Store, listing: seq<Item>)
    requires FaultFree(env)
    requires forall i :: 0 <= i < |listing| ==> listing[i].0 in k.domains
    requires forall i, j :: 0 <= i < j < |listing| ==> listing[i].0 != listing[j].0
    ensures var (k', res) := DeleteDomains(env, k, listing);
            && res == Continue
            && forall i :: 0 <= i < |listing| && listing[i].0 in k'.domains ==> k'.domains[listing[i].0].deleting
    decreases |listing|
  {
    if listing != [] {
      var k1 := DeleteDomain(env, k, listing[0].0).0;
      AllAskedToGo(env, k1, listing[1..]);
      DeletionsOnlyShrink(env, k1, listing[1..]);
      assert forall i :: 0 < i < |listing| ==> listing[i] == listing[1..][i - 1];
    }
  }

  /** Without failures the cluster goes exactly if no failure domain is listed, and otherwise each of them is asked to
      go. */
  lemma ReconcileFaultFree(env: Env, k: Store, name: string, order: Order)
    requires FaultFree(env) && Faithful(order)
    requires name in k.clusters && k.clusters[name].deleting
    ensures var cluster := ListingLabel(k.clusters, name);
            var (k', res) := Reconcile(env, k, name, order);
            && (name !in k'.clusters <==> DomainsOf(k.domains, cluster) == {})
            && res == (if DomainsOf(k.domains, cluster) == {} then Continue else Requeue)
            && forall meta :: meta in DomainsOf(k'.domains, cluster) ==> k'.domains[meta].deleting
  {
    var cluster := ListingLabel(k.clusters, name);
    var k1 := ListDomains(env, k, cluster, order).0;
    var listing := order(k.domains, cluster);
    assert Lists(k.domains, cluster, listing);
    forall i | 0 <= i < |listing| ensures listing[i].0 in k.domains { assert listing[i] in listing; }
    AllAskedToGo(env, k1, listing);
    DeletionsOnlyShrink(env, k1, listing);
    ReleasedOnlyWhenNoneListed(env, k, name, order);
    if listing != [] {
      assert listing[0] in listing && listing[0].0 in DomainsOf(k.domains, cluster);
    }
    var k' := Reconcile(env, k, name, order).0;
    forall meta | meta in DomainsOf(k'.domains, cluster) ensures k'.domains[meta].deleting {
      assert (meta, k.domains[meta]) in listing;
    }
  }
}
