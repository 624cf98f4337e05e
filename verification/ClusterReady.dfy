/**
 Reconciliation of a cluster (controllers/cloudstackcluster_controller.go, controllers/utils/failuredomains.go): its
 failure domains are created, listed, cleaned up and checked, and then it is ready.
 */
module ClusterReady {
  import opened Faults
  import opened ApiServer
  import opened Stages
  import opened ClusterTeardown

  /** The object name of a failure domain of a cluster: hashed, and in lower case. */
  type Hash = (string, string) -> string

  // ---- The stages ----------------------------------------------------------------------------

  function CreateAll(env: Env, k: Store, hash: Hash, cluster: string, names: seq<string>): (Store, Result)
    decreases |names|
  {
    if names == [] then (k, Continue)
    else
      var (k1, err) := CreateDomain(env, k, hash(names[0], cluster), names[0], cluster);
      if err.Error? && err.text != Duplicate then (k1, Fail) else CreateAll(env, k1, hash, cluster, names[1..])
  }

  function RemoveExtraneous(env: Env, k: Store, names: seq<string>, listing: seq<Item>): (Store, Result)
    decreases |listing|
  {
    if listing == [] then (k, Continue)
    else if listing[0].1.name in names then RemoveExtraneous(env, k, names, listing[1..])
    else
      var (k1, err) := DeleteDomain(env, k, listing[0].0);
      if err.Error? then (k1, Fail) else RemoveExtraneous(env, k1, names, listing[1..])
  }

  /** The first listed failure domain of a name. */
  function FirstOf(listing: seq<Item>, name: string): Option<Domain> {
    if listing == [] then None
    else if listing[0].1.name == name then Some(listing[0].1)
    else FirstOf(listing[1..], name)
  }

  function Verify(names: seq<string>, listing: seq<Item>): Result {
    if names == [] then Continue
    else match FirstOf(listing, names[0])
      case None => Requeue
      case Some(fd) => if fd.ready then Verify(names[1..], listing) else Requeue
  }

  /**
   The stages of a cluster that is not being deleted; `Continue` means that SetReady was reached. Two objects play a
   part: the cluster being reconciled, whose spec is created and verified, and the one fetched by its label, by whose
   label failure domains are listed and by whose spec they are removed. Failure domains are created under the name of
   the CAPI cluster, which is fetched by the same label and so bears it as its name.
   */
  function Converge(env: Env, k: Store, hash: Hash, name: string, order: Order): (Store, Result)
    requires name in k.clusters
  {
    var subject := k.clusters[name];
    if subject.capi !in k.clusters then (k, Requeue)
    else
      var fetched := k.clusters[subject.capi];
      var (k1, created) := CreateAll(env, k, hash, subject.capi, subject.wanted);
      if created != Continue then (k1, created)
      else
        var (k2, listed) := ListDomains(env, k1, fetched.capi, order);
        if listed.Failed? then (k2, Fail)
        else
          var (k3, removed) := RemoveExtraneous(env, k2, fetched.wanted, listed.value);
          if removed != Continue then (k3, removed) else (k3, Verify(subject.wanted, listed.value))
  }

  /** The whole reconciliation: after SetReady the cluster is written back with finalizer and readiness. */
  function Reconciliation(env: Env, k: Store, hash: Hash, name: string, order: Order): (Store, Result)
    requires name in k.clusters
  {
    var (k1, res) := Converge(env, k, hash, name, order);
    if res != Continue then (k1, res)
    else
      var (k2, err) := MarkReady(env, k1, name);
      (k2, if err.Error? then Fail else Continue)
  }

  // ---- The stages as they are written --------------------------------------------------------

  class ClusterRunner {
    const api: Api
    const hash: Hash
    const name: string
    const subject: OwnCluster
    var fetched: OwnCluster
    var failureDomains: seq<Item>
    var statusMap: map<string, string>

    constructor (api: Api, hash: Hash, name: string)
      requires name in api.store.clusters
      ensures this.api == api && this.hash == hash && this.name == name && subject == api.store.clusters[name]
    {
      this.api, this.hash, this.name, this.subject := api, hash, name, api.store.clusters[name];
      fetched, failureDomains, statusMap := api.store.clusters[name], [], map[];
    }

    method SetFailureDomainsStatusMap()
      modifies this`statusMap
      ensures statusMap == map wanted | wanted in subject.wanted :: hash(wanted, subject.capi)
    {
      var names := subject.wanted;
      statusMap := map[];
      var i := 0;
      while i < |names|
        invariant 0 <= i <= |names|
        invariant statusMap == map wanted | wanted in names[..i] :: hash(wanted, subject.capi)
      {
        statusMap := statusMap[names[i] := hash(names[i], subject.capi)];
        assert names[..i + 1] == names[..i] + [names[i]];
        i := i + 1;
      }
      assert names[..i] == names;
    }

    method CreateFailureDomains(names: seq<string>) returns (res: Result)
      modifies api
      ensures (api.store, res) == CreateAll(api.env, old(api.store), hash, subject.capi, names)
    {
      var i := 0;
      while i < |names|
        invariant 0 <= i <= |names|
        invariant CreateAll(api.env, old(api.store), hash, subject.capi, names)
               == CreateAll(api.env, api.store, hash, subject.capi, names[i..])
      {
        var creation := CreateDomain(api.env, api.store, hash(names[i], subject.capi), names[i], subject.capi);
        api.store := creation.0;
        if creation.1.Error? && creation.1.text != Duplicate { return Fail; }
        i := i + 1;
      }
      return Continue;
    }

    /** The names of the fetched cluster's spec, as a presence map. */
    method PresenceByName() returns (presence: map<string, bool>)
      ensures forall wanted :: wanted in presence <==> wanted in fetched.wanted
    {
      presence := map[];
      var n := 0;
      while n < |fetched.wanted|
        invariant 0 <= n <= |fetched.wanted|
        invariant forall wanted :: wanted in presence <==> wanted in fetched.wanted[..n]
      {
        presence := presence[fetched.wanted[n] := true];
        n := n + 1;
      }
      assert fetched.wanted[..n] == fetched.wanted;
    }

    method RemoveExtraneousFailureDomains() returns (res: Result)
      modifies api
      ensures (api.store, res) == RemoveExtraneous(api.env, old(api.store), fetched.wanted, failureDomains)
    {
      var presence := PresenceByName();
      var i := 0;
      while i < |failureDomains|
        invariant 0 <= i <= |failureDomains|
        invariant RemoveExtraneous(api.env, old(api.store), fetched.wanted, failureDomains)
               == RemoveExtraneous(api.env, api.store, fetched.wanted, failureDomains[i..])
      {
        if failureDomains[i].1.name !in presence {
          var removal := DeleteDomain(api.env, api.store, failureDomains[i].0);
          api.store := removal.0;
          if removal.1.Error? { return Fail; }
        }
        i := i + 1;
      }
      return Continue;
    }

    /** Searches the listed failure domains for each name, with a flag for having found it. */
    method VerifyFailureDomainCRDs() returns (res: Result)
      ensures res == Verify(subject.wanted, failureDomains)
    {
      var names := subject.wanted;
      var i := 0;
      while i < |names|
        invariant 0 <= i <= |names|
        invariant Verify(names, failureDomains) == Verify(names[i..], failureDomains)
      {
        var found := false;
        var j := 0;
        while j < |failureDomains| && !found
          invariant 0 <= j <= |failureDomains|
          invariant !found ==> FirstOf(failureDomains, names[i]) == FirstOf(failureDomains[j..], names[i])
          invariant found ==> FirstOf(failureDomains, names[i]).Some? && FirstOf(failureDomains, names[i]).value.ready
        {
          if failureDomains[j].1.name == names[i] {
            found := true;
            if !failureDomains[j].1.ready { return Requeue; }
          }
          j := j + 1;
        }
        if !found { return Requeue; }
        i := i + 1;
      }
      return Continue;
    }

    method GetFailureDomains(order: Order) returns (res: Result)
      modifies this`failureDomains, api
      ensures var (k, listed) := ListDomains(api.env, old(api.store), fetched.capi, order);
              && api.store == k
              && (if listed.Failed? then res == Fail else res == Continue && failureDomains == listed.value)
    {
      var reply := ListDomains(api.env, api.store, fetched.capi, order);
      api.store := reply.0;
      if reply.1.Failed? { return Fail; }
      failureDomains := reply.1.value;
      return Continue;
    }

    method Reconcile(order: Order) returns (res: Result)
      requires name in api.store.clusters && subject == api.store.clusters[name]
      modifies this, api
      ensures (api.store, res) == Reconciliation(api.env, old(api.store), hash, name, order)
      ensures subject.capi in old(api.store).clusters ==>
                statusMap == map wanted | wanted in subject.wanted :: hash(wanted, subject.capi)
    {
      if subject.capi !in api.store.clusters { return Requeue; }
      fetched := api.store.clusters[subject.capi];
      SetFailureDomainsStatusMap();
      res := CreateFailureDomains(subject.wanted);
      if res != Continue { return; }
      res := GetFailureDomains(order);
      if res != Continue { return; }
      res := RemoveExtraneousFailureDomains();
      if res != Continue { return; }
      res := VerifyFailureDomainCRDs();
      if res != Continue { return; }
      var patched := MarkReady(api.env, api.store, name);
      api.store := patched.0;
      return if patched.1.Error? then Fail else Continue;
    }
  }

  // ---- Effects -------------------------------------------------------------------------------

  /** Distinct UIDs, all of them handed out. */
  ghost predicate DistinctUids(domains: Domains, nextUid: nat) {
    && (forall meta :: meta in domains ==> domains[meta].uid < nextUid)
    && (forall a, b :: a in domains && b in domains && domains[a].uid == domains[b].uid ==> a == b)
  }

  /** A failure domain made for a cluster after UIDs had reached `nextUid`. */
  predicate Fresh(fd: Domain, cluster: string, nextUid: nat) {
    fd == NewDomain(fd.uid, fd.name, cluster) && nextUid <= fd.uid
  }

  /** Only failure domains were added, and what was there is as it was. */
  ghost predicate Grown(k: Store, k': Store, cluster: string) {
    && Still(k').(domains := map[], nextUid := 0) == Still(k).(domains := map[], nextUid := 0)
    && k.nextUid <= k'.nextUid
    && (forall meta :: meta in k.domains ==> meta in k'.domains && k'.domains[meta] == k.domains[meta])
    && (forall meta :: meta in k'.domains && meta !in k.domains ==> Fresh(k'.domains[meta], cluster, k.nextUid))
    && (DistinctUids(k.domains, k.nextUid) ==> DistinctUids(k'.domains, k'.nextUid))
  }

  lemma CreateDomainGrows(env: Env, k: Store, meta: string, name: string, cluster: string)
    ensures Grown(k, CreateDomain(env, k, meta, name, cluster).0, cluster)
  {
  }

  lemma GrownCompose(a: Store, b: Store, c: Store, cluster: string)
    requires Grown(a, b, cluster) && Grown(b, c, cluster)
    ensures Grown(a, c, cluster)
  {
  }

  lemma {:induction false} CreationsOnlyGrow(env: Env, k: Store, hash: Hash, cluster: string, names: seq<string>)
    ensures Grown(k, CreateAll(env, k, hash, cluster, names).0, cluster)
    decreases |names|
  {
    if names != [] {
      CreateDomainGrows(env, k, hash(names[0], cluster), names[0], cluster);
      var (k1, err) := CreateDomain(env, k, hash(names[0], cluster), names[0], cluster);
      if !(err.Error? && err.text != Duplicate) {
        CreationsOnlyGrow(env, k1, hash, cluster, names[1..]);
        GrownCompose(k, k1, CreateAll(env, k1, hash, cluster, names[1..]).0, cluster);
      }
    }
  }

  lemma {:induction false} CreatedUnder(env: Env, k: Store, hash: Hash, cluster: string, names: seq<string>)
    ensures var (k', res) := CreateAll(env, k, hash, cluster, names);
            && (forall meta :: meta in k'.domains && meta !in k.domains ==>
                  meta == hash(k'.domains[meta].name, cluster) && k'.domains[meta].name in names)
            && (FaultFree(env) ==>
                  res == Continue && forall name :: name in names ==> hash(name, cluster) in k'.domains)
    decreases |names|
  {
    if names != [] {
      assert names == [names[0]] + names[1..];
      var (k1, err) := CreateDomain(env, k, hash(names[0], cluster), names[0], cluster);
      if !(err.Error? && err.text != Duplicate) {
        CreatedUnder(env, k1, hash, cluster, names[1..]);
        CreationsOnlyGrow(env, k1, hash, cluster, names[1..]);
      }
    }
  }

  lemma {:induction false} RemovalsOnlyShrink(env: Env, k: Store, names: seq<string>, listing: seq<Item>)
    ensures var k' := RemoveExtraneous(env, k, names, listing).0; Shrunk(k.domains, k'.domains) && OnlyDomains(k, k')
    decreases |listing|
  {
    if listing == [] {
    } else if listing[0].1.name in names {
      RemovalsOnlyShrink(env, k, names, listing[1..]);
    } else {
      DeletedIsShrunk(k.domains, listing[0].0);
      var (k1, err) := DeleteDomain(env, k, listing[0].0);
      if err.Nil? {
        RemovalsOnlyShrink(env, k1, names, listing[1..]);
        ShrunkCompose(k.domains, k1.domains, RemoveExtraneous(env, k1, names, listing[1..]).0.domains);
      }
    }
  }

  /** A reconciliation adds failure domains under the cluster's label, then tells some to go; nothing else changes. */
  lemma ConvergeGrowsThenShrinks(env: Env, k: Store, hash: Hash, name: string, order: Order) returns (k1: Store)
    requires name in k.clusters
    ensures var k' := Converge(env, k, hash, name, order).0;
            Grown(k, k1, k.clusters[name].capi) && Shrunk(k1.domains, k'.domains) && OnlyDomains(k1, k')
  {
    var subject := k.clusters[name];
    k1 := k;
    if subject.capi in k.clusters {
      var fetched := k.clusters[subject.capi];
      CreationsOnlyGrow(env, k, hash, subject.capi, subject.wanted);
      k1 := CreateAll(env, k, hash, subject.capi, subject.wanted).0;
      var k2 := ListDomains(env, k1, fetched.capi, order).0;
      RemovalsOnlyShrink(env, k2, fetched.wanted, order(k1.domains, fetched.capi));
      var k3 := RemoveExtraneous(env, k2, fetched.wanted, order(k1.domains, fetched.capi)).0;
      var k' := Converge(env, k, hash, name, order).0;
      assert k' == k1 || k' == k2 || k' == k3;
      assert OnlyDomains(k1, k2) && OnlyDomains(k1, k3);
    }
  }

  // ---- What SetReady means -------------------------------------------------------------------

  /** It is not there any more, or was told to go. */
  predicate Gone(domains: Domains, meta: string) { meta in domains ==> domains[meta].deleting }

  lemma {:induction false} ExtraneousAreGone(env: Env, k: Store, names: seq<string>, listing: seq<Item>)
    requires RemoveExtraneous(env, k, names, listing).1 == Continue
    ensures forall item :: item in listing && item.1.name !in names ==>
              Gone(RemoveExtraneous(env, k, names, listing).0.domains, item.0)
    decreases |listing|
  {
    if listing != [] {
      assert listing == [listing[0]] + listing[1..];
      if listing[0].1.name in names {
        ExtraneousAreGone(env, k, names, listing[1..]);
      } else {
        var k1 := DeleteDomain(env, k, listing[0].0).0;
        ExtraneousAreGone(env, k1, names, listing[1..]);
        RemovalsOnlyShrink(env, k1, names, listing[1..]);
      }
    }
  }

  lemma {:induction false} OthersStay(env: Env, k: Store, names: seq<string>, listing: seq<Item>, meta: string)
    requires meta in k.domains && forall item :: item in listing && item.0 == meta ==> item.1.name in names
    ensures var k' := RemoveExtraneous(env, k, names, listing).0;
            meta in k'.domains && k'.domains[meta] == k.domains[meta]
    decreases |listing|
  {
    if listing != [] {
      assert listing == [listing[0]] + listing[1..];
      if listing[0].1.name in names {
        OthersStay(env, k, names, listing[1..], meta);
      } else {
        var (k1, err) := DeleteDomain(env, k, listing[0].0);
        assert listing[0] in listing;
        if err.Nil? { OthersStay(env, k1, names, listing[1..], meta); }
      }
    }
  }

  ghost predicate Named(listing: seq<Item>, name: string, item: Item) { item in listing && item.1.name == name }

  lemma {:induction false} FirstIsListed(listing: seq<Item>, name: string)
    ensures FirstOf(listing, name).Some? <==> exists item :: Named(listing, name, item)
    ensures FirstOf(listing, name).Some? ==>
              exists item :: Named(listing, name, item) && FirstOf(listing, name) == Some(item.1)
  {
    if listing != [] {
      FirstIsListed(listing[1..], name);
      assert listing == [listing[0]] + listing[1..];
      assert forall item :: Named(listing, name, item) <==>
        (item == listing[0] && item.1.name == name) || Named(listing[1..], name, item);
    }
  }

  ghost predicate FoundReady(listing: seq<Item>, name: string) {
    FirstOf(listing, name).Some? && FirstOf(listing, name).value.ready
  }

  lemma {:induction false} VerifiedAreReady(names: seq<string>, listing: seq<Item>)
    ensures Verify(names, listing) == Continue <==> forall name :: name in names ==> FoundReady(listing, name)
  {
    if names != [] {
      assert names == [names[0]] + names[1..];
      if FoundReady(listing, names[0]) { VerifiedAreReady(names[1..], listing); }
    }
  }

  lemma {:induction false} NotFail(names: seq<string>, listing: seq<Item>)
    ensures Verify(names, listing) != Fail
  {
    if names != [] { NotFail(names[1..], listing); }
  }

  /** This object is a ready failure domain of that name and label. */
  ghost predicate Serves(domains: Domains, meta: string, cluster: string, name: string) {
    meta in domains && domains[meta].cluster == cluster && domains[meta].name == name && domains[meta].ready
  }

  /** A failure domain of this label that the spec does not name. */
  predicate Unwanted(fd: Domain, cluster: string, names: seq<string>) { fd.cluster == cluster && fd.name !in names }

  /**
   Whenever a reconciliation reaches SetReady, whatever failed before or failed silently: every failure domain its spec
   names existed before and was ready, under the label listed by, and is untouched if the fetched cluster names
   it too; and every failure domain of that label that the fetched cluster does not name has been told to go.
   */
  lemma ReadyMeansConverged(env: Env, k: Store, hash: Hash, name: string, order: Order)
    requires name in k.clusters && Faithful(order)
    requires Converge(env, k, hash, name, order).1 == Continue
    ensures k.clusters[name].capi in k.clusters
    ensures var subject := k.clusters[name];
            var fetched := k.clusters[subject.capi];
            var k' := Converge(env, k, hash, name, order).0;
            && (forall wanted :: wanted in subject.wanted ==>
                  exists meta :: Serves(k.domains, meta, fetched.capi, wanted)
                    && (wanted in fetched.wanted ==> meta in k'.domains && k'.domains[meta] == k.domains[meta]))
            && (forall meta :: meta in k'.domains && Unwanted(k'.domains[meta], fetched.capi, fetched.wanted) ==>
                  k'.domains[meta].deleting)
  {
    var subject := k.clusters[name];
    var fetched := k.clusters[subject.capi];
    CreationsOnlyGrow(env, k, hash, subject.capi, subject.wanted);
    var k1 := CreateAll(env, k, hash, subject.capi, subject.wanted).0;
    var k2 := Tick(k1);
    var listing := order(k1.domains, fetched.capi);
    assert Lists(k1.domains, fetched.capi, listing);
    RemovalsOnlyShrink(env, k2, fetched.wanted, listing);
    ExtraneousAreGone(env, k2, fetched.wanted, listing);
    VerifiedAreReady(subject.wanted, listing);
    var k' := RemoveExtraneous(env, k2, fetched.wanted, listing).0;
    forall wanted | wanted in subject.wanted
      ensures exists meta :: Serves(k.domains, meta, fetched.capi, wanted)
                && (wanted in fetched.wanted ==> meta in k'.domains && k'.domains[meta] == k.domains[meta])
    {
      assert FoundReady(listing, wanted);
      FirstIsListed(listing, wanted);
      var item :| Named(listing, wanted, item) && FirstOf(listing, wanted) == Some(item.1);
      assert Serves(k.domains, item.0, fetched.capi, wanted);
      if wanted in fetched.wanted { OthersStay(env, k2, fetched.wanted, listing, item.0); }
    }
    forall meta | meta in k'.domains && Unwanted(k'.domains[meta], fetched.capi, fetched.wanted)
      ensures k'.domains[meta].deleting
    {
      assert (meta, k1.domains[meta]) in listing;
      assert Gone(k'.domains, meta);
    }
  }

  /** The usual case: the cluster bears the name of its CAPI cluster, so the fetched cluster is the one reconciled. */
  lemma ReadyUnderOwnName(env: Env, k: Store, hash: Hash, name: string, order: Order)
    requires name in k.clusters && Faithful(order) && k.clusters[name].capi == name
    requires Converge(env, k, hash, name, order).1 == Continue
    ensures var names := k.clusters[name].wanted;
            var k' := Converge(env, k, hash, name, order).0;
            && (forall wanted :: wanted in names ==> exists meta :: Serves(k'.domains, meta, name, wanted))
            && (forall meta :: meta in k'.domains && Unwanted(k'.domains[meta], name, names) ==>
                  k'.domains[meta].deleting)
  {
    ReadyMeansConverged(env, k, hash, name, order);
    var k' := Converge(env, k, hash, name, order).0;
    forall wanted | wanted in k.clusters[name].wanted ensures exists meta :: Serves(k'.domains, meta, name, wanted) {
      var meta :| Serves(k.domains, meta, name, wanted) && meta in k'.domains && k'.domains[meta] == k.domains[meta];
      assert Serves(k'.domains, meta, name, wanted);
    }
  }

  /** What a reconciliation creates is listed by it exactly if the fetched cluster has the label of the one
      reconciled. */
  lemma CreatedAreListed(env: Env, k: Store, hash: Hash, name: string, order: Order, meta: string)
    requires name in k.clusters && k.clusters[name].capi in k.clusters && Faithful(order)
    requires var k1 := CreateAll(env, k, hash, k.clusters[name].capi, k.clusters[name].wanted).0;
             meta in k1.domains && meta !in k.domains
    ensures var k1 := CreateAll(env, k, hash, k.clusters[name].capi, k.clusters[name].wanted).0;
            (exists item :: item in order(k1.domains, ListingLabel(k.clusters, name)) && item.0 == meta)
            <==> ListingLabel(k.clusters, name) == k.clusters[name].capi
  {
    var capi := k.clusters[name].capi;
    CreationsOnlyGrow(env, k, hash, capi, k.clusters[name].wanted);
    var k1 := CreateAll(env, k, hash, capi, k.clusters[name].wanted).0;
    var listing := order(k1.domains, ListingLabel(k.clusters, name));
    assert Lists(k1.domains, ListingLabel(k.clusters, name), listing);
    assert Fresh(k1.domains[meta], capi, k.nextUid);
    if ListingLabel(k.clusters, name) == capi { assert (meta, k1.domains[meta]) in listing; }
  }

  /** Without failures every failure domain the spec names is there afterwards, unless another one has its object
      name. */
  lemma WantedAreCreated(env: Env, k: Store, hash: Hash, name: string, order: Order, wanted: string)
    requires FaultFree(env) && Faithful(order)
    requires name in k.clusters && k.clusters[name].capi == name && wanted in k.clusters[name].wanted
    requires hash(wanted, name) !in k.domains
    ensures var k' := Converge(env, k, hash, name, order).0;
            && hash(wanted, name) in k'.domains
            && k'.domains[hash(wanted, name)].cluster == name && !k'.domains[hash(wanted, name)].ready
  {
    var subject, meta := k.clusters[name], hash(wanted, name);
    CreationsOnlyGrow(env, k, hash, name, subject.wanted);
    CreatedUnder(env, k, hash, name, subject.wanted);
    var k1 := CreateAll(env, k, hash, name, subject.wanted).0;
    var listing := order(k1.domains, name);
    assert Lists(k1.domains, name, listing);
    assert Fresh(k1.domains[meta], name, k.nextUid);
    OthersStay(env, Tick(k1), subject.wanted, listing, meta);
  }

  /** The objects with this label are stored under their hashed names, so no name occurs twice. */
  ghost predicate Consistent(domains: Domains, hash: Hash, cluster: string) {
    forall meta :: meta in domains && domains[meta].cluster == cluster ==> meta == hash(domains[meta].name, cluster)
  }

  lemma {:induction false} RemovalSucceeds(env: Env, k: Store, names: seq<string>, listing: seq<Item>)
    requires FaultFree(env)
    requires forall i, j :: 0 <= i < j < |listing| ==> listing[i].0 != listing[j].0
    requires forall i :: 0 <= i < |listing| ==> listing[i].0 in k.domains
    ensures RemoveExtraneous(env, k, names, listing).1 == Continue
    decreases |listing|
  {
    if listing != [] {
      var k1 := if listing[0].1.name in names then k else DeleteDomain(env, k, listing[0].0).0;
      assert forall i :: 0 < i < |listing| ==> listing[i] == listing[1..][i - 1];
      RemovalSucceeds(env, k1, names, listing[1..]);
    }
  }

  /** The listed failure domain of a name is the one under its hashed name, and is what was there before or is new. */
  lemma ListedUnderHash(k: Store, k1: Store, hash: Hash, cluster: string, listed: string, listing: seq<Item>,
                        name: string)
    requires Consistent(k.domains, hash, listed) && Grown(k, k1, cluster) && Lists(k1.domains, listed, listing)
    requires forall meta :: meta in k1.domains && meta !in k.domains ==> meta == hash(k1.domains[meta].name, cluster)
    ensures FoundReady(listing, name) <==> Serves(k.domains, hash(name, listed), listed, name)
  {
    FirstIsListed(listing, name);
    var meta := hash(name, listed);
    forall item | Named(listing, name, item) ensures item.0 == meta && item.1 == k1.domains[meta] {
      assert item.0 in k1.domains && k1.domains[item.0] == item.1;
      if item.0 !in k.domains { assert Fresh(k1.domains[item.0], cluster, k.nextUid); }
    }
    if Serves(k.domains, meta, listed, name) {
      assert Named(listing, name, (meta, k1.domains[meta]));
    }
  }

  /** Without failures SetReady is reached exactly if the label leads to a cluster and every failure domain the spec
      names already exists, under its hashed name and the label listed by, and is ready. */
  lemma ReadyExactlyWhen(env: Env, k: Store, hash: Hash, name: string, order: Order)
    requires FaultFree(env) && name in k.clusters && Faithful(order)
    requires Consistent(k.domains, hash, ListingLabel(k.clusters, name))
    ensures var subject, listed := k.clusters[name], ListingLabel(k.clusters, name);
            var res := Converge(env, k, hash, name, order).1;
            && (res == Continue <==>
                  && subject.capi in k.clusters
                  && forall wanted :: wanted in subject.wanted ==>
                       Serves(k.domains, hash(wanted, listed), listed, wanted))
            && (res == Continue || res == Requeue)
  {
    var subject := k.clusters[name];
    if subject.capi in k.clusters {
      var fetched := k.clusters[subject.capi];
      CreationsOnlyGrow(env, k, hash, subject.capi, subject.wanted);
      CreatedUnder(env, k, hash, subject.capi, subject.wanted);
      var k1 := CreateAll(env, k, hash, subject.capi, subject.wanted).0;
      var listing := order(k1.domains, fetched.capi);
      assert Lists(k1.domains, fetched.capi, listing);
      forall i | 0 <= i < |listing| ensures listing[i].0 in k1.domains { assert listing[i] in listing; }
      RemovalSucceeds(env, Tick(k1), fetched.wanted, listing);
      VerifiedAreReady(subject.wanted, listing);
      NotFail(subject.wanted, listing);
      forall wanted ensures FoundReady(listing, wanted)
                            <==> Serves(k.domains, hash(wanted, fetched.capi), fetched.capi, wanted)
      {
        ListedUnderHash(k, k1, hash, subject.capi, fetched.capi, listing, wanted);
      }
    }
  }

  /** The cluster as SetReady leaves it: ready and with its finalizer, and otherwise as it was. */
  predicate MadeReady(before: OwnCluster, after: OwnCluster) {
    after.ready && after.finalizer && after.(ready := before.ready, finalizer := before.finalizer) == before
  }

  /**
   A reconciliation that is done leaves the cluster ready and with its finalizer. Whatever fails, it changes no other
   cluster, and this one only so, and only when SetReady was reached; without failures it does so exactly then.
   */
  lemma ReadyIsWritten(env: Env, k: Store, hash: Hash, name: string, order: Order)
    requires name in k.clusters
    ensures var (k', res) := Reconciliation(env, k, hash, name, order);
            var reached := Converge(env, k, hash, name, order).1 == Continue;
            && k'.clusters.Keys == k.clusters.Keys
            && (forall other :: other in k.clusters && other != name ==> k'.clusters[other] == k.clusters[other])
            && (k'.clusters[name] == k.clusters[name] || (reached && MadeReady(k.clusters[name], k'.clusters[name])))
            && (res == Continue ==> MadeReady(k.clusters[name], k'.clusters[name]))
            && (FaultFree(env) ==> (res == Continue <==> reached))
  {
    var k1 := ConvergeGrowsThenShrinks(env, k, hash, name, order);
    assert Converge(env, k, hash, name, order).0.clusters == k.clusters;
  }

  // ---- Hashed names --------------------------------------------------------------------------

  /** What is hashed to name a failure domain: the two names, one after the other. */
  function HashSource(name: string, cluster: string): string { name + cluster }

  /** Within one cluster the hashed text tells failure domains apart; across clusters it does not, for any two pairs of
      names that share out the same text differently. */
  lemma HashedNames(a: string, b: string, c: string)
    ensures HashSource(a, c) == HashSource(b, c) <==> a == b
    ensures HashSource(a + b, c) == HashSource(a, b + c)
    ensures b != "" ==> a + b != a && b + c != c
  {
    assert a + b + c == a + (b + c);
    if a + c == b + c {
      assert |a| == |b|;
      assert a == (a + c)[..|a|] && b == (b + c)[..|b|];
    }
    assert |a + b| == |a| + |b| && |b + c| == |b| + |c|;
  }
}
