/** What the admission webhook guarantees over the whole life of a cluster: one creation, then updates one by one. */
module AdmissionHistory {
  import opened Faults
  import opened GoString
  import opened Admission

  // ---- Histories -----------------------------------------------------------------------------

  /** Each version of the cluster was admitted as an update of the one before. */
  ghost predicate Updates(versions: seq<Spec>) {
    forall i :: 0 <= i < |versions| - 1 ==> Admitted(versions[i], versions[i + 1])
  }

  ghost predicate History(rules: NameRules, versions: seq<Spec>) {
    |versions| > 0 && Creatable(rules, versions[0]) && Updates(versions)
  }

  /** No version is without failure domains, and consecutive versions have one in common. */
  lemma {:induction false} NeverEmpty(rules: NameRules, versions: seq<Spec>, i: nat)
    requires History(rules, versions) && i < |versions|
    ensures versions[i].domains != []
    ensures i + 1 < |versions| ==>
              exists name :: Has(versions[i].domains, name) && Has(versions[i + 1].domains, name)
  {
    if i > 0 {
      assert Admitted(versions[i - 1], versions[i - 1 + 1]);
      var fd :| fd in versions[i - 1].domains && Has(versions[i].domains, fd.name);
    }
    if i + 1 < |versions| {
      assert Admitted(versions[i], versions[i + 1]);
      var fd :| fd in versions[i].domains && Has(versions[i + 1].domains, fd.name);
      assert Has(versions[i].domains, fd.name);
    }
  }

  ghost predicate Stays(versions: seq<Spec>, name: string) {
    forall i :: 0 <= i < |versions| ==> Last(versions[i].domains, name).Some?
  }

  /**
   A failure domain keeps its identity for as long as its name stays: in a version that was updated all entries of the
   name are alike, and they are alike to the last entry of every later version. Names may occur twice in a version.
   */
  lemma {:induction false} IdentityIsKept(versions: seq<Spec>, name: string, i: nat, j: nat, fd: FailureDomain)
    requires Updates(versions) && Stays(versions, name) && i < j < |versions|
    requires fd in versions[i].domains && fd.name == name
    ensures FailureDomainsEqual(Last(versions[j].domains, name).value, fd)
    decreases j - i
  {
    assert Admitted(versions[i], versions[i + 1]);
    assert FailureDomainsEqual(Last(versions[i + 1].domains, name).value, fd);
    if i + 1 < j {
      LastIs(versions[i + 1].domains, name);
      IdentityIsKept(versions, name, i + 1, j, Last(versions[i + 1].domains, name).value);
    }
  }

  /** From the first version's last entry to the last version's last entry, whatever lies between. */
  lemma LastEntriesAreEqual(versions: seq<Spec>, name: string, j: nat)
    requires Updates(versions) && Stays(versions, name) && j < |versions|
    ensures FailureDomainsEqual(Last(versions[j].domains, name).value, Last(versions[0].domains, name).value)
  {
    LastIs(versions[0].domains, name);
    if j > 0 { IdentityIsKept(versions, name, 0, j, Last(versions[0].domains, name).value); }
  }

  /** The version can be updated at all: some name has only entries that are alike, and could be held over. */
  ghost predicate Updatable(spec: Spec) {
    exists fd :: fd in spec.domains && Uniform(spec.domains, fd)
  }

  ghost predicate Uniform(domains: seq<FailureDomain>, fd: FailureDomain) {
    forall other :: other in domains && other.name == fd.name ==> FailureDomainsEqual(fd, other)
  }

  lemma UpdatableIs(spec: Spec)
    ensures Updatable(spec) <==> exists spec' :: Admitted(spec, spec')
  {
    if Updatable(spec) {
      var fd :| fd in spec.domains && Uniform(spec.domains, fd);
      var spec' := spec.(domains := [fd]);
      assert Last([fd], fd.name) == Some(fd) && fd in [fd] && Has([fd], fd.name);
      forall entry | entry in spec.domains && Last([fd], entry.name).Some?
        ensures FailureDomainsEqual(Last([fd], entry.name).value, entry)
      {
        LastIs([fd], entry.name);
      }
      assert Admitted(spec, spec');
    }
    if spec' :| Admitted(spec, spec') {
      var fd :| fd in spec.domains && Has(spec'.domains, fd.name);
      LastIs(spec'.domains, fd.name);
      assert Uniform(spec.domains, fd);
    }
  }

  /** What a name stands for is its last entry. */
  predicate StandsFor(domains: seq<FailureDomain>, name: string, ref: FailureDomain) {
    Last(domains, name).Some? && FailureDomainsEqual(Last(domains, name).value, ref)
  }

  /** An update that brings back a dropped name as something else. */
  lemma DroppedNameReturns(spec: Spec, ref: FailureDomain) returns (spec': Spec)
    requires Updatable(spec) && !Has(spec.domains, ref.name)
    ensures Admitted(spec, spec') && Last(spec'.domains, ref.name).Some?
    ensures !FailureDomainsEqual(Last(spec'.domains, ref.name).value, ref)
  {
    var fd :| fd in spec.domains && Uniform(spec.domains, fd);
    var other := ref.(account := ref.account + "x");
    spec' := spec.(domains := [fd, other]);
    assert spec'.domains[..1] == [fd] && [fd][..0] == [];
    assert fd in spec'.domains && Has(spec'.domains, fd.name);
    assert fd.name != ref.name;
    assert |other.account| != |ref.account|;
    forall entry | entry in spec.domains && Last(spec'.domains, entry.name).Some?
      ensures FailureDomainsEqual(Last(spec'.domains, entry.name).value, entry)
    {
      LastIs(spec'.domains, entry.name);
      assert entry.name != ref.name;
    }
  }

  /**
   The webhook pins the identity behind a name exactly while the name is there: of a version that can be updated, every
   admitted update either lacks the name or keeps what it stood for if and only if the version has the name. `ref` is
   what the name stands for, or stood for before it was dropped.
   */
  lemma IdentityIsPinned(spec: Spec, ref: FailureDomain)
    requires Updatable(spec)
    requires Has(spec.domains, ref.name) ==> StandsFor(spec.domains, ref.name, ref)
    ensures (forall spec' :: Admitted(spec, spec') && Has(spec'.domains, ref.name) ==>
               StandsFor(spec'.domains, ref.name, ref))
            <==> Has(spec.domains, ref.name)
  {
    LastIs(spec.domains, ref.name);
    if Has(spec.domains, ref.name) {
      forall spec' | Admitted(spec, spec') && Has(spec'.domains, ref.name)
        ensures StandsFor(spec'.domains, ref.name, ref)
      {
        LastIs(spec'.domains, ref.name);
      }
    } else {
      var spec' := DroppedNameReturns(spec, ref);
      LastIs(spec'.domains, ref.name);
    }
  }

  /**
   Over histories: the name has been there in every version up to the last but one. Then whatever comes next stands for
   what the name stood for at first, exactly if the last version has the name too.
   */
  lemma IdentityOverHistory(versions: seq<Spec>, name: string)
    requires |versions| >= 2 && Updates(versions) && Stays(versions[..|versions| - 1], name)
    requires Updatable(versions[|versions| - 1])
    ensures var first := Last(versions[0].domains, name).value;
            var last := versions[|versions| - 1];
            (forall next :: Admitted(last, next) && Has(next.domains, name) ==>
               StandsFor(next.domains, name, first))
            <==> Has(last.domains, name)
  {
    var front, last := versions[..|versions| - 1], versions[|versions| - 1];
    assert front[0] == versions[0];
    LastIs(versions[0].domains, name);
    var first := Last(versions[0].domains, name).value;
    if Has(last.domains, name) {
      LastIs(last.domains, name);
      forall i | 0 <= i < |versions| ensures Last(versions[i].domains, name).Some? {
        if i < |front| { assert front[i] == versions[i]; }
      }
      LastEntriesAreEqual(versions, name, |versions| - 1);
    }
    IdentityIsPinned(last, first);
  }

  /** An identity can be lost for a while: a name that is dropped may come back as a different failure domain. */
  lemma IdentityIsLost()
    ensures exists versions: seq<Spec>, name :: |versions| == 3 && Updates(versions)
              && Last(versions[0].domains, name).Some? && Last(versions[2].domains, name).Some?
              && !FailureDomainsEqual(Last(versions[2].domains, name).value, Last(versions[0].domains, name).value)
  {
    var zone := Zone("", "", Network("", "", "", "", "", "", ""));
    var keep := FailureDomain("keep", zone, "", "", "", Secret("", ""));
    var a, b := keep.(name := "x", account := "a"), keep.(name := "x", account := "b");
    var v0, v1, v2 := Spec([keep, a], "", 0), Spec([keep], "", 0), Spec([keep, b], "", 0);
    var versions := [v0, v1, v2];
    assert v0.domains[..1] == [keep] && v2.domains[..1] == [keep];
    assert Last([keep], "x") == Last([], "x") == None;
    assert Last(v0.domains, "keep") == Last([keep], "keep") == Some(keep);
    assert Last(v2.domains, "keep") == Some(keep);
    assert keep in v0.domains && keep in v1.domains && keep in v2.domains;
    assert Has(v1.domains, "keep") && Has(v2.domains, "keep");
    assert Admitted(v0, v1) && Admitted(v1, v2);
    assert Last(versions[0].domains, "x") == Some(a) && Last(versions[2].domains, "x") == Some(b);
  }

  // ---- The endpoint --------------------------------------------------------------------------

  /** Once set the host stays, and so does the port as Go writes it. */
  lemma {:induction false} EndpointIsKept(versions: seq<Spec>, i: nat, j: nat)
    requires Updates(versions) && i <= j < |versions| && versions[i].host != ""
    ensures versions[j].host == versions[i].host
    ensures Character(versions[j].port) == Character(versions[i].port)
    ensures IsScalar(versions[i].port as int) && versions[i].port as int != REPLACEMENT ==>
              versions[j].port == versions[i].port
    decreases j - i
  {
    if i < j {
      assert Admitted(versions[i], versions[i + 1]);
      SameString(versions[i + 1].port, versions[i].port);
      EndpointIsKept(versions, i + 1, j);
    }
  }

  /** Of a version that can be updated at all, the port is pinned down exactly if it is a Unicode scalar value other
      than the replacement character. */
  lemma PortIsPinned(spec: Spec)
    requires spec.host != "" && Updatable(spec)
    ensures (forall spec' :: Admitted(spec, spec') ==> spec'.port == spec.port)
            <==> IsScalar(spec.port as int) && spec.port as int != REPLACEMENT
  {
    OnlyString(spec.port);
    UpdatableIs(spec);
    if !(IsScalar(spec.port as int) && spec.port as int != REPLACEMENT) {
      var y :| FromInt(y) == FromInt(spec.port) && y != spec.port;
      var spec' :| Admitted(spec, spec');
      assert Admitted(spec, spec'.(port := y));
    }
  }
}
