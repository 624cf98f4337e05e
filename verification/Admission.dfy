/** The admission webhook of CloudStackCluster (api/v1beta3/cloudstackcluster_webhook.go). */
module Admission {
  import opened Faults
  import opened GoString

  datatype Network = Network(id: string, kind: string, name: string, gateway: string, netmask: string,
                             offering: string, routingMode: string)
  datatype Zone = Zone(name: string, id: string, network: Network)
  datatype Secret = Secret(name: string, namespace: string)
  datatype FailureDomain = FailureDomain(name: string, zone: Zone, account: string, domain: string, project: string,
                                         endpoint: Secret)

  datatype Spec = Spec(domains: seq<FailureDomain>, host: string, port: int32)

  datatype Complaint =
    | DomainsRequired | BadName(name: string) | NetworkRequired | EndpointRequired
    | CannotChange(name: string) | NoneRemains | HostForbidden | PortForbidden

  /** How many things are wrong with a name, by the rules for DNS subdomains. */
  type NameRules = string -> nat

  // ---- Specification -------------------------------------------------------------------------

  function Times<T>(n: nat, x: T): (xs: seq<T>)
    ensures |xs| == n
  {
    if n == 0 then [] else Times(n - 1, x) + [x]
  }

  function DomainComplaints(rules: NameRules, fd: FailureDomain): seq<Complaint> {
    Times(rules(fd.name), BadName(fd.name))
    + (if fd.zone.network.name == "" && fd.zone.network.id == "" then [NetworkRequired] else [])
    + (if fd.endpoint.name == "" || fd.endpoint.namespace == "" then [EndpointRequired] else [])
  }

  function CreateComplaints(rules: NameRules, domains: seq<FailureDomain>): seq<Complaint> {
    if domains == [] then []
    else CreateComplaints(rules, domains[..|domains| - 1]) + DomainComplaints(rules, domains[|domains| - 1])
  }

  predicate WellSpecified(rules: NameRules, fd: FailureDomain) {
    && rules(fd.name) == 0
    && (fd.zone.network.name != "" || fd.zone.network.id != "")
    && fd.endpoint.name != "" && fd.endpoint.namespace != ""
  }

  /** A creation is admitted exactly if there are failure domains and each is well specified. */
  ghost predicate Creatable(rules: NameRules, spec: Spec) {
    spec.domains != [] && forall fd :: fd in spec.domains ==> WellSpecified(rules, fd)
  }

  lemma {:induction false} CreateComplaintsAre(rules: NameRules, domains: seq<FailureDomain>)
    ensures CreateComplaints(rules, domains) == [] <==> forall fd :: fd in domains ==> WellSpecified(rules, fd)
  {
    if domains != [] {
      var init, last := domains[..|domains| - 1], domains[|domains| - 1];
      CreateComplaintsAre(rules, init);
      assert domains == init + [last];
      assert DomainComplaints(rules, last) == [] <==> WellSpecified(rules, last);
    }
  }

  lemma {:induction false} TimesIs<T>(n: nat, x: T)
    ensures forall y :: y in Times(n, x) <==> y == x && n > 0
  {
    if n > 0 { TimesIs(n - 1, x); }
  }

  /** The fault that a complaint is about: a name against the rules, no network, or no full endpoint. */
  predicate Faulty(rules: NameRules, fd: FailureDomain, c: Complaint) {
    match c
    case BadName(name) => fd.name == name && rules(name) > 0
    case NetworkRequired => fd.zone.network.name == "" && fd.zone.network.id == ""
    case EndpointRequired => fd.endpoint.name == "" || fd.endpoint.namespace == ""
    case _ => false
  }

  lemma DomainComplaintsMean(rules: NameRules, fd: FailureDomain, c: Complaint)
    ensures c in DomainComplaints(rules, fd) <==> Faulty(rules, fd, c)
  {
    TimesIs(rules(fd.name), BadName(fd.name));
  }

  /** Each complaint is made exactly if some failure domain has that fault. */
  lemma {:induction false} ComplaintsMean(rules: NameRules, domains: seq<FailureDomain>, c: Complaint)
    ensures c in CreateComplaints(rules, domains) <==> exists fd :: fd in domains && Faulty(rules, fd, c)
  {
    if domains != [] {
      var init, last := domains[..|domains| - 1], domains[|domains| - 1];
      ComplaintsMean(rules, init, c);
      DomainComplaintsMean(rules, last, c);
      assert domains == init + [last];
      assert last in domains;
    }
  }

  /** The fields the update check compares. */
  predicate FailureDomainsEqual(a: FailureDomain, b: FailureDomain) {
    && a.name == b.name && a.endpoint == b.endpoint && a.account == b.account && a.domain == b.domain
    && a.zone.name == b.zone.name && a.zone.id == b.zone.id
    && a.zone.network.name == b.zone.network.name && a.zone.network.id == b.zone.network.id
    && a.zone.network.kind == b.zone.network.kind
  }

  /** The last entry of a name. */
  function Last(domains: seq<FailureDomain>, name: string): Option<FailureDomain> {
    if domains == [] then None
    else if domains[|domains| - 1].name == name then Some(domains[|domains| - 1])
    else Last(domains[..|domains| - 1], name)
  }

  predicate Has(domains: seq<FailureDomain>, name: string) { exists fd :: fd in domains && fd.name == name }

  lemma {:induction false} LastIs(domains: seq<FailureDomain>, name: string)
    ensures Last(domains, name).Some? <==> Has(domains, name)
    ensures Last(domains, name).Some? ==> Last(domains, name).value in domains && Last(domains, name).value.name == name
  {
    if domains != [] {
      LastIs(domains[..|domains| - 1], name);
      assert domains == domains[..|domains| - 1] + [domains[|domains| - 1]];
      assert domains[|domains| - 1] in domains;
    }
  }

  /** What is held over is unchanged, in each of its old entries, and something is held over. */
  ghost predicate HeldOver(previous: seq<FailureDomain>, next: seq<FailureDomain>) {
    && (forall fd :: fd in previous && Last(next, fd.name).Some? ==> FailureDomainsEqual(Last(next, fd.name).value, fd))
    && (exists fd :: fd in previous && Has(next, fd.name))
  }

  /** The same failure domain in all but its project and the network's gateway, netmask, offering and routing mode. */
  predicate Variant(a: FailureDomain, b: FailureDomain) {
    var m, n := a.zone.network, b.zone.network;
    b == a.(project := b.project,
            zone := a.zone.(network := m.(gateway := n.gateway, netmask := n.netmask, offering := n.offering,
                                          routingMode := n.routingMode)))
  }

  /** What an admitted update can change of a name held over, and that it can change all of that. */
  lemma HeldOverMeans(previous: seq<FailureDomain>, next: seq<FailureDomain>)
    ensures HeldOver(previous, next) <==>
              && (forall fd :: fd in previous && Has(next, fd.name) ==>
                    Last(next, fd.name).Some? && Variant(fd, Last(next, fd.name).value))
              && (exists fd :: fd in previous && Has(next, fd.name))
  {
    forall fd | fd in previous
      ensures Last(next, fd.name).Some? <==> Has(next, fd.name)
      ensures Last(next, fd.name).Some? ==>
                (FailureDomainsEqual(Last(next, fd.name).value, fd) <==> Variant(fd, Last(next, fd.name).value))
    {
      LastIs(next, fd.name);
    }
  }

  lemma NextComplaints(rules: NameRules, domains: seq<FailureDomain>, i: nat)
    requires i < |domains|
    ensures CreateComplaints(rules, domains[..i + 1])
         == CreateComplaints(rules, domains[..i]) + DomainComplaints(rules, domains[i])
  {
    assert domains[..i + 1][..i] == domains[..i];
  }

  // ---- The checks as they are written --------------------------------------------------------

  /** One turn of the loop of ValidateCreate. */
  method ValidateDomain(rules: NameRules, fd: FailureDomain) returns (complaints: seq<Complaint>)
    ensures complaints == DomainComplaints(rules, fd)
  {
    complaints := [];
    var n := 0;
    while n < rules(fd.name)
      invariant 0 <= n <= rules(fd.name)
      invariant complaints == Times(n, BadName(fd.name))
    {
      complaints := complaints + [BadName(fd.name)];
      n := n + 1;
    }
    if fd.zone.network.name == "" && fd.zone.network.id == "" { complaints := complaints + [NetworkRequired]; }
    if fd.endpoint.name == "" || fd.endpoint.namespace == "" { complaints := complaints + [EndpointRequired]; }
  }

  method ValidateCreate(rules: NameRules, spec: Spec) returns (complaints: seq<Complaint>)
    ensures complaints == if spec.domains == [] then [DomainsRequired] else CreateComplaints(rules, spec.domains)
    ensures complaints == [] <==> Creatable(rules, spec)
  {
    complaints := [];
    if |spec.domains| == 0 {
      complaints := complaints + [DomainsRequired];
    } else {
      var i := 0;
      while i < |spec.domains|
        invariant 0 <= i <= |spec.domains|
        invariant complaints == CreateComplaints(rules, spec.domains[..i])
      {
        NextComplaints(rules, spec.domains, i);
        var more := ValidateDomain(rules, spec.domains[i]);
        complaints := complaints + more;
        i := i + 1;
      }
      assert spec.domains[..i] == spec.domains;
      CreateComplaintsAre(rules, spec.domains);
    }
  }

  method ValidateFailureDomainUpdates(previous: seq<FailureDomain>, next: seq<FailureDomain>)
      returns (complaint: Option<Complaint>)
    ensures complaint.None? <==> HeldOver(previous, next)
    ensures complaint.Some? ==> complaint.value.NoneRemains? || complaint.value.CannotChange?
    ensures complaint == Some(NoneRemains) <==> forall fd :: fd in previous ==> !Has(next, fd.name)
    ensures complaint.Some? && complaint.value.CannotChange? ==>
              exists fd :: fd in previous && fd.name == complaint.value.name && Last(next, fd.name).Some?
                           && !FailureDomainsEqual(Last(next, fd.name).value, fd)
  {
    var byName: map<string, FailureDomain> := map[];
    var i := 0;
    while i < |next|
      invariant 0 <= i <= |next|
      invariant forall name :: Last(next[..i], name) == if name in byName then Some(byName[name]) else None
    {
      byName := byName[next[i].name := next[i]];
      assert next[..i + 1][..i] == next[..i];
      i := i + 1;
    }
    assert next[..i] == next;
    forall name ensures name in byName <==> Has(next, name) { LastIs(next, name); }

    var atLeastOneRemains := false;
    i := 0;
    while i < |previous|
      invariant 0 <= i <= |previous|
      invariant atLeastOneRemains <==> exists fd :: fd in previous[..i] && Has(next, fd.name)
      invariant forall fd :: fd in previous[..i] && Last(next, fd.name).Some? ==>
                  FailureDomainsEqual(Last(next, fd.name).value, fd)
    {
      var fd := previous[i];
      assert previous[..i + 1] == previous[..i] + [fd];
      if fd.name in byName {
        atLeastOneRemains := true;
        assert fd in previous[..i + 1] && Has(next, fd.name);
        if !FailureDomainsEqual(byName[fd.name], fd) {
          assert fd in previous && Has(next, fd.name);
          return Some(CannotChange(fd.name));
        }
      }
      i := i + 1;
    }
    assert previous[..i] == previous;
    return if !atLeastOneRemains then Some(NoneRemains) else None;
  }

  /** An update is admitted: its failure domains are, and an endpoint that was set stays. */
  ghost predicate Admitted(previous: Spec, next: Spec) {
    && HeldOver(previous.domains, next.domains)
    && (previous.host != "" ==> next.host == previous.host && FromInt(next.port) == FromInt(previous.port))
  }

  method ValidateUpdate(previous: Spec, next: Spec) returns (complaints: seq<Complaint>)
    ensures complaints == [] <==> Admitted(previous, next)
    ensures HostForbidden in complaints <==> previous.host != "" && next.host != previous.host
    ensures PortForbidden in complaints <==> previous.host != "" && FromInt(next.port) != FromInt(previous.port)
  {
    complaints := [];
    var complaint := ValidateFailureDomainUpdates(previous.domains, next.domains);
    if complaint.Some? {
      complaints := complaints + [complaint.value];
    }
    if previous.host != "" {
      if next.host != previous.host { complaints := complaints + [HostForbidden]; }
      if FromInt(next.port) != FromInt(previous.port) { complaints := complaints + [PortForbidden]; }
    }
  }
}
