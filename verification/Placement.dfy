/**
 Placement of a machine in a failure domain (controllers/cloudstackmachine_controller.go), reached through the common
 stages of the base reconciliation. The panics the code could run into are recorded, and shown not to occur.
 */
module Placement {
  import opened Faults
  import opened Stages
  import BaseRun
  import Admission
  import AdmissionHistory

  type Labels = map<string, string>

  const CLUSTER_LABEL := "cluster.x-k8s.io/cluster-name"
  const DOMAIN_LABEL := "cloudstackfailuredomain.infrastructure.cluster.x-k8s.io/name"

  /** A CloudStackCluster, or the zero value of the struct when none was fetched. */
  datatype ClusterObject = ClusterObject(name: string, domains: seq<Admission.FailureDomain>, ready: bool, deleting: bool)

  const NO_CLUSTER := ClusterObject("", [], false, false)

  /** The runner and what the API server answers. `labels` is None for Go's nil map, `assigned` the failure domain CAPI
      asks for, if the machine is there and has one that counts, and `random` the number drawn. */
  datatype State = State(
    subject: bool, deleting: bool, labels: Option<Labels>, domainName: string,
    stored: map<string, ClusterObject>, failing: set<BaseRun.Method>, paused: bool, asked: Option<string>, random: nat,
    cluster: ClusterObject, panicked: bool)

  function LabelOf(labels: Option<Labels>, key: string): string {
    if labels.Some? && key in labels.value then labels.value[key] else ""
  }

  function GetCSCluster(s: State): State {
    var name := LabelOf(s.labels, CLUSTER_LABEL);
    if name == "" then s
    else s.(cluster := if name in s.stored then s.stored[name] else NO_CLUSTER)
  }

  function NotReady(s: State): Result { if !s.cluster.deleting && !s.cluster.ready then Requeue else Continue }

  /** A modulus of zero and a write to a nil map are the panics. `hash` makes the label from the name. */
  function SetFailureDomain(hash: string -> string, s: State): State {
    if s.domainName != "" then s
    else if s.asked.None? && s.cluster.domains == [] then s.(panicked := true)
    else
      var name := if s.asked.Some? then s.asked.value
                  else s.cluster.domains[s.random % |s.cluster.domains|].name;
      if s.labels.None? then s.(domainName := name, panicked := true)
      else s.(domainName := name, labels := Some(s.labels.value[DOMAIN_LABEL := hash(name)]))
  }

  /** Each failure domain of the cluster can be drawn. */
  lemma AnyCanBeDrawn(hash: string -> string, s: State, i: nat)
    requires s.domainName == "" && s.asked.None? && s.labels.Some? && i < |s.cluster.domains|
    ensures exists random :: SetFailureDomain(hash, s.(random := random)).domainName == s.cluster.domains[i].name
  {
    assert SetFailureDomain(hash, s.(random := i)).domainName == s.cluster.domains[i].name;
  }

  const GET_PARENT := BaseRun.Additional("GetParent")
  const CLUSTER_READY := BaseRun.Additional("RequeueIfCloudStackClusterNotReady")
  const SET_DOMAIN := BaseRun.Additional("SetFailureDomainOnCSMachine")

  function Perform(hash: string -> string, a: BaseRun.Method, s: State): (State, Result, bool) {
    if a in s.failing then (s, Fail, a.GetReconciliationSubject? && !s.subject)
    else match a
      case GetReconciliationSubject => (s, Continue, !s.subject)
      case GetCSCluster => (GetCSCluster(s), Continue, false)
      case RequeueIfMissingBaseCRs => (s, if s.cluster.name == "" then Requeue else Continue, false)
      case CheckIfPaused => (s, if s.paused then Requeue else Continue, false)
      case _ =>
        if a == CLUSTER_READY then (s, NotReady(s), false)
        else if a == SET_DOMAIN then (SetFailureDomain(hash, s), Continue, false)
        else (s, Continue, false)
  }

  /** What the placement takes as given: the hash, and what each method leaves in the runner's flag. */
  datatype Code = Code(hash: string -> string, leaves: (BaseRun.Method, State, bool) -> bool)

  function MeaningOf(code: Code): Meaning<BaseRun.Method, BaseRun.Condition, State> {
    Meaning((a, s) => Perform(code.hash, a, s), code.leaves,
            (c: BaseRun.Condition, s: State) => c.NotDeleting? && !s.deleting)
  }

  /** The additional stages of the machine controller, up to the placement and after it. */
  const ADDITIONAL: seq<BaseRun.BaseStage> := [
    RunIf(BaseRun.NotDeleting, Act(GET_PARENT)), Act(CLUSTER_READY), Act(SET_DOMAIN),
    Act(BaseRun.Additional("GetFailureDomainByName")), Act(BaseRun.Additional("AsFailureDomainUser"))]

  /** Every stored cluster was admitted, so it has failure domains, and is stored under its own name. */
  ghost predicate Admitted(stored: map<string, ClusterObject>) {
    forall name :: name in stored ==> stored[name].domains != [] && stored[name].name == name != ""
  }

  /** The failure domains of the cluster whose label the machine carries. */
  function Offered(s: State): set<string> {
    var name := LabelOf(s.labels, CLUSTER_LABEL);
    if name in s.stored then set fd | fd in s.stored[name].domains :: fd.name else {}
  }

  /** A machine without failure domain got one: the one CAPI asked for, or else one the cluster lists; and the label
      says so. */
  ghost predicate Chosen(hash: string -> string, s0: State, s: State) {
    && s0.domainName == ""
    && (match s0.asked case Some(name) => s.domainName == name case None => s.domainName in Offered(s))
    && s.labels.Some? && LabelOf(s.labels, DOMAIN_LABEL) == hash(s.domainName)
  }

  ghost predicate Placed(hash: string -> string, s0: State, s: State) {
    (s.domainName == s0.domainName && s.labels == s0.labels) || Chosen(hash, s0, s)
  }

  /** `past`: the placement has been passed. */
  ghost predicate Good(code: Code, s0: State, past: bool, s: State) {
    && !s.panicked && s.stored == s0.stored && Admitted(s.stored)
    && s.asked == s0.asked
    && (|| s.cluster == NO_CLUSTER
        || var name := LabelOf(s.labels, CLUSTER_LABEL); name in s.stored && s.cluster == s.stored[name])
    && Placed(code.hash, s0, s)
    && (past && s0.domainName == "" ==> Chosen(code.hash, s0, s))
  }

  type BaseRunner = Runner<State>

  ghost predicate Keeps(code: Code, s0: State, past: bool, stage: BaseRun.BaseStage) {
    forall r: BaseRunner ::
      Good(code, s0, past, r.state) ==> Good(code, s0, past, Exec(MeaningOf(code), stage, r).0.state)
  }

  lemma OtherMethodsKeep(code: Code, s0: State, past: bool, a: BaseRun.Method, s: State)
    requires a != SET_DOMAIN && Good(code, s0, past, s)
    ensures Good(code, s0, past, Perform(code.hash, a, s).0)
  {
  }

  lemma OtherStagesKeep(code: Code, s0: State, past: bool, a: BaseRun.Method)
    requires a != SET_DOMAIN
    ensures Keeps(code, s0, past, Act(a)) && Keeps(code, s0, past, Else(Act(a)))
    ensures forall c :: Keeps(code, s0, past, RunIf(c, Act(a)))
  {
    var m := MeaningOf(code);
    forall r: BaseRunner | Good(code, s0, past, r.state) ensures Good(code, s0, past, Exec(m, Act(a), r).0.state) {
      OtherMethodsKeep(code, s0, past, a, r.state);
    }
    forall r: BaseRunner | Good(code, s0, past, r.state) ensures Good(code, s0, past, Exec(m, Else(Act(a)), r).0.state) {
      assert Good(code, s0, past, Exec(m, Act(a), r).0.state);
    }
    forall c, r: BaseRunner | Good(code, s0, past, r.state)
      ensures Good(code, s0, past, Exec(m, RunIf(c, Act(a)), r).0.state)
    {
      assert Good(code, s0, past, Exec(m, Act(a), r).0.state);
    }
  }

  lemma {:induction false} AllKeep(code: Code, s0: State, past: bool, stages: seq<BaseRun.BaseStage>, r: BaseRunner)
    requires forall stage :: stage in stages ==> Keeps(code, s0, past, stage)
    requires Good(code, s0, past, r.state)
    ensures Good(code, s0, past, ExecAll(MeaningOf(code), stages, r).0.state)
    decreases |stages|
  {
    if stages != [] {
      assert Keeps(code, s0, past, stages[0]);
      var (r1, res) := Exec(MeaningOf(code), stages[0], r);
      if !Stops(r1, res) { AllKeep(code, s0, past, stages[1..], r1); }
    }
  }

  /** The readiness gate lets only a fetched cluster pass, so the placement finds what it needs. */
  lemma GateThenPlacement(code: Code, s0: State, r: BaseRunner)
    requires Good(code, s0, false, r.state)
    ensures var (r', res) := ExecAll(MeaningOf(code), [Act(CLUSTER_READY), Act(SET_DOMAIN)], r);
            Good(code, s0, !Stops(r', res), r'.state)
  {
    var m := MeaningOf(code);
    var gate: BaseRun.BaseStage, place: BaseRun.BaseStage := Act(CLUSTER_READY), Act(SET_DOMAIN);
    var stages := [gate, place];
    assert stages[1..] == [place];
    var (r1, res) := Exec(m, gate, r);
    if !Stops(r1, res) {
      var (r2, res2) := Exec(m, place, r1);
      assert ExecAll(m, [place], r1) == (r2, res2);
      PlacementIsGood(code, s0, r1.state);
    }
  }

  lemma PlacementIsGood(code: Code, s0: State, s: State)
    requires Good(code, s0, false, s) && s.cluster != NO_CLUSTER
    ensures Good(code, s0, true, SetFailureDomain(code.hash, s))
  {
    if s.domainName == "" {
      var name := LabelOf(s.labels, CLUSTER_LABEL);
      assert s.cluster == s.stored[name] && s.cluster.domains != [];
      var s' := SetFailureDomain(code.hash, s);
      assert LabelOf(s'.labels, CLUSTER_LABEL) == name;
      if s.asked.None? {
        assert s.cluster.domains[s.random % |s.cluster.domains|] in s.stored[name].domains;
      }
    }
  }

  /**
   No reconciliation of a machine panics: whatever stages fail, the modulus is never zero and the label map never nil.
   If a failure domain is chosen, it is the one CAPI asked for, or else one the machine's cluster lists; and one is
   chosen for every machine without one, unless a stage stops the run.
   */
  lemma PlacementIsSafe(code: Code, s: State, flag: bool)
    requires Admitted(s.stored) && s.cluster == NO_CLUSTER && !s.panicked
    ensures var (r', res) := ExecAll(MeaningOf(code), BaseRun.BaseStages(ADDITIONAL), Runner(s, flag, false));
            && !r'.state.panicked && Placed(code.hash, s, r'.state)
            && (s.domainName == "" && !Stops(r', res) ==> Chosen(code.hash, s, r'.state))
  {
    var m := MeaningOf(code);
    var front, pair := BaseRun.COMMON + ADDITIONAL[..1], [Act(CLUSTER_READY), Act(SET_DOMAIN)];
    var back := ADDITIONAL[3..] + BaseRun.MAIN;
    assert BaseRun.BaseStages(ADDITIONAL) == front + (pair + back);
    forall past: bool, stage | stage in front || stage in back ensures Keeps(code, s, past, stage) {
      FixedStagesKeep(code, s, past, stage);
    }
    var r := Runner(s, flag, false);
    assert s.cluster == NO_CLUSTER && Good(code, s, false, s);
    AllKeep(code, s, false, front, r);
    BaseRun.ExecAppend(m, front, pair + back, r);
    var (r1, res1) := ExecAll(m, front, r);
    GateThenPlacement(code, s, r1);
    BaseRun.ExecAppend(m, pair, back, r1);
    var (r2, res2) := ExecAll(m, pair, r1);
    AllKeep(code, s, !Stops(r2, res2), back, r2);
  }

  lemma FixedStagesKeep(code: Code, s0: State, past: bool, stage: BaseRun.BaseStage)
    requires stage in BaseRun.COMMON + ADDITIONAL[..1] || stage in ADDITIONAL[3..] + BaseRun.MAIN
    ensures Keeps(code, s0, past, stage)
  {
    var a := match stage case Act(a) => a case RunIf(_, b) => b.a case Else(b) => b.a case Block(_) => GET_PARENT;
    OtherStagesKeep(code, s0, past, a);
  }

  /** Every stored cluster is the last version of a history the webhook admitted. */
  ghost predicate FromHistories(rules: Admission.NameRules, stored: map<string, ClusterObject>) {
    forall name :: name in stored ==>
      stored[name].name == name != "" && exists versions :: Lived(rules, versions, stored[name].domains)
  }

  ghost predicate Lived(rules: Admission.NameRules, versions: seq<Admission.Spec>,
                        domains: seq<Admission.FailureDomain>) {
    AdmissionHistory.History(rules, versions) && versions[|versions| - 1].domains == domains
  }

  lemma HistoriesAreAdmitted(rules: Admission.NameRules, stored: map<string, ClusterObject>)
    requires FromHistories(rules, stored)
    ensures Admitted(stored)
  {
    forall name | name in stored ensures stored[name].domains != [] {
      var versions :| Lived(rules, versions, stored[name].domains);
      AdmissionHistory.NeverEmpty(rules, versions, |versions| - 1);
    }
  }

  /** So with the webhook in place, placement is safe from whatever was created and updated. */
  lemma AdmittedClustersPlaceSafely(rules: Admission.NameRules, code: Code, s: State, flag: bool)
    requires FromHistories(rules, s.stored) && s.cluster == NO_CLUSTER && !s.panicked
    ensures var (r', res) := ExecAll(MeaningOf(code), BaseRun.BaseStages(ADDITIONAL), Runner(s, flag, false));
            && !r'.state.panicked && Placed(code.hash, s, r'.state)
            && (s.domainName == "" && !Stops(r', res) ==> Chosen(code.hash, s, r'.state))
  {
    HistoriesAreAdmitted(rules, s.stored);
    PlacementIsSafe(code, s, flag);
  }
}
