/** The base reconciliation of every controller: common stages, then either Reconcile or ReconcileDelete. */
module BaseRun {
  import opened Stages

  datatype Method =
    | SetupLogger | GetReconciliationSubject | SetupPatcher | GetCAPICluster | GetCSCluster
    | RequeueIfMissingBaseCRs | CheckIfPaused | Additional(name: string) | Reconcile | ReconcileDelete

  datatype Condition = NotDeleting | OtherCondition(name: string)

  type BaseStage = Stage<Method, Condition>

  const COMMON: seq<BaseStage> := [
    Act(SetupLogger), Act(GetReconciliationSubject), Act(SetupPatcher), Act(GetCAPICluster), Act(GetCSCluster),
    RunIf(NotDeleting, Act(RequeueIfMissingBaseCRs)), Act(CheckIfPaused)]

  /** The last two stages; the bodies are the two main methods, or the stages these run. */
  function LastStages(reconcile: BaseStage, delete: BaseStage): seq<BaseStage> {
    [RunIf(NotDeleting, reconcile), Else(delete)]
  }

  const MAIN: seq<BaseStage> := LastStages(Act(Reconcile), Act(ReconcileDelete))

  function BaseStages(additional: seq<BaseStage>): seq<BaseStage> { COMMON + additional + MAIN }

  predicate IsMain(a: Method) { a.Reconcile? || a.ReconcileDelete? }

  /** Every call is noted down in the order it is made. */
  function Noting<S>(m: Meaning<Method, Condition, S>): Meaning<Method, Condition, (S, seq<Method>)> {
    Meaning((a: Method, n: (S, seq<Method>)) =>
              var (s, res, early) := m.act(a, n.0); ((s, n.1 + [a]), res, early),
            (a: Method, n: (S, seq<Method>), flag: bool) => m.leaves(a, n.0, flag),
            (c: Condition, n: (S, seq<Method>)) => m.test(c, n.0))
  }

  /** Stages that call neither of the two main methods. */
  ghost predicate Plain(stage: BaseStage)
    decreases stage, 1
  {
    match stage
    case Act(a) => !IsMain(a)
    case RunIf(_, body) => Plain(body)
    case Else(body) => Plain(body)
    case Block(stages) => AllPlain(stages)
  }

  ghost predicate AllPlain(stages: seq<BaseStage>)
    decreases stages, 0
  {
    stages != [] ==> Plain(stages[0]) && AllPlain(stages[1..])
  }

  ghost predicate NoMain(calls: seq<Method>) { forall a :: a in calls ==> !IsMain(a) }

  lemma {:induction false} PlainCalls<S>(m: Meaning<Method, Condition, S>, stage: BaseStage,
                                         r: Runner<(S, seq<Method>)>)
    requires Plain(stage) && NoMain(r.state.1)
    ensures NoMain(Exec(Noting(m), stage, r).0.state.1)
    decreases stage, 1
  {
    match stage
    case Act(_) =>
    case RunIf(cond, body) => if m.test(cond, r.state.0) { PlainCalls(m, body, r); }
    case Else(body) => if !r.conditional { PlainCalls(m, body, r); }
    case Block(stages) => AllPlainCalls(m, stages, r);
  }

  lemma {:induction false} AllPlainCalls<S>(m: Meaning<Method, Condition, S>, stages: seq<BaseStage>,
                                            r: Runner<(S, seq<Method>)>)
    requires AllPlain(stages) && NoMain(r.state.1)
    ensures NoMain(ExecAll(Noting(m), stages, r).0.state.1)
    decreases stages, 0
  {
    if stages != [] {
      PlainCalls(m, stages[0], r);
      var (r1, res) := Exec(Noting(m), stages[0], r);
      if !Stops(r1, res) { AllPlainCalls(m, stages[1..], r1); }
    }
  }

  lemma {:induction false} PlainAppend(a: seq<BaseStage>, b: seq<BaseStage>)
    requires AllPlain(a) && AllPlain(b)
    ensures AllPlain(a + b)
  {
    if a == [] {
      assert a + b == b;
    } else {
      assert (a + b)[1..] == a[1..] + b;
      PlainAppend(a[1..], b);
    }
  }

  /** A list of stages runs its front part, and the rest only if the front part did not stop. */
  lemma {:induction false} ExecAppend<A, C, S>(m: Meaning<A, C, S>, a: seq<Stage<A, C>>, b: seq<Stage<A, C>>,
                                               r: Runner<S>)
    ensures var (r1, res) := ExecAll(m, a, r);
            ExecAll(m, a + b, r) == if a != [] && Stops(r1, res) then (r1, res) else ExecAll(m, b, r1)
  {
    if a == [] {
      assert a + b == b;
    } else {
      assert (a + b)[1..] == a[1..] + b && (a + b)[0] == a[0];
      var (r1, res) := Exec(m, a[0], r);
      if !Stops(r1, res) { ExecAppend(m, a[1..], b, r1); }
    }
  }

  /** The run of the common and additional stages, with the calls made. */
  function Before<S>(m: Meaning<Method, Condition, S>, additional: seq<BaseStage>, s: S, flag: bool)
    : (Runner<(S, seq<Method>)>, Result)
  {
    ExecAll(Noting(m), COMMON + additional, Runner((s, []), flag, false))
  }

  /** All calls made by a base run. */
  function Calls<S>(m: Meaning<Method, Condition, S>, additional: seq<BaseStage>, s: S, flag: bool): seq<Method> {
    ExecAll(Noting(m), BaseStages(additional), Runner((s, []), flag, false)).0.state.1
  }

  /**
   Whatever the main methods run, and whatever they leave in the flag: the last two stages are one if-then-else. Just
   one of the two bodies runs, chosen by the deletion mark as it was before.
   */
  lemma MainIsIfThenElse<S>(m: Meaning<Method, Condition, S>, reconcile: BaseStage, delete: BaseStage, r: Runner<S>)
    requires !r.early && Proper(reconcile) && Proper(delete)
    ensures var (r', res) := ExecAll(m, LastStages(reconcile, delete), r);
            (r'.state, r'.early, res)
            == Eval(m, Structured(if m.test(NotDeleting, r.state) then reconcile else delete), r.state)
  {
    var stages := LastStages(reconcile, delete);
    var none: seq<BaseStage> := [];
    assert stages[2..] == none && Paired(none);
    assert ProperElse(stages[1]) && Proper(stages[0]);
    assert Paired(stages);
    FlagIsIfThenElse(m, stages, r);
    var branch := WithElse(Structured(stages[0]), Structured(stages[1]));
    assert StructuredAll(stages) == [branch] + StructuredAll(stages[2..]) == [branch];
    assert [branch][1..] == [];
    assert branch == If(NotDeleting, Structured(reconcile), Structured(delete));
    assert EvalAll(m, [branch], r.state) == Eval(m, branch, r.state) by {
      var (s', early, res) := Eval(m, branch, r.state);
      if res.Continue? && !early { assert EvalAll(m, [branch][1..], s') == (s', false, Continue); }
    }
  }

  /**
   A base run with any bodies in place of the main methods: if an earlier stage stops it, it ends there; else it goes on
   as just one of the bodies.
   */
  lemma OneMainBody<S>(m: Meaning<Method, Condition, S>, additional: seq<BaseStage>, reconcile: BaseStage,
                       delete: BaseStage, r: Runner<S>)
    requires !r.early && Proper(reconcile) && Proper(delete)
    ensures var (r1, res1) := ExecAll(m, COMMON + additional, r);
            var (r', res) := ExecAll(m, COMMON + additional + LastStages(reconcile, delete), r);
            (r'.state, r'.early, res)
            == if Stops(r1, res1) then (r1.state, r1.early, res1)
               else Eval(m, Structured(if m.test(NotDeleting, r1.state) then reconcile else delete), r1.state)
  {
    ExecAppend(m, COMMON + additional, LastStages(reconcile, delete), r);
    var (r1, res1) := ExecAll(m, COMMON + additional, r);
    if !Stops(r1, res1) { MainIsIfThenElse(m, reconcile, delete, r1); }
  }

  /**
   A base run calls neither main method if any earlier stage stops it. Otherwise it calls exactly one of them, once,
   and last: Reconcile if at that point the subject is not marked for deletion, ReconcileDelete if it is. What the
   stages run by a method leave in the flag does not matter.
   */
  lemma OneMainCall<S>(m: Meaning<Method, Condition, S>, additional: seq<BaseStage>, s: S, flag: bool)
    requires AllPlain(additional)
    ensures var (r1, res) := Before(m, additional, s, flag);
            var calls := Calls(m, additional, s, flag);
            && NoMain(r1.state.1)
            && calls == if Stops(r1, res) then r1.state.1
                        else r1.state.1 + [if m.test(NotDeleting, r1.state.0) then Reconcile else ReconcileDelete]
  {
    var r := Runner((s, []), flag, false);
    CommonIsPlain();
    PlainAppend(COMMON, additional);
    AllPlainCalls(m, COMMON + additional, r);
    OneMainBody(Noting(m), additional, Act(Reconcile), Act(ReconcileDelete), r);
  }

  lemma CommonIsPlain()
    ensures AllPlain(COMMON)
  {
    assert COMMON[1..] == [Act(GetReconciliationSubject), Act(SetupPatcher), Act(GetCAPICluster), Act(GetCSCluster),
                           RunIf(NotDeleting, Act(RequeueIfMissingBaseCRs)), Act(CheckIfPaused)];
    assert COMMON[1..][1..] == COMMON[2..] && COMMON[2..][1..] == COMMON[3..] && COMMON[3..][1..] == COMMON[4..];
    assert COMMON[4..][1..] == COMMON[5..] && COMMON[5..][1..] == COMMON[6..] && COMMON[6..][1..] == [];
  }

  /** The run of the common stages before the given one. */
  function Reached<S>(m: Meaning<Method, Condition, S>, i: nat, s: S, flag: bool): (Runner<(S, seq<Method>)>, Result)
    requires i < |COMMON|
  {
    ExecAll(Noting(m), COMMON[..i], Runner((s, []), flag, false))
  }

  /** Where GetReconciliationSubject, RequeueIfMissingBaseCRs and CheckIfPaused stand among the common stages. */
  const SUBJECT := 1
  const BASE := 5
  const PAUSED := 6

  /** The subject turns out not to be there when it is fetched, or paused when that is checked; or it is not being
      deleted and its clusters are found missing when that is checked. */
  predicate Absent<S>(m: Meaning<Method, Condition, S>, s: S, flag: bool) {
    m.act(GetReconciliationSubject, Reached(m, SUBJECT, s, flag).0.state.0).2
  }

  predicate Lacking<S>(m: Meaning<Method, Condition, S>, s: S, flag: bool) {
    var reached := Reached(m, BASE, s, flag).0.state.0;
    m.test(NotDeleting, reached) && !m.act(RequeueIfMissingBaseCRs, reached).1.Continue?
  }

  predicate Paused<S>(m: Meaning<Method, Condition, S>, s: S, flag: bool) {
    !m.act(CheckIfPaused, Reached(m, PAUSED, s, flag).0.state.0).1.Continue?
  }

  /** A subject that is not there, or is paused, is neither reconciled nor deleted; nor is one reconciled whose clusters
      are missing. */
  lemma MissingOrPaused<S>(m: Meaning<Method, Condition, S>, additional: seq<BaseStage>, s: S, flag: bool)
    requires AllPlain(additional) && (Absent(m, s, flag) || Lacking(m, s, flag) || Paused(m, s, flag))
    ensures NoMain(Calls(m, additional, s, flag))
  {
    OneMainCall(m, additional, s, flag);
    assert COMMON[SUBJECT] == Act(GetReconciliationSubject) && COMMON[PAUSED] == Act(CheckIfPaused);
    assert COMMON[BASE] == RunIf(NotDeleting, Act(RequeueIfMissingBaseCRs));
    StopsAt(m, additional, s, flag,
            if Absent(m, s, flag) then SUBJECT else if Lacking(m, s, flag) then BASE else PAUSED);
  }

  /** A common stage that stops the run where it is reached keeps it from getting past the common stages. */
  lemma StopsAt<S>(m: Meaning<Method, Condition, S>, additional: seq<BaseStage>, s: S, flag: bool, i: nat)
    requires i < |COMMON|
    requires var (r', res) := Exec(Noting(m), COMMON[i], Reached(m, i, s, flag).0); Stops(r', res)
    ensures var (r1, res) := Before(m, additional, s, flag); Stops(r1, res)
  {
    var r := Runner((s, []), flag, false);
    ExecAppend(Noting(m), COMMON[..i], [COMMON[i]], r);
    ExecAppend(Noting(m), COMMON[..i] + [COMMON[i]], COMMON[i + 1..] + additional, r);
    assert COMMON[..i] + [COMMON[i]] + (COMMON[i + 1..] + additional) == COMMON + additional;
    var (r1, _) := ExecAll(Noting(m), COMMON[..i], r);
    var (r2, res2) := Exec(Noting(m), COMMON[i], r1);
    assert ExecAll(Noting(m), [COMMON[i]], r1) == (r2, res2);
  }
}
