/**
 The stage interpreter of controllers/utils/base_reconciler.go: stage lists with RunIf and Else, which communicate
 through a flag on the runner, and with early exit.
 */
module Stages {

  /** A `(ctrl.Result, error)` pair, as the stage loop looks at it. */
  datatype Result = Continue | Requeue | Fail

  /** A stage is a method of the reconciler, one of the two conditional wrappers, or a nested run of stages. */
  datatype Stage<A, C> =
    | Act(a: A)
    | RunIf(cond: C, body: Stage<A, C>)
    | Else(body: Stage<A, C>)
    | Block(stages: seq<Stage<A, C>>)

  /**
   What methods and conditions mean for the state `S` they work on. A method may ask to return early. As it may run
   stages of its own, it may also leave any value in the flag, whatever it found there: that is `leaves`.
   */
  datatype Meaning<!A, !C, !S> = Meaning(act: (A, S) -> (S, Result, bool), leaves: (A, S, bool) -> bool,
                                         test: (C, S) -> bool)

  /** The runner: the state worked on, the result of the last condition, and the request to return early. */
  datatype Runner<S> = Runner(state: S, conditional: bool, early: bool)

  // ---- The interpreter -----------------------------------------------------------------------

  function Exec<A, C, S>(m: Meaning<A, C, S>, stage: Stage<A, C>, r: Runner<S>): (Runner<S>, Result)
    decreases stage, 1
  {
    match stage
    case Act(a) =>
      var (s, res, early) := m.act(a, r.state);
      (Runner(s, m.leaves(a, r.state, r.conditional), r.early || early), res)
    case RunIf(cond, body) =>
      var placeholder := m.test(cond, r.state);
      var (r1, res) := if placeholder then Exec(m, body, r) else (r, Continue);
      (r1.(conditional := placeholder), res)
    case Else(body) => if !r.conditional then Exec(m, body, r) else (r, Continue)
    case Block(stages) => ExecAll(m, stages, r)
  }

  predicate Stops<S>(r: Runner<S>, res: Result) { !res.Continue? || r.early }

  function ExecAll<A, C, S>(m: Meaning<A, C, S>, stages: seq<Stage<A, C>>, r: Runner<S>): (Runner<S>, Result)
    decreases stages, 0
  {
    if stages == [] then (r, Continue)
    else
      var (r1, res) := Exec(m, stages[0], r);
      if Stops(r1, res) then (r1, res) else ExecAll(m, stages[1..], r1)
  }

  /** The interpreter as it is written: closures that write the runner's fields, and a loop that exits early. */
  class ReconciliationRunner<A, C, S> {
    const meaning: Meaning<A, C, S>
    var state: S
    var conditionalResult: bool
    var returnEarly: bool

    constructor (meaning: Meaning<A, C, S>, state: S)
      ensures this.meaning == meaning && View() == Runner(state, false, false)
    {
      this.meaning, this.state, this.conditionalResult, this.returnEarly := meaning, state, false, false;
    }

    function View(): Runner<S>
      reads this
    {
      Runner(state, conditionalResult, returnEarly)
    }

    method RunStage(stage: Stage<A, C>) returns (res: Result)
      modifies this
      ensures (View(), res) == Exec(meaning, stage, old(View()))
      decreases stage, 1
    {
      match stage {
        case Act(a) =>
          var step := meaning.act(a, state);
          conditionalResult := meaning.leaves(a, state, conditionalResult);
          state, res := step.0, step.1;
          if step.2 { returnEarly := true; }
        case RunIf(cond, body) =>
          var placeholder := meaning.test(cond, state);
          res := Continue;
          if placeholder { res := RunStage(body); }
          conditionalResult := placeholder;
        case Else(body) =>
          res := Continue;
          if !conditionalResult { res := RunStage(body); }
        case Block(stages) =>
          res := RunReconciliationStages(stages);
      }
    }

    method RunReconciliationStages(stages: seq<Stage<A, C>>) returns (res: Result)
      modifies this
      ensures (View(), res) == ExecAll(meaning, stages, old(View()))
      decreases stages, 0
    {
      var i := 0;
      while i < |stages|
        invariant 0 <= i <= |stages|
        invariant ExecAll(meaning, stages, old(View())) == ExecAll(meaning, stages[i..], View())
      {
        res := RunStage(stages[i]);
        if !res.Continue? || returnEarly { return; }
        i := i + 1;
      }
      return Continue;
    }
  }

  // ---- Structured programs -------------------------------------------------------------------

  datatype Prog<A, C> =
    | Do(a: A)
    | If(cond: C, then_: Prog<A, C>, else_: Prog<A, C>)
    | Seq(progs: seq<Prog<A, C>>)

  /** State, request to return early, and result; there is no flag. */
  type Stopped<S> = (S, bool, Result)

  function Eval<A, C, S>(m: Meaning<A, C, S>, p: Prog<A, C>, s: S): Stopped<S>
    decreases p, 1
  {
    match p
    case Do(a) => var (s', res, early) := m.act(a, s); (s', early, res)
    case If(cond, t, e) => if m.test(cond, s) then Eval(m, t, s) else Eval(m, e, s)
    case Seq(progs) => EvalAll(m, progs, s)
  }

  function EvalAll<A, C, S>(m: Meaning<A, C, S>, progs: seq<Prog<A, C>>, s: S): Stopped<S>
    decreases progs, 0
  {
    if progs == [] then (s, false, Continue)
    else
      var (s', early, res) := Eval(m, progs[0], s);
      if !res.Continue? || early then (s', early, res) else EvalAll(m, progs[1..], s')
  }

  /** Each Else directly follows its RunIf, at every level. */
  ghost predicate Paired<A, C>(stages: seq<Stage<A, C>>)
    decreases stages, 0
  {
    stages != [] ==>
      && Proper(stages[0])
      && if stages[0].RunIf? && |stages| > 1 && stages[1].Else?
         then ProperElse(stages[1]) && Paired(stages[2..])
         else Paired(stages[1..])
  }

  /** A stage that can stand on its own. */
  ghost predicate Proper<A, C>(stage: Stage<A, C>)
    decreases stage, 1
  {
    match stage
    case Act(_) => true
    case RunIf(_, body) => Proper(body)
    case Else(_) => false
    case Block(stages) => Paired(stages)
  }

  ghost predicate ProperElse<A, C>(stage: Stage<A, C>)
    decreases stage, 1
  {
    stage.Else? && Proper(stage.body)
  }

  function WithElse<A, C>(p: Prog<A, C>, else_: Prog<A, C>): Prog<A, C> {
    if p.If? then p.(else_ := else_) else p
  }

  function Structured<A, C>(stage: Stage<A, C>): Prog<A, C>
    decreases stage, 1
  {
    match stage
    case Act(a) => Do(a)
    case RunIf(cond, body) => If(cond, Structured(body), Seq([]))
    case Else(body) => Structured(body)
    case Block(stages) => Seq(StructuredAll(stages))
  }

  function StructuredAll<A, C>(stages: seq<Stage<A, C>>): seq<Prog<A, C>>
    decreases stages, 0
  {
    if stages == [] then []
    else if stages[0].RunIf? && |stages| > 1 && stages[1].Else? then
      [WithElse(Structured(stages[0]), Structured(stages[1]))] + StructuredAll(stages[2..])
    else [Structured(stages[0])] + StructuredAll(stages[1..])
  }

  // ---- The flag implements if-then-else ------------------------------------------------------

  lemma {:induction false} ExecIsEval<A, C, S>(m: Meaning<A, C, S>, stage: Stage<A, C>, r: Runner<S>)
    requires !r.early && (Proper(stage) || (ProperElse(stage) && !r.conditional))
    ensures var (r', res) := Exec(m, stage, r); Eval(m, Structured(stage), r.state) == (r'.state, r'.early, res)
    decreases stage, 1
  {
    match stage
    case Act(_) =>
    case RunIf(cond, body) => if m.test(cond, r.state) { ExecIsEval(m, body, r); }
    case Else(body) => ExecIsEval(m, body, r);
    case Block(stages) => FlagIsIfThenElse(m, stages, r);
  }

  /**
   Running a list of stages through the flag is running the structured program: same final state, same result, same
   request to return early. What the flag held before does not matter.
   */
  lemma {:induction false} FlagIsIfThenElse<A, C, S>(m: Meaning<A, C, S>, stages: seq<Stage<A, C>>, r: Runner<S>)
    requires Paired(stages) && !r.early
    ensures var (r', res) := ExecAll(m, stages, r);
            EvalAll(m, StructuredAll(stages), r.state) == (r'.state, r'.early, res)
    decreases stages, 0
  {
    if stages == [] {
    } else if stages[0].RunIf? && |stages| > 1 && stages[1].Else? {
      assert StructuredAll(stages)[1..] == StructuredAll(stages[2..]);
      assert stages[1..][1..] == stages[2..];
      ExecIsEval(m, stages[0], r);
      var (r1, res1) := Exec(m, stages[0], r);
      if !Stops(r1, res1) {
        if !r1.conditional { ExecIsEval(m, stages[1], r1); }
        var (r2, res2) := Exec(m, stages[1], r1);
        assert ExecAll(m, stages[1..], r1) == if Stops(r2, res2) then (r2, res2) else ExecAll(m, stages[2..], r2);
        if !Stops(r2, res2) { FlagIsIfThenElse(m, stages[2..], r2); }
      }
    } else {
      assert StructuredAll(stages)[1..] == StructuredAll(stages[1..]);
      ExecIsEval(m, stages[0], r);
      var (r1, res1) := Exec(m, stages[0], r);
      if !Stops(r1, res1) { FlagIsIfThenElse(m, stages[1..], r1); }
    }
  }
}
