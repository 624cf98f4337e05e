/** Failed deployments and stale instance IDs: what the life cycle recovers from, and what it leaves behind. */
module VmLimits {
  import opened Faults
  import opened VmCloud
  import opened VmSpec
  import opened VmRun

  lemma {:induction false} MatchingIs(vms: map<Id, Vm>, name: string, template: Id, zone: Id, network: Id, from: Id,
                                      to: Id)
    ensures forall id: Id :: id in Matching(vms, name, template, zone, network, from, to) <==>
              from <= id < to && id in vms && Matches(vms[id], name, template, zone, network)
    decreases if from < to then to - from else 0
  {
    if from < to {
      MatchingIs(vms, name, template, zone, network, from + 1, to);
      var all := Matching(vms, name, template, zone, network, from, to);
      var rest := Matching(vms, name, template, zone, network, from + 1, to);
      if from in vms && Matches(vms[from], name, template, zone, network) {
        assert all == [from] + rest;
      } else {
        assert all == rest;
      }
    }
  }

  /**
   CloudStack reports an error but has made the VM. The machine learns its VM's identifier, and with it the VM's state,
   exactly if the search that follows does not fail and the failure domain's network is one of the VM's.
   */
  lemma RecordedAfterFailure(env: Env, w: Cloud, m: Machine, plan: Plan)
    requires WellFormed(w) && !Exists(w.vms, m.name) && m.instanceId != Some(w.nextId)
    requires DeployVM(env, w, m, plan).2.Error? && DeployVM(env, w, m, plan).0.vms != w.vms
    ensures var m' := DeployVM(env, w, m, plan).1;
            && (m'.instanceId == Some(w.nextId) <==> env(w.clock + 2).Normal? && plan.domainNetwork in plan.networks)
            && (m'.instanceId == Some(w.nextId) ==> m'.state == plan.state && m'.deployed == m.deployed)
  {
    var w2 := Deploy(env, Tick(w), VmOf(m, plan)).0;
    assert w2.vms == w.vms[w.nextId := VmOf(m, plan)];
    MatchingIs(w2.vms, m.name, plan.template, plan.zone, plan.domainNetwork, 0, w2.nextId);
    var ids := Matching(w2.vms, m.name, plan.template, plan.zone, plan.domainNetwork, 0, w2.nextId);
    if ids != [] { assert ids[0] in ids; }
    assert Matches(w2.vms[w.nextId], m.name, plan.template, plan.zone, plan.domainNetwork)
           <==> plan.domainNetwork in plan.networks;
  }

  /** Recorded or not: the next attempt without failures finds that VM and deploys no second one. */
  lemma NoSecondDeployment(env: Env, env': Env, w: Cloud, m: Machine, plan: Plan)
    requires Honest(env) && FaultFree(env') && WellFormed(w) && Unique(w.vms) && m.name != ""
    requires m.instanceId.Some? ==> m.instanceId.value < w.nextId
    requires GetOrCreateVM(env, w, m, plan).2.Error? && GetOrCreateVM(env, w, m, plan).0.vms != w.vms
    ensures var (w', m', _) := GetOrCreateVM(env, w, m, plan);
            var (w'', m'', err) := GetOrCreateVM(env', w', m', plan);
            err.Nil? && w''.vms == w'.vms && m''.instanceId == Some(w.nextId)
  {
    GetOrCreateAdds(env, w, m, plan);
    var (w', m', _) := GetOrCreateVM(env, w, m, plan);
    assert w'.vms == w.vms[w.nextId := VmOf(m, plan)];
    assert w'.vms[w.nextId].name == m.name;
    InstanceAfterFailure(env, w, m, plan);
    LookupByName(env', w', m');
    LookupByName(env', Tick(w'), m');
  }

  lemma InstanceAfterFailure(env: Env, w: Cloud, m: Machine, plan: Plan)
    requires Honest(env) && WellFormed(w) && m.name != ""
    requires GetOrCreateVM(env, w, m, plan).2.Error? && GetOrCreateVM(env, w, m, plan).0.vms != w.vms
    ensures var m' := GetOrCreateVM(env, w, m, plan).1;
            m'.instanceId == m.instanceId || m'.instanceId == Some(w.nextId)
  {
    ResolveIs(env, w, m);
    var (w1, m1, _) := Resolve(env, w, m);
    var w2 := Lookup(env, w1).0;
    var (w3, m3, err) := DeployVM(env, w2, m1, plan);
    var w4 := Deploy(env, Lookup(env, w2).0, VmOf(m1, plan)).0;
    MatchingIs(w4.vms, m.name, plan.template, plan.zone, plan.domainNetwork, 0, w4.nextId);
    var ids := Matching(w4.vms, m.name, plan.template, plan.zone, plan.domainNetwork, 0, w4.nextId);
    if ids != [] { assert ids[0] in ids; }
    if err.Nil? { ResolveIs(env, w3, m3); }
  }

  /**
   A machine that still records a VM that vanished, while a failed deployment or a lost write left another one under its
   name: the deletion looks at the recorded one only. A VM of the machine's name stays behind, though nothing failed,
   exactly if the recorded one can go and another one bears the name.
   */
  lemma DeletionLeaves(env: Env, w: Cloud, m: Machine)
    requires FaultFree(env) && WellFormed(w) && m.name != "" && m.instanceId.Some?
    ensures var i := m.instanceId.value;
            var (w', _, v) := ReconcileDelete(env, w, m);
            v == Done && (exists id :: id in w'.vms && w'.vms[id].name == m.name && !Going(w'.vms[id].state))
            <==> && (i !in w.vms || w.userExpunge)
                 && (exists id :: id in w.vms && id != i && w.vms[id].name == m.name && !Going(w.vms[id].state))
  {
    DestroyFaultFree(env, w, m);
    var i := m.instanceId.value;
    var (w', _, err) := DestroyVM(env, w, m);
    if err.Nil? {
      forall id ensures id in w'.vms && w'.vms[id].name == m.name && !Going(w'.vms[id].state)
                        <==> id in w.vms && id != i && w.vms[id].name == m.name && !Going(w.vms[id].state)
      {
      }
    }
  }

  /** Just one VM bears the name. */
  ghost predicate Alone(vms: map<Id, Vm>, name: string, id: Id) {
    id in vms && vms[id].name == name && forall other :: other in vms && vms[other].name == name ==> other == id
  }

  lemma {:induction false} NamedOne(vms: map<Id, Vm>, name: string, from: Id, to: Id)
    ensures forall id: Id :: id in Named(vms, name, from, to) ==> from <= id
    ensures |Named(vms, name, from, to)| >= 2 ==>
              Named(vms, name, from, to)[0] != Named(vms, name, from, to)[1]
    decreases if from < to then to - from else 0
  {
    if from < to {
      NamedOne(vms, name, from + 1, to);
      var rest := Named(vms, name, from + 1, to);
      if rest != [] { assert rest[0] in rest; }
    }
  }

  /** Without failures the lookup by name succeeds exactly if just one VM bears the name, and then finds that one. */
  lemma LookupFindsTheOne(env: Env, w: Cloud, m: Machine)
    requires FaultFree(env) && WellFormed(w) && m.name != ""
    ensures var (w', m', err) := ResolveByName(env, w, m);
            && (err.Nil? <==> exists id :: Alone(w.vms, m.name, id))
            && (err.Nil? ==> m'.instanceId.Some? && Alone(w.vms, m.name, m'.instanceId.value))
  {
    NamedIs(w.vms, m.name, 0, w.nextId);
    NamedOne(w.vms, m.name, 0, w.nextId);
    var ids := Named(w.vms, m.name, 0, w.nextId);
    if |ids| == 1 {
      assert ids[0] in ids;
      forall other | other in w.vms && w.vms[other].name == m.name ensures other == ids[0] { assert other in ids; }
      assert Alone(w.vms, m.name, ids[0]);
    } else {
      if ids != [] { assert ids[0] in ids && ids[1] in ids; }
      forall id ensures !Alone(w.vms, m.name, id) {
        assert id in ids <==> id in w.vms && w.vms[id].name == m.name;
      }
    }
  }

  /**
   A machine that records no VM is looked up by name. Without failures its deletion completes at once exactly if just
   one VM bears the name and may be expunged, and then no VM of the name is left that is not going.
   */
  lemma DeletionByName(env: Env, w: Cloud, m: Machine)
    requires FaultFree(env) && WellFormed(w) && m.name != "" && m.instanceId.None?
    ensures var (w', _, v) := ReconcileDelete(env, w, m);
            && (v == Done <==> w.userExpunge && exists id :: Alone(w.vms, m.name, id))
            && (v == Done ==> forall id :: id in w'.vms && w'.vms[id].name == m.name ==> Going(w'.vms[id].state))
  {
    LookupFindsTheOne(env, w, m);
    LookupByName(env, w, m);
    var (w1, m1, err) := ResolveByName(env, w, m);
    if err.Nil? { DestroyFaultFree(env, w1, m1); }
  }

  // ---- A run that leaves a VM behind ---------------------------------------------------------

  const PLAN := Plan(1, 1, [1], 1, Running, [])

  function Made(id: Id): Machine { Machine("m", Some(id), Some(id), [], Running, Some(5), true, true, true) }

  /** The twelfth call is a deployment that makes the VM and reports an error; the next one, the search for it,
      fails. */
  function Unlucky(): Env {
    t => if t == 11 then Fault(Other, true) else if t == 12 then Fault(Other, false) else Normal
  }

  function TheVm(): Vm { VmOf(Made(0), PLAN) }

  function At(clock: nat, nextId: Id, vms: map<Id, Vm>, checkers: set<Id>): Cloud {
    Cloud(clock, nextId, vms, true, map[], {}, checkers)
  }

  function Start(): System { System(At(0, 0, map[], {}), map[]) }
  function Provisioned(): System { System(At(7, 1, map[0 := TheVm()], {0}), map["m" := Made(0)]) }
  function Bereft(): System { System(At(7, 1, map[], {0}), map["m" := Made(0)]) }
  function Unrecorded(): System { System(At(13, 2, map[1 := TheVm()], {0}), map["m" := Made(0)]) }
  function Leaked(): System { System(At(16, 2, map[1 := TheVm()], {0}), map[]) }

  const RECONCILED := Reconciled("m", PLAN, Setting(true, None, None, []), true)

  lemma FirstReconciliation()
    ensures Step(Unlucky(), Start().(objects := map["m" := NewMachine("m")]), RECONCILED) == Provisioned()
  {
    var m := NewMachine("m");
    var w := At(0, 0, map[], {});
    var env := Unlucky();
    assert Resolve(env, w, m) == (Tick(w), m, Error(NoMatch));
    var w3 := At(4, 1, map[0 := TheVm()], {});
    var m3 := m.(instanceId := Some(0), deployed := true);
    assert DeployVM(env, At(2, 0, map[], {}), m, PLAN) == (w3, m3, Nil);
    var m4 := WithMetrics(m3, 0, TheVm(), 5);
    assert Resolve(env, w3, m3) == (Tick(w3), m4, Nil);
    assert m4.(finalizer := true, ready := true) == Made(0);
    assert {} + {0} == {0};
    assert Publish(env, Tick(w3), Made(0), None) == (Provisioned().w, Nil);
    assert map["m" := m]["m" := Made(0)] == map["m" := Made(0)];
  }

  lemma SecondReconciliation()
    ensures Step(Unlucky(), Bereft(), RECONCILED) == Unrecorded()
  {
    var env, w, m := Unlucky(), Bereft().w, Made(0);
    assert Named(w.vms, "m", 0, 1) == Named(w.vms, "m", 1, 1) == [];
    assert Resolve(env, w, m) == (At(9, 1, map[], {0}), m, Error(NoMatch));
    assert DeployVM(env, At(10, 1, map[], {0}), m, PLAN) == (Unrecorded().w, m, Error(Other));
    assert map["m" := m]["m" := m] == map["m" := m];
  }

  lemma ThenDeletion()
    ensures Step(Unlucky(), Unrecorded(), Deleted("m", true)) == Leaked()
  {
    var env, w, m := Unlucky(), Unrecorded().w, Made(0);
    assert DestroyVM(env, w, m) == (Leaked().w, m, Nil);
    assert map["m" := m] - {"m"} == map[];
  }

  lemma {:induction false} RunOf(env: Env, s: System, op: Op, rest: seq<Op>, s': System, end: System)
    requires Step(env, s, op) == s' && Run(env, s', rest) == end
    ensures Run(env, s, [op] + rest) == end
  {
    assert ([op] + rest)[1..] == rest;
  }

  lemma VmVanishes()
    ensures Step(Unlucky(), Provisioned(), VmGone(0)) == Bereft()
  {
    assert map[0 := TheVm()] - {0} == map[];
  }

  lemma SecondHalf()
    ensures Run(Unlucky(), Bereft(), [RECONCILED] + ([Deleted("m", true)] + [])) == Leaked()
  {
    ThenDeletion();
    RunOf(Unlucky(), Unrecorded(), Deleted("m", true), [], Leaked(), Leaked());
    SecondReconciliation();
    RunOf(Unlucky(), Bereft(), RECONCILED, [Deleted("m", true)] + [], Unrecorded(), Leaked());
  }

  /**
   It comes to that from nothing: a VM is made, it vanishes outside of the controller, the next deployment makes one and
   reports an error, the search for it fails, and the object is deleted. The second VM runs on and no object is left.
   */
  lemma VmLeftBehind() returns (env: Env, ops: seq<Op>)
    ensures Honest(env)
    ensures var s := Run(env, System(At(0, 0, map[], {}), map[]), ops);
            s.objects == map[] && Exists(s.w.vms, "m") && forall id :: id in s.w.vms ==> s.w.vms[id].state == Running
  {
    env := Unlucky();
    var rest := [RECONCILED] + ([Deleted("m", true)] + []);
    SecondHalf();
    VmVanishes();
    RunOf(env, Provisioned(), VmGone(0), rest, Bereft(), Leaked());
    var created := Start().(objects := map["m" := NewMachine("m")]);
    FirstReconciliation();
    RunOf(env, created, RECONCILED, [VmGone(0)] + rest, Provisioned(), Leaked());
    RunOf(env, Start(), ObjectCreated("m"), [RECONCILED] + ([VmGone(0)] + rest), created, Leaked());
    ops := [ObjectCreated("m")] + ([RECONCILED] + ([VmGone(0)] + rest));
    assert Leaked().w.vms[1].name == "m";
  }

  /** Names stay unique only because faults do not read like "no match": one that does leads to a second VM. */
  lemma ImitatedAnswer()
    ensures exists env: Env, w: Cloud, m: Machine, plan: Plan ::
      && WellFormed(w) && Unique(w.vms) && m.name != "" && !Unique(GetOrCreateVM(env, w, m, plan).0.vms)
  {
    var env: Env := (t: nat) => if t == 0 then Fault(NoMatch, false) else Normal;
    var plan := Plan(1, 1, [], 1, Running, []);
    var m := NewMachine("m");
    var w := At(0, 1, map[0 := VmOf(m, plan)], {});
    var w' := GetOrCreateVM(env, w, m, plan).0;
    var w2 := Lookup(env, Tick(w)).0;
    var w3 := DeployVM(env, w2, m, plan).0;
    assert w3.vms == map[0 := VmOf(m, plan), 1 := VmOf(m, plan)];
    ResolveIs(env, w3, DeployVM(env, w2, m, plan).1);
    assert w'.vms[0].name == w'.vms[1].name;
  }
}
