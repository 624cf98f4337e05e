/** VMs and machines over whole runs: one VM per name, and what a machine's finalizer says about its VM. */
module VmRun {
  import opened Faults
  import opened VmCloud
  import opened VmSpec

  ghost predicate Unique(vms: map<Id, Vm>) {
    forall a, b :: a in vms && b in vms && vms[a].name == vms[b].name ==> a == b
  }

  ghost predicate Exists(vms: map<Id, Vm>, name: string) { exists id :: id in vms && vms[id].name == name }

  lemma {:induction false} NamedIs(vms: map<Id, Vm>, name: string, from: Id, to: Id)
    ensures forall id: Id :: id in Named(vms, name, from, to) <==> from <= id < to && id in vms && vms[id].name == name
    ensures Unique(vms) ==> |Named(vms, name, from, to)| <= 1
    decreases if from < to then to - from else 0
  {
    if from < to {
      NamedIs(vms, name, from + 1, to);
      var rest := Named(vms, name, from + 1, to);
      if rest != [] { assert rest[0] in rest; }
    }
  }

  /** With unique names a lookup by name finds the VM of that name exactly if there is one. */
  lemma LookupByName(env: Env, w: Cloud, m: Machine)
    requires WellFormed(w) && m.name != ""
    ensures var (w', m', err) := ResolveByName(env, w, m);
            && w'.vms == w.vms && w'.nextId == w.nextId && WellFormed(w')
            && w' == Tick(w)
            && (err.Error? ==> m' == m)
            && (err.Nil? ==> m'.instanceId.Some? && m'.instanceId.value in w.vms
                             && w.vms[m'.instanceId.value].name == m.name
                             && m' == WithMetrics(m, m'.instanceId.value, w.vms[m'.instanceId.value], w'.clock))
            && (Honest(env) && err == Error(NoMatch) ==> !Exists(w.vms, m.name))
            && (env(w.clock).Normal? && !Exists(w.vms, m.name) ==> err == Error(NoMatch))
            && (env(w.clock).Normal? && Unique(w.vms) && Exists(w.vms, m.name) ==> err.Nil?)
  {
    NamedIs(w.vms, m.name, 0, w.nextId);
    var ids := Named(w.vms, m.name, 0, w.nextId);
    if ids == [] {
      forall id | id in w.vms ensures w.vms[id].name != m.name { assert id !in ids; }
    } else {
      assert ids[0] in ids;
    }
  }

  lemma ResolveIs(env: Env, w: Cloud, m: Machine)
    requires WellFormed(w) && m.name != ""
    ensures var (w', m', err) := Resolve(env, w, m);
            && w'.vms == w.vms && w'.nextId == w.nextId && WellFormed(w') && w'.userExpunge == w.userExpunge
            && (err.Error? ==> m' == m)
            && (err.Nil? ==> && m'.instanceId.Some? && m'.instanceId.value in w.vms
                             && m' == WithMetrics(m, m'.instanceId.value, w.vms[m'.instanceId.value], w'.clock))
            && (Honest(env) && err == Error(NoMatch) ==>
                  !Exists(w.vms, m.name) && (m.instanceId.Some? ==> m.instanceId.value !in w.vms))
  {
    if m.instanceId.None? {
      LookupByName(env, w, m);
    } else {
      var (w1, hit) := GetMetricsByID(env, w, m.instanceId.value);
      if hit == Failed(NoMatch) { LookupByName(env, w1, m); }
    }
  }

  /** The same object, with an instance ID if it had one. */
  predicate SameObject(m: Machine, m': Machine) {
    && m'.name == m.name && m'.finalizer == m.finalizer && m'.ready == m.ready
    && (m.instanceId.Some? ==> m'.instanceId.Some?)
  }

  lemma DeployIs(env: Env, w: Cloud, m: Machine, plan: Plan)
    requires WellFormed(w)
    ensures var (w', m', err) := DeployVM(env, w, m, plan);
            && WellFormed(w') && w'.nextId >= w.nextId && SameObject(m, m')
            && (w'.vms == w.vms || w'.vms == w.vms[w.nextId := VmOf(m, plan)])
  {
  }

  lemma ResolveSame(env: Env, w: Cloud, m: Machine)
    ensures SameObject(m, Resolve(env, w, m).1)
  {
  }

  lemma DeploySame(env: Env, w: Cloud, m: Machine, plan: Plan)
    ensures SameObject(m, DeployVM(env, w, m, plan).1)
  {
  }

  lemma GetOrCreateSame(env: Env, w: Cloud, m: Machine, plan: Plan)
    ensures SameObject(m, GetOrCreateVM(env, w, m, plan).1)
  {
    ResolveSame(env, w, m);
    var (w1, m1, _) := Resolve(env, w, m);
    var (w2, _) := Lookup(env, w1);
    DeploySame(env, w2, m1, plan);
    var (w3, m3, _) := DeployVM(env, w2, m1, plan);
    ResolveSame(env, w3, m3);
  }

  /** Getting or creating a VM adds at most one VM, of the machine's name, and only if there was none of that name. */
  lemma GetOrCreateAdds(env: Env, w: Cloud, m: Machine, plan: Plan)
    requires WellFormed(w) && m.name != ""
    ensures var (w', m', err) := GetOrCreateVM(env, w, m, plan);
            && WellFormed(w') && SameObject(m, m')
            && (w'.vms == w.vms || w'.vms == w.vms[w.nextId := VmOf(m, plan)])
            && (Honest(env) && w'.vms != w.vms ==>
                  !Exists(w.vms, m.name) && (m.instanceId.Some? ==> m.instanceId.value !in w.vms))
  {
    GetOrCreateSame(env, w, m, plan);
    ResolveIs(env, w, m);
    var (w1, m1, resolved) := Resolve(env, w, m);
    if resolved == Error(NoMatch) {
      var (w2, affordable) := Lookup(env, w1);
      if affordable.Nil? {
        DeployIs(env, w2, m1, plan);
        var (w3, m3, err) := DeployVM(env, w2, m1, plan);
        if err.Nil? { ResolveIs(env, w3, m3); }
      }
    }
  }

  lemma AddressOf(ip: string)
    ensures InternalIps([ip]) == if ip == "" then [] else [ip]
  {
    assert [ip][1..] == [];
  }

  lemma AddressesFrom(nics: seq<string>)
    requires nics != []
    ensures InternalIps(nics) == InternalIps([nics[0]]) + InternalIps(nics[1..])
  {
    AddressOf(nics[0]);
  }

  /** The addresses are those that are set, in order. */
  lemma {:induction false} AddressesAre(a: seq<string>, b: seq<string>, ip: string)
    ensures InternalIps(a + b) == InternalIps(a) + InternalIps(b)
    ensures InternalIps([ip]) == if ip == "" then [] else [ip]
  {
    AddressOf(ip);
    if a == [] {
      assert a + b == b;
    } else {
      AddressesAre(a[1..], b, ip);
      AddressesFrom(a);
      AddressesFrom(a + b);
      assert (a + b)[1..] == a[1..] + b;
    }
  }

  // ---- Runs ----------------------------------------------------------------------------------

  datatype Op =
    | ObjectCreated(name: string)
    | ObjectDropped(name: string)
    | Reconciled(name: string, plan: Plan, setting: Setting, patched: bool)
    | Deleted(name: string, patched: bool)
    | VmGone(id: Id)
    | VmMoved(id: Id, state: VmState)
    | ForeignVm(vm: Vm)

  datatype System = System(w: Cloud, objects: map<string, Machine>)

  function NewMachine(name: string): Machine { Machine(name, None, None, [], Unset, None, false, false, false) }

  /** `patched` says whether the changed object could be written back. An object without finalizer that is deleted is
      gone; and no VM made by others takes a name that is in use. */
  ghost function Step(env: Env, s: System, op: Op): System {
    match op
    case ObjectCreated(name) =>
      if name == "" || name in s.objects then s else s.(objects := s.objects[name := NewMachine(name)])
    case ObjectDropped(name) =>
      if name in s.objects && !s.objects[name].finalizer then s.(objects := s.objects - {name}) else s
    case Reconciled(name, plan, setting, patched) =>
      if name !in s.objects then s
      else
        var (w', m', _) := Reconcile(env, s.w, s.objects[name], plan, setting);
        System(w', if patched then s.objects[name := m'] else s.objects)
    case Deleted(name, patched) =>
      if name !in s.objects then s
      else
        var (w', m', _) := ReconcileDelete(env, s.w, s.objects[name]);
        System(w', if !patched then s.objects
                   else if m'.finalizer then s.objects[name := m'] else s.objects - {name})
    case VmGone(id) => s.(w := s.w.(vms := s.w.vms - {id}))
    case VmMoved(id, state) =>
      if id !in s.w.vms then s else s.(w := s.w.(vms := s.w.vms[id := s.w.vms[id].(state := state)]))
    case ForeignVm(vm) =>
      if Exists(s.w.vms, vm.name) then s
      else s.(w := s.w.(nextId := s.w.nextId + 1, vms := s.w.vms[s.w.nextId := vm]))
  }

  ghost function Run(env: Env, s: System, ops: seq<Op>): System
    decreases |ops|
  {
    if ops == [] then s else Run(env, Step(env, s, ops[0]), ops[1..])
  }

  /** Every ready machine has the finalizer, and every machine with the finalizer knows its VM. */
  ghost predicate Accounted(objects: map<string, Machine>) {
    forall name :: name in objects ==>
      && objects[name].name == name != ""
      && (objects[name].finalizer ==> objects[name].instanceId.Some?)
      && (objects[name].ready ==> objects[name].finalizer)
  }

  /** The stages after the one that waits for the VM to run leave the VMs alone. */
  lemma PublishKeeps(env: Env, w: Cloud, m: Machine, rule: Option<Id>)
    requires m.instanceId.Some?
    ensures var w' := Publish(env, w, m, rule).0;
            Still(w') == Still(w).(members := w'.members, checkers := w'.checkers)
  {
    if rule.Some? { JoinKeeps(env, w, rule.value, m.instanceId.value); }
    var w1 := if rule.Some? then JoinBalancer(env, w, rule.value, m.instanceId.value).0 else w;
    CheckerKeeps(env, w1, m.instanceId.value);
  }

  lemma JoinKeeps(env: Env, w: Cloud, rule: Id, id: Id)
    ensures var (w', err) := JoinBalancer(env, w, rule, id);
            && Still(w') == Still(w).(members := w'.members)
            && (w'.members == w.members || w'.members == w.members[rule := MembersOf(w, rule) + [id]])
            && (w'.members != w.members ==> id !in MembersOf(w, rule))
            && (err.Nil? ==> id in MembersOf(w', rule))
            && (FaultFree(env) && id in w.vms ==> err.Nil?)
  {
  }

  lemma CheckerKeeps(env: Env, w: Cloud, id: Id)
    ensures var (w', err) := GetOrCreateChecker(env, w, id);
            && Still(w') == Still(w).(checkers := w'.checkers)
            && (w'.checkers == w.checkers || w'.checkers == w.checkers + {id})
            && (Honest(env) && err.Nil? ==> id in w'.checkers)
            && (FaultFree(env) ==> err.Nil?)
  {
  }

  lemma ReconcileStep(env: Env, w: Cloud, m: Machine, plan: Plan, setting: Setting)
    requires WellFormed(w) && m.name != ""
    ensures var (w', m', v) := Reconcile(env, w, m, plan, setting);
            && WellFormed(w') && m'.name == m.name
            && ((m.finalizer ==> m.instanceId.Some?) ==> (m'.finalizer ==> m'.instanceId.Some?))
            && ((m.ready ==> m.finalizer) ==> (m'.ready ==> m'.finalizer))
            && (w'.vms == w.vms || w'.vms == w.vms[w.nextId := VmOf(m, plan)])
            && (Honest(env) && w'.vms != w.vms ==> !Exists(w.vms, m.name))
  {
    var (w0, strayed) := DiscardStray(env, w, m, setting);
    assert WellFormed(w0) && w0.vms == w.vms && w0.nextId == w.nextId;
    if strayed.Nil? && setting.bootstrapped {
      GetOrCreateAdds(env, w0, m, plan);
      ProvisionedHasInstance(env, w0, m, plan);
      var (w1, m1, err) := Provision(env, w0, m, plan);
      if err.Nil? && m1.state.Running? { PublishKeeps(env, w1, m1.(ready := true), setting.rule); }
      assert Reconcile(env, w, m, plan, setting).0.vms == w1.vms;
    }
  }

  /** At most this VM was told to go, expunging it or not. */
  predicate Told(vms: map<Id, Vm>, vms': map<Id, Vm>, id: Id, expunge: bool) {
    vms' == vms || vms' == Destroyed(vms, id, expunge)
  }

  lemma DestroyCallIs(env: Env, w: Cloud, id: Id, expunge: bool)
    requires WellFormed(w)
    ensures var (w', err) := Destroy(env, w, id, expunge);
            && WellFormed(w') && w'.nextId == w.nextId && Told(w.vms, w'.vms, id, expunge)
            && (err.Nil? ==> id in w'.vms)
            && (Honest(env) && err == Error(UnknownUuid) ==> id !in w'.vms)
  {
  }

  /** The VM is told to go for good if it may be, or if it is not known whether it may. */
  lemma DestroyIs(env: Env, w: Cloud, m: Machine)
    requires WellFormed(w) && m.name != "" && m.instanceId.Some?
    ensures var (w', m', err) := DestroyVM(env, w, m);
            var i := m.instanceId.value;
            && WellFormed(w') && w'.nextId == w.nextId
            && m'.name == m.name && m'.instanceId.Some? && m'.finalizer == m.finalizer
            && Told(w.vms, w'.vms, i, env(w.clock).Fault? || w.userExpunge)
            && (Honest(env) && err.Nil? ==> i !in w'.vms || Going(w'.vms[i].state))
  {
    var (w1, capability) := ListCapabilities(env, w);
    var expunge := capability.Failed? || capability.value;
    var (w2, volumes) := Lookup(env, w1);
    if volumes.Nil? {
      var (w3, err) := Destroy(env, w2, m.instanceId.value, expunge);
      DestroyCallIs(env, w2, m.instanceId.value, expunge);
      if err.Nil? {
        ResolveIs(env, w3, m);
        if Honest(env) { DestroyedIsResolved(env, w3, m); }
      }
    }
  }

  /** A machine whose VM is there is resolved to that VM, if it is resolved. */
  lemma DestroyedIsResolved(env: Env, w: Cloud, m: Machine)
    requires Honest(env) && WellFormed(w) && m.name != "" && m.instanceId.Some? && m.instanceId.value in w.vms
    ensures var (_, m', err) := Resolve(env, w, m);
            && (err.Nil? ==> m'.instanceId == m.instanceId && m'.state == w.vms[m.instanceId.value].state)
            && err != Error(NoMatch)
  {
    ResolveIs(env, w, m);
  }

  lemma DeleteStep(env: Env, w: Cloud, m: Machine)
    requires WellFormed(w) && m.name != ""
    ensures var (w', m', v) := ReconcileDelete(env, w, m);
            && WellFormed(w') && m'.name == m.name
            && (m'.finalizer ==> m.finalizer)
            && (m.instanceId.Some? ==> m'.instanceId.Some?)
            && (w'.vms == w.vms || exists i, expunge :: Told(w.vms, w'.vms, i, expunge))
  {
    ResolveIs(env, w, m);
    var (w1, m1, found) := if m.instanceId.None? then Resolve(env, w, m) else (w, m, Nil);
    if found.Nil? { DestroyIs(env, w1, m1); }
  }

  /**
   At most one VM per machine name, in every reachable state: when deployments fail after the VM was made, when objects
   cannot be written back, and when VMs vanish or change outside of the controller.
   */
  lemma {:induction false} OneVmPerName(env: Env, s: System, ops: seq<Op>)
    requires Honest(env) && WellFormed(s.w) && Unique(s.w.vms) && Accounted(s.objects)
    ensures Unique(Run(env, s, ops).w.vms) && Accounted(Run(env, s, ops).objects)
    decreases |ops|
  {
    if ops != [] {
      StepIsUnique(env, s, ops[0]);
      StepIsAccounted(env, s, ops[0]);
      OneVmPerName(env, Step(env, s, ops[0]), ops[1..]);
    }
  }

  lemma StepIsUnique(env: Env, s: System, op: Op)
    requires Honest(env) && WellFormed(s.w) && Unique(s.w.vms) && Accounted(s.objects)
    ensures Unique(Step(env, s, op).w.vms)
  {
    match op
    case Reconciled(name, plan, setting, patched) =>
      if name in s.objects {
        ReconcileStep(env, s.w, s.objects[name], plan, setting);
        AddedIsUnique(s.w, s.objects[name], plan);
      }
    case Deleted(name, patched) =>
      if name in s.objects { DeleteStep(env, s.w, s.objects[name]); }
    case _ =>
  }

  lemma AddedIsUnique(w: Cloud, m: Machine, plan: Plan)
    requires WellFormed(w) && Unique(w.vms)
    ensures !Exists(w.vms, m.name) ==> Unique(w.vms[w.nextId := VmOf(m, plan)])
  {
  }

  lemma StepIsAccounted(env: Env, s: System, op: Op)
    requires WellFormed(s.w) && Accounted(s.objects)
    ensures WellFormed(Step(env, s, op).w) && Accounted(Step(env, s, op).objects)
  {
    match op
    case Reconciled(name, plan, setting, patched) =>
      if name in s.objects { ReconcileStep(env, s.w, s.objects[name], plan, setting); }
    case Deleted(name, patched) =>
      if name in s.objects { DeleteStep(env, s.w, s.objects[name]); }
    case _ =>
  }

  /** Whatever fails, and even if faults imitate answers: a machine with the finalizer always has an instance ID. */
  lemma {:induction false} FinalizerHasInstance(env: Env, s: System, ops: seq<Op>)
    requires WellFormed(s.w) && Accounted(s.objects)
    ensures Accounted(Run(env, s, ops).objects)
    decreases |ops|
  {
    if ops != [] {
      StepIsAccounted(env, s, ops[0]);
      FinalizerHasInstance(env, Step(env, s, ops[0]), ops[1..]);
    }
  }

  // ---- Single steps --------------------------------------------------------------------------

  /** The VM a deletion is about: the one recorded, or else the one of the machine's name. */
  function Target(env: Env, w: Cloud, m: Machine): Option<Id> {
    if m.instanceId.Some? then m.instanceId else Resolve(env, w, m).1.instanceId
  }

  /** The finalizer is taken off only when the VM it stands for is absent, expunging or expunged. */
  lemma ReleasedOnlyWhenGone(env: Env, w: Cloud, m: Machine)
    requires Honest(env) && WellFormed(w) && m.name != "" && m.finalizer
    ensures var (w', m', v) := ReconcileDelete(env, w, m);
            && (m'.finalizer <==> v != Done)
            && (v == Done ==> Target(env, w, m).Some?
                              && var i := Target(env, w, m).value; i !in w'.vms || Going(w'.vms[i].state))
  {
    ResolveIs(env, w, m);
    var (w1, m1, found) := if m.instanceId.None? then Resolve(env, w, m) else (w, m, Nil);
    if found.Nil? { DestroyIs(env, w1, m1); }
  }

  /** Without failures the destruction is complete at once exactly if the VM is not there or may be expunged. */
  lemma DestroyFaultFree(env: Env, w: Cloud, m: Machine)
    requires FaultFree(env) && WellFormed(w) && m.name != "" && m.instanceId.Some?
    ensures var (w', _, err) := DestroyVM(env, w, m);
            && (err.Nil? <==> m.instanceId.value !in w.vms || w.userExpunge)
            && (err.Nil? || err == Error(InProgress))
            && w'.vms == Destroyed(w.vms, m.instanceId.value, w.userExpunge)
  {
    var w3 := Tick(Tick(Tick(w))).(vms := Destroyed(w.vms, m.instanceId.value, w.userExpunge));
    if m.instanceId.value in w.vms {
      assert Destroy(env, Tick(Tick(w)), m.instanceId.value, w.userExpunge) == (w3, Nil);
      DestroyedIsResolved(env, w3, m);
      ResolveIs(env, w3, m);
    }
  }

  /** Once it succeeded, getting or creating a VM again changes nothing: neither the cloud nor the machine. */
  lemma GetOrCreateIsFixedPoint(env: Env, env': Env, w: Cloud, m: Machine, plan: Plan)
    requires FaultFree(env') && WellFormed(w) && m.name != "" && GetOrCreateVM(env, w, m, plan).2.Nil?
    ensures var (w', m', _) := GetOrCreateVM(env, w, m, plan);
            && GetOrCreateVM(env', w', m', plan) == (Tick(w'), m', Nil)
  {
    var (w', m', err) := GetOrCreateVM(env, w, m, plan);
    GetOrCreateFinds(env, w, m, plan);
    ResolveAgain(env', w', m');
  }

  /** The machine says about its VM what the metrics say. */
  ghost predicate UpToDate(w: Cloud, m: Machine) {
    && m.instanceId.Some? && m.instanceId.value in w.vms
    && m.providerId == m.instanceId
    && var vm := w.vms[m.instanceId.value];
       && m.addresses == InternalIps(vm.nics) && m.state == vm.state
       && (vm.state != Unset ==> m.stateSince.Some?)
  }

  /** A lookup brings the machine up to date; the time of the last change of state is now if the state changed, and
      stays otherwise. */
  lemma ResolveUpdates(env: Env, w: Cloud, m: Machine)
    requires WellFormed(w) && m.name != "" && Resolve(env, w, m).2.Nil?
    ensures var (w', m', _) := Resolve(env, w, m);
            && UpToDate(w', m')
            && (m'.state != m.state ==> m'.stateSince == Some(w'.clock))
            && (m'.state == m.state && m.stateSince.Some? ==> m'.stateSince == m.stateSince)
  {
    ResolveIs(env, w, m);
  }

  lemma ResolveAgain(env: Env, w: Cloud, m: Machine)
    requires FaultFree(env) && UpToDate(w, m)
    ensures Resolve(env, w, m) == (Tick(w), m, Nil)
  {
  }

  lemma GetOrCreateFinds(env: Env, w: Cloud, m: Machine, plan: Plan)
    requires WellFormed(w) && m.name != "" && GetOrCreateVM(env, w, m, plan).2.Nil?
    ensures UpToDate(GetOrCreateVM(env, w, m, plan).0, GetOrCreateVM(env, w, m, plan).1)
  {
    var (w1, m1, resolved) := Resolve(env, w, m);
    ResolveIs(env, w, m);
    if resolved.Nil? {
      ResolveUpdates(env, w, m);
    } else {
      var w2 := Lookup(env, w1).0;
      DeployIs(env, w2, m1, plan);
      var (w3, m3, _) := DeployVM(env, w2, m1, plan);
      ResolveUpdates(env, w3, m3);
    }
  }
}
