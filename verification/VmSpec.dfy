/** The life cycle of a machine's VM (pkg/cloud/instance.go and controllers/cloudstackmachine_controller.go). */
module VmSpec {
  import opened Faults
  import opened VmCloud

  /** A CloudStackMachine, as far as it concerns its VM. */
  datatype Machine = Machine(name: string, instanceId: Option<Id>, providerId: Option<Id>, addresses: seq<string>,
                             state: VmState, stateSince: Option<nat>, deployed: bool, finalizer: bool, ready: bool)

  /** What a new VM is made from, and the network by which the failure domain looks for it. */
  datatype Plan = Plan(template: Id, zone: Id, networks: seq<Id>, domainNetwork: Id, state: VmState, nics: seq<string>)

  // ---- pkg/cloud/instance.go -----------------------------------------------------------------

  function InternalIps(nics: seq<string>): (ips: seq<string>) {
    if nics == [] then []
    else
      var rest := InternalIps(nics[1..]);
      if nics[0] != "" then [nics[0]] + rest else rest
  }

  function WithMetrics(m: Machine, id: Id, vm: Vm, now: nat): Machine {
    var m1 := m.(providerId := Some(id), instanceId := Some(id), addresses := InternalIps(vm.nics));
    if vm.state != m.state || (vm.state != Unset && m.stateSince.None?)
    then m1.(state := vm.state, stateSince := Some(now)) else m1
  }

  function ResolveByName(env: Env, w: Cloud, m: Machine): (Cloud, Machine, GoError) {
    if m.name == "" then (w, m, Error(NoMatch))
    else
      var (w1, hit) := GetMetricsByName(env, w, m.name);
      if hit.Failed? then (w1, m, Error(hit.text))
      else if hit.value.Several? then (w1, m, Error(Other))
      else (w1, WithMetrics(m, hit.value.id, hit.value.vm, w1.clock), Nil)
  }

  function Resolve(env: Env, w: Cloud, m: Machine): (Cloud, Machine, GoError) {
    if m.instanceId.None? then ResolveByName(env, w, m)
    else
      var (w1, hit) := GetMetricsByID(env, w, m.instanceId.value);
      if hit.Failed? && hit.text != NoMatch then (w1, m, Error(hit.text))
      else if hit.Failed? then ResolveByName(env, w1, m)
      else if hit.value.Several? then (w1, m, Error(Other))
      else (w1, WithMetrics(m, hit.value.id, hit.value.vm, w1.clock), Nil)
  }

  function VmOf(m: Machine, plan: Plan): Vm {
    Vm(m.name, plan.template, plan.zone, plan.networks, plan.state, plan.nics)
  }

  /** The VM that a failed deployment may have left. */
  function FindVirtualMachine(env: Env, w: Cloud, m: Machine, plan: Plan): (Cloud, Reply<Option<Id>>) {
    var (w1, found) := ListMachines(env, w, m.name, plan.template, plan.zone, plan.domainNetwork);
    (w1, if found.Failed? then Failed(found.text)
         else if found.value == [] then Reply(None) else Reply(Some(found.value[0])))
  }

  function DeployVM(env: Env, w: Cloud, m: Machine, plan: Plan): (Cloud, Machine, GoError) {
    var (w1, prepared) := Lookup(env, w);
    if prepared.Error? then (w1, m, prepared)
    else
      var (w2, err) := Deploy(env, w1, VmOf(m, plan));
      if err.Nil? then (w2, m.(instanceId := Some(w1.nextId), deployed := true), Nil)
      else
        var (w3, found) := FindVirtualMachine(env, w2, m, plan);
        if found.Failed? || found.value.None? || found.value.value !in w3.vms then (w3, m, err)
        else (w3, m.(instanceId := found.value, state := w3.vms[found.value.value].state), err)
  }

  function GetOrCreateVM(env: Env, w: Cloud, m: Machine, plan: Plan): (Cloud, Machine, GoError) {
    var (w1, m1, resolved) := Resolve(env, w, m);
    if resolved != Error(NoMatch) then (w1, m1, resolved)
    else
      var (w2, affordable) := Lookup(env, w1);
      if affordable.Error? then (w2, m1, affordable)
      else
        var (w3, m3, err) := DeployVM(env, w2, m1, plan);
        if err.Error? then (w3, m3, err) else Resolve(env, w3, m3)
  }

  predicate Going(state: VmState) { state.Expunging? || state.Expunged? }

  function DestroyVM(env: Env, w: Cloud, m: Machine): (Cloud, Machine, GoError)
    requires m.instanceId.Some?
  {
    var (w1, capability) := ListCapabilities(env, w);
    var expunge := capability.Failed? || capability.value;
    var (w2, volumes) := Lookup(env, w1);
    if volumes.Error? then (w2, m, volumes)
    else
      var (w3, err) := Destroy(env, w2, m.instanceId.value, expunge);
      if err == Error(UnknownUuid) then (w3, m, Nil)
      else if err.Error? then (w3, m, err)
      else
        var (w4, m4, resolved) := Resolve(env, w3, m);
        (w4, m4, if resolved.Nil? then (if Going(m4.state) then Nil else Error(InProgress))
                 else if resolved.text == NoMatch then Nil else resolved)
  }

  // ---- controllers/cloudstackmachine_controller.go -------------------------------------------

  datatype Verdict = Done | Requeue | Failure(text: Text)

  /** The stage GetOrCreateVMInstance. Only a VM that was found earns the machine its finalizer. */
  function Provision(env: Env, w: Cloud, m: Machine, plan: Plan): (Cloud, Machine, GoError) {
    var (w1, m1, err) := GetOrCreateVM(env, w, m, plan);
    (w1, if err.Nil? then m1.(finalizer := true) else m1, err)
  }

  /** AssignVMToLoadBalancerRule: a VM that is behind the rule already is left there. */
  function JoinBalancer(env: Env, w: Cloud, rule: Id, id: Id): (Cloud, GoError) {
    var (w1, members) := ListMembers(env, w, rule);
    if members.Failed? then (w1, Error(members.text))
    else if id in members.value then (w1, Nil)
    else AssignMember(env, w1, rule, id)
  }

  /** GetOrCreateMachineStateChecker. */
  function GetOrCreateChecker(env: Env, w: Cloud, id: Id): (Cloud, GoError) {
    var (w1, err) := CreateChecker(env, w, id);
    if err.Error? && err.text != Duplicate then (w1, err) else Lookup(env, w1)
  }

  /** The stages after the one that waits for the VM to run. Both dereference the instance ID. */
  function Publish(env: Env, w: Cloud, m: Machine, rule: Option<Id>): (Cloud, GoError)
    requires m.instanceId.Some?
  {
    var (w1, joined) := if rule.Some? then JoinBalancer(env, w, rule.value, m.instanceId.value) else (w, Nil);
    if joined.Error? then (w1, joined) else GetOrCreateChecker(env, w1, m.instanceId.value)
  }

  /**
   What a reconciliation finds around the machine: whether the bootstrap data is there; the load balancer rule of the
   isolated network, if the machine is of the control plane and the network is not routed; the failure domain CAPI asks
   for; and those the cluster has.
   */
  datatype Setting = Setting(bootstrapped: bool, rule: Option<Id>, asked: Option<string>, offered: seq<string>)

  /** CAPI asks for a failure domain that the cluster does not have. */
  predicate Stray(c: Setting) { c.asked.Some? && c.asked.value !in c.offered }

  /** DeleteMachineIfFailuredomainNotExist. The reconciliation goes on all the same. */
  function DiscardStray(env: Env, w: Cloud, m: Machine, c: Setting): (Cloud, GoError) {
    if Stray(c) then Discard(env, w, m.name) else (w, Nil)
  }

  /** A VM in error has its CAPI machine told to go. */
  function Reconcile(env: Env, w: Cloud, m: Machine, plan: Plan, c: Setting): (r: (Cloud, Machine, Verdict)) {
    var (w0, strayed) := DiscardStray(env, w, m, c);
    if strayed.Error? then (w0, m, Failure(strayed.text))
    else if !c.bootstrapped then (w0, m, Requeue)
    else
      var (w1, m1, err) := Provision(env, w0, m, plan);
      if err.Error? then (w1, m1, Failure(err.text))
      else if m1.state.InError? then
        var (w2, discarded) := Discard(env, w1, m1.name);
        (w2, m1, if discarded.Error? then Failure(discarded.text) else Requeue)
      else if !m1.state.Running? then (w1, m1, Requeue)
      else
        var m2 := m1.(ready := true);
        assert m2.instanceId.Some? by { ProvisionedHasInstance(env, w0, m, plan); }
        var (w2, published) := Publish(env, w1, m2, c.rule);
        (w2, m2, if published.Error? then Failure(published.text) else Done)
  }

  lemma ResolvedHasInstance(env: Env, w: Cloud, m: Machine)
    ensures Resolve(env, w, m).2.Nil? ==> Resolve(env, w, m).1.instanceId.Some?
  {
  }

  /** Whoever comes past the first stage has an instance ID: none of the later stages dereferences nil. */
  lemma ProvisionedHasInstance(env: Env, w: Cloud, m: Machine, plan: Plan)
    ensures var (_, m1, err) := Provision(env, w, m, plan); err.Nil? ==> m1.instanceId.Some?
  {
    var (w1, m1, resolved) := Resolve(env, w, m);
    ResolvedHasInstance(env, w, m);
    if resolved == Error(NoMatch) {
      var (w2, _) := Lookup(env, w1);
      var (w3, m3, _) := DeployVM(env, w2, m1, plan);
      ResolvedHasInstance(env, w3, m3);
    }
  }

  function ReconcileDelete(env: Env, w: Cloud, m: Machine): (Cloud, Machine, Verdict) {
    var (w1, m1, found) := if m.instanceId.None? then Resolve(env, w, m) else (w, m, Nil);
    if found.Error? then (w1, m1, Failure(found.text))
    else
      assert m1.instanceId.Some? by { ResolvedHasInstance(env, w, m); }
      var (w2, m2, err) := DestroyVM(env, w1, m1);
      if err.Nil? then (w2, m2.(finalizer := false), Done)
      else (w2, m2, if err.text == InProgress then Requeue else Failure(err.text))
  }
}
