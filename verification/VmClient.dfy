/**
 VM handling as it is written: methods that call CloudStack step by step and write into the CloudStackMachine they are
 passed. Each is proved to do exactly what its specification function says.
 */
module VmClient {
  import opened Faults
  import opened VmCloud
  import Spec = VmSpec

  /** One more network interface is looked at. */
  lemma NextNic(done: seq<string>, nics: seq<string>, i: nat)
    requires i < |nics|
    ensures done + Spec.InternalIps(nics[i..])
         == (if nics[i] != "" then done + [nics[i]] else done) + Spec.InternalIps(nics[i + 1..])
  {
    assert nics[i..][1..] == nics[i + 1..];
  }

  class CsMachine {
    const name: string
    var instanceId: Option<Id>
    var providerId: Option<Id>
    var addresses: seq<string>
    var state: VmState
    var stateSince: Option<nat>
    var deployed: bool
    var finalizer: bool
    var ready: bool

    constructor (m: Spec.Machine)
      ensures View() == m
    {
      name, instanceId, providerId, addresses := m.name, m.instanceId, m.providerId, m.addresses;
      state, stateSince, deployed, finalizer, ready := m.state, m.stateSince, m.deployed, m.finalizer, m.ready;
    }

    function View(): Spec.Machine
      reads this
    {
      Spec.Machine(name, instanceId, providerId, addresses, state, stateSince, deployed, finalizer, ready)
    }

    /** The loop of setMachineDataFromVMMetrics. */
    method SetAddresses(nics: seq<string>)
      modifies this`addresses
      ensures addresses == Spec.InternalIps(nics)
    {
      addresses := [];
      var i := 0;
      while i < |nics|
        invariant 0 <= i <= |nics|
        invariant addresses + Spec.InternalIps(nics[i..]) == Spec.InternalIps(nics)
      {
        NextNic(addresses, nics, i);
        if nics[i] != "" { addresses := addresses + [nics[i]]; }
        i := i + 1;
      }
    }

    /** setMachineDataFromVMMetrics. */
    method SetData(id: Id, vm: Vm, now: nat)
      modifies this
      ensures View() == Spec.WithMetrics(old(View()), id, vm, now)
    {
      providerId, instanceId := Some(id), Some(id);
      SetAddresses(vm.nics);
      if vm.state != state || (vm.state != Unset && stateSince.None?) {
        state, stateSince := vm.state, Some(now);
      }
    }
  }

  class Client {
    const cs: CloudStack

    constructor (cs: CloudStack)
      ensures this.cs == cs
    {
      this.cs := cs;
    }

    method Lookup() returns (err: GoError)
      modifies cs
      ensures (cs.cloud, err) == VmCloud.Lookup(cs.env, old(cs.cloud))
    {
      var reply := VmCloud.Lookup(cs.env, cs.cloud);
      cs.cloud, err := reply.0, reply.1;
    }

    method ResolveVMInstanceDetails(m: CsMachine) returns (err: GoError)
      modifies cs, m
      ensures (cs.cloud, m.View(), err) == Spec.Resolve(cs.env, old(cs.cloud), old(m.View()))
    {
      if m.instanceId.Some? {
        var byId := GetMetricsByID(cs.env, cs.cloud, m.instanceId.value);
        cs.cloud := byId.0;
        if byId.1.Failed? && byId.1.text != NoMatch {
          return Error(byId.1.text);
        } else if byId.1.Reply? && byId.1.value.Several? {
          return Error(Other);
        } else if byId.1.Reply? {
          m.SetData(byId.1.value.id, byId.1.value.vm, cs.cloud.clock);
          return Nil;
        }
      }
      if m.name != "" {
        var byName := GetMetricsByName(cs.env, cs.cloud, m.name);
        cs.cloud := byName.0;
        if byName.1.Failed? && byName.1.text != NoMatch {
          return Error(byName.1.text);
        } else if byName.1.Reply? && byName.1.value.Several? {
          return Error(Other);
        } else if byName.1.Reply? {
          m.SetData(byName.1.value.id, byName.1.value.vm, cs.cloud.clock);
          return Nil;
        }
      }
      return Error(NoMatch);
    }

    method FindVirtualMachine(m: CsMachine, plan: Spec.Plan) returns (found: Reply<Option<Id>>)
      modifies cs
      ensures (cs.cloud, found) == Spec.FindVirtualMachine(cs.env, old(cs.cloud), m.View(), plan)
    {
      var listed := ListMachines(cs.env, cs.cloud, m.name, plan.template, plan.zone, plan.domainNetwork);
      cs.cloud := listed.0;
      if listed.1.Failed? { return Failed(listed.1.text); }
      if |listed.1.value| == 0 { return Reply(None); }
      return Reply(Some(listed.1.value[0]));
    }

    method DeployVM(m: CsMachine, plan: Spec.Plan) returns (err: GoError)
      modifies cs, m
      ensures (cs.cloud, m.View(), err) == Spec.DeployVM(cs.env, old(cs.cloud), old(m.View()), plan)
    {
      err := Lookup();
      if err.Error? { return; }
      var id := cs.cloud.nextId;
      var deployment := Deploy(cs.env, cs.cloud, Spec.VmOf(m.View(), plan));
      cs.cloud, err := deployment.0, deployment.1;
      if err.Error? {
        var found := FindVirtualMachine(m, plan);
        if found.Failed? || found.value.None? || found.value.value !in cs.cloud.vms { return; }
        m.instanceId := found.value;
        m.state := cs.cloud.vms[found.value.value].state;
        return;
      }
      m.instanceId, m.deployed := Some(id), true;
    }

    method GetOrCreateVMInstance(m: CsMachine, plan: Spec.Plan) returns (err: GoError)
      modifies cs, m
      ensures (cs.cloud, m.View(), err) == Spec.GetOrCreateVM(cs.env, old(cs.cloud), old(m.View()), plan)
    {
      err := ResolveVMInstanceDetails(m);
      if err.Nil? || err.text != NoMatch { return; }
      err := Lookup();
      if err.Error? { return; }
      err := DeployVM(m, plan);
      if err.Error? { return; }
      err := ResolveVMInstanceDetails(m);
    }

    method DestroyVMInstance(m: CsMachine) returns (err: GoError)
      requires m.instanceId.Some?
      modifies cs, m
      ensures (cs.cloud, m.View(), err) == Spec.DestroyVM(cs.env, old(cs.cloud), old(m.View()))
    {
      var capabilities := ListCapabilities(cs.env, cs.cloud);
      cs.cloud := capabilities.0;
      var expunge := true;
      if capabilities.1.Reply? { expunge := capabilities.1.value; }
      err := Lookup();
      if err.Error? { return; }
      var destruction := Destroy(cs.env, cs.cloud, m.instanceId.value, expunge);
      cs.cloud := destruction.0;
      if destruction.1 == Error(UnknownUuid) {
        return Nil;
      } else if destruction.1.Error? {
        return destruction.1;
      }
      err := ResolveVMInstanceDetails(m);
      if err.Nil? && (m.state == Expunging || m.state == Expunged) {
        return Nil;
      } else if err.Error? {
        if err.text == NoMatch { return Nil; }
        return;
      }
      return Error(InProgress);
    }

    method AssignVMToLoadBalancerRule(rule: Id, id: Id) returns (err: GoError)
      modifies cs
      ensures (cs.cloud, err) == Spec.JoinBalancer(cs.env, old(cs.cloud), rule, id)
    {
      var listed := ListMembers(cs.env, cs.cloud, rule);
      cs.cloud := listed.0;
      if listed.1.Failed? { return Error(listed.1.text); }
      var instances := listed.1.value;
      var i := 0;
      while i < |instances|
        invariant 0 <= i <= |instances| && id !in instances[..i]
      {
        if instances[i] == id { return Nil; }
        i := i + 1;
      }
      assert instances[..i] == instances;
      var assignment := AssignMember(cs.env, cs.cloud, rule, id);
      cs.cloud, err := assignment.0, assignment.1;
    }
  }

  /** The machine controller. */
  class MachineRunner {
    const client: Client
    const m: CsMachine

    constructor (client: Client, m: CsMachine)
      ensures this.client == client && this.m == m
    {
      this.client, this.m := client, m;
    }

    method GetOrCreateVMInstance(plan: Spec.Plan) returns (err: GoError)
      modifies client.cs, m
      ensures (client.cs.cloud, m.View(), err)
           == Spec.Provision(client.cs.env, old(client.cs.cloud), old(m.View()), plan)
    {
      err := client.GetOrCreateVMInstance(m, plan);
      if err.Nil? && !m.finalizer { m.finalizer := true; }
    }

    method DeleteMachineIfFailuredomainNotExist(c: Spec.Setting) returns (err: GoError)
      modifies client.cs
      ensures (client.cs.cloud, err) == Spec.DiscardStray(client.cs.env, old(client.cs.cloud), m.View(), c)
    {
      if c.asked.None? { return Nil; }
      var exist := false;
      var i := 0;
      while i < |c.offered| && !exist
        invariant 0 <= i <= |c.offered|
        invariant exist <==> c.asked.value in c.offered[..i]
      {
        if c.asked.value == c.offered[i] { exist := true; }
        i := i + 1;
      }
      assert !exist ==> c.offered[..i] == c.offered;
      if !exist {
        var removal := Discard(client.cs.env, client.cs.cloud, m.name);
        client.cs.cloud := removal.0;
        return removal.1;
      }
      return Nil;
    }

    method RequeueIfInstanceNotRunning() returns (v: Spec.Verdict)
      modifies client.cs, m`ready
      ensures match old(m.state)
              case Running => v == Spec.Done && m.ready && client.cs.cloud == old(client.cs.cloud)
              case InError =>
                && m.ready == old(m.ready)
                && var (w, err) := Discard(client.cs.env, old(client.cs.cloud), m.name);
                   client.cs.cloud == w && v == if err.Error? then Spec.Failure(err.text) else Spec.Requeue
              case _ => v == Spec.Requeue && m.ready == old(m.ready) && client.cs.cloud == old(client.cs.cloud)
    {
      if m.state == Running {
        m.ready := true;
      } else if m.state == InError {
        var removal := Discard(client.cs.env, client.cs.cloud, m.name);
        client.cs.cloud := removal.0;
        return if removal.1.Error? then Spec.Failure(removal.1.text) else Spec.Requeue;
      } else {
        return Spec.Requeue;
      }
      return Spec.Done;
    }

    method GetOrCreateMachineStateChecker(id: Id) returns (err: GoError)
      modifies client.cs
      ensures (client.cs.cloud, err) == Spec.GetOrCreateChecker(client.cs.env, old(client.cs.cloud), id)
    {
      var creation := CreateChecker(client.cs.env, client.cs.cloud, id);
      client.cs.cloud := creation.0;
      if creation.1.Error? && creation.1.text != Duplicate { return creation.1; }
      err := client.Lookup();
    }

    method Reconcile(plan: Spec.Plan, c: Spec.Setting) returns (v: Spec.Verdict)
      modifies client.cs, m
      ensures (client.cs.cloud, m.View(), v)
           == Spec.Reconcile(client.cs.env, old(client.cs.cloud), old(m.View()), plan, c)
    {
      var err := DeleteMachineIfFailuredomainNotExist(c);
      if err.Error? { return Spec.Failure(err.text); }
      if !c.bootstrapped { return Spec.Requeue; }
      Spec.ProvisionedHasInstance(client.cs.env, client.cs.cloud, m.View(), plan);
      err := GetOrCreateVMInstance(plan);
      if err.Error? { return Spec.Failure(err.text); }
      v := RequeueIfInstanceNotRunning();
      if v != Spec.Done { return; }
      assert m.View().instanceId.Some?;
      if c.rule.Some? {
        err := client.AssignVMToLoadBalancerRule(c.rule.value, m.instanceId.value);
        if err.Error? { return Spec.Failure(err.text); }
      }
      err := GetOrCreateMachineStateChecker(m.instanceId.value);
      return if err.Error? then Spec.Failure(err.text) else Spec.Done;
    }

    method ReconcileDelete() returns (v: Spec.Verdict)
      modifies client.cs, m
      ensures (client.cs.cloud, m.View(), v)
           == Spec.ReconcileDelete(client.cs.env, old(client.cs.cloud), old(m.View()))
    {
      if m.instanceId.None? {
        Spec.ResolvedHasInstance(client.cs.env, client.cs.cloud, m.View());
        var found := client.ResolveVMInstanceDetails(m);
        if found.Error? { return Spec.Failure(found.text); }
        assert m.View().instanceId.Some?;
      }
      var err := client.DestroyVMInstance(m);
      if err.Error? {
        return if err.text == InProgress then Spec.Requeue else Spec.Failure(err.text);
      }
      m.finalizer := false;
      return Spec.Done;
    }
  }
}
