/** When a machine is ready and when its reconciliation is done, and what becomes of one whose VM is in error. */
module VmReady {
  import opened Faults
  import opened VmCloud
  import opened VmSpec
  import opened VmRun

  /** The VM the machine records is there and runs. */
  ghost predicate Runs(w: Cloud, m: Machine) {
    m.instanceId.Some? && m.instanceId.value in w.vms && w.vms[m.instanceId.value].state.Running?
  }

  /** The VM is behind the load balancer rule, if there is one for it, and has a state checker. */
  predicate Published(w: Cloud, m: Machine, rule: Option<Id>) {
    && m.instanceId.Some?
    && (rule.Some? ==> m.instanceId.value in MembersOf(w, rule.value))
    && m.instanceId.value in w.checkers
  }

  /** Memberships, CAPI machines and state checkers are as they were. */
  ghost predicate SameAside(w: Cloud, w': Cloud) {
    w'.members == w.members && w'.discarded == w.discarded && w'.checkers == w.checkers
  }

  lemma ResolveKeeps(env: Env, w: Cloud, m: Machine)
    ensures SameAside(w, Resolve(env, w, m).0)
  {
  }

  lemma DeployKeeps(env: Env, w: Cloud, m: Machine, plan: Plan)
    ensures SameAside(w, DeployVM(env, w, m, plan).0)
  {
  }

  lemma GetOrCreateKeeps(env: Env, w: Cloud, m: Machine, plan: Plan)
    ensures SameAside(w, GetOrCreateVM(env, w, m, plan).0)
  {
    ResolveKeeps(env, w, m);
    var (w1, m1, _) := Resolve(env, w, m);
    var (w2, _) := Lookup(env, w1);
    DeployKeeps(env, w2, m1, plan);
    var (w3, m3, _) := DeployVM(env, w2, m1, plan);
    ResolveKeeps(env, w3, m3);
  }

  lemma ProvisionedIs(env: Env, w: Cloud, m: Machine, plan: Plan)
    requires WellFormed(w) && m.name != ""
    ensures var (w', m', err) := Provision(env, w, m, plan);
            && WellFormed(w') && m'.name == m.name && m'.ready == m.ready
            && SameAside(w, w')
            && (err.Nil? ==> UpToDate(w', m') && m'.finalizer)
  {
    GetOrCreateAdds(env, w, m, plan);
    GetOrCreateKeeps(env, w, m, plan);
    if GetOrCreateVM(env, w, m, plan).2.Nil? { GetOrCreateFinds(env, w, m, plan); }
  }

  lemma PublishIs(env: Env, w: Cloud, m: Machine, rule: Option<Id>)
    requires m.instanceId.Some?
    ensures var (w', err) := Publish(env, w, m, rule);
            && (Honest(env) && err.Nil? ==> Published(w', m, rule))
            && (FaultFree(env) && m.instanceId.value in w.vms ==> err.Nil?)
  {
    var id := m.instanceId.value;
    if rule.Some? { JoinKeeps(env, w, rule.value, id); }
    var w1 := if rule.Some? then JoinBalancer(env, w, rule.value, id).0 else w;
    CheckerKeeps(env, w1, id);
  }

  lemma DiscardStrayKeeps(env: Env, w: Cloud, m: Machine, c: Setting)
    ensures var (w', err) := DiscardStray(env, w, m, c);
            && Still(w') == Still(w).(discarded := w'.discarded)
            && (w'.discarded == w.discarded || (Stray(c) && w'.discarded == w.discarded + {m.name}))
            && (FaultFree(env) ==> err.Nil? && (Stray(c) ==> m.name in w'.discarded))
  {
  }

  /**
   Whatever fails: a machine whose reconciliation is done, or that has just become ready, has its finalizer, says about
   its VM what the metrics say, and that VM is there and runs. If it is done, the VM is also behind the load balancer
   and has a state checker.
   */
  lemma ReadyMeansRunning(env: Env, w: Cloud, m: Machine, plan: Plan, c: Setting)
    requires Honest(env) && WellFormed(w) && m.name != ""
    ensures var (w', m', v) := Reconcile(env, w, m, plan, c);
            && (v == Done || (m'.ready && !m.ready) ==>
                  m'.ready && m'.finalizer && UpToDate(w', m') && Runs(w', m'))
            && (v == Done ==> Published(w', m', c.rule))
  {
    DiscardStrayKeeps(env, w, m, c);
    var (w0, strayed) := DiscardStray(env, w, m, c);
    if strayed.Nil? && c.bootstrapped {
      ProvisionedIs(env, w0, m, plan);
      var (w1, m1, err) := Provision(env, w0, m, plan);
      if err.Nil? && m1.state.Running? {
        PublishKeeps(env, w1, m1.(ready := true), c.rule);
        PublishIs(env, w1, m1.(ready := true), c.rule);
      }
    }
  }

  /** Whatever fails: a reconciliation tells a CAPI machine to go only if it is its own, and CAPI asks for a failure
      domain the cluster does not have, or the VM is there in error and the reconciliation is not done. */
  lemma DiscardedOnlyIf(env: Env, w: Cloud, m: Machine, plan: Plan, c: Setting)
    requires WellFormed(w) && m.name != ""
    ensures var (w', m', v) := Reconcile(env, w, m, plan, c);
            w'.discarded != w.discarded ==>
              && w'.discarded == w.discarded + {m.name}
              && (|| Stray(c)
                  || (&& v != Done && m'.ready == m.ready
                      && UpToDate(w', m') && w'.vms[m'.instanceId.value].state.InError?))
  {
    DiscardStrayKeeps(env, w, m, c);
    var (w0, strayed) := DiscardStray(env, w, m, c);
    if strayed.Nil? && c.bootstrapped {
      ProvisionedIs(env, w0, m, plan);
      var (w1, m1, err) := Provision(env, w0, m, plan);
      if err.Nil? && m1.state.Running? { PublishKeeps(env, w1, m1.(ready := true), c.rule); }
    }
  }

  // ---- Without failures ----------------------------------------------------------------------

  /** The VM a machine stands for: the one it records, or else the one of its name. */
  ghost predicate StandsFor(vms: map<Id, Vm>, m: Machine, id: Id) {
    && id in vms
    && if m.instanceId.Some? && m.instanceId.value in vms then id == m.instanceId.value else vms[id].name == m.name
  }

  /** The VM found, or the one made if none is. */
  ghost predicate FoundOrMade(w: Cloud, w': Cloud, m: Machine, m': Machine, plan: Plan) {
    && m'.instanceId.Some?
    && var id := m'.instanceId.value;
       if exists found :: StandsFor(w.vms, m, found)
       then StandsFor(w.vms, m, id) && w'.vms == w.vms
       else id == w.nextId && w'.vms == w.vms[id := VmOf(m, plan)] && m'.deployed
  }

  lemma LookupSucceeds(env: Env, w: Cloud, m: Machine)
    requires FaultFree(env) && WellFormed(w) && Unique(w.vms) && m.name != ""
    ensures var (w', m', err) := Resolve(env, w, m);
            && w'.vms == w.vms && w'.nextId == w.nextId
            && (err == Error(NoMatch) <==> forall id :: !StandsFor(w.vms, m, id))
            && (err == Nil || err == Error(NoMatch))
            && (err.Nil? ==> m'.instanceId.Some? && StandsFor(w.vms, m, m'.instanceId.value))
            && (err.Error? ==> m' == m)
  {
    ResolveIs(env, w, m);
    LookupByName(env, w, m);
    LookupByName(env, Tick(w), m);
    var known := m.instanceId.Some? && m.instanceId.value in w.vms;
    if known {
      assert StandsFor(w.vms, m, m.instanceId.value);
    } else if Exists(w.vms, m.name) {
      var id :| id in w.vms && w.vms[id].name == m.name;
      assert StandsFor(w.vms, m, id);
    }
  }

  lemma DeploymentSucceeds(env: Env, w: Cloud, m: Machine, plan: Plan)
    requires FaultFree(env)
    ensures var (w', m', err) := DeployVM(env, w, m, plan);
            && err.Nil? && w'.vms == w.vms[w.nextId := VmOf(m, plan)] && w'.nextId == w.nextId + 1
            && m' == m.(instanceId := Some(w.nextId), deployed := true)
  {
  }

  /** Getting or creating a VM succeeds, with the VM the machine stands for, or else one made as planned. */
  lemma GetOrCreateSucceeds(env: Env, w: Cloud, m: Machine, plan: Plan)
    requires FaultFree(env) && WellFormed(w) && Unique(w.vms) && m.name != ""
    ensures var (w', m', err) := GetOrCreateVM(env, w, m, plan);
            err.Nil? && FoundOrMade(w, w', m, m', plan)
  {
    LookupSucceeds(env, w, m);
    var (w1, m1, resolved) := Resolve(env, w, m);
    if resolved.Error? {
      var w2 := Lookup(env, w1).0;
      DeploymentSucceeds(env, w2, m1, plan);
      var (w3, m3, _) := DeployVM(env, w2, m1, plan);
      ResolveIs(env, w3, m3);
    }
  }

  /**
   Without failures a reconciliation is done exactly if the bootstrap data is there and the VM found or made runs; then
   the machine is ready. In every other case it is to be repeated. The CAPI machine is told to go exactly if it asks
   for a failure domain that is not there, or the VM is in error.
   */
  lemma ReadyExactlyWhen(env: Env, w: Cloud, m: Machine, plan: Plan, c: Setting)
    requires FaultFree(env) && WellFormed(w) && Unique(w.vms) && m.name != ""
    ensures var (w', m', v) := Reconcile(env, w, m, plan, c);
            var told := w.discarded + {m.name};
            if !c.bootstrapped
            then m' == m && v == Requeue && w'.vms == w.vms && w'.discarded == if Stray(c) then told else w.discarded
            else
              && FoundOrMade(w, w', m, m', plan) && m'.instanceId.value in w'.vms
              && var state := w'.vms[m'.instanceId.value].state;
                 && v == (if state.Running? then Done else Requeue)
                 && m'.ready == (state.Running? || m.ready)
                 && w'.discarded == if Stray(c) || state.InError? then told else w.discarded
  {
    DiscardStrayKeeps(env, w, m, c);
    var w0 := DiscardStray(env, w, m, c).0;
    if c.bootstrapped {
      GetOrCreateSucceeds(env, w0, m, plan);
      ProvisionedIs(env, w0, m, plan);
      var (w1, m1, err) := Provision(env, w0, m, plan);
      assert UpToDate(w1, m1) && FoundOrMade(w0, w1, m, m1, plan);
      if m1.state.Running? {
        PublishKeeps(env, w1, m1.(ready := true), c.rule);
        PublishIs(env, w1, m1.(ready := true), c.rule);
      }
    }
  }

  /** Without failures the deletion of a machine that records a VM is done exactly if that VM is absent or may be
      expunged, and is to be repeated otherwise; either way the VM, and no other, is told to go. */
  lemma DeletedExactlyWhen(env: Env, w: Cloud, m: Machine)
    requires FaultFree(env) && WellFormed(w) && m.name != "" && m.instanceId.Some?
    ensures var (w', m', v) := ReconcileDelete(env, w, m);
            && v == (if m.instanceId.value !in w.vms || w.userExpunge then Done else Requeue)
            && m'.finalizer == (m.finalizer && v == Requeue)
            && w'.vms == Destroyed(w.vms, m.instanceId.value, w.userExpunge)
  {
    DestroyFaultFree(env, w, m);
    DestroyIs(env, w, m);
  }
}
