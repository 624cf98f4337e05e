/**
 Reference counting by tags, over whole runs: any number of clusters reconcile and delete isolated networks in any
 order, and every single call may fail.
 */
module RefCount {
  import opened Faults
  import opened CloudApi
  import opened TagSpec
  import opened IsoNetSpec
  import opened TagEffects
  import opened IsoNetController

  /** One reconciliation by the isolated-network controller. */
  datatype Op =
    | Reconciled(zone: Id, obj: IsoNetObject, cl: CsCluster, patched: GoError)
    | Deleted(obj: IsoNetObject, uid: string)

  /** A cluster and a network or VPC. */
  type Use = (string, Resource)

  /**
   The cloud, and two records kept by the reader of the run:
   `active` holds what a cluster set up successfully and has not begun to dispose of,
   `used` holds what the set-up of a cluster reached, successfully or not, and that it has not begun to dispose of.
   */
  datatype System = System(world: World, active: set<Use>, used: set<Use>)

  function Uses(uid: string, iso: IsoNet): set<Use> {
    {(uid, NetTag(iso.id))} + (if VpcId(iso.vpc) == 0 then {} else {(uid, VpcTag(VpcId(iso.vpc)))})
  }

  /** The uses of what exists: a VPC named by an object need not. */
  function UsesIn(g: Registry, uid: string, iso: IsoNet): set<Use> {
    set use | use in Uses(uid, iso) && Present(g, use.1)
  }

  function Step(env: Env, s: System, op: Op): System {
    match op
    case Reconciled(zone, obj, cl, patched) =>
      if zone == 0 then s
      else
        var w' := Reconcile(env, s.world, zone, obj, cl, patched).0;
        var (_, iso', _, err) := GetOrCreate(env, s.world, zone, obj.net, cl);
        var reached := ResolveOrCreate(env, s.world, obj.net).2.Nil?;
        var uses := UsesIn(w'.registry, cl.uid, iso');
        System(w', if err.Nil? then s.active + uses else s.active, if reached then s.used + uses else s.used)
    case Deleted(obj, uid) =>
      System(ReconcileDelete(env, s.world, obj, uid).0,
             s.active - Uses(uid, obj.net), s.used - Uses(uid, obj.net))
  }

  ghost predicate Follows(env: Env, s: System, op: Op, s': System) { s' == Step(env, s, op) }

  /** The states a run passes through. */
  ghost predicate IsRun(env: Env, states: seq<System>, ops: seq<Op>) {
    |states| == |ops| + 1 && forall i :: 0 <= i < |ops| ==> Follows(env, states[i], ops[i], states[i + 1])
  }

  // ---- Safety under any failures -------------------------------------------------------------

  /** Nothing a cluster actively uses is gone, and what CAPC made of it carries the cluster's tag. */
  ghost predicate Safe(s: System) {
    && WellFormed(s.world.registry)
    && forall use :: use in s.active ==> Present(s.world.registry, use.1) && Referenced(s.world.registry, use.0, use.1)
  }

  /** Tagging the network once more is also just a step of a set-up. */
  lemma SetUpKept(env: Env, w: World, zone: Id, iso: IsoNet, cl: CsCluster)
    requires WellFormed(w.registry)
    ensures Kept(w.registry, SetUp(env, w, zone, iso, cl).0.registry, cl.uid)
    ensures var (w1, iso1, cl1, _) := GetOrCreate(env, w, zone, iso, cl);
            && Kept(w1.registry, SetUp(env, w, zone, iso, cl).0.registry, cl.uid)
            && cl1.uid == cl.uid
  {
    GetOrCreateKept(env, w, zone, iso, cl);
    var (w1, iso1, cl1, err) := GetOrCreate(env, w, zone, iso, cl);
    GetOrCreateIsTagged(env, w, zone, iso, cl);
    AddClusterTagKept(env, w1, NetTag(iso1.id), cl.uid);
    SameKept(w1.registry, cl.uid);
    KeptCompose(w.registry, w1.registry, SetUp(env, w, zone, iso, cl).0.registry, cl.uid);
  }

  /** What an operation by one cluster keeps of another cluster's reference. */
  lemma KeptReference(g: Registry, g': Registry, uid: string, use: Use)
    requires WellFormed(g) && Kept(g, g', uid) && Present(g, use.1) && Referenced(g, use.0, use.1)
    ensures Present(g', use.1) && Referenced(g', use.0, use.1)
  {
    assert Known(g, use.1);
    assert KeptAt(g, g', uid, use.1);
  }

  lemma GivenUpReference(g: Registry, g': Registry, uid: string, use: Use)
    requires WellFormed(g) && GivenUp(g, g', uid) && Present(g, use.1) && Referenced(g, use.0, use.1)
    requires use.0 != uid || (TagsIn(g', use.1) == TagsIn(g, use.1) && Present(g', use.1))
    ensures Present(g', use.1) && Referenced(g', use.0, use.1)
  {
    assert Known(g, use.1);
    assert GivenUpAt(g, g', uid, use.1);
    assert use.0 != uid ==> (ClusterTag(use.0) in TagsIn(g, use.1) ==> ClusterTag(use.0) in ClusterTags(TagsIn(g, use.1)));
  }

  /** A disposal touches only the network and VPC its object names. */
  lemma DisposeElsewhere(env: Env, w: World, iso: IsoNet, uid: string, r: Resource)
    requires (uid, r) !in Uses(uid, iso) && !r.kind.AddressKind?
    ensures var g' := Dispose(env, w, iso, uid).0.registry;
            TagsIn(g', r) == TagsIn(w.registry, r) && Present(g', r) == Present(w.registry, r)
  {
    ReleaseAddressAside(env, w, iso, uid);
    var w1 := ReleaseAddress(env, w, iso, uid).0;
    ReleaseElsewhere(env, w1, NetTag(iso.id), uid, r);
    var w2 := Release(env, w1, NetTag(iso.id), uid).0;
    ReleaseElsewhere(env, w2, VpcTag(VpcId(iso.vpc)), uid, r);
  }

  lemma ReleaseElsewhere(env: Env, w: World, target: Resource, uid: string, r: Resource)
    requires !target.kind.AddressKind?
    ensures var g' := Release(env, w, target, uid).0.registry;
            r != target ==> TagsIn(g', r) == TagsIn(w.registry, r) && Present(g', r) == Present(w.registry, r)
  {
    RemoveClusterTagEffect(env, w, target, uid);
    var w1 := RemoveClusterTag(env, w, target, uid).0;
    var g' := DeleteIfNotInUse(env, w1, target).0.registry;
    assert g' == w1.registry || g' == Minus(w1.registry, target);
  }

  lemma ReconciledSafe(env: Env, s: System, op: Op)
    requires Safe(s) && op.Reconciled? && op.zone != 0
    ensures Safe(Step(env, s, op))
  {
    var s' := Step(env, s, op);
    var g, g' := s.world.registry, s'.world.registry;
    var cl, net := op.cl, op.obj.net;
    SetUpKept(env, s.world, op.zone, net, cl);
    var err := GetOrCreate(env, s.world, op.zone, net, cl).3;
    if err.Nil? {
      GetOrCreateReferences(env, s.world, op.zone, net, cl);
      SetUpReferences(env, s.world, op.zone, net, cl);
    }
    forall use | use in s'.active ensures Present(g', use.1) && Referenced(g', use.0, use.1) {
      if use in s.active { KeptReference(g, g', cl.uid, use); }
    }
  }

  lemma DeletedSafe(env: Env, s: System, op: Op)
    requires Safe(s) && op.Deleted?
    ensures Safe(Step(env, s, op))
  {
    var s' := Step(env, s, op);
    var g, g' := s.world.registry, s'.world.registry;
    DisposeGivenUp(env, s.world, op.obj.net, op.uid);
    forall use | use in s'.active ensures Present(g', use.1) && Referenced(g', use.0, use.1) {
      if use.0 == op.uid { DisposeElsewhere(env, s.world, op.obj.net, op.uid, use.1); }
      GivenUpReference(g, g', op.uid, use);
    }
  }

  lemma StepSafe(env: Env, s: System, op: Op)
    requires Safe(s)
    ensures Safe(Step(env, s, op))
  {
    match op
    case Reconciled(zone, _, _, _) => if zone != 0 { ReconciledSafe(env, s, op); }
    case Deleted(_, _) => DeletedSafe(env, s, op);
  }

  /** After a successful set-up everything the object names is referenced, the second tagging included. */
  lemma SetUpReferences(env: Env, w: World, zone: Id, iso: IsoNet, cl: CsCluster)
    requires WellFormed(w.registry) && GetOrCreate(env, w, zone, iso, cl).3.Nil?
    ensures var iso' := GetOrCreate(env, w, zone, iso, cl).1;
            var g' := SetUp(env, w, zone, iso, cl).0.registry;
            && Present(g', NetTag(iso'.id))
            && forall use :: use in Uses(cl.uid, iso') && Present(g', use.1) ==> Referenced(g', use.0, use.1)
  {
    var (w1, iso1, cl1, _) := GetOrCreate(env, w, zone, iso, cl);
    var g' := SetUp(env, w, zone, iso, cl).0.registry;
    GetOrCreateReferences(env, w, zone, iso, cl);
    GetOrCreateIsTagged(env, w, zone, iso, cl);
    AddClusterTagEffect(env, w1, NetTag(iso1.id), cl.uid);
    forall use | use in Uses(cl.uid, iso1) && Present(g', use.1) ensures Referenced(g', use.0, use.1) {
      assert Referenced(w1.registry, cl.uid, use.1);
    }
  }

  /**
   Whatever fails, and however clusters interleave: no network or VPC that a cluster has set up successfully and not
   begun to dispose of is ever deleted, and if CAPC made it, it carries the cluster's tag.
   */
  lemma {:induction false} ReferencesAreSafe(env: Env, states: seq<System>, ops: seq<Op>, i: nat)
    requires IsRun(env, states, ops) && Safe(states[0]) && i < |states|
    ensures Safe(states[i])
  {
    if i > 0 {
      ReferencesAreSafe(env, states, ops, i - 1);
      assert Follows(env, states[i - 1], ops[i - 1], states[i - 1 + 1]);
      StepSafe(env, states[i - 1], ops[i - 1]);
    }
  }

  // ---- Resources CAPC has nothing to do with -------------------------------------------------

  ghost predicate Foreign(g: Registry, r: Resource) {
    Present(g, r) && CreatedTag !in TagsIn(g, r) && ClusterTags(TagsIn(g, r)) == {}
  }

  /** The same tags, none of them from CAPC. */
  ghost predicate Untouched(g: Registry, g': Registry, r: Resource) {
    WellFormed(g') && Foreign(g', r) && TagsIn(g', r) == TagsIn(g, r)
  }

  lemma StepLeavesForeign(env: Env, s: System, op: Op, s': System, r: Resource)
    requires Follows(env, s, op, s') && WellFormed(s.world.registry) && Foreign(s.world.registry, r)
    ensures Untouched(s.world.registry, s'.world.registry, r)
  {
    var g, g' := s.world.registry, s'.world.registry;
    assert Known(g, r);
    match op {
      case Reconciled(zone, obj, cl, patched) =>
        if zone != 0 {
          SetUpKept(env, s.world, zone, obj.net, cl);
          assert KeptAt(g, g', cl.uid, r);
        }
      case Deleted(obj, uid) =>
        DisposeGivenUp(env, s.world, obj.net, uid);
        assert GivenUpAt(g, g', uid, r);
        assert ClusterTag(uid) !in ClusterTags(TagsIn(g, r));
        assert TagsIn(g', r) == TagsIn(g, r);
    }
  }

  /** A network or VPC without CAPC tags is still there, with the very same tags, at every point of every run. */
  lemma {:induction false} ForeignUntouched(env: Env, states: seq<System>, ops: seq<Op>, i: nat, r: Resource)
    requires IsRun(env, states, ops) && i < |states|
    requires WellFormed(states[0].world.registry) && Foreign(states[0].world.registry, r)
    ensures Untouched(states[0].world.registry, states[i].world.registry, r)
  {
    if i > 0 {
      ForeignUntouched(env, states, ops, i - 1, r);
      assert Follows(env, states[i - 1], ops[i - 1], states[i - 1 + 1]);
      StepLeavesForeign(env, states[i - 1], ops[i - 1], states[i], r);
    }
  }

  // ---- A reference keeps its resource --------------------------------------------------------

  ghost predicate Reserved(g: Registry, uid: string, r: Resource) {
    WellFormed(g) && Present(g, r) && ClusterTag(uid) in TagsIn(g, r)
  }

  /** A disposal by that cluster of that network or VPC. */
  predicate Disposes(op: Op, uid: string, r: Resource) {
    op.Deleted? && op.uid == uid && (uid, r) in Uses(uid, op.obj.net)
  }

  lemma StepReserves(env: Env, s: System, op: Op, s': System, uid: string, r: Resource)
    requires Follows(env, s, op, s') && Reserved(s.world.registry, uid, r) && !Disposes(op, uid, r)
    ensures Reserved(s'.world.registry, uid, r)
  {
    var g, g' := s.world.registry, s'.world.registry;
    assert Known(g, r);
    match op {
      case Reconciled(zone, obj, cl, patched) =>
        if zone != 0 {
          SetUpKept(env, s.world, zone, obj.net, cl);
          assert KeptAt(g, g', cl.uid, r);
        }
      case Deleted(obj, user) =>
        DisposeGivenUp(env, s.world, obj.net, user);
        assert GivenUpAt(g, g', user, r);
        if user == uid { DisposeElsewhere(env, s.world, obj.net, user, r); }
        assert user != uid ==> ClusterTag(uid) in ClusterTags(TagsIn(g, r));
    }
  }

  /** A tag that its own cluster never takes off keeps network or VPC in existence, whatever else happens or fails. */
  lemma {:induction false} TagKeepsResource(env: Env, states: seq<System>, ops: seq<Op>, i: nat, uid: string,
                                            r: Resource)
    requires IsRun(env, states, ops) && i < |states|
    requires Reserved(states[0].world.registry, uid, r)
    requires forall op :: op in ops ==> !Disposes(op, uid, r)
    ensures Reserved(states[i].world.registry, uid, r)
  {
    if i > 0 {
      TagKeepsResource(env, states, ops, i - 1, uid, r);
      assert ops[i - 1] in ops;
      assert Follows(env, states[i - 1], ops[i - 1], states[i - 1 + 1]);
      StepReserves(env, states[i - 1], ops[i - 1], states[i], uid, r);
    }
  }
}
