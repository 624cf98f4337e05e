/** The isolated-network controller (controllers/cloudstackisolatednetwork_controller.go) around set-up and disposal. */
module IsoNetController {
  import opened Faults
  import opened CloudApi
  import opened TagSpec
  import opened IsoNetSpec

  /** The CloudStackIsolatedNetwork object: its network, its finalizer and its readiness. */
  datatype IsoNetObject = IsoNetObject(net: IsoNet, finalizer: bool, ready: bool)

  datatype Verdict = Done | Requeue | Failure(text: Text)

  /** The cloud side of Reconcile: set-up, then the network is tagged once more. */
  function SetUp(env: Env, w: World, zone: Id, iso: IsoNet, cl: CsCluster): (World, IsoNet, CsCluster, GoError) {
    var (w1, iso1, cl1, err) := GetOrCreate(env, w, zone, iso, cl);
    if err.Error? then (w1, iso1, cl1, err)
    else
      var (w2, tagged) := AddClusterTag(env, w1, NetTag(iso1.id), cl1.uid);
      (w2, iso1, cl1, tagged)
  }

  /** `patched` is the outcome of writing the cluster's endpoint back to the API server; without it the endpoint is
      lost. */
  function Reconcile(env: Env, w: World, zone: Id, obj: IsoNetObject, cl: CsCluster, patched: GoError)
    : (World, IsoNetObject, CsCluster, Verdict)
  {
    var obj1 := obj.(finalizer := true);
    if zone == 0 then (w, obj1, cl, Requeue)
    else
      var (w1, iso1, cl1, err) := SetUp(env, w, zone, obj.net, cl);
      var obj2 := obj1.(net := iso1);
      if err.Error? then (w1, obj2, cl, Failure(err.text))
      else if patched.Error? then (w1, obj2, cl, Failure(patched.text))
      else (w1, obj2.(ready := true), cl1, Done)
  }

  /** An error that says "no match found" counts as disposed of. */
  function ReconcileDelete(env: Env, w: World, obj: IsoNetObject, uid: string): (World, IsoNetObject, Verdict) {
    var (w1, err) := Dispose(env, w, obj.net, uid);
    if err.Error? && err.text != NoMatch then (w1, obj, Failure(err.text))
    else (w1, obj.(finalizer := false), Done)
  }
}
