/** The reference-count primitives of pkg/cloud/tags.go, as functions of the cloud and the fault oracle. */
module TagSpec {
  import opened Faults
  import opened CloudApi

  function ClusterTags(t: Tags): set<TagKey> { set key | key in t && key.ClusterTag? }

  /** Go's map lookup: the zero value for a missing key. */
  function Lookup(t: Tags, key: TagKey): string { if key in t then t[key] else "" }

  /** The tags that say: made by CAPC, used by nobody. */
  predicate AllowDisposal(t: Tags) { ClusterTags(t) == {} && Lookup(t, CreatedTag) != "" }

  function IsCapcManaged(env: Env, w: World, r: Resource): (World, Reply<bool>) {
    var (w1, tags) := ListTags(env, w, r);
    (w1, match tags case Failed(text) => Failed(text) case Reply(t) => Reply(CreatedTag in t))
  }

  function MissingTags(wanted: Tags, existing: Tags): Tags {
    map key | key in wanted && (key !in existing || existing[key] != wanted[key]) :: wanted[key]
  }

  function AddTags(env: Env, w: World, r: Resource, wanted: Tags): (World, GoError) {
    var (w1, existing) := ListTags(env, w, r);
    if existing.Failed? then (w1, Error(existing.text))
    else
      var missing := MissingTags(wanted, existing.value);
      if missing == map[] then (w1, Nil) else CreateTags(env, w1, r, missing)
  }

  function AddClusterTag(env: Env, w: World, r: Resource, uid: string): (World, GoError) {
    var (w1, managed) := IsCapcManaged(env, w, r);
    if managed.Failed? then (w1, Error(managed.text))
    else if managed.value then AddTags(env, w1, r, map[ClusterTag(uid) := "1"])
    else (w1, Nil)
  }

  function AddCreatedTag(env: Env, w: World, r: Resource): (World, GoError) {
    AddTags(env, w, r, map[CreatedTag := "1"])
  }

  /** An error of the removal counts only if the tag can then be seen to be still there. */
  function DeleteTag(env: Env, w: World, r: Resource, key: TagKey, value: string): (World, GoError) {
    var (w1, removal) := RemoveTag(env, w, r, key, value);
    if removal.Nil? then (w1, Nil)
    else
      var (w2, tags) := ListTags(env, w1, r);
      (w2, if tags.Reply? && key in tags.value then removal else Nil)
  }

  function DeleteClusterTag(env: Env, w: World, r: Resource, uid: string): (World, GoError) {
    var (w1, managed) := IsCapcManaged(env, w, r);
    if managed.Failed? then (w1, Error(managed.text))
    else if managed.value then DeleteTag(env, w1, r, ClusterTag(uid), "1")
    else (w1, Nil)
  }

  function DeleteCreatedTag(env: Env, w: World, r: Resource): (World, GoError) {
    DeleteTag(env, w, r, CreatedTag, "1")
  }

  function DoClusterTagsAllowDisposal(env: Env, w: World, r: Resource): (World, Reply<bool>) {
    var (w1, tags) := ListTags(env, w, r);
    (w1, match tags case Failed(text) => Failed(text) case Reply(t) => Reply(AllowDisposal(t)))
  }

  /** RemoveClusterTagFromNetwork and RemoveClusterTagFromVPC: whatever the value of the tag, and without asking
      who made the resource. */
  function RemoveClusterTag(env: Env, w: World, r: Resource, uid: string): (World, GoError) {
    var (w1, tags) := ListTags(env, w, r);
    if tags.Failed? then (w1, Error(tags.text))
    else
      var value := Lookup(tags.value, ClusterTag(uid));
      if value != "" then DeleteTag(env, w1, r, ClusterTag(uid), value) else (w1, Nil)
  }
}
