/** Tag keys as the strings the API carries. */
module TagNames {
  import opened CloudApi

  const CLUSTER_TAG_PREFIX := "CAPC_cluster_"
  const CREATED_TAG := "created_by_CAPC"

  function Name(key: TagKey): string {
    match key
    case ClusterTag(uid) => CLUSTER_TAG_PREFIX + uid
    case CreatedTag => CREATED_TAG
    case OtherTag(name) => name
  }

  /** The meaning of a string: what the code's prefix test and its lookup of the created tag make of it. */
  function Meaning(name: string): TagKey {
    if CLUSTER_TAG_PREFIX <= name then ClusterTag(name[|CLUSTER_TAG_PREFIX|..])
    else if name == CREATED_TAG then CreatedTag
    else OtherTag(name)
  }

  /** No information is lost either way: every string has one meaning, and the tags of clusters and CAPC's own tag never
      collide with each other, with those of other clusters, or with tags of a different meaning. */
  lemma NamesAndMeanings(name: string, key: TagKey)
    ensures Name(Meaning(name)) == name
    ensures !key.OtherTag? ==> Meaning(Name(key)) == key
    ensures CLUSTER_TAG_PREFIX <= name <==> Meaning(name).ClusterTag?
    ensures name == CREATED_TAG <==> Meaning(name).CreatedTag?
  {
    assert CREATED_TAG[0] != CLUSTER_TAG_PREFIX[0];
    if key.ClusterTag? {
      assert (CLUSTER_TAG_PREFIX + key.uid)[|CLUSTER_TAG_PREFIX|..] == key.uid;
    }
  }
}
