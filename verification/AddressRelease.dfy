/** When a disposal frees the public address of an isolated network, and when a failed attempt is the last one. */
module AddressRelease {
  import opened Faults
  import opened CloudApi
  import opened TagSpec
  import opened IsoNetSpec
  import opened TagEffects
  import opened Conservation

  /** An address that this cluster is the last to use: known, not for source NAT, made by CAPC, tagged by nobody
      else. */
  predicate Freeable(w: World, iso: IsoNet, uid: string) {
    && iso.publicIp != 0
    && AddressById(w.edge.addresses, iso.publicIp).Some?
    && !AddressById(w.edge.addresses, iso.publicIp).value.sourceNat
    && CreatedTag in TagsOf(w, AddressTag(iso.publicIp))
    && ClusterTags(TagsOf(w, AddressTag(iso.publicIp))) <= {ClusterTag(uid)}
  }

  lemma WithoutClusterTag(t: Tags, uid: string)
    requires Proper(t)
    ensures AllowDisposal(t - {ClusterTag(uid)}) <==> CreatedTag in t && ClusterTags(t) <= {ClusterTag(uid)}
  {
    assert ClusterTags(t - {ClusterTag(uid)}) == ClusterTags(t) - {ClusterTag(uid)};
  }

  lemma DisassociateFrees(env: Env, w: World, iso: IsoNet)
    requires FaultFree(env) && Proper(TagsOf(w, AddressTag(iso.publicIp)))
    requires AddressKnown(w.edge.addresses, iso.publicIp)
    ensures DisassociatePublicIP(env, w, iso).0.edge.addresses == Disassociate(w.edge.addresses, iso.publicIp)
  {
    DeleteTagFaultFree(env, w, AddressTag(iso.publicIp), CreatedTag);
  }

  /** Without failures the address is freed exactly if this cluster is the last to use it. */
  lemma ReleaseFrees(env: Env, w: World, iso: IsoNet, uid: string)
    requires FaultFree(env) && ProperEdge(w.edge)
    ensures ReleaseAddress(env, w, iso, uid).0.edge.addresses
         == if Freeable(w, iso, uid) then Disassociate(w.edge.addresses, iso.publicIp) else w.edge.addresses
  {
    if iso.publicIp != 0 {
      var r := AddressTag(iso.publicIp);
      assert Proper(TagsOf(w, r));
      DeleteTagFaultFree(env, Tick(w), r, ClusterTag(uid));
      WithoutClusterTag(TagsOf(w, r), uid);
      AddressByIdKnown(w.edge.addresses, iso.publicIp);
      var (w1, _) := DeleteClusterTag(env, w, r, uid);
      assert w1.edge.addresses == w.edge.addresses && Proper(TagsOf(w1, r));
      if CreatedTag in TagsOf(w, r) {
        assert TagsOf(w1, r) == TagsOf(w, r) - {ClusterTag(uid)};
      } else {
        assert TagsOf(w1, r) == TagsOf(w, r);
      }
      DisassociateIs(env, w1, iso);
    }
  }

  lemma DisassociateIs(env: Env, w: World, iso: IsoNet)
    requires FaultFree(env) && Proper(TagsOf(w, AddressTag(iso.publicIp)))
    ensures var a := AddressById(w.edge.addresses, iso.publicIp);
            DisassociateIfNotInUse(env, w, iso).0.edge.addresses
            == if a.Some? && !a.value.sourceNat && AllowDisposal(TagsOf(w, AddressTag(iso.publicIp)))
               then Disassociate(w.edge.addresses, iso.publicIp) else w.edge.addresses
  {
    AddressByIdKnown(w.edge.addresses, iso.publicIp);
    if AddressKnown(w.edge.addresses, iso.publicIp) { DisassociateFrees(env, Tick(Tick(w)), iso); }
  }

  /** The same of a whole disposal. */
  lemma DisposeFrees(env: Env, w: World, iso: IsoNet, uid: string)
    requires FaultFree(env) && ProperEdge(w.edge)
    ensures Dispose(env, w, iso, uid).0.edge.addresses
         == if Freeable(w, iso, uid) then Disassociate(w.edge.addresses, iso.publicIp) else w.edge.addresses
  {
    ReleaseFrees(env, w, iso, uid);
    var w1 := ReleaseAddress(env, w, iso, uid).0;
    ReleaseAside(env, w1, NetTag(iso.id), uid);
    ReleaseAside(env, Release(env, w1, NetTag(iso.id), uid).0, VpcTag(VpcId(iso.vpc)), uid);
  }

  /** The created tag is removed first, so once it is gone no disposal, failing or not, touches the address any more. */
  lemma UntaggedAddressStays(env: Env, w: World, iso: IsoNet, uid: string)
    requires CreatedTag !in TagsOf(w, AddressTag(iso.publicIp))
    ensures ReleaseAddress(env, w, iso, uid).0.edge == w.edge
  {
  }

  /** An attempt to free the address leaves the created tag in place only if its removal, the first call, had no
      effect. */
  lemma FailedAttempt(env: Env, w: World, iso: IsoNet)
    requires Proper(TagsOf(w, AddressTag(iso.publicIp))) && CreatedTag in TagsOf(w, AddressTag(iso.publicIp))
    ensures var r := AddressTag(iso.publicIp);
            var w' := DisassociatePublicIP(env, w, iso).0;
            TagsOf(w', r) == if env(w.clock).Fault? && !env(w.clock).applied then TagsOf(w, r)
                             else TagsOf(w, r) - {CreatedTag}
  {
  }

  /**
   A failed disassociation is not always retried. When an attempt fails with the address still associated, the next
   disposal frees it exactly if the removal of the created tag, the first call of the attempt, had no effect; otherwise
   the address stays, though this cluster was the last to use it and nothing fails any more.
   */
  lemma LostDisassociation(env: Env, again: Env, w: World, iso: IsoNet, uid: string)
    requires FaultFree(again) && ProperEdge(w.edge) && Freeable(w, iso, uid)
    requires DisassociatePublicIP(env, w, iso).1.Error?
    requires DisassociatePublicIP(env, w, iso).0.edge.addresses == w.edge.addresses
    ensures var w' := DisassociatePublicIP(env, w, iso).0;
            Dispose(again, w', iso, uid).0.edge.addresses
            == if env(w.clock).Fault? && !env(w.clock).applied then Disassociate(w.edge.addresses, iso.publicIp)
               else w.edge.addresses
  {
    var r := AddressTag(iso.publicIp);
    assert Proper(TagsOf(w, r));
    var w' := DisassociatePublicIP(env, w, iso).0;
    FailedAttempt(env, w, iso);
    DisassociatePooled(env, w, iso);
    DisposeFrees(again, w', iso, uid);
  }

  const IP := Address(7, "192.0.2.7", 1, true, 3, 0, false)
  const TAGS: Tags := map[CreatedTag := "1", ClusterTag("c") := "1"]
  const ISO := IsoNet("n", 3, "192.0.2.7", 6443, "", "", "", None, 7, 0, "", false)
  const NET := NetworkInfo("n", "10.0.0.1", "255.0.0.0", "", 0, "", true)

  /** One cluster's network and its address, with the given tags. */
  function Pool(clock: nat, tags: Tags): World {
    World(clock, Registry(4, map[3 := NET], map[], map[]), Edge([IP], map[7 := tags], 1, [], map[], map[]),
          Catalogue(map[], {}))
  }

  function FailingAt(time: nat): Env { t => if t == time then Fault(Other, false) else Normal }

  lemma PoolIs(clock: nat, tags: Tags)
    ensures var w := Pool(clock, tags);
            && AddressById(w.edge.addresses, 7) == Some(IP) && AddressKnown(w.edge.addresses, 7)
            && TagsOf(w, AddressTag(7)) == tags
  {
    assert Pool(clock, tags).edge.addresses[0].id == 7;
  }

  /** The calls of the first half: is it managed, and take the cluster's tag off. */
  lemma FirstHalf()
    ensures DeleteClusterTag(FailingAt(5), Pool(0, TAGS), AddressTag(7), "c") == (Pool(2, map[CreatedTag := "1"]), Nil)
  {
    PoolIs(0, TAGS);
    var tags: Tags := map[CreatedTag := "1"];
    assert TAGS - {ClusterTag("c")} == tags;
    assert map[7 := TAGS][7 := tags] == map[7 := tags];
  }

  /** And of the second: read the tags, read the address, take the created tag off, disassociate. The last one fails. */
  lemma SecondHalf()
    ensures DisassociateIfNotInUse(FailingAt(5), Pool(2, map[CreatedTag := "1"]), ISO) == (Pool(6, map[]), Error(Other))
  {
    var tags: Tags := map[CreatedTag := "1"];
    PoolIs(2, tags);
    assert ClusterTags(tags) == {};
    var none: Tags := map[];
    assert tags - {CreatedTag} == none;
    assert map[7 := tags][7 := none] == map[7 := none];
    PoolIs(5, none);
  }

  lemma DisposalFails()
    ensures Dispose(FailingAt(5), Pool(0, TAGS), ISO, "c") == (Pool(6, map[]), Error(Other))
  {
    FirstHalf();
    SecondHalf();
  }

  lemma NextDisposal(again: Env)
    requires FaultFree(again)
    ensures Dispose(again, Pool(6, map[]), ISO, "c").1.Nil?
    ensures Dispose(again, Pool(6, map[]), ISO, "c").0.edge.addresses == [IP]
  {
    PoolIs(6, map[]);
    DisposeFrees(again, Pool(6, map[]), ISO, "c");
    DisposeFaultFree(again, Pool(6, map[]), ISO, "c");
  }

  lemma PoolFreeable()
    ensures Freeable(Pool(0, TAGS), ISO, "c") && ProperEdge(Pool(0, TAGS).edge)
  {
    PoolIs(0, TAGS);
    assert ClusterTags(TAGS) == {ClusterTag("c")};
  }

  /** A disposal fails with the address still associated, and the next one, in which nothing fails, leaves it so. */
  ghost predicate Loses(env: Env, again: Env, w: World, iso: IsoNet, uid: string) {
    var (w', err) := Dispose(env, w, iso, uid);
    var (w'', last) := Dispose(again, w', iso, uid);
    && err.Error? && last.Nil?
    && w''.edge.addresses == w.edge.addresses != Disassociate(w.edge.addresses, iso.publicIp)
  }

  /** It does happen, to the last cluster that uses the address: the last call on the address fails. */
  lemma AddressLost() returns (env: Env, again: Env, w: World, iso: IsoNet, uid: string)
    ensures Honest(env) && FaultFree(again) && WellFormed(w.registry) && iso.id in w.registry.networks
    ensures ProperEdge(w.edge) && Freeable(w, iso, uid) && Loses(env, again, w, iso, uid)
  {
    env, again, w, iso, uid := FailingAt(5), (t: nat) => Normal, Pool(0, TAGS), ISO, "c";
    PoolFreeable();
    LosesPool(again);
  }

  lemma LosesPool(again: Env)
    requires FaultFree(again)
    ensures Loses(FailingAt(5), again, Pool(0, TAGS), ISO, "c")
  {
    DisposalFails();
    NextDisposal(again);
    assert Disassociate([IP], 7)[0] != IP;
  }
}
