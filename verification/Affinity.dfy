/** Updates of a machine's affinity groups (pkg/cloud/affinity_groups.go), under any order of iteration over a map. */
module Affinity {

  datatype Group = Group(id: string, name: string, kind: string)

  /** The groups by identifier; of several entries with one identifier the last counts. */
  function ById(groups: seq<Group>): map<string, Group> {
    if groups == [] then map[]
    else ById(groups[..|groups| - 1])[groups[|groups| - 1].id := groups[|groups| - 1]]
  }

  function IdsOf(groups: seq<Group>): seq<string> { seq(|groups|, i requires 0 <= i < |groups| => groups[i].id) }

  ghost predicate Distinct(groups: seq<Group>) {
    forall i, j :: 0 <= i < j < |groups| ==> groups[i].id != groups[j].id
  }

  /** `groups` holds the values of a map, each once, in some order. */
  ghost predicate Enumerates(groups: seq<Group>, m: map<string, Group>) { Distinct(groups) && ById(groups) == m }

  function Added(m: map<string, Group>, g: Group): map<string, Group> { map[g.id := g] + m }

  ghost predicate InIds(groups: seq<Group>, id: string) { exists g :: g in groups && g.id == id }

  predicate Keyed(m: map<string, Group>) { forall id :: id in m ==> m[id].id == id }

  lemma {:induction false} ByIdIs(groups: seq<Group>)
    ensures Keyed(ById(groups))
    ensures forall id :: id in ById(groups) <==> InIds(groups, id)
  {
    if groups != [] {
      ByIdIs(groups[..|groups| - 1]);
      assert groups == groups[..|groups| - 1] + [groups[|groups| - 1]];
      assert groups[|groups| - 1] in groups;
    }
  }

  /** The groups of a map but for those still in `rest`. */
  ghost predicate Partly(groups: seq<Group>, m: map<string, Group>, rest: set<string>) {
    Distinct(groups) && ById(groups) == m - rest && forall g :: g in groups ==> g.id !in rest
  }

  lemma NextGroup(groups: seq<Group>, m: map<string, Group>, rest: set<string>, id: string)
    requires Keyed(m) && Partly(groups, m, rest) && id in rest && rest <= m.Keys
    ensures Partly(groups + [m[id]], m, rest - {id})
  {
    assert (groups + [m[id]])[..|groups|] == groups;
    assert m - (rest - {id}) == (m - rest)[id := m[id]];
  }

  class AffinityGroups {
    var groups: seq<Group>

    constructor (groups: seq<Group>)
      ensures this.groups == groups
    {
      this.groups := groups;
    }

    method ToArrayOfIDs() returns (ids: seq<string>)
      ensures ids == IdsOf(groups)
    {
      ids := [];
      var i := 0;
      while i < |groups|
        invariant 0 <= i <= |groups| && ids == IdsOf(groups)[..i]
      {
        ids := ids + [groups[i].id];
        i := i + 1;
      }
    }

    /** The entries by identifier, the later over the earlier, on top of what is given. */
    method Collect(initial: map<string, Group>) returns (groupSet: map<string, Group>)
      ensures groupSet == initial + ById(groups)
    {
      groupSet := initial;
      var i := 0;
      while i < |groups|
        invariant 0 <= i <= |groups|
        invariant groupSet == initial + ById(groups[..i])
      {
        assert groups[..i + 1][..i] == groups[..i];
        groupSet := groupSet[groups[i].id := groups[i]];
        i := i + 1;
      }
      assert groups[..i] == groups;
    }

    /** The values of the map, in whatever order it is iterated. */
    method Fill(groupSet: map<string, Group>)
      requires Keyed(groupSet)
      modifies this
      ensures Enumerates(groups, groupSet)
    {
      groups := [];
      var rest := groupSet.Keys;
      while rest != {}
        invariant rest <= groupSet.Keys && Partly(groups, groupSet, rest)
        decreases |rest|
      {
        var id :| id in rest;
        NextGroup(groups, groupSet, rest, id);
        groups := groups + [groupSet[id]];
        rest := rest - {id};
      }
    }

    /** Adds a group; an entry that is there already wins. */
    method AddGroup(g: Group)
      modifies this
      ensures Enumerates(groups, Added(ById(old(groups)), g))
    {
      var groupSet := Collect(map[g.id := g]);
      ByIdIs(groups);
      Fill(groupSet);
    }

    method RemoveGroup(g: Group)
      modifies this
      ensures Enumerates(groups, ById(old(groups)) - {g.id})
    {
      var groupSet := Collect(map[]);
      assert groupSet == ById(groups);
      ByIdIs(groups);
      Fill(groupSet - {g.id});
    }
  }

  /**
   After adding, the identifiers are distinct and are the old ones and the new one; an entry that was there is kept, the
   last if there were several, and the new one is used only if there was none.
   */
  lemma AddIsInsertion(before: seq<Group>, after: seq<Group>, g: Group)
    requires Enumerates(after, Added(ById(before), g))
    ensures Distinct(after)
    ensures forall id :: InIds(after, id) <==> InIds(before, id) || id == g.id
    ensures forall id :: id in ById(before) ==> ById(before)[id] in after
    ensures InIds(before, g.id) || g in after
    ensures forall x :: x in after ==> x in before || (x == g && !InIds(before, g.id))
  {
    ByIdIs(before);
    ByIdIs(after);
    forall id ensures InIds(after, id) <==> id in ById(after) { }
    forall x | x in after ensures x in before || (x == g && !InIds(before, g.id)) {
      EnumeratedIs(after, x);
      if x.id in ById(before) { ByIdHolds(before, x.id); }
    }
    forall id | id in ById(after) ensures ById(after)[id] in after { ByIdHolds(after, id); }
  }

  lemma {:induction false} ByIdHolds(groups: seq<Group>, id: string)
    requires id in ById(groups)
    ensures ById(groups)[id] in groups
  {
    if groups[|groups| - 1].id != id { ByIdHolds(groups[..|groups| - 1], id); }
  }

  lemma {:induction false} EnumeratedIs(groups: seq<Group>, x: Group)
    requires Distinct(groups) && x in groups
    ensures x.id in ById(groups) && ById(groups)[x.id] == x
  {
    var init, last := groups[..|groups| - 1], groups[|groups| - 1];
    if x != last {
      assert x in init;
      EnumeratedIs(init, x);
      var i :| 0 <= i < |init| && init[i] == x;
      assert groups[i].id != last.id;
    }
  }

  /** After removing, the identifiers are distinct and are the old ones but one. */
  lemma RemoveIsDeletion(before: seq<Group>, after: seq<Group>, g: Group)
    requires Enumerates(after, ById(before) - {g.id})
    ensures Distinct(after)
    ensures forall id :: InIds(after, id) <==> InIds(before, id) && id != g.id
    ensures forall x :: x in after ==> x in before
  {
    ByIdIs(before);
    ByIdIs(after);
    forall id ensures InIds(after, id) <==> id in ById(after) { }
    forall x | x in after ensures x in before {
      EnumeratedIs(after, x);
      ByIdHolds(before, x.id);
    }
  }

  /** Adding and then removing leaves the old identifiers but that one; doing either twice is doing it once. */
  lemma SetLaws(before: seq<Group>, once: seq<Group>, twice: seq<Group>, g: Group)
    ensures Enumerates(once, Added(ById(before), g)) && Enumerates(twice, ById(once) - {g.id}) ==>
              forall id :: InIds(twice, id) <==> InIds(before, id) && id != g.id
    ensures Enumerates(once, Added(ById(before), g)) && Enumerates(twice, Added(ById(once), g)) ==>
              ById(twice) == ById(once)
    ensures Enumerates(once, ById(before) - {g.id}) && Enumerates(twice, ById(once) - {g.id}) ==>
              ById(twice) == ById(once)
  {
    if Enumerates(once, Added(ById(before), g)) && Enumerates(twice, ById(once) - {g.id}) {
      AddIsInsertion(before, once, g);
      RemoveIsDeletion(once, twice, g);
    }
  }
}
