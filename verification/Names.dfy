/** Go's order on strings, and sorting by name. */
module Names {
  import opened ApiServer

  predicate Less(a: string, b: string) {
    if b == [] then false
    else a == [] || a[0] < b[0] || (a[0] == b[0] && Less(a[1..], b[1..]))
  }

  /** The strings agree up to this place, and there the first one ends or has the smaller character. */
  ghost predicate Precedes(a: string, b: string, i: nat) {
    i <= |a| && i < |b| && a[..i] == b[..i] && (i == |a| || a[i] < b[i])
  }

  /** The order is decided by the first place at which the strings differ. */
  lemma {:induction false} LessIs(a: string, b: string)
    ensures Less(a, b) <==> exists i: nat :: Precedes(a, b, i)
  {
    if b == [] {
    } else if a == [] {
      assert Precedes(a, b, 0);
    } else {
      LessIs(a[1..], b[1..]);
      if a[0] < b[0] {
        assert Precedes(a, b, 0);
      } else if Less(a, b) {
        var i: nat :| Precedes(a[1..], b[1..], i);
        assert a[..i + 1] == [a[0]] + a[1..][..i] && b[..i + 1] == [b[0]] + b[1..][..i];
        assert Precedes(a, b, i + 1);
      } else {
        forall i: nat ensures !Precedes(a, b, i) { NotBefore(a, b, i); }
      }
    }
  }

  lemma NotBefore(a: string, b: string, i: nat)
    requires a != [] && b != [] && !(a[0] < b[0])
    requires a[0] == b[0] ==> forall j: nat :: !Precedes(a[1..], b[1..], j)
    ensures !Precedes(a, b, i)
  {
    if Precedes(a, b, i) {
      assert i > 0 && a[..i][0] == b[..i][0];
      assert a[1..][..i - 1] == a[..i][1..] && b[1..][..i - 1] == b[..i][1..];
      assert Precedes(a[1..], b[1..], i - 1);
      assert false;
    }
  }

  lemma {:induction false} LessTotal(a: string, b: string)
    ensures Less(a, b) || Less(b, a) || a == b
    ensures !(Less(a, b) && Less(b, a))
  {
    if a != [] && b != [] {
      LessTotal(a[1..], b[1..]);
      if a[0] == b[0] && a[1..] == b[1..] { assert a == [a[0]] + a[1..] == b; }
    }
  }

  lemma {:induction false} LessTransitive(a: string, b: string, c: string)
    requires !Less(b, a) && !Less(c, b)
    ensures !Less(c, a)
  {
    if a != [] && b != [] && c != [] && a[0] == b[0] == c[0] {
      LessTransitive(a[1..], b[1..], c[1..]);
    }
  }

  function Insert(m: CsMachine, sorted: seq<CsMachine>): seq<CsMachine> {
    if sorted == [] || Less(m.name, sorted[0].name) then [m] + sorted
    else [sorted[0]] + Insert(m, sorted[1..])
  }

  function SortByName(machines: seq<CsMachine>): seq<CsMachine> {
    if machines == [] then [] else Insert(machines[0], SortByName(machines[1..]))
  }

  ghost predicate Sorted(machines: seq<CsMachine>) {
    forall i, j :: 0 <= i < j < |machines| ==> !Less(machines[j].name, machines[i].name)
  }

  lemma {:induction false} InsertKeepsSorted(m: CsMachine, sorted: seq<CsMachine>)
    requires Sorted(sorted)
    ensures Sorted(Insert(m, sorted)) && multiset(Insert(m, sorted)) == multiset(sorted) + multiset{m}
  {
    if sorted == [] {
    } else if Less(m.name, sorted[0].name) {
      forall j | 0 <= j < |sorted| ensures !Less(sorted[j].name, m.name) {
        LessTotal(m.name, sorted[0].name);
        LessTotal(sorted[0].name, sorted[0].name);
        LessTransitive(m.name, sorted[0].name, sorted[j].name);
      }
    } else {
      var rest := Insert(m, sorted[1..]);
      InsertKeepsSorted(m, sorted[1..]);
      assert sorted == [sorted[0]] + sorted[1..];
      forall j | 0 <= j < |rest| ensures !Less(rest[j].name, sorted[0].name) {
        assert rest[j] in multiset(rest);
        assert rest[j] == m || rest[j] in sorted[1..];
      }
    }
  }

  /** Sorting orders the machines by name and neither loses nor invents one. */
  lemma {:induction false} SortingSorts(machines: seq<CsMachine>)
    ensures Sorted(SortByName(machines)) && multiset(SortByName(machines)) == multiset(machines)
  {
    if machines != [] {
      SortingSorts(machines[1..]);
      InsertKeepsSorted(machines[0], SortByName(machines[1..]));
      assert machines == [machines[0]] + machines[1..];
    }
  }

  /** First by name. */
  lemma FirstSorted(machines: seq<CsMachine>)
    ensures |SortByName(machines)| == |machines|
    ensures forall m :: m in SortByName(machines) <==> m in machines
    ensures machines != [] ==> forall m :: m in machines ==> !Less(m.name, SortByName(machines)[0].name)
  {
    SortingSorts(machines);
    var sorted := SortByName(machines);
    assert |sorted| == |multiset(sorted)| && |machines| == |multiset(machines)|;
    forall m ensures m in sorted <==> m in machines {
      assert m in sorted <==> m in multiset(sorted);
      assert m in machines <==> m in multiset(machines);
    }
    if machines != [] {
      forall m | m in machines ensures !Less(m.name, sorted[0].name) {
        var j :| 0 <= j < |sorted| && sorted[j] == m;
        if j == 0 { LessTotal(m.name, m.name); }
      }
    }
  }
}
