/**
 Sums over maps, and what renaming does to a map: every value keeps its place in the sum.
 */
module WorkspaceSums {
  import opened WorkspaceModel

  ghost function Pick<T>(m: map<Path, T>): (p: Path)
    requires m != map[]
    ensures p in m
  {
    var q :| q in m;
    q
  }

  ghost function Sum(m: map<Path, nat>): nat
    decreases |m|
  {
    if m == map[] then 0
    else
      var p := Pick(m);
      m[p] + Sum(m - {p})
  }

  lemma {:induction false} SumAt(m: map<Path, nat>, p: Path)
    requires p in m
    ensures Sum(m) == m[p] + Sum(m - {p})
    decreases |m|
  {
    var q := Pick(m);
    if q != p {
      SumAt(m - {q}, p);
      SumAt(m - {p}, q);
      assert m - {q} - {p} == m - {p} - {q};
    }
  }

  lemma SumPut(m: map<Path, nat>, p: Path, v: nat)
    ensures Sum(m[p := v]) == Sum(m) + v - (if p in m then m[p] else 0)
  {
    SumAt(m[p := v], p);
    assert m[p := v] - {p} == m - {p};
    if p in m { SumAt(m, p); } else { assert m - {p} == m; }
  }

  lemma SumDrop(m: map<Path, nat>, p: Path)
    ensures Sum(m - {p}) == Sum(m) - (if p in m then m[p] else 0)
  {
    if p in m { SumAt(m, p); } else { assert m - {p} == m; }
  }

  // ----------------------------------------------------------------------------- renaming

  /** Neither name is at or below the other, and nothing is at or below the new one. */
  ghost predicate Movable<T>(m: map<Path, T>, from: Path, to: Path) {
    !Under(from, to) && !Under(to, from) && forall p :: p in m ==> !Under(to, p)
  }

  lemma MovedBack(from: Path, to: Path, p: Path)
    requires !Under(to, p) && !Under(from, to) && !Under(to, from)
    ensures Moved(to, from, Moved(from, to, p)) == p
    ensures Under(to, Moved(from, to, p)) <==> Under(from, p)
  {
    var q := Moved(from, to, p);
    if Under(from, p) {
      assert q[..|to|] == to && q[|to|..] == p[|from|..];
      assert p == from + p[|from|..];
    }
  }

  lemma RenamedAt<T>(m: map<Path, T>, from: Path, to: Path, p: Path)
    requires Movable(m, from, to) && p in m
    ensures Moved(from, to, p) in Renamed(m, from, to) && Renamed(m, from, to)[Moved(from, to, p)] == m[p]
  {
    MovedBack(from, to, p);
  }

  lemma RenamedFrom<T>(m: map<Path, T>, from: Path, to: Path, q: Path)
    requires Movable(m, from, to) && q in Renamed(m, from, to)
    ensures Moved(to, from, q) in m && q == Moved(from, to, Moved(to, from, q))
    ensures Renamed(m, from, to)[q] == m[Moved(to, from, q)]
  {
    var p :| p in m && Moved(from, to, p) == q;
    MovedBack(from, to, p);
  }

  lemma RenamedWithout<T>(m: map<Path, T>, from: Path, to: Path, p: Path)
    requires Movable(m, from, to) && p in m
    ensures Renamed(m, from, to) - {Moved(from, to, p)} == Renamed(m - {p}, from, to)
  {
    var a, b := Renamed(m, from, to) - {Moved(from, to, p)}, Renamed(m - {p}, from, to);
    forall q | q in a ensures q in b && a[q] == b[q] {
      RenamedFrom(m, from, to, q);
      RenamedAt(m - {p}, from, to, Moved(to, from, q));
    }
    forall q | q in b ensures q in a {
      RenamedFrom(m - {p}, from, to, q);
      var was := Moved(to, from, q);
      RenamedAt(m, from, to, was);
      MovedBack(from, to, p);
    }
  }

  lemma {:induction false} SumRenamed(m: map<Path, nat>, from: Path, to: Path)
    requires Movable(m, from, to)
    ensures Sum(Renamed(m, from, to)) == Sum(m)
    decreases |m|
  {
    if m != map[] {
      var p := Pick(m);
      RenamedWithout(m, from, to, p);
      RenamedAt(m, from, to, p);
      SumAt(Renamed(m, from, to), Moved(from, to, p));
      SumRenamed(m - {p}, from, to);
    } else {
      assert Renamed(m, from, to) == map[];
    }
  }

  lemma OneLess<K, T>(m: map<K, T>, k: K)
    requires k in m
    ensures |m| == |m - {k}| + 1
  {
    assert m.Keys == (m - {k}).Keys + {k};
  }

  lemma {:induction false} RenamedCount<T>(m: map<Path, T>, from: Path, to: Path)
    requires Movable(m, from, to)
    ensures |Renamed(m, from, to)| == |m|
    decreases |m|
  {
    if m != map[] {
      var p := Pick(m);
      RenamedWithout(m, from, to, p);
      RenamedAt(m, from, to, p);
      OneLess(m, p);
      OneLess(Renamed(m, from, to), Moved(from, to, p));
      RenamedCount(m - {p}, from, to);
    } else {
      assert Renamed(m, from, to) == map[];
    }
  }
}
