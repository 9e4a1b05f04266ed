/** Which names the workspace takes from a Guest: a path is named by its spelling, and by nothing else. */
module WorkspaceNames {
  import opened Options
  import opened WorkspaceModel

  /** The parts of a path with slashes between them. */
  function Spelled(p: Path): string
    requires p != []
  {
    if |p| == 1 then p[0] else p[0] + "/" + Spelled(p[1..])
  }

  function Slashes(k: nat): string {
    if k == 0 then "" else Slashes(k - 1) + "/"
  }

  lemma {:induction false} SpellingLength(p: Path)
    requires p != []
    ensures |Spelled(p)| == Length(p)
  {
    if |p| > 1 { SpellingLength(p[1..]); }
  }

  /** Taking a name apart and spelling it again gives the name. */
  lemma {:induction false} SpelledComponents(s: string)
    ensures Spelled(Components(s)) == s
  {
    if s != "" {
      var rest := Components(s[1..]);
      SpelledComponents(s[1..]);
      if s[0] == '/' {
        assert ([""] + rest)[1..] == rest;
        assert "" + "/" + Spelled(rest) == s;
      } else {
        var joined := [[s[0]] + rest[0]] + rest[1..];
        assert joined[0] == [s[0]] + rest[0] && joined[1..] == rest[1..];
        if |rest| > 1 { assert ([s[0]] + rest[0]) + "/" + Spelled(rest[1..]) == [s[0]] + (rest[0] + "/" + Spelled(rest[1..])); }
        assert Spelled(joined) == [s[0]] + Spelled(rest);
      }
    }
  }

  predicate NoSlash(part: string) {
    forall i :: 0 <= i < |part| ==> part[i] != '/'
  }

  lemma {:induction false} OnePart(part: string)
    requires NoSlash(part)
    ensures Components(part) == [part]
  {
    if part != "" {
      OnePart(part[1..]);
      assert [part[0]] + part[1..] == part;
      assert [part] + [part[1..]][1..] == [part];
    }
  }

  lemma {:induction false} PartThenRest(part: string, rest: string)
    requires NoSlash(part)
    ensures Components(part + "/" + rest) == [part] + Components(rest)
    decreases |part|
  {
    var s := part + "/" + rest;
    if part == "" {
      assert s[0] == '/' && s[1..] == rest;
    } else {
      assert s[0] == part[0] && s[1..] == part[1..] + "/" + rest;
      PartThenRest(part[1..], rest);
      var less := [part[1..]] + Components(rest);
      assert less[0] == part[1..] && less[1..] == Components(rest) && [part[0]] + part[1..] == part;
    }
  }

  /** And spelling a path of proper parts and taking it apart gives the path. */
  lemma {:induction false} ComponentsSpelled(p: Path)
    requires p != [] && PartsOk(p)
    ensures Components(Spelled(p)) == p
    decreases |p|
  {
    assert PartOk(p[0]);
    if |p| == 1 {
      OnePart(p[0]);
    } else {
      var rest := p[1..];
      forall i | 0 <= i < |rest| ensures PartOk(rest[i]) { assert PartOk(p[i + 1]); }
      ComponentsSpelled(rest);
      PartThenRest(p[0], Spelled(rest));
    }
  }

  predicate EndsInSlash(s: string) {
    s != "" && s[|s| - 1] == '/'
  }

  lemma {:induction false} SpellingEnds(p: Path)
    requires p != [] && PartsOk(p)
    ensures Spelled(p) != "" && !EndsInSlash(Spelled(p)) && Spelled(p) != "."
    decreases |p|
  {
    assert PartOk(p[0]);
    if |p| > 1 {
      forall i | 0 <= i < |p[1..]| ensures PartOk(p[1..][i]) { assert PartOk(p[i + 1]); }
      SpellingEnds(p[1..]);
    }
  }

  lemma {:induction false} TrimmedIs(s: string) returns (k: nat)
    ensures s == TrimSlashes(s) + Slashes(k) && !EndsInSlash(TrimSlashes(s))
    decreases |s|
  {
    if EndsInSlash(s) {
      var less := s[..|s| - 1];
      k := TrimmedIs(less);
      k := k + 1;
      assert s == less + "/";
      assert (TrimSlashes(less) + Slashes(k - 1)) + "/" == TrimSlashes(less) + Slashes(k);
    } else {
      k := 0;
    }
  }

  lemma {:induction false} TrimsTo(t: string, k: nat)
    requires !EndsInSlash(t)
    ensures TrimSlashes(t + Slashes(k)) == t
  {
    if k > 0 {
      var s := t + Slashes(k);
      assert s[..|s| - 1] == t + Slashes(k - 1);
      TrimsTo(t, k - 1);
    } else {
      assert t + "" == t;
    }
  }

  /** `name` spells `t`, with any number of slashes at its end. */
  ghost predicate Names(name: string, t: string) {
    exists k: nat :: name == t + Slashes(k)
  }

  lemma NamesIsTrimmed(name: string, t: string)
    requires !EndsInSlash(t)
    ensures Names(name, t) <==> TrimSlashes(name) == t
  {
    var k := TrimmedIs(name);
    if Names(name, t) {
      var n: nat :| name == t + Slashes(n);
      TrimsTo(t, n);
    }
  }

  /** A name is taken for a path exactly if the path is proper and the name spells it. */
  lemma CleanExactly(limits: Limits, name: string, allowRoot: bool, p: Path)
    ensures Clean(limits, name, allowRoot) == Some(p) <==>
      if p == [] then allowRoot && Names(name, ".") else PathOk(limits, p) && Names(name, Spelled(p))
  {
    var trimmed := TrimSlashes(name);
    NamesIsTrimmed(name, ".");
    SpelledComponents(trimmed);
    SpellingLength(Components(trimmed));
    if p != [] && PartsOk(p) {
      SpellingEnds(p);
      NamesIsTrimmed(name, Spelled(p));
      ComponentsSpelled(p);
      SpellingLength(p);
    }
  }
}
