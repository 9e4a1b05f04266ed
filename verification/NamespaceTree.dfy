/**
 The namespaces that the Guest builds from the paths of its tools (guest/pysolate.py), and exactly
 when that succeeds.
 */
module NamespaceTree {
  import opened Options

  datatype Node = Tool(canonical: string) | Namespace(children: map<string, Node>)

  type Exports = map<string, Node>

  type Parts = p: seq<string> | |p| > 0 witness [""]

  /** `None` is the ValueError of a collision. */
  function Insert(exports: Exports, canonical: string, parts: Parts): Option<Exports>
    decreases |parts|
  {
    if |parts| == 1 then
      if parts[0] in exports then None else Some(exports[parts[0] := Tool(canonical)])
    else if parts[0] in exports && exports[parts[0]].Tool? then None
    else
      var children := if parts[0] in exports then exports[parts[0]].children else map[];
      match Insert(children, canonical, parts[1..])
      case None => None
      case Some(grown) => Some(exports[parts[0] := Namespace(grown)])
  }

  datatype Entry = Entry(name: string, parts: Parts)

  function Configure(entries: seq<Entry>): Option<Exports> {
    if entries == [] then Some(map[])
    else
      var last := entries[|entries| - 1];
      match Configure(entries[..|entries| - 1])
      case None => None
      case Some(exports) => Insert(exports, last.name, last.parts)
  }

  /** The tool that an attribute path leads to. */
  function Find(exports: Exports, parts: Parts): Option<string>
    decreases |parts|
  {
    if parts[0] !in exports then None
    else match exports[parts[0]]
      case Tool(canonical) => if |parts| == 1 then Some(canonical) else None
      case Namespace(children) => if |parts| == 1 then None else Find(children, parts[1..])
  }

  /** Whether an attribute path leads to a namespace. */
  predicate Inner(exports: Exports, parts: Parts)
    decreases |parts|
  {
    && parts[0] in exports && exports[parts[0]].Namespace?
    && (|parts| > 1 ==> Inner(exports[parts[0]].children, parts[1..]))
  }

  // ------------------------------------------------------------------------ one insertion

  /** A tool is at the path or above it, or a namespace at the path. */
  predicate Taken(exports: Exports, parts: Parts) {
    Inner(exports, parts) || exists k :: 1 <= k <= |parts| && Find(exports, parts[..k]).Some?
  }

  lemma {:induction false} TakenBelow(exports: Exports, parts: Parts)
    requires |parts| > 1
    ensures Taken(exports, parts) <==>
      parts[0] in exports && (exports[parts[0]].Tool? || Taken(exports[parts[0]].children, parts[1..]))
  {
    var first := parts[0];
    assert parts[..1] == [first];
    if first in exports && exports[first].Tool? { assert Find(exports, parts[..1]).Some?; }
    if first in exports && exports[first].Namespace? {
      var children, rest := exports[first].children, parts[1..];
      if k :| 1 <= k <= |parts| && Find(exports, parts[..k]).Some? {
        assert parts[..k][1..] == rest[..k - 1];
        assert Find(children, rest[..k - 1]).Some?;
      }
      if k :| 1 <= k <= |rest| && Find(children, rest[..k]).Some? {
        assert parts[..k + 1][1..] == rest[..k];
        assert Find(exports, parts[..k + 1]).Some?;
      }
    }
  }

  lemma {:induction false} EmptyIsFree(parts: Parts)
    ensures !Taken(map[], parts)
  {
  }

  lemma {:induction false} InsertSucceeds(exports: Exports, canonical: string, parts: Parts)
    ensures Insert(exports, canonical, parts).Some? <==> !Taken(exports, parts)
    decreases |parts|
  {
    if |parts| == 1 {
      assert parts[..1] == parts;
    } else {
      TakenBelow(exports, parts);
      if !(parts[0] in exports && exports[parts[0]].Tool?) {
        var children := if parts[0] in exports then exports[parts[0]].children else map[];
        InsertSucceeds(children, canonical, parts[1..]);
        EmptyIsFree(parts[1..]);
      }
    }
  }

  /** An insertion adds one tool, and the namespaces on the way to it. */
  lemma {:induction false} InsertAdds(exports: Exports, canonical: string, parts: Parts, q: Parts)
    requires Insert(exports, canonical, parts).Some?
    ensures var grown := Insert(exports, canonical, parts).value;
      && Find(grown, q) == (if q == parts then Some(canonical) else Find(exports, q))
      && (Inner(grown, q) <==> Inner(exports, q) || q < parts)
    decreases |parts|
  {
    assert q == [q[0]] + q[1..];
    if |parts| > 1 {
      assert parts == [parts[0]] + parts[1..];
      var children := if parts[0] in exports then exports[parts[0]].children else map[];
      if q[0] == parts[0] && |q| > 1 {
        InsertAdds(children, canonical, parts[1..], q[1..]);
      }
    } else if q[0] == parts[0] && |q| == 1 {
      assert q == parts;
    }
  }

  // ------------------------------------------------------------------------- the whole tree

  /** The tree has the tools of the entries and the namespaces above them, and nothing else. */
  ghost predicate Built(exports: Exports, entries: seq<Entry>) {
    && (forall i :: 0 <= i < |entries| ==> Find(exports, entries[i].parts) == Some(entries[i].name))
    && (forall q: Parts :: Find(exports, q).Some? ==> exists i :: 0 <= i < |entries| && entries[i].parts == q)
    && (forall q: Parts :: Inner(exports, q) <==> exists i :: 0 <= i < |entries| && q < entries[i].parts)
  }

  predicate Apart(p: Parts, q: Parts) {
    !(p <= q) && !(q <= p)
  }

  predicate PairwiseApart(entries: seq<Entry>) {
    forall i, j :: 0 <= i < j < |entries| ==> Apart(entries[i].parts, entries[j].parts)
  }

  lemma TakenExactly(exports: Exports, entries: seq<Entry>, parts: Parts)
    requires Built(exports, entries)
    ensures Taken(exports, parts) <==> exists i :: 0 <= i < |entries| && !Apart(entries[i].parts, parts)
  {
    if Taken(exports, parts) {
      if Inner(exports, parts) {
        var i :| 0 <= i < |entries| && parts < entries[i].parts;
        assert !Apart(entries[i].parts, parts);
      } else {
        var k :| 1 <= k <= |parts| && Find(exports, parts[..k]).Some?;
        var i :| 0 <= i < |entries| && entries[i].parts == parts[..k];
        assert !Apart(entries[i].parts, parts);
      }
    }
    if i :| 0 <= i < |entries| && !Apart(entries[i].parts, parts) {
      var p := entries[i].parts;
      if p <= parts {
        assert parts[..|p|] == p;
      } else {
        assert parts < p;
      }
    }
  }

  lemma BuiltGrows(exports: Exports, entries: seq<Entry>, last: Entry)
    requires Built(exports, entries) && Insert(exports, last.name, last.parts).Some?
    ensures Built(Insert(exports, last.name, last.parts).value, entries + [last])
  {
    var grown, all := Insert(exports, last.name, last.parts).value, entries + [last];
    assert all[|entries|] == last;
    forall i | 0 <= i < |all| ensures Find(grown, all[i].parts) == Some(all[i].name) {
      InsertAdds(exports, last.name, last.parts, all[i].parts);
      if i < |entries| {
        InsertSucceeds(exports, last.name, last.parts);
        TakenExactly(exports, entries, last.parts);
        assert Apart(entries[i].parts, last.parts);
      }
    }
    forall q: Parts | Find(grown, q).Some? ensures exists i :: 0 <= i < |all| && all[i].parts == q {
      InsertAdds(exports, last.name, last.parts, q);
      if q != last.parts {
        var i :| 0 <= i < |entries| && entries[i].parts == q;
        assert all[i].parts == q;
      }
    }
    forall q: Parts ensures Inner(grown, q) <==> exists i :: 0 <= i < |all| && q < all[i].parts {
      InsertAdds(exports, last.name, last.parts, q);
      if i :| 0 <= i < |entries| && q < entries[i].parts { assert q < all[i].parts; }
    }
  }

  /** The Guest can build its namespaces exactly when no path is another one or lies above it. */
  lemma {:induction false} ConfigureExactly(entries: seq<Entry>)
    ensures Configure(entries).Some? <==> PairwiseApart(entries)
    ensures Configure(entries).Some? ==> Built(Configure(entries).value, entries)
  {
    if entries != [] {
      var n := |entries| - 1;
      var before, last := entries[..n], entries[n];
      ConfigureExactly(before);
      assert entries == before + [last];
      if !PairwiseApart(before) {
        var i, j :| 0 <= i < j < |before| && !Apart(before[i].parts, before[j].parts);
        assert !Apart(entries[i].parts, entries[j].parts);
      } else {
        var exports := Configure(before).value;
        InsertSucceeds(exports, last.name, last.parts);
        TakenExactly(exports, before, last.parts);
        if Taken(exports, last.parts) {
          var i :| 0 <= i < |before| && !Apart(before[i].parts, last.parts);
          assert !Apart(entries[i].parts, entries[n].parts);
        } else {
          BuiltGrows(exports, before, last);
          forall i, j | 0 <= i < j < |entries| ensures Apart(entries[i].parts, entries[j].parts) {
            if j < n { assert Apart(before[i].parts, before[j].parts); } else { assert Apart(before[i].parts, last.parts); }
          }
        }
      }
    }
  }
}
