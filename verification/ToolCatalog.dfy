/**
 The catalog of a Host (tool_provider.go): it accepts a manifest exactly when every tool is well
 formed and the Guest can build its namespaces, whatever order the tools come in.
 */
module ToolCatalog {
  import opened Options
  import opened ToolPaths
  import opened NamespaceTree

  datatype Source = Source(hasCall: bool, description: string, pythonPath: string, schema: Option<string>, early: bool)

  type Manifest = map<string, Source>

  datatype GuestSpec = GuestSpec(name: string, pythonPath: string, early: bool)

  const MAX_NAME: nat := 128
  const MAX_DESCRIPTION: nat := 4096
  const MAX_SCHEMA: nat := 65536

  predicate NameChar(c: char) {
    IsLetter(c) || IsDigit(c) || c == '.' || c == ':' || c == '/' || c == '-'
  }

  predicate ValidName(name: string) {
    && name != "" && |name| <= MAX_NAME && (IsLetter(name[0]) || IsDigit(name[0]))
    && forall i :: 0 <= i < |name| ==> NameChar(name[i])
  }

  function PathOf(name: string, source: Source): string {
    if source.pythonPath == "" then name else source.pythonPath
  }

  /** `isObject` says which schemas are JSON objects. */
  predicate ToolOk(name: string, source: Source, isObject: string -> bool) {
    && ValidName(name) && source.hasCall && |source.description| <= MAX_DESCRIPTION
    && ValidPath(PathOf(name, source))
    && (source.schema.Some? ==> |source.schema.value| <= MAX_SCHEMA && isObject(source.schema.value))
  }

  predicate ToolsOk(manifest: Manifest, isObject: string -> bool) {
    forall name :: name in manifest ==> ToolOk(name, manifest[name], isObject)
  }

  predicate ConflictFree(manifest: Manifest) {
    forall a, b :: a in manifest && b in manifest && a != b ==>
      !Conflict(PathOf(a, manifest[a]), PathOf(b, manifest[b]))
  }

  // ------------------------------------------------------------------------------ sorting

  ghost predicate IsPermutation(order: seq<nat>, n: nat) {
    && |order| == n
    && (forall i :: 0 <= i < n ==> order[i] < n)
    && (forall j :: 0 <= j < n ==> j in order)
    && (forall i, j :: 0 <= i < j < n ==> order[i] != order[j])
  }

  lemma InsertKeepsSorted(s: seq<string>, x: string, k: nat)
    requires Sorted(s) && k <= |s|
    requires forall i :: 0 <= i < k ==> Le(s[i], x)
    requires forall i :: k <= i < |s| ==> Le(x, s[i])
    ensures Sorted(s[..k] + [x] + s[k..])
  {
  }

  lemma InsertKeepsPermutation(order: seq<nat>, n: nat, k: nat)
    requires IsPermutation(order, n) && k <= n
    ensures IsPermutation(order[..k] + [n] + order[k..], n + 1)
  {
    var r := order[..k] + [n] + order[k..];
    forall j | 0 <= j < n + 1 ensures j in r {
      if j == n {
        assert r[k] == n;
      } else {
        assert j in order;
        var i :| 0 <= i < n && order[i] == j;
        assert r[if i < k then i else i + 1] == j;
      }
    }
  }

  /** The strings in order; `order` says where each of them was. */
  method SortStrings(paths: seq<string>) returns (sorted: seq<string>, ghost order: seq<nat>)
    ensures |sorted| == |paths| && Sorted(sorted)
    ensures IsPermutation(order, |paths|) && forall i :: 0 <= i < |paths| ==> sorted[i] == paths[order[i]]
  {
    sorted, order := [], [];
    for n := 0 to |paths|
      invariant |sorted| == n && Sorted(sorted)
      invariant IsPermutation(order, n) && forall i :: 0 <= i < n ==> sorted[i] == paths[order[i]]
    {
      var x, k := paths[n], n;
      while k > 0 && !Le(sorted[k - 1], x)
        invariant k <= n
        invariant forall i :: k <= i < n ==> Le(x, sorted[i])
      {
        LeTotal(sorted[k - 1], x);
        k := k - 1;
      }
      forall i | 0 <= i < k ensures Le(sorted[i], x) {
        if i < k - 1 { LeTrans(sorted[i], sorted[k - 1], x); }
      }
      InsertKeepsSorted(sorted, x, k);
      InsertKeepsPermutation(order, n, k);
      sorted := sorted[..k] + [x] + sorted[k..];
      order := order[..k] + [n] + order[k..];
    }
  }

  // --------------------------------------------------------------------------- the check

  /** `names` lists every tool of the manifest once. */
  ghost predicate AllNames(names: seq<string>, manifest: Manifest) {
    && (forall name :: name in names <==> name in manifest)
    && (forall i, j :: 0 <= i < j < |names| ==> names[i] != names[j])
  }

  function Paths(names: seq<string>, manifest: Manifest): seq<string>
    requires forall i :: 0 <= i < |names| ==> names[i] in manifest
  {
    seq(|names|, i requires 0 <= i < |names| => PathOf(names[i], manifest[names[i]]))
  }

  predicate PairsFree(paths: seq<string>) {
    forall i, j :: 0 <= i < j < |paths| ==> !Conflict(paths[i], paths[j])
  }

  lemma PairsAreTools(names: seq<string>, manifest: Manifest)
    requires AllNames(names, manifest)
    ensures (forall i :: 0 <= i < |names| ==> names[i] in manifest)
    ensures PairsFree(Paths(names, manifest)) <==> ConflictFree(manifest)
  {
    assert forall i :: 0 <= i < |names| ==> names[i] in names;
    var paths := Paths(names, manifest);
    if PairsFree(paths) {
      forall a, b | a in manifest && b in manifest && a != b
        ensures !Conflict(PathOf(a, manifest[a]), PathOf(b, manifest[b]))
      {
        var i :| 0 <= i < |names| && names[i] == a;
        var j :| 0 <= j < |names| && names[j] == b;
        if i < j { assert !Conflict(paths[i], paths[j]); } else { assert !Conflict(paths[j], paths[i]); }
      }
    }
  }

  lemma PairsPermute(paths: seq<string>, sorted: seq<string>, order: seq<nat>)
    requires |sorted| == |paths| && IsPermutation(order, |paths|)
    requires forall i :: 0 <= i < |paths| ==> sorted[i] == paths[order[i]]
    ensures PairsFree(paths) <==> PairsFree(sorted)
  {
    if PairsFree(paths) {
      forall i, j | 0 <= i < j < |sorted| ensures !Conflict(sorted[i], sorted[j]) {
        var a, b := order[i], order[j];
        if a < b { assert !Conflict(paths[a], paths[b]); } else { assert !Conflict(paths[b], paths[a]); }
      }
    }
    if PairsFree(sorted) {
      forall a, b | 0 <= a < b < |paths| ensures !Conflict(paths[a], paths[b]) {
        assert a in order && b in order;
        var i :| 0 <= i < |order| && order[i] == a;
        var j :| 0 <= j < |order| && order[j] == b;
        if i < j { assert !Conflict(sorted[i], sorted[j]); } else { assert !Conflict(sorted[j], sorted[i]); }
      }
    }
  }

  method HasCollision(paths: seq<string>) returns (found: bool)
    requires forall i :: 0 <= i < |paths| ==> ValidPath(paths[i])
    ensures found <==> !PairsFree(paths)
  {
    ghost var order;
    var sorted;
    sorted, order := SortStrings(paths);
    PairsPermute(paths, sorted, order);
    SortedPairs(sorted);
    found := FindNeighbours(sorted);
  }

  lemma SortedPairs(sorted: seq<string>)
    requires Sorted(sorted) && forall i :: 0 <= i < |sorted| ==> ValidPath(sorted[i])
    ensures NeighboursCollide(sorted) <==> !PairsFree(sorted)
  {
    NeighboursSuffice(sorted);
  }

  method FindNeighbours(sorted: seq<string>) returns (found: bool)
    ensures found <==> NeighboursCollide(sorted)
  {
    for i := 0 to |sorted|
      invariant forall k :: 0 < k < i ==> !Covers(sorted[k - 1], sorted[k])
    {
      if i > 0 && Covers(sorted[i - 1], sorted[i]) { return true; }
    }
    return false;
  }

  predicate Increases(guest: seq<GuestSpec>) {
    forall i, j :: 0 <= i < j < |guest| ==> guest[i].name != guest[j].name && Le(guest[i].name, guest[j].name)
  }

  /** Accept one tool and give it its Python path. */
  method NormalizeTool(name: string, source: Source, isObject: string -> bool) returns (r: Option<Source>)
    ensures r.Some? <==> ToolOk(name, source, isObject)
    ensures r.Some? ==> r.value == source.(pythonPath := PathOf(name, source))
  {
    if !ValidName(name) { return None; }
    if !source.hasCall { return None; }
    if |source.description| > MAX_DESCRIPTION { return None; }
    var spec := source;
    if spec.pythonPath == "" {
      if !ValidPath(name) { return None; }
      spec := spec.(pythonPath := name);
    } else if !ValidPath(spec.pythonPath) {
      return None;
    }
    if spec.schema.Some? {
      if |spec.schema.value| > MAX_SCHEMA { return None; }
      if !isObject(spec.schema.value) { return None; }
    }
    return Some(spec);
  }

  /** The manifest with the Python path of every tool filled in. */
  ghost predicate Filled(manifest: Manifest, normalized: Manifest) {
    && normalized.Keys == manifest.Keys
    && forall name :: name in manifest ==> normalized[name] == manifest[name].(pythonPath := PathOf(name, manifest[name]))
  }

  /** All tools but those in `rest` have been accepted. */
  ghost predicate AllBut(manifest: Manifest, rest: set<string>, isObject: string -> bool,
                         normalized: Manifest, names: seq<string>, paths: seq<string>) {
    && (forall name :: name in manifest && name !in rest ==> ToolOk(name, manifest[name], isObject))
    && normalized.Keys == manifest.Keys - rest
    && (forall name :: name in normalized ==> normalized[name] == manifest[name].(pythonPath := PathOf(name, manifest[name])))
    && (forall name :: name in names <==> name in manifest && name !in rest)
    && (forall i, j :: 0 <= i < j < |names| ==> names[i] != names[j])
    && (forall i :: 0 <= i < |names| ==> names[i] in manifest)
    && paths == Paths(names, manifest)
  }

  lemma OneMoreTool(manifest: Manifest, rest: set<string>, isObject: string -> bool, normalized: Manifest, names: seq<string>,
                    paths: seq<string>, name: string, spec: Source)
    requires AllBut(manifest, rest, isObject, normalized, names, paths) && name in rest && name in manifest
    requires ToolOk(name, manifest[name], isObject) && spec == manifest[name].(pythonPath := PathOf(name, manifest[name]))
    ensures AllBut(manifest, rest - {name}, isObject, normalized[name := spec], names + [name], paths + [spec.pythonPath])
  {
  }

  /** Accept the tools one by one, in any order. */
  method NormalizeTools(manifest: Manifest, isObject: string -> bool)
    returns (r: Option<Manifest>, names: seq<string>, paths: seq<string>)
    ensures r.Some? <==> ToolsOk(manifest, isObject)
    ensures r.Some? ==> Filled(manifest, r.value) && AllNames(names, manifest)
    ensures r.Some? ==> (forall i :: 0 <= i < |names| ==> names[i] in manifest) && paths == Paths(names, manifest)
  {
    var normalized: Manifest := map[];
    names, paths := [], [];
    var rest := manifest.Keys;
    while rest != {}
      invariant rest <= manifest.Keys && AllBut(manifest, rest, isObject, normalized, names, paths)
      decreases rest
    {
      var name :| name in rest;
      var spec := NormalizeTool(name, manifest[name], isObject);
      if spec.None? { return None, names, paths; }
      OneMoreTool(manifest, rest, isObject, normalized, names, paths, name, spec.value);
      rest := rest - {name};
      normalized := normalized[name := spec.value];
      names := names + [name];
      paths := paths + [spec.value.pythonPath];
    }
    return Some(normalized), names, paths;
  }

  lemma PathsValid(names: seq<string>, manifest: Manifest, isObject: string -> bool)
    requires AllNames(names, manifest) && ToolsOk(manifest, isObject)
    ensures forall i :: 0 <= i < |names| ==> names[i] in manifest
    ensures forall i :: 0 <= i < |names| ==> ValidPath(Paths(names, manifest)[i])
  {
    forall i | 0 <= i < |names| ensures names[i] in manifest && ToolOk(names[i], manifest[names[i]], isObject) {
      assert names[i] in names;
    }
  }

  /**
   Accept a manifest: every tool gets its Python path, and the Guest is told the tools in the order
   of their names.
   */
  method Normalize(manifest: Manifest, isObject: string -> bool) returns (r: Option<(Manifest, seq<GuestSpec>)>)
    ensures r.Some? <==> ToolsOk(manifest, isObject) && ConflictFree(manifest)
    ensures r.Some? ==>
      && Filled(manifest, r.value.0)
      && Increases(r.value.1)
      && (forall g :: g in r.value.1 <==>
            g.name in manifest && g == GuestSpec(g.name, PathOf(g.name, manifest[g.name]), manifest[g.name].early))
  {
    var normalized, names, paths := NormalizeTools(manifest, isObject);
    if normalized.None? { return None; }
    PairsAreTools(names, manifest);
    PathsValid(names, manifest, isObject);
    var collides := HasCollision(paths);
    if collides { return None; }
    var guest := GuestTools(manifest, names);
    return Some((normalized.value, guest));
  }

  /** The tools in the order of their names. */
  method GuestTools(manifest: Manifest, names: seq<string>) returns (guest: seq<GuestSpec>)
    requires AllNames(names, manifest)
    ensures Increases(guest)
    ensures forall g :: g in guest <==>
      g.name in manifest && g == GuestSpec(g.name, PathOf(g.name, manifest[g.name]), manifest[g.name].early)
  {
    ghost var order;
    var sorted;
    sorted, order := SortStrings(names);
    forall i | 0 <= i < |sorted| ensures sorted[i] in manifest { assert names[order[i]] in names; }
    guest := seq(|sorted|, i requires 0 <= i < |sorted| =>
      GuestSpec(sorted[i], PathOf(sorted[i], manifest[sorted[i]]), manifest[sorted[i]].early));
    forall i, j | 0 <= i < j < |guest| ensures guest[i].name != guest[j].name && Le(guest[i].name, guest[j].name) {
      var a, b := order[i], order[j];
      if a < b { assert names[a] != names[b]; } else { assert names[b] != names[a]; }
    }
    forall g: GuestSpec | g.name in manifest && g == GuestSpec(g.name, PathOf(g.name, manifest[g.name]), manifest[g.name].early)
      ensures g in guest
    {
      var j :| 0 <= j < |names| && names[j] == g.name;
      assert j in order;
      var i :| 0 <= i < |order| && order[i] == j;
      assert guest[i] == g;
    }
  }

  // --------------------------------------------------------------------- Host and Guest agree

  /** What the Guest is told of the tools, in some order. */
  function Told(names: seq<string>, manifest: Manifest): seq<Entry>
    requires forall i :: 0 <= i < |names| ==> names[i] in manifest
  {
    seq(|names|, i requires 0 <= i < |names| => Entry(names[i], Split(PathOf(names[i], manifest[names[i]]))))
  }

  lemma ToldIsApart(names: seq<string>, manifest: Manifest)
    requires AllNames(names, manifest)
    ensures forall i :: 0 <= i < |names| ==> names[i] in manifest
    ensures PairwiseApart(Told(names, manifest)) <==> ConflictFree(manifest)
  {
    PairsAreTools(names, manifest);
    var entries, paths := Told(names, manifest), Paths(names, manifest);
    forall i, j | 0 <= i < j < |names|
      ensures Apart(entries[i].parts, entries[j].parts) <==> !Conflict(paths[i], paths[j])
    {
      CoversIsPrefix(paths[i], paths[j]);
      CoversIsPrefix(paths[j], paths[i]);
    }
  }

  /**
   For every order of the tools: the Guest's namespaces can be built exactly when the Host finds no
   conflict, and then every tool is found at its path.
   */
  lemma HostAndGuestAgree(manifest: Manifest, names: seq<string>, name: string)
    requires AllNames(names, manifest)
    ensures forall i :: 0 <= i < |names| ==> names[i] in manifest
    ensures Configure(Told(names, manifest)).Some? <==> ConflictFree(manifest)
    ensures ConflictFree(manifest) && name in manifest ==>
      Find(Configure(Told(names, manifest)).value, Split(PathOf(name, manifest[name]))) == Some(name)
  {
    ToldIsApart(names, manifest);
    ConfigureExactly(Told(names, manifest));
    if name in manifest {
      var i :| 0 <= i < |names| && names[i] == name;
      assert Told(names, manifest)[i].name == name;
    }
  }
}
