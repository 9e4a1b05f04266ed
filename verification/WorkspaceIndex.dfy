/**
 The invariant of the index: it mirrors the host's tree, its counts and sums are exact, the
 limits hold, and an open file is found at its name.
 */
module WorkspaceIndex {
  import opened WorkspaceModel
  import opened WorkspaceSums

  ghost predicate EntryOk(fs: Fs, p: Path) {
    && p in fs.entries && p in fs.disk && PathOk(fs.limits, p) && IsDir(fs, Parent(p))
    && 0 < fs.disk[p].id < fs.next
    && (fs.entries[p] <==> fs.disk[p].Directory?)
    && (p in fs.sizes <==> fs.disk[p].File?)
    && (fs.disk[p].File? ==> fs.sizes[p] == fs.disk[p].size <= fs.limits.maxFileBytes)
  }

  /** An open file is the one that its name leads to. */
  ghost predicate HandleOk(fs: Fs, k: nat)
    requires k < |fs.handles|
  {
    var f := fs.handles[k];
    !f.closed ==> if f.name == [] then f.node == 0 else f.name in fs.disk && fs.disk[f.name].id == f.node
  }

  function One(f: Handle, p: Path): nat {
    if !f.closed && f.name == p then 1 else 0
  }

  /** How many open files have the name. */
  function Openings(handles: seq<Handle>, p: Path): nat {
    if handles == [] then 0 else One(handles[|handles| - 1], p) + Openings(handles[..|handles| - 1], p)
  }

  function CountOf(open: map<Path, nat>, p: Path): nat {
    if p in open then open[p] else 0
  }

  ghost predicate CountOk(open: map<Path, nat>, handles: seq<Handle>, p: Path) {
    Openings(handles, p) == CountOf(open, p)
  }

  ghost predicate OpensOk(open: map<Path, nat>, handles: seq<Handle>) {
    && (forall p {:trigger CountOk(open, handles, p)} :: CountOk(open, handles, p))
    && (forall p :: p in open ==> open[p] > 0)
  }

  /** Different names have different nodes. */
  ghost predicate Distinct(disk: map<Path, Node>) {
    forall p, q :: p in disk && q in disk && p != q ==> disk[p].id != disk[q].id
  }

  ghost predicate EntriesOk(fs: Fs) {
    && fs.entries.Keys == fs.disk.Keys && fs.sizes.Keys <= fs.disk.Keys && fs.next > 0
    && forall p {:trigger EntryOk(fs, p)} :: p in fs.disk ==> EntryOk(fs, p)
  }

  ghost predicate TotalsOk(fs: Fs) {
    fs.files == |fs.entries| <= fs.limits.maxFiles && fs.bytes == Sum(fs.sizes) <= fs.limits.maxBytes
  }

  ghost predicate HandlesOk(fs: Fs) {
    forall k: nat {:trigger HandleOk(fs, k)} :: k < |fs.handles| ==> HandleOk(fs, k)
  }

  ghost predicate Inv(fs: Fs) {
    EntriesOk(fs) && Distinct(fs.disk) && TotalsOk(fs) && HandlesOk(fs) && OpensOk(fs.open, fs.handles)
  }

  lemma SizedIsEntry(fs: Fs, p: Path)
    ensures Inv(fs) && p in fs.sizes ==> EntryOk(fs, p)
  {
  }

  function DiskSizes(disk: map<Path, Node>): map<Path, nat> {
    map p | p in disk && disk[p].File? :: disk[p].size
  }

  /** The index says what the tree is: its names and kinds, its sizes, their number and their sum. */
  lemma IndexMirrorsTree(fs: Fs)
    requires Inv(fs)
    ensures fs.entries == map p | p in fs.disk :: fs.disk[p].Directory?
    ensures fs.sizes == DiskSizes(fs.disk)
    ensures fs.files == |fs.disk| <= fs.limits.maxFiles
    ensures fs.bytes == Sum(DiskSizes(fs.disk)) <= fs.limits.maxBytes
  {
    forall p | p in fs.disk ensures EntryOk(fs, p) { }
    assert fs.sizes == DiskSizes(fs.disk);
    assert fs.entries.Keys == fs.disk.Keys;
  }

  // ------------------------------------------------------------------------------ names

  lemma {:induction false} ComponentsLength(s: string)
    ensures Length(Components(s)) == |s|
  {
    if s != "" {
      var rest := Components(s[1..]);
      ComponentsLength(s[1..]);
      if s[0] == '/' { assert ([""] + rest)[1..] == rest; }
      else if |rest| > 1 { assert ([[s[0]] + rest[0]] + rest[1..])[1..] == rest[1..]; }
    }
  }

  lemma CleanIsOk(limits: Limits, name: string, allowRoot: bool)
    ensures var p := Clean(limits, name, allowRoot);
      p.Some? ==> (p.value == [] && allowRoot) || PathOk(limits, p.value)
  {
    var trimmed := if name == "." then name else TrimSlashes(name);
    ComponentsLength(trimmed);
  }

  lemma {:induction false} ValidatedIsThere(disk: map<Path, Node>, p: Path, k: nat)
    requires 1 <= k <= |p| && ValidateFrom(disk, p, k, false) == EOK
    ensures p in disk
    decreases |p| - k
  {
    if k < |p| { ValidatedIsThere(disk, p, k + 1); } else { assert p[..k] == p; }
  }

  /** What is in the index has its parents there, up to any name above it. */
  lemma {:induction false} AboveIsThere(fs: Fs, p: Path, q: Path)
    requires EntriesOk(fs) && q in fs.disk && Under(p, q) && p != []
    ensures p in fs.disk && (p != q ==> fs.entries[p])
    decreases |q|
  {
    assert EntryOk(fs, q);
    if p != q {
      assert Under(p, Parent(q));
      if p != Parent(q) { AboveIsThere(fs, p, Parent(q)); }
    }
  }

  // ------------------------------------------------------------------------- open counts

  lemma {:induction false} OpeningsPut(handles: seq<Handle>, k: nat, f: Handle, p: Path)
    requires k < |handles|
    ensures Openings(handles[k := f], p) == Openings(handles, p) - One(handles[k], p) + One(f, p)
  {
    var n := |handles| - 1;
    if k == n {
      assert handles[k := f][..n] == handles[..n];
    } else {
      OpeningsPut(handles[..n], k, f, p);
      assert handles[k := f][..n] == handles[..n][k := f];
    }
  }

  lemma {:induction false} OpeningsPositive(handles: seq<Handle>, k: nat)
    requires k < |handles| && !handles[k].closed
    ensures Openings(handles, handles[k].name) > 0
  {
    var n := |handles| - 1;
    if k < n { OpeningsPositive(handles[..n], k); }
  }

  lemma OpenIsCounted(fs: Fs, k: nat)
    requires Inv(fs) && k < |fs.handles| && !fs.handles[k].closed
    ensures fs.handles[k].name in fs.open && fs.open[fs.handles[k].name] > 0
  {
    OpeningsPositive(fs.handles, k);
    assert CountOk(fs.open, fs.handles, fs.handles[k].name);
  }

  // -------------------------------------------------------------------------- creating

  lemma CreateKeeps(fs: Fs, p: Path)
    requires Inv(fs) && PathOk(fs.limits, p) && p !in fs.entries && IsDir(fs, Parent(p))
    requires fs.files < fs.limits.maxFiles
    ensures Inv(Created(fs, p))
  {
    AddKeeps(fs, p, File(fs.next, 0), Created(fs, p));
    SumPut(fs.sizes, p, 0);
  }

  lemma AddKeepsEntries(fs: Fs, p: Path, node: Node, fs': Fs)
    requires EntriesOk(fs) && PathOk(fs.limits, p) && p !in fs.entries && IsDir(fs, Parent(p))
    requires node.id == fs.next && (node.File? ==> node.size == 0)
    requires fs'.disk == fs.disk[p := node] && fs'.next == fs.next + 1 && fs'.entries == fs.entries[p := node.Directory?]
    requires fs'.sizes == if node.File? then fs.sizes[p := 0] else fs.sizes
    requires fs'.limits == fs.limits
    ensures EntriesOk(fs')
  {
    forall q | q in fs'.disk ensures EntryOk(fs', q) {
      if q != p { assert EntryOk(fs, q); }
    }
  }

  /** A new node at a new name. */
  lemma AddKeeps(fs: Fs, p: Path, node: Node, fs': Fs)
    requires Inv(fs) && PathOk(fs.limits, p) && p !in fs.entries && IsDir(fs, Parent(p))
    requires fs.files < fs.limits.maxFiles && node.id == fs.next && (node.File? ==> node.size == 0)
    requires fs' == fs.(disk := fs.disk[p := node], next := fs.next + 1,
      entries := fs.entries[p := node.Directory?], sizes := if node.File? then fs.sizes[p := 0] else fs.sizes,
      files := fs.files + 1)
    ensures EntriesOk(fs') && Distinct(fs'.disk) && HandlesOk(fs') && fs'.files == |fs'.entries| <= fs.limits.maxFiles
  {
    AddKeepsEntries(fs, p, node, fs');
    forall q | q in fs.disk ensures fs.disk[q].id < fs.next { assert EntryOk(fs, q); }
    forall k: nat | k < |fs'.handles| ensures HandleOk(fs', k) { assert HandleOk(fs, k); }
    assert fs'.entries.Keys == fs.entries.Keys + {p};
  }

  // ---------------------------------------------------------------------- other changes

  lemma ResizedIs(disk: map<Path, Node>, p: Path, size: nat)
    requires Distinct(disk) && p in disk && disk[p].File?
    ensures DiskResize(disk, disk[p].id, size) == disk[p := File(disk[p].id, size)]
  {
  }

  lemma SizeKeepsEntries(fs: Fs, p: Path, size: nat, fs': Fs)
    requires EntriesOk(fs) && p in fs.disk && fs.disk[p].File? && size <= fs.limits.maxFileBytes
    requires fs'.disk == fs.disk[p := File(fs.disk[p].id, size)] && fs'.sizes == fs.sizes[p := size]
    requires fs'.entries == fs.entries && fs'.limits == fs.limits && fs'.next == fs.next
    ensures EntriesOk(fs') && p in fs.sizes && fs.sizes[p] == fs.disk[p].size
  {
    assert EntryOk(fs, p);
    forall q | q in fs'.disk ensures EntryOk(fs', q) { assert EntryOk(fs, q); }
  }

  /** A file has another size, on the host and in the index. */
  lemma SizeKeeps(fs: Fs, p: Path, size: nat, fs': Fs)
    requires Inv(fs) && p in fs.disk && fs.disk[p].File? && size <= fs.limits.maxFileBytes
    requires fs.bytes - fs.disk[p].size + size <= fs.limits.maxBytes
    requires fs' == fs.(disk := fs.disk[p := File(fs.disk[p].id, size)], sizes := fs.sizes[p := size],
      bytes := fs.bytes - fs.disk[p].size + size)
    ensures Inv(fs')
  {
    SizeKeepsEntries(fs, p, size, fs');
    SumPut(fs.sizes, p, size);
    forall k: nat | k < |fs'.handles| ensures HandleOk(fs', k) { assert HandleOk(fs, k); }
  }

  lemma RootIsNoEntry(fs: Fs)
    requires EntriesOk(fs)
    ensures [] !in fs.disk
  {
    assert !EntryOk(fs, []);
  }

  /** Only what is open changes. */
  lemma IndexSame(fs: Fs, fs': Fs)
    requires Inv(fs) && fs' == fs.(open := fs'.open, handles := fs'.handles, closed := fs'.closed)
    ensures EntriesOk(fs') && Distinct(fs'.disk) && TotalsOk(fs')
  {
    forall q | q in fs'.disk ensures EntryOk(fs', q) { assert EntryOk(fs, q); }
  }

  lemma HandleKeeps(fs: Fs, p: Path, append: bool)
    requires Inv(fs) && (p == [] || p in fs.disk)
    ensures Inv(WithHandle(fs, p, append))
  {
    var fs' := WithHandle(fs, p, append);
    IndexSame(fs, fs');
    RootIsNoEntry(fs);
    forall k: nat | k < |fs'.handles| ensures HandleOk(fs', k) {
      if k < |fs.handles| { assert HandleOk(fs, k); }
    }
    forall q ensures CountOk(fs'.open, fs'.handles, q) {
      assert fs'.handles[..|fs.handles|] == fs.handles;
      assert CountOk(fs.open, fs.handles, q);
    }
  }

  /** A handle is closed, or its mode changes; the count of its name follows. */
  lemma HandlePutKeeps(fs: Fs, h: nat, f: Handle, open: map<Path, nat>, fs': Fs)
    requires Inv(fs) && h < |fs.handles| && f.name == fs.handles[h].name && f.node == fs.handles[h].node
    requires fs.handles[h].closed ==> f.closed
    requires forall p :: p in open ==> open[p] > 0
    requires forall p :: CountOf(open, p) == CountOf(fs.open, p) - One(fs.handles[h], p) + One(f, p)
    requires fs' == fs.(open := open, handles := fs.handles[h := f])
    ensures Inv(fs')
  {
    IndexSame(fs, fs');
    forall k: nat | k < |fs'.handles| ensures HandleOk(fs', k) { assert HandleOk(fs, k); }
    forall p ensures CountOk(fs'.open, fs'.handles, p) {
      OpeningsPut(fs.handles, h, f, p);
      assert CountOk(fs.open, fs.handles, p);
    }
  }

  /** A name goes that no file is open at and nothing is below of. */
  lemma RemoveKeeps(fs: Fs, p: Path, fs': Fs)
    requires Inv(fs) && p in fs.disk && !HasBelow(fs.disk, p) && OpenCount(fs, p) == 0
    requires fs' == fs.(disk := fs.disk - {p}, files := fs.files - 1, bytes := fs.bytes - Size(fs, p),
      entries := fs.entries - {p}, sizes := fs.sizes - {p})
    ensures Inv(fs')
  {
    RemoveKeepsEntries(fs, p, fs');
    RemoveKeepsHandles(fs, p, fs');
    SumDrop(fs.sizes, p);
    assert fs'.entries.Keys == fs.entries.Keys - {p};
  }

  lemma RemoveKeepsEntries(fs: Fs, p: Path, fs': Fs)
    requires EntriesOk(fs) && !HasBelow(fs.disk, p)
    requires fs'.disk == fs.disk - {p} && fs'.entries == fs.entries - {p} && fs'.sizes == fs.sizes - {p}
    requires fs'.limits == fs.limits && fs'.next == fs.next
    ensures EntriesOk(fs')
  {
    forall q | q in fs'.disk ensures EntryOk(fs', q) {
      assert EntryOk(fs, q);
      assert Parent(q) == p ==> Under(p, q);
    }
  }

  lemma RemoveKeepsHandles(fs: Fs, p: Path, fs': Fs)
    requires Inv(fs) && OpenCount(fs, p) == 0
    requires fs'.disk == fs.disk - {p} && fs'.handles == fs.handles
    ensures HandlesOk(fs')
  {
    forall k: nat | k < |fs'.handles| ensures HandleOk(fs', k) {
      assert HandleOk(fs, k);
      if !fs.handles[k].closed { OpenIsCounted(fs, k); }
    }
  }

  lemma FileHasNothingBelow(fs: Fs, p: Path)
    requires EntriesOk(fs) && p in fs.disk && fs.disk[p].File?
    ensures !HasBelow(fs.disk, p)
  {
    assert EntryOk(fs, p);
    if q :| q in fs.disk && Under(p, q) && q != p { AboveIsThere(fs, p, q); }
  }

  // -------------------------------------------------------------------------- renaming

  lemma RenameIsMovable(fs: Fs, from: Path, to: Path)
    requires EntriesOk(fs) && from in fs.disk && to !in fs.disk && to != [] && !Under(from, to)
    ensures Movable(fs.disk, from, to) && Movable(fs.entries, from, to) && Movable(fs.sizes, from, to)
  {
    forall p | p in fs.disk ensures !Under(to, p) {
      if Under(to, p) { AboveIsThere(fs, to, p); }
    }
  }

  lemma BelowIsBelow(p: Path, q: Path)
    requires q != []
    ensures Under(p, Parent(q)) ==> Under(p, q)
  {
  }

  lemma RenamedParent(fs: Fs, from: Path, to: Path, p: Path)
    requires EntriesOk(fs) && from in fs.disk && p in fs.disk && from != [] && to != []
    requires Movable(fs.entries, from, to) && IsDir(fs, Parent(to))
    ensures Moved(from, to, p) != []
    ensures var d := Parent(Moved(from, to, p)); d == [] || (d in Renamed(fs.entries, from, to) && Renamed(fs.entries, from, to)[d])
  {
    assert EntryOk(fs, p);
    var q := Moved(from, to, p);
    if p == from {
      assert q == to;
      BelowIsBelow(from, to);
      if Parent(to) != [] { RenamedAt(fs.entries, from, to, Parent(to)); }
    } else {
      BelowIsBelow(from, p);
      if Under(from, p) {
        assert Under(from, Parent(p)) by { assert Parent(p)[..|from|] == p[..|from|]; }
        assert Parent(q) == Moved(from, to, Parent(p));
      }
      if Parent(p) != [] { RenamedAt(fs.entries, from, to, Parent(p)); }
    }
  }

  lemma RenameKeeps(fs: Fs, from: Path, to: Path, fs': Fs)
    requires Inv(fs) && from != [] && to != [] && from in fs.disk && to !in fs.disk && !Under(from, to)
    requires IsDir(fs, Parent(to)) && !HasOpenUnder(fs, from)
    requires MovesOk(fs, from, to)
    requires fs' == AfterRename(fs, from, to)
    ensures Inv(fs')
  {
    RenameIsMovable(fs, from, to);
    SumRenamed(fs.sizes, from, to);
    RenamedCount(fs.entries, from, to);
    RenamedKeys(fs, from, to);
    forall q | q in fs'.disk ensures EntryOk(fs', q) { RenamedEntry(fs, from, to, fs', q); }
    RenamedDistinct(fs.disk, from, to);
    forall k: nat | k < |fs'.handles| ensures HandleOk(fs', k) {
      assert HandleOk(fs, k);
      var f := fs.handles[k];
      if !f.closed {
        OpenIsCounted(fs, k);
        if f.name != [] { RenamedAt(fs.disk, from, to, f.name); }
      }
    }
  }

  lemma RenamedDistinct(disk: map<Path, Node>, from: Path, to: Path)
    requires Distinct(disk) && Movable(disk, from, to)
    ensures Distinct(Renamed(disk, from, to))
  {
    var r := Renamed(disk, from, to);
    forall p, q | p in r && q in r && p != q ensures r[p].id != r[q].id {
      RenamedFrom(disk, from, to, p);
      RenamedFrom(disk, from, to, q);
    }
  }

  lemma RenamedKeys(fs: Fs, from: Path, to: Path)
    requires EntriesOk(fs) && Movable(fs.disk, from, to) && Movable(fs.entries, from, to) && Movable(fs.sizes, from, to)
    ensures Renamed(fs.entries, from, to).Keys == Renamed(fs.disk, from, to).Keys
    ensures Renamed(fs.sizes, from, to).Keys <= Renamed(fs.disk, from, to).Keys
  {
    forall q | q in Renamed(fs.entries, from, to) ensures q in Renamed(fs.disk, from, to) {
      RenamedFrom(fs.entries, from, to, q);
      RenamedAt(fs.disk, from, to, Moved(to, from, q));
    }
    forall q | q in Renamed(fs.disk, from, to) ensures q in Renamed(fs.entries, from, to) {
      RenamedFrom(fs.disk, from, to, q);
      RenamedAt(fs.entries, from, to, Moved(to, from, q));
    }
    forall q | q in Renamed(fs.sizes, from, to) ensures q in Renamed(fs.disk, from, to) {
      RenamedFrom(fs.sizes, from, to, q);
      RenamedAt(fs.disk, from, to, Moved(to, from, q));
    }
  }

  lemma RenamedEntry(fs: Fs, from: Path, to: Path, fs': Fs, q: Path)
    requires EntriesOk(fs) && from in fs.disk && from != [] && to != []
    requires Movable(fs.disk, from, to) && Movable(fs.entries, from, to) && Movable(fs.sizes, from, to)
    requires IsDir(fs, Parent(to))
    requires MovesOk(fs, from, to)
    requires fs' == AfterRename(fs, from, to)
    requires q in fs'.disk
    ensures EntryOk(fs', q)
  {
    RenamedFrom(fs.disk, from, to, q);
    var p := Moved(to, from, q);
    assert EntryOk(fs, p);
    RenamedParent(fs, from, to, p);
    RenamedAt(fs.entries, from, to, p);
    if p in fs.sizes { RenamedAt(fs.sizes, from, to, p); }
    else if q in fs'.sizes { RenamedFrom(fs.sizes, from, to, q); }
  }
}
