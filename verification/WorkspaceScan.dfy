/**
 The index of a tree that is already there (runtime/workspace/workspace.go).
 */
module WorkspaceScan {
  import opened Options
  import opened WorkspaceModel
  import opened WorkspaceSums
  import opened WorkspaceIndex
  import opened WorkspaceRuns

  predicate FitsFile(limits: Limits, node: Node) {
    node.File? ==> node.size <= limits.maxFileBytes
  }

  predicate NameFits(limits: Limits, disk: map<Path, Node>, p: Path) {
    p in disk ==> PathOk(limits, p) && FitsFile(limits, disk[p])
  }

  /** A tree within the limits. */
  ghost predicate WithinLimits(limits: Limits, disk: map<Path, Node>) {
    && (forall p {:trigger NameFits(limits, disk, p)} :: NameFits(limits, disk, p))
    && |disk| <= limits.maxFiles && Sum(DiskSizes(disk)) <= limits.maxBytes
  }

  ghost predicate NodeOk(disk: map<Path, Node>, next: nat, p: Path) {
    p in disk && p != [] && 0 < disk[p].id < next && (Parent(p) == [] || (Parent(p) in disk && disk[Parent(p)].Directory?))
  }

  /** What the host promises of a tree: nodes have their own numbers, and parents are directories. */
  ghost predicate IsTree(disk: map<Path, Node>, next: nat) {
    && Distinct(disk) && next > 0
    && forall p {:trigger NodeOk(disk, next, p)} :: p in disk ==> NodeOk(disk, next, p)
  }

  lemma {:induction false} SumOfPart(part: map<Path, nat>, whole: map<Path, nat>)
    requires part.Keys <= whole.Keys && forall p :: p in part ==> part[p] == whole[p]
    ensures Sum(part) <= Sum(whole)
    decreases |part|
  {
    if part != map[] {
      var p := Pick(part);
      SumOfPart(part - {p}, whole - {p});
      SumAt(whole, p);
    }
  }

  function Part(disk: map<Path, Node>, names: set<Path>): map<Path, Node> {
    map p | p in disk && p in names :: disk[p]
  }

  /** What the index knows of a tree. */
  datatype Usage = Usage(entries: map<Path, bool>, sizes: map<Path, nat>, files: nat, bytes: nat)

  function Kinds(disk: map<Path, Node>): map<Path, bool> {
    map p | p in disk :: disk[p].Directory?
  }

  ghost function UsageOf(disk: map<Path, Node>): Usage {
    Usage(Kinds(disk), DiskSizes(disk), |disk|, Sum(DiskSizes(disk)))
  }

  function NewFs(limits: Limits, disk: map<Path, Node>, next: nat, usage: Usage): Fs {
    Fs(limits, false, usage.entries, usage.sizes, usage.files, usage.bytes, map[], [], disk, next)
  }

  /** One more name is looked at. */
  lemma PartGrows(disk: map<Path, Node>, names: set<Path>, p: Path)
    requires p in disk && p !in names && names <= disk.Keys
    ensures |Part(disk, names + {p})| == |Part(disk, names)| + 1 <= |disk|
    ensures disk[p].File? ==> DiskSizes(Part(disk, names + {p})) == DiskSizes(Part(disk, names))[p := disk[p].size]
    ensures disk[p].Directory? ==> DiskSizes(Part(disk, names + {p})) == DiskSizes(Part(disk, names))
    ensures Sum(DiskSizes(Part(disk, names + {p}))) ==
      Sum(DiskSizes(Part(disk, names))) + (if disk[p].File? then disk[p].size else 0) <= Sum(DiskSizes(disk))
  {
    var more := names + {p};
    assert Part(disk, names).Keys == names && Part(disk, more).Keys == more;
    assert |more| <= |disk.Keys| by { if |more| > |disk.Keys| { SubsetCount(more, disk.Keys); } }
    if disk[p].File? {
      assert DiskSizes(Part(disk, more)) == DiskSizes(Part(disk, names))[p := disk[p].size];
      SumPut(DiskSizes(Part(disk, names)), p, disk[p].size);
    } else {
      assert DiskSizes(Part(disk, more)) == DiskSizes(Part(disk, names));
    }
    SumOfPart(DiskSizes(Part(disk, more)), DiskSizes(disk));
  }

  lemma {:induction false} SubsetCount(a: set<Path>, b: set<Path>)
    requires a <= b
    ensures |a| <= |b|
  {
    if a != {} {
      var p :| p in a;
      SubsetCount(a - {p}, b - {p});
    }
  }

  ghost predicate Scanned(limits: Limits, disk: map<Path, Node>, done: set<Path>, usage: Usage) {
    done <= disk.Keys && usage == UsageOf(Part(disk, done)) && WithinLimits(limits, Part(disk, done))
  }

  lemma PartWithin(limits: Limits, disk: map<Path, Node>, done: set<Path>, p: Path)
    requires p in disk && p !in done && done <= disk.Keys && WithinLimits(limits, Part(disk, done))
    ensures WithinLimits(limits, Part(disk, done + {p})) <==>
      && PathOk(limits, p) && FitsFile(limits, disk[p]) && |Part(disk, done)| + 1 <= limits.maxFiles
      && Sum(DiskSizes(Part(disk, done))) + (if disk[p].File? then disk[p].size else 0) <= limits.maxBytes
    ensures WithinLimits(limits, disk) ==> WithinLimits(limits, Part(disk, done + {p}))
  {
    PartGrows(disk, done, p);
    var part, more := Part(disk, done), Part(disk, done + {p});
    if PathOk(limits, p) && FitsFile(limits, disk[p]) {
      forall q ensures NameFits(limits, more, q) { assert NameFits(limits, part, q); }
    } else {
      assert !NameFits(limits, more, p);
    }
    if WithinLimits(limits, disk) {
      forall q ensures NameFits(limits, more, q) { assert NameFits(limits, disk, q); }
    }
  }

  /** All names have been looked at but those in `rest`. */
  ghost predicate ScannedBut(limits: Limits, disk: map<Path, Node>, rest: set<Path>, usage: Usage) {
    rest <= disk.Keys && Scanned(limits, disk, disk.Keys - rest, usage)
  }

  /** What an entry adds, if it is within the limits. */
  method ScanEntry(limits: Limits, disk: map<Path, Node>, name: Path, usage: Usage, ghost rest: set<Path>)
    returns (r: Option<Usage>)
    requires name in rest && ScannedBut(limits, disk, rest, usage)
    ensures r.Some? ==> ScannedBut(limits, disk, rest - {name}, r.value)
    ensures r.None? ==> !WithinLimits(limits, disk)
  {
    ghost var done := disk.Keys - rest;
    PartGrows(disk, done, name);
    PartWithin(limits, disk, done, name);
    r := AddEntry(limits, name, disk[name], usage);
    if r.Some? {
      EntryAdded(disk, done, name, r.value);
      assert disk.Keys - (rest - {name}) == done + {name};
    }
  }

  function WithEntry(usage: Usage, name: Path, node: Node): Usage {
    var counted := usage.(files := usage.files + 1, entries := usage.entries[name := node.Directory?]);
    if node.File? then counted.(sizes := usage.sizes[name := node.size], bytes := usage.bytes + node.size) else counted
  }

  method AddEntry(limits: Limits, name: Path, node: Node, usage: Usage) returns (r: Option<Usage>)
    requires usage.bytes <= limits.maxBytes
    ensures r.Some? <==>
      (PathOk(limits, name) && FitsFile(limits, node) && usage.files + 1 <= limits.maxFiles
       && usage.bytes + (if node.File? then node.size else 0) <= limits.maxBytes)
    ensures r.Some? ==> r.value == WithEntry(usage, name, node)
  {
    if !PathOk(limits, name) { return None; }
    var next := usage.(files := usage.files + 1);
    if next.files > limits.maxFiles { return None; }
    next := next.(entries := next.entries[name := node.Directory?]);
    if node.File? {
      if node.size > limits.maxFileBytes || node.size > limits.maxBytes - next.bytes { return None; }
      next := next.(sizes := next.sizes[name := node.size], bytes := next.bytes + node.size);
    }
    return Some(next);
  }

  lemma EntryAdded(disk: map<Path, Node>, done: set<Path>, p: Path, usage: Usage)
    requires p in disk && p !in done && done <= disk.Keys && usage == WithEntry(UsageOf(Part(disk, done)), p, disk[p])
    ensures usage == UsageOf(Part(disk, done + {p}))
  {
    PartGrows(disk, done, p);
    KindsGrow(disk, done, p);
  }

  lemma KindsGrow(disk: map<Path, Node>, done: set<Path>, p: Path)
    requires p in disk && p !in done
    ensures Kinds(Part(disk, done + {p})) == Kinds(Part(disk, done))[p := disk[p].Directory?]
  {
  }

  /** The names are looked at in any order; one that exceeds a limit ends the scan. */
  method ScanNames(limits: Limits, disk: map<Path, Node>) returns (r: Option<Usage>)
    ensures r.Some? <==> WithinLimits(limits, disk)
    ensures r.Some? ==> Scanned(limits, disk, disk.Keys, r.value)
  {
    var usage := Usage(map[], map[], 0, 0);
    var rest := disk.Keys;
    NothingScanned(limits, disk);
    while rest != {}
      invariant ScannedBut(limits, disk, rest, usage)
      decreases rest
    {
      var name :| name in rest;
      var added := ScanEntry(limits, disk, name, usage, rest);
      if added.None? { return None; }
      usage, rest := added.value, rest - {name};
    }
    AllScanned(limits, disk, usage);
    return Some(usage);
  }

  lemma AllScanned(limits: Limits, disk: map<Path, Node>, usage: Usage)
    requires ScannedBut(limits, disk, {}, usage)
    ensures Scanned(limits, disk, disk.Keys, usage) && WithinLimits(limits, disk)
  {
    assert disk.Keys - {} == disk.Keys && Part(disk, disk.Keys) == disk;
  }

  /** The scan succeeds if and only if the tree is within the limits; then the index is in order. */
  method ScanTree(limits: Limits, disk: map<Path, Node>, next: nat) returns (r: Option<Fs>)
    ensures r.Some? <==> WithinLimits(limits, disk)
    ensures r.Some? && IsTree(disk, next) ==> Inv(r.value) && r.value.disk == disk && r.value.limits == limits
  {
    var usage := ScanNames(limits, disk);
    if usage.None? { return None; }
    var fs := FromScan(limits, disk, next, usage.value);
    return Some(fs);
  }

  lemma NothingScanned(limits: Limits, disk: map<Path, Node>)
    ensures ScannedBut(limits, disk, disk.Keys, Usage(map[], map[], 0, 0))
  {
    assert disk.Keys - disk.Keys == {} && Part(disk, {}) == map[] && DiskSizes(map[]) == map[];
  }

  /** The filesystem of a tree that has been scanned to the end. */
  method FromScan(limits: Limits, disk: map<Path, Node>, next: nat, usage: Usage) returns (fs: Fs)
    requires Scanned(limits, disk, disk.Keys, usage)
    ensures WithinLimits(limits, disk) && fs.disk == disk && fs.limits == limits
    ensures IsTree(disk, next) ==> Inv(fs)
  {
    assert Part(disk, disk.Keys) == disk;
    fs := NewFs(limits, disk, next, usage);
    ScannedIsOk(fs);
  }

  lemma ScannedIsOk(fs: Fs)
    requires WithinLimits(fs.limits, fs.disk)
    requires fs == NewFs(fs.limits, fs.disk, fs.next, UsageOf(fs.disk))
    ensures IsTree(fs.disk, fs.next) ==> Inv(fs)
  {
    if !IsTree(fs.disk, fs.next) { return; }
    forall p | p in fs.disk ensures EntryOk(fs, p) {
      assert NodeOk(fs.disk, fs.next, p) && NameFits(fs.limits, fs.disk, p);
      if Parent(p) != [] { assert NodeOk(fs.disk, fs.next, Parent(p)); }
    }
    assert fs.entries.Keys == fs.disk.Keys;
    forall p ensures CountOk(fs.open, fs.handles, p) { }
  }

  // ------------------------------------------------------------- a write to a directory

  const READ_ONLY := Flags(false, false, false, false, false, false)

  /** Opening the root of an empty tree and writing nothing to it exceeds a small limit. */
  lemma RootWriteExceeds(limits: Limits, dirSize: nat)
    requires dirSize > limits.maxBytes
    ensures var fs := NewFs(limits, map[], 1, UsageOf(map[]));
      var (errno, there) := OpenFile(fs, ".", READ_ONLY, false);
      && errno == EOK && Inv(there) && |there.handles| == 1
      && Write(there, 0, 0, 0, HostWrite(0, false, dirSize)).1.bytes > limits.maxBytes
  {
    var fs := NewFs(limits, map[], 1, UsageOf(map[]));
    assert DiskSizes(map[]) == map[];
    ScannedIsOk(fs);
    var there := OpenFile(fs, ".", READ_ONLY, false).1;
    OpenKeeps(fs, ".", READ_ONLY, false, there);
    DirectoryWriteCounts(there, 0, 0, HostWrite(0, false, dirSize), Write(there, 0, 0, 0, HostWrite(0, false, dirSize)).1);
  }
}
