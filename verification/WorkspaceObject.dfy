/**
 The filesystem as it runs: each operation checks, asks the host and then updates its maps in
 place. The host's tree is the field `disk`; methods that begin with `Host` are the host.
 */
module WorkspaceObject {
  import opened Options
  import opened WorkspaceModel
  import opened WorkspaceSums
  import opened WorkspaceIndex

  // ---------------------------------------------------------------------------- renaming

  /** The map after the names in `done` have been moved, in whatever order. */
  ghost function PartRenamed<T>(m: map<Path, T>, done: set<Path>, from: Path, to: Path): map<Path, T> {
    (m - done) + Renamed(m - (m.Keys - done), from, to)
  }

  lemma NoneRenamed<T>(m: map<Path, T>, from: Path, to: Path)
    ensures PartRenamed(m, {}, from, to) == m
  {
    assert m - (m.Keys - {}) == map[];
  }

  /** What stands at a name in the course of the moves. */
  lemma PartRenamedAt<T>(m: map<Path, T>, done: set<Path>, from: Path, to: Path, q: Path)
    requires Movable(m, from, to) && forall p :: p in done ==> Under(from, p)
    ensures var r, was := PartRenamed(m, done, from, to), Moved(to, from, q);
      if Under(to, q) then
        (q in r <==> was in m && was in done) && (q in r ==> r[q] == m[was])
      else
        (q in r <==> q in m && q !in done) && (q in r ==> r[q] == m[q])
  {
    var part := m - (m.Keys - done);
    if q in Renamed(part, from, to) {
      RenamedFrom(part, from, to, q);
      MovedBack(from, to, Moved(to, from, q));
    }
    if Under(to, q) {
      var was := Moved(to, from, q);
      if was in m && was in done { RenamedAt(part, from, to, was); MovedThere(from, to, q); }
    }
  }

  lemma MovedThere(from: Path, to: Path, q: Path)
    requires Under(to, q)
    ensures Under(from, Moved(to, from, q)) && Moved(from, to, Moved(to, from, q)) == q
  {
    var p := Moved(to, from, q);
    assert p[..|from|] == from && p[|from|..] == q[|to|..];
    assert q == to + q[|to|..];
  }

  /** The names for which one more move makes a difference. */
  lemma OneMoreAt<T>(m: map<Path, T>, done: set<Path>, from: Path, to: Path, p: Path, q: Path)
    requires Movable(m, from, to) && (forall r :: r in done ==> Under(from, r)) && p !in done && Under(from, p) && !Under(to, p)
    ensures var a, b := PartRenamed(m, done, from, to), PartRenamed(m, done + {p}, from, to);
      if p in m && q == Moved(from, to, p) then q in b && b[q] == m[p]
      else if p in m && q == p then q !in b
      else (q in b <==> q in a) && (q in b ==> b[q] == a[q])
  {
    PartRenamedAt(m, done, from, to, q);
    PartRenamedAt(m, done + {p}, from, to, q);
    MovedBack(from, to, p);
    if Under(to, q) { MovedThere(from, to, q); }
  }

  lemma OneMoreRenamed<T>(m: map<Path, T>, done: set<Path>, from: Path, to: Path, p: Path)
    requires Movable(m, from, to) && (forall q :: q in done ==> Under(from, q)) && p !in done && Under(from, p) && !Under(to, p)
    ensures p in PartRenamed(m, done, from, to) <==> p in m
    ensures p in m ==> PartRenamed(m, done, from, to)[p] == m[p]
    ensures p in m ==> PartRenamed(m, done + {p}, from, to) == PartRenamed(m, done, from, to)[Moved(from, to, p) := m[p]] - {p}
    ensures p !in m ==> PartRenamed(m, done + {p}, from, to) == PartRenamed(m, done, from, to)
  {
    var a, b := PartRenamed(m, done, from, to), PartRenamed(m, done + {p}, from, to);
    PartRenamedAt(m, done, from, to, p);
    MovedBack(from, to, p);
    forall q ensures
      if p in m && q == Moved(from, to, p) then q in b && b[q] == m[p]
      else if p in m && q == p then q !in b
      else (q in b <==> q in a) && (q in b ==> b[q] == a[q])
    {
      OneMoreAt(m, done, from, to, p, q);
    }
    if p in m { SameMaps(b, a[Moved(from, to, p) := m[p]] - {p}); } else { SameMaps(b, a); }
  }

  lemma SameMaps<T>(a: map<Path, T>, b: map<Path, T>)
    requires forall q :: (q in a <==> q in b) && (q in a ==> a[q] == b[q])
    ensures a == b
  {
  }

  lemma AllRenamed<T>(m: map<Path, T>, done: set<Path>, from: Path, to: Path)
    requires Movable(m, from, to) && forall p :: Under(from, p) && p in m ==> p in done
    requires forall p :: p in done ==> Under(from, p)
    ensures PartRenamed(m, done, from, to) == Renamed(m, from, to)
  {
    var a, b := PartRenamed(m, done, from, to), Renamed(m, from, to);
    forall q
      ensures q in a <==> q in b
      ensures q in a ==> a[q] == b[q]
    {
      PartRenamedAt(m, done, from, to, q);
      if q in b {
        RenamedFrom(m, from, to, q);
        MovedBack(from, to, Moved(to, from, q));
      }
      if q in a {
        if Under(to, q) { MovedThere(from, to, q); RenamedAt(m, from, to, Moved(to, from, q)); }
        else { RenamedAt(m, from, to, q); }
      }
    }
  }

  // ------------------------------------------------------------------------- the object

  class RootedFs {
    const limits: Limits
    var closed: bool
    var entries: map<Path, bool>
    var sizes: map<Path, nat>
    var files: int
    var bytes: int
    var open: map<Path, nat>
    var handles: seq<Handle>
    var disk: map<Path, Node>
    var next: nat

    ghost function Snapshot(): Fs
      reads this
    {
      Fs(limits, closed, entries, sizes, files, bytes, open, handles, disk, next)
    }

    constructor (fs: Fs)
      ensures Snapshot() == fs
    {
      limits, closed, entries, sizes, files := fs.limits, fs.closed, fs.entries, fs.sizes, fs.files;
      bytes, open, handles, disk, next := fs.bytes, fs.open, fs.handles, fs.disk, fs.next;
    }

    // ------------------------------------------------------------------------- checks

    method ValidateComponents(p: Path, allowMissing: bool) returns (errno: Errno)
      ensures errno == Validate(Snapshot(), p, allowMissing)
    {
      if p == [] { return EOK; }
      if closed { return EBADF; }
      for k := 1 to |p| + 1
        invariant k <= |p| ==> ValidateFrom(disk, p, 1, allowMissing) == ValidateFrom(disk, p, k, allowMissing)
        invariant k == |p| + 1 ==> ValidateFrom(disk, p, 1, allowMissing) == EOK
      {
        var current := p[..k];
        if current !in disk {
          if allowMissing && k == |p| { return EOK; }
          return ENOENT;
        }
        if k < |p| && disk[current].File? { return ENOTDIR; }
      }
      return EOK;
    }

    method HasOpenAtOrBelow(p: Path) returns (found: bool)
      ensures found == HasOpenUnder(Snapshot(), p)
    {
      var rest := open.Keys;
      while rest != {}
        invariant rest <= open.Keys
        invariant forall q :: q in open && q !in rest ==> !(open[q] > 0 && Under(p, q))
        decreases rest
      {
        var q :| q in rest;
        if open[q] > 0 && Under(p, q) { return true; }
        rest := rest - {q};
      }
      return false;
    }

    method ParentIsDirectory(p: Path) returns (ok: bool)
      requires p != []
      ensures ok == IsDir(Snapshot(), Parent(p))
    {
      var parent := p[..|p| - 1];
      if parent == [] { return true; }
      return parent in entries && entries[parent];
    }

    // ----------------------------------------------------------------------- opening

    method HostOpen(p: Path, fl: Flags, refuses: bool) returns (errno: Errno)
      modifies this`disk, this`next
      ensures errno == if refuses then EIO else DiskOpen(old(disk), p, fl)
      ensures errno != EOK ==> disk == old(disk) && next == old(next)
      ensures errno == EOK ==>
        var made := if p == [] || p in old(disk) then old(disk) else old(disk)[p := File(old(next), 0)];
        && next == (if p == [] || p in old(disk) then old(next) else old(next) + 1)
        && disk == if fl.truncate then DiskResize(made, if p in made then made[p].id else 0, 0) else made
    {
      if refuses { return EIO; }
      errno := DiskOpen(disk, p, fl);
      if errno != EOK { return; }
      if p != [] && p !in disk {
        disk, next := disk[p := File(next, 0)], next + 1;
      }
      if fl.truncate { disk := DiskResize(disk, disk[p].id, 0); }
    }

    method CheckOpen(p: Path, fl: Flags) returns (errno: Errno)
      ensures errno == OpenChecks(Snapshot(), p, fl)
    {
      if closed { return EBADF; }
      errno := ValidateComponents(p, fl.create);
      if errno != EOK { return; }
      var there := p in entries;
      if p == [] { there := true; } else if (p in disk) != there { return EPERM; }
      if fl.create && !there && files >= limits.maxFiles { return EACCES; }
      if !there && fl.create {
        var ok := ParentIsDirectory(p);
        if !ok { return ENOENT; }
      }
      return EOK;
    }

    /** What the index notes of a file that the host has opened. */
    method NoteOpened(p: Path, fl: Flags, there: bool)
      modifies this`entries, this`sizes, this`files, this`bytes, this`open, this`handles
      ensures var size := if there then Size(old(Snapshot()), p) else 0;
        && entries == (if there then old(entries) else old(entries)[p := false])
        && sizes == (if there && !fl.truncate then old(sizes) else old(sizes)[p := 0])
        && files == (if there then old(files) else old(files) + 1)
        && bytes == (if fl.truncate then old(bytes) - size else old(bytes))
        && open == old(open)[p := OpenCount(old(Snapshot()), p) + 1]
        && handles == old(handles) + [Handle(p, if p in disk then disk[p].id else 0, fl.append, false)]
    {
      if !there {
        entries, sizes, files := entries[p := false], sizes[p := 0], files + 1;
      }
      if fl.truncate {
        bytes := bytes - (if p in sizes then sizes[p] else 0);
        sizes := sizes[p := 0];
      }
      open := open[p := (if p in open then open[p] else 0) + 1];
      handles := handles + [Handle(p, if p in disk then disk[p].id else 0, fl.append, false)];
    }

    method Open(name: string, fl: Flags, refuses: bool) returns (errno: Errno)
      modifies this
      ensures (errno, Snapshot()) == OpenFile(old(Snapshot()), name, fl, refuses)
    {
      var cleaned := Clean(limits, name, true);
      if cleaned.None? { return EPERM; }
      var p := cleaned.value;
      errno := CheckOpen(p, fl);
      if errno != EOK { return; }
      ghost var was := Snapshot();
      errno := HostOpen(p, fl, refuses);
      if errno != EOK { return; }
      NoteOpened(p, fl, p == [] || p in entries);
      OpenedIs(was, p, fl, Snapshot());
    }

    // -------------------------------------------------------------- directories and names

    method CheckMkdir(p: Path) returns (errno: Errno)
      requires p != []
      ensures errno == MkdirChecks(Snapshot(), p)
    {
      if closed { return EBADF; }
      errno := ValidateComponents(p, true);
      if errno != EOK { return; }
      if p in entries { return EEXIST; }
      if files >= limits.maxFiles { return EACCES; }
      var ok := ParentIsDirectory(p);
      return if ok then EOK else ENOENT;
    }

    method MakeDirectory(name: string, refuses: bool) returns (errno: Errno)
      modifies this
      ensures (errno, Snapshot()) == Mkdir(old(Snapshot()), name, refuses)
    {
      var cleaned := Clean(limits, name, false);
      if cleaned.None? || cleaned.value == [] { return EPERM; }
      var p := cleaned.value;
      errno := CheckMkdir(p);
      if errno != EOK { return; }
      if refuses { return EIO; }
      if p in disk { return EEXIST; }
      disk, next := disk[p := Directory(next)], next + 1;
      entries := entries[p := true];
      files := files + 1;
    }

    method CheckRename(from: Path, to: Path) returns (errno: Errno)
      requires from != [] && to != []
      ensures errno == RenameFirstChecks(Snapshot(), from, to)
    {
      errno := ValidateComponents(from, false);
      if errno != EOK { return; }
      errno := ValidateComponents(to, true);
      if errno != EOK { return; }
      if to in entries { return EEXIST; }
      var found := HasOpenAtOrBelow(from);
      if !found { found := HasOpenAtOrBelow(to); }
      if found { return EACCES; }
      var ok := ParentIsDirectory(to);
      return if ok then EOK else ENOENT;
    }

    /** The names that move, each with its new name; none if one of the new names is not in order. */
    method CollectUpdates(from: Path, to: Path) returns (updates: Option<map<Path, Path>>)
      ensures updates.None? <==> !MovesOk(Snapshot(), from, to)
      ensures updates.Some? ==> updates.value == map p | p in entries && Under(from, p) :: Moved(from, to, p)
    {
      var rest, found: map<Path, Path> := entries.Keys, map[];
      while rest != {}
        invariant rest <= entries.Keys
        invariant found == map p | p in entries && Under(from, p) && p !in rest :: Moved(from, to, p)
        invariant forall p :: p in found ==> PathOk(limits, found[p])
        decreases rest
      {
        var existing :| existing in rest;
        if Under(from, existing) {
          var replacement := to + existing[|from|..];
          if !PathOk(limits, replacement) {
            assert Moved(from, to, existing) == replacement;
            return None;
          }
          found := found[existing := replacement];
        }
        rest := rest - {existing};
      }
      assert forall p :: p in entries && Under(from, p) ==> p in found && found[p] == Moved(from, to, p);
      return Some(found);
    }

    /** The moves in any order: the result is the same. */
    method MoveEntries(updates: map<Path, Path>, from: Path, to: Path)
      requires updates == map p | p in entries && Under(from, p) :: Moved(from, to, p)
      requires Movable(entries, from, to) && Movable(sizes, from, to) && sizes.Keys <= entries.Keys
      modifies this`entries, this`sizes
      ensures entries == Renamed(old(entries), from, to) && sizes == Renamed(old(sizes), from, to)
    {
      ghost var e, s := entries, sizes;
      var rest := updates.Keys;
      ghost var done: set<Path> := {};
      NoneRenamed(e, from, to);
      NoneRenamed(s, from, to);
      while rest != {}
        invariant rest + done == updates.Keys && rest !! done
        invariant entries == PartRenamed(e, done, from, to) && sizes == PartRenamed(s, done, from, to)
        decreases rest
      {
        var oldName :| oldName in rest;
        var newName := updates[oldName];
        OneMoreRenamed(e, done, from, to, oldName);
        OneMoreRenamed(s, done, from, to, oldName);
        entries := entries[newName := entries[oldName]];
        entries := entries - {oldName};
        if oldName in sizes {
          sizes := sizes[newName := sizes[oldName]];
          sizes := sizes - {oldName};
        }
        rest, done := rest - {oldName}, done + {oldName};
      }
      AllRenamed(e, done, from, to);
      AllRenamed(s, done, from, to);
    }

    method Move(from: string, to: string, refuses: bool) returns (errno: Errno)
      requires Inv(Snapshot())
      modifies this
      ensures (errno, Snapshot()) == Rename(old(Snapshot()), from, to, refuses)
    {
      var cleanFrom := Clean(limits, from, false);
      if cleanFrom.None? || cleanFrom.value == [] { return EPERM; }
      var cleanTo := Clean(limits, to, false);
      if cleanTo.None? || cleanTo.value == [] { return EPERM; }
      errno := MoveClean(cleanFrom.value, cleanTo.value, refuses);
    }

    method MoveClean(from: Path, to: Path, refuses: bool) returns (errno: Errno)
      requires Inv(Snapshot()) && from != [] && to != []
      modifies this`disk, this`entries, this`sizes
      ensures (errno, Snapshot()) == RenameClean(old(Snapshot()), from, to, refuses)
    {
      errno := CheckRename(from, to);
      if errno != EOK { return; }
      var updates := CollectUpdates(from, to);
      RenameChecked(Snapshot(), from, to, updates);
      if updates.None? { return EPERM; }
      if updates.value == map[] { return ENOENT; }
      if refuses { return EIO; }
      if Under(from, to) { return EINVAL; }
      MoveAll(updates.value, from, to);
    }

    method MoveAll(updates: map<Path, Path>, from: Path, to: Path)
      requires updates == map p | p in entries && Under(from, p) :: Moved(from, to, p)
      requires Movable(entries, from, to) && Movable(sizes, from, to) && sizes.Keys <= entries.Keys
      modifies this`disk, this`entries, this`sizes
      ensures Snapshot() == AfterRename(old(Snapshot()), from, to)
    {
      disk := Renamed(disk, from, to);
      MoveEntries(updates, from, to);
    }

    method CheckUnlink(p: Path) returns (errno: Errno)
      ensures errno == UnlinkChecks(Snapshot(), p)
    {
      errno := ValidateComponents(p, false);
      if errno != EOK { return; }
      if p !in entries { return ENOENT; }
      if entries[p] { return EISDIR; }
      if p in open && open[p] != 0 { return EACCES; }
      return EOK;
    }

    method Remove(name: string, refuses: bool) returns (errno: Errno)
      modifies this
      ensures (errno, Snapshot()) == Unlink(old(Snapshot()), name, refuses)
    {
      var cleaned := Clean(limits, name, false);
      if cleaned.None? { return EPERM; }
      var p := cleaned.value;
      errno := CheckUnlink(p);
      if errno != EOK { return; }
      if refuses { return EIO; }
      disk := disk - {p};
      files := files - 1;
      bytes := bytes - (if p in sizes then sizes[p] else 0);
      entries := entries - {p};
      sizes := sizes - {p};
    }

    method CheckRmdir(p: Path) returns (errno: Errno)
      ensures errno == RmdirChecks(Snapshot(), p)
    {
      errno := ValidateComponents(p, false);
      if errno != EOK { return; }
      if p !in entries { return ENOENT; }
      if !entries[p] { return ENOTDIR; }
      var found := HasOpenAtOrBelow(p);
      return if found then EACCES else EOK;
    }

    method RemoveDirectory(name: string, refuses: bool) returns (errno: Errno)
      modifies this
      ensures (errno, Snapshot()) == Rmdir(old(Snapshot()), name, refuses)
    {
      var cleaned := Clean(limits, name, false);
      if cleaned.None? { return EPERM; }
      var p := cleaned.value;
      errno := CheckRmdir(p);
      if errno != EOK { return; }
      if refuses { return EIO; }
      if HasBelow(disk, p) { return ENOTEMPTY; }
      disk := disk - {p};
      files := files - 1;
      entries := entries - {p};
    }

    // -------------------------------------------------------------------- open files

    method CloseFile(h: nat)
      requires h < |handles|
      modifies this`open, this`handles
      ensures Snapshot() == Close(old(Snapshot()), h)
    {
      var f := handles[h];
      if f.closed { return; }
      var count := if f.name in open then open[f.name] else 0;
      if count <= 1 { open := open - {f.name}; } else { open := open[f.name := count - 1]; }
      handles := handles[h := f.(closed := true)];
    }

    method ReserveSize(p: Path, size: nat) returns (ok: bool)
      modifies this`sizes, this`bytes
      ensures ok <==> Reserve(old(Snapshot()), p, size).Some?
      ensures Snapshot() == if ok then Reserve(old(Snapshot()), p, size).value else old(Snapshot())
    {
      var current := if p in sizes then sizes[p] else 0;
      if size <= current { return true; }
      if size > limits.maxFileBytes || bytes > limits.maxBytes { return false; }
      var delta := size - current;
      if delta > limits.maxBytes - bytes { return false; }
      sizes := sizes[p := size];
      bytes := bytes + delta;
      return true;
    }

    /** `stat` is the host's answer, if it has one. */
    method ReconcileSize(p: Path, fallback: nat, stat: Option<nat>)
      modifies this`sizes, this`bytes
      ensures Snapshot() == Reconcile(old(Snapshot()), p, if stat.Some? then stat.value else fallback)
    {
      var actual := if stat.Some? then stat.value else fallback;
      var reserved := if p in sizes then sizes[p] else 0;
      if actual < reserved {
        bytes := bytes - (reserved - actual);
      } else if actual > reserved {
        bytes := bytes + (actual - reserved);
      }
      sizes := sizes[p := actual];
    }

    /** The part that both kinds of write share. */
    method WriteFrom(h: nat, offset: int, pos: nat, len: nat, host: HostWrite) returns (errno: Errno)
      requires h < |handles|
      modifies this`sizes, this`bytes, this`disk
      ensures (errno, Snapshot()) == WriteAt(old(Snapshot()), handles[h], offset, pos, len, host)
    {
      var f := handles[h];
      var current := if f.name in sizes then sizes[f.name] else 0;
      if offset < 0 || offset > current || offset + len > MAX_U64 { return EACCES; }
      var ok := ReserveSize(f.name, offset + len);
      if !ok { return EACCES; }
      HostWrites(f, pos, len, host, current);
      return if host.written < len then EIO else EOK;
    }

    /** The host writes, and the size that it gives then is noted. */
    method HostWrites(f: Handle, pos: nat, len: nat, host: HostWrite, current: nat)
      modifies this`sizes, this`bytes, this`disk
      ensures var disk' := DiskWrite(old(disk), f, pos, Least(host.written, len));
        var actual := if host.statFails then current else StatSize(disk', f.name, host.dirSize);
        Snapshot() == Reconcile(old(Snapshot()), f.name, actual).(disk := disk')
    {
      disk := DiskWrite(disk, f, pos, Least(host.written, len));
      var size := StatSize(disk, f.name, host.dirSize);
      ReconcileSize(f.name, current, if host.statFails then None else Some(size));
    }

    method WriteFile(h: nat, len: nat, seek: int, host: HostWrite) returns (errno: Errno)
      requires h < |handles|
      modifies this`sizes, this`bytes, this`disk
      ensures (errno, Snapshot()) == Write(old(Snapshot()), h, len, seek, host)
    {
      var f := handles[h];
      if f.closed || closed { return EBADF; }
      var current := if f.name in sizes then sizes[f.name] else 0;
      if f.append {
        var end := if f.name in disk && disk[f.name].id == f.node then NodeSize(disk, f.name) else 0;
        errno := WriteFrom(h, current, end, len, host);
      } else {
        errno := WriteFrom(h, seek, if seek < 0 then 0 else seek, len, host);
      }
    }

    method WriteFileAt(h: nat, len: nat, offset: int, host: HostWrite) returns (errno: Errno)
      requires h < |handles|
      modifies this`sizes, this`bytes, this`disk
      ensures (errno, Snapshot()) == Pwrite(old(Snapshot()), h, len, offset, host)
    {
      if handles[h].closed || closed { return EBADF; }
      errno := WriteFrom(h, offset, if offset < 0 then 0 else offset, len, host);
    }

    method TruncateFile(h: nat, size: int, refuses: bool) returns (errno: Errno)
      requires h < |handles|
      modifies this`sizes, this`bytes, this`disk
      ensures (errno, Snapshot()) == Truncate(old(Snapshot()), h, size, refuses)
    {
      var f := handles[h];
      if f.closed || closed { return EBADF; }
      var current := if f.name in sizes then sizes[f.name] else 0;
      if size < 0 || size > current { return EACCES; }
      if refuses { return EIO; }
      if !(f.name in disk && disk[f.name].File?) { return EISDIR; }
      disk := DiskResize(disk, f.node, size);
      bytes := bytes - (current - size);
      sizes := sizes[f.name := size];
      return EOK;
    }
  }

  lemma UpdatesOfNothing(entries: map<Path, bool>, from: Path, updates: map<Path, Path>)
    requires updates.Keys == set p | p in entries && Under(from, p)
    ensures updates == map[] <==> !HasUnder(entries, from)
  {
    if HasUnder(entries, from) {
      var q :| q in entries && Under(from, q);
      assert q in updates.Keys;
    }
    if updates != map[] {
      var p := Pick(updates);
      assert p in updates.Keys;
    }
  }

  /** What is left to check once the names that move are collected. */
  lemma RenameChecked(fs: Fs, from: Path, to: Path, updates: Option<map<Path, Path>>)
    requires EntriesOk(fs) && from != [] && to != [] && RenameFirstChecks(fs, from, to) == EOK
    requires updates.None? <==> !MovesOk(fs, from, to)
    requires updates.Some? ==> updates.value.Keys == set p | p in fs.entries && Under(from, p)
    ensures RenameChecks(fs, from, to) == if updates.None? then EPERM else if updates.value == map[] then ENOENT else EOK
    ensures fs.sizes.Keys <= fs.entries.Keys
    ensures !Under(from, to) ==> Movable(fs.entries, from, to) && Movable(fs.sizes, from, to)
  {
    ValidatedIsThere(fs.disk, from, 1);
    if !Under(from, to) { RenameIsMovable(fs, from, to); }
    if updates.Some? { UpdatesOfNothing(fs.entries, from, updates.value); }
  }

  /** The host's part and the index's part of an open make up the specified state. */
  lemma OpenedIs(fs: Fs, p: Path, fl: Flags, fs': Fs)
    requires OpenChecks(fs, p, fl) == EOK && DiskOpen(fs.disk, p, fl) == EOK
    requires var made := if p == [] || p in fs.disk then fs.disk else fs.disk[p := File(fs.next, 0)];
      var there := p == [] || p in fs.entries;
      && fs'.disk == (if fl.truncate then DiskResize(made, if p in made then made[p].id else 0, 0) else made)
      && fs' == fs.(disk := fs'.disk,
           next := if p == [] || p in fs.disk then fs.next else fs.next + 1,
           entries := if there then fs.entries else fs.entries[p := false],
           sizes := if there && !fl.truncate then fs.sizes else fs.sizes[p := 0],
           files := if there then fs.files else fs.files + 1,
           bytes := if fl.truncate && there then fs.bytes - Size(fs, p) else fs.bytes,
           open := fs.open[p := OpenCount(fs, p) + 1],
           handles := fs.handles + [Handle(p, NodeAt(fs', p), fl.append, false)])
    ensures fs' == Opened(fs, p, fl)
  {
  }
}
