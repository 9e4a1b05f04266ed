/**
 The workspace filesystem (runtime/workspace/fs.go): an index of names, kinds and sizes that is
 kept beside the host's tree and holds it to its limits.

 A name is the list of its parts; the root is the empty list. Every file and directory of the
 host's tree has a number that it keeps when it is renamed. What the host may do is a parameter:
 it may refuse a request, and it may write less than it was given.
 */
module WorkspaceModel {
  import opened Options

  type Path = seq<string>

  const MAX_PATH: nat := 4096
  const MAX_U64: nat := 0xffff_ffff_ffff_ffff

  datatype Errno = EOK | EPERM | EBADF | ENOENT | ENOTDIR | EEXIST | EACCES | EISDIR | EINVAL | ENOTEMPTY | EIO

  datatype Limits = Limits(maxFiles: nat, maxBytes: nat, maxFileBytes: nat, maxDepth: nat)

  datatype Node =
    | Directory(id: nat)
    | File(id: nat, size: nat)

  /** An open file: the name it was opened by and the node that the host holds. */
  datatype Handle = Handle(name: Path, node: nat, append: bool, closed: bool)

  /** `entries` says which names are directories; `disk` is the host's tree without its root, node 0. */
  datatype Fs = Fs(
    limits: Limits,
    closed: bool,
    entries: map<Path, bool>,
    sizes: map<Path, nat>,
    files: int,
    bytes: int,
    open: map<Path, nat>,
    handles: seq<Handle>,
    disk: map<Path, Node>,
    next: nat)

  // ------------------------------------------------------------------------------ names

  function TrimSlashes(s: string): string {
    if s != "" && s[|s| - 1] == '/' then TrimSlashes(s[..|s| - 1]) else s
  }

  /** The parts between the slashes; there is always at least one. */
  function Components(s: string): (r: Path)
    ensures |r| > 0
  {
    if s == "" then [""]
    else
      var rest := Components(s[1..]);
      if s[0] == '/' then [""] + rest else [[s[0]] + rest[0]] + rest[1..]
  }

  predicate PartOk(part: string) {
    part !in {"", ".", "..", ".git"} && forall i :: 0 <= i < |part| ==> part[i] !in {'\\', '\0', '/'}
  }

  predicate PartsOk(p: Path) {
    forall i {:trigger PartOk(p[i])} :: 0 <= i < |p| ==> PartOk(p[i])
  }

  /** How long the name is with its slashes. */
  function Length(p: Path): nat {
    if p == [] then 0 else if |p| == 1 then |p[0]| else |p[0]| + 1 + Length(p[1..])
  }

  predicate PathOk(limits: Limits, p: Path) {
    p != [] && |p| <= limits.maxDepth && Length(p) <= MAX_PATH && PartsOk(p)
  }

  /** A Guest's name, if it is in order; slashes at its end do not matter. */
  function Clean(limits: Limits, name: string, allowRoot: bool): Option<Path> {
    var trimmed := if name == "." then name else TrimSlashes(name);
    if trimmed == "." then if allowRoot then Some([]) else None
    else
      var p := Components(trimmed);
      if trimmed != "" && |trimmed| <= MAX_PATH && |p| <= limits.maxDepth && PartsOk(p) then Some(p) else None
  }

  predicate Under(p: Path, q: Path) {
    |p| <= |q| && q[..|p|] == p
  }

  function Parent(p: Path): Path
    requires p != []
  {
    p[..|p| - 1]
  }

  predicate IsDir(fs: Fs, p: Path) {
    p == [] || (p in fs.entries && fs.entries[p])
  }

  /** Every name on the way must be there, and every one but the last a directory. */
  function Validate(fs: Fs, p: Path, allowMissing: bool): Errno {
    if p == [] then EOK else if fs.closed then EBADF else ValidateFrom(fs.disk, p, 1, allowMissing)
  }

  function ValidateFrom(disk: map<Path, Node>, p: Path, k: nat, allowMissing: bool): Errno
    requires 1 <= k <= |p|
    decreases |p| - k
  {
    if p[..k] !in disk then if allowMissing && k == |p| then EOK else ENOENT
    else if k == |p| then EOK
    else if disk[p[..k]].File? then ENOTDIR
    else ValidateFrom(disk, p, k + 1, allowMissing)
  }

  // ------------------------------------------------------------------------- the host's tree

  datatype Flags = Flags(create: bool, exclusive: bool, truncate: bool, append: bool, directory: bool, write: bool)

  /** What the host says to an open besides a failure of its own. */
  function DiskOpen(disk: map<Path, Node>, p: Path, fl: Flags): Errno {
    if p == [] || (p in disk && disk[p].Directory?) then
      if fl.create || fl.truncate || fl.write then EISDIR else EOK
    else if p in disk then
      if fl.create && fl.exclusive then EEXIST else if fl.directory then ENOTDIR else EOK
    else if fl.create then EOK else ENOENT
  }

  /** The host writes to the node that a handle holds, wherever its name is. */
  function DiskResize(disk: map<Path, Node>, node: nat, size: nat): map<Path, Node> {
    map p | p in disk :: if disk[p].File? && disk[p].id == node then File(node, size) else disk[p]
  }

  /** A name after `from` has become `to`. */
  function Moved(from: Path, to: Path, p: Path): Path {
    if Under(from, p) then to + p[|from|..] else p
  }

  predicate HasBelow<T(!new)>(m: map<Path, T>, p: Path) {
    exists q :: q in m && Under(p, q) && q != p
  }

  // ------------------------------------------------------------------------- the operations

  function OpenCount(fs: Fs, p: Path): nat {
    if p in fs.open then fs.open[p] else 0
  }

  predicate HasOpenUnder(fs: Fs, p: Path) {
    exists q :: q in fs.open && fs.open[q] > 0 && Under(p, q)
  }

  function Size(fs: Fs, p: Path): nat {
    if p in fs.sizes then fs.sizes[p] else 0
  }

  function NodeAt(fs: Fs, p: Path): nat {
    if p in fs.disk then fs.disk[p].id else 0
  }

  /** What is checked before the host is asked to open a file. */
  function OpenChecks(fs: Fs, p: Path, fl: Flags): Errno {
    var there := p == [] || p in fs.entries;
    if fs.closed then EBADF
    else if Validate(fs, p, fl.create) != EOK then Validate(fs, p, fl.create)
    else if p != [] && (p in fs.disk) != there then EPERM
    else if fl.create && !there && fs.files >= fs.limits.maxFiles then EACCES
    else if fl.create && !there && !IsDir(fs, Parent(p)) then ENOENT
    else EOK
  }

  /** A new file, on the host and in the index. */
  function Created(fs: Fs, p: Path): Fs {
    fs.(disk := fs.disk[p := File(fs.next, 0)], next := fs.next + 1,
        entries := fs.entries[p := false], sizes := fs.sizes[p := 0], files := fs.files + 1)
  }

  function Emptied(fs: Fs, p: Path): Fs {
    fs.(disk := DiskResize(fs.disk, NodeAt(fs, p), 0), bytes := fs.bytes - Size(fs, p), sizes := fs.sizes[p := 0])
  }

  function WithHandle(fs: Fs, p: Path, append: bool): Fs {
    fs.(open := fs.open[p := OpenCount(fs, p) + 1],
        handles := fs.handles + [Handle(p, NodeAt(fs, p), append, false)])
  }

  function Opened(fs: Fs, p: Path, fl: Flags): Fs {
    var there := if p == [] || p in fs.entries then fs else Created(fs, p);
    WithHandle(if fl.truncate then Emptied(there, p) else there, p, fl.append)
  }

  /** On success the new handle is the last one. */
  function OpenFile(fs: Fs, name: string, fl: Flags, refuses: bool): (r: (Errno, Fs))
    ensures r.1.limits == fs.limits
  {
    match Clean(fs.limits, name, true)
    case None => (EPERM, fs)
    case Some(p) =>
      if OpenChecks(fs, p, fl) != EOK then (OpenChecks(fs, p, fl), fs)
      else if refuses then (EIO, fs)
      else if DiskOpen(fs.disk, p, fl) != EOK then (DiskOpen(fs.disk, p, fl), fs)
      else (EOK, Opened(fs, p, fl))
  }

  function MkdirChecks(fs: Fs, p: Path): Errno
    requires p != []
  {
    if fs.closed then EBADF
    else if Validate(fs, p, true) != EOK then Validate(fs, p, true)
    else if p in fs.entries then EEXIST
    else if fs.files >= fs.limits.maxFiles then EACCES
    else if !IsDir(fs, Parent(p)) then ENOENT
    else EOK
  }

  function Mkdir(fs: Fs, name: string, refuses: bool): (r: (Errno, Fs))
    ensures r.1.limits == fs.limits
  {
    match Clean(fs.limits, name, false)
    case None => (EPERM, fs)
    case Some(p) =>
      if p == [] then (EPERM, fs)
      else if MkdirChecks(fs, p) != EOK then (MkdirChecks(fs, p), fs)
      else if refuses then (EIO, fs)
      else if p in fs.disk then (EEXIST, fs)
      else (EOK, fs.(disk := fs.disk[p := Directory(fs.next)], next := fs.next + 1,
                     entries := fs.entries[p := true], files := fs.files + 1))
  }

  predicate HasUnder<T(!new)>(m: map<Path, T>, p: Path) {
    exists q :: q in m && Under(p, q)
  }

  /** The new names are in order. */
  predicate MovesOk(fs: Fs, from: Path, to: Path) {
    forall p :: p in fs.entries && Under(from, p) ==> PathOk(fs.limits, Moved(from, to, p))
  }

  function RenameFirstChecks(fs: Fs, from: Path, to: Path): Errno
    requires from != [] && to != []
  {
    if Validate(fs, from, false) != EOK then Validate(fs, from, false)
    else if Validate(fs, to, true) != EOK then Validate(fs, to, true)
    else if to in fs.entries then EEXIST
    else if HasOpenUnder(fs, from) || HasOpenUnder(fs, to) then EACCES
    else if !IsDir(fs, Parent(to)) then ENOENT
    else EOK
  }

  function RenameChecks(fs: Fs, from: Path, to: Path): Errno
    requires from != [] && to != []
  {
    if RenameFirstChecks(fs, from, to) != EOK then RenameFirstChecks(fs, from, to)
    else if !MovesOk(fs, from, to) then EPERM
    else if !HasUnder(fs.entries, from) then ENOENT
    else EOK
  }

  /** The map with every name at or below `from` moved to `to`. */
  function Renamed<T>(m: map<Path, T>, from: Path, to: Path): map<Path, T> {
    var names := set p | p in m :: Moved(from, to, p);
    map q | q in names && Moved(to, from, q) in m :: m[Moved(to, from, q)]
  }

  function AfterRename(fs: Fs, from: Path, to: Path): Fs {
    fs.(disk := Renamed(fs.disk, from, to), entries := Renamed(fs.entries, from, to), sizes := Renamed(fs.sizes, from, to))
  }

  /** The host moves the tree, but not into itself. */
  function RenameClean(fs: Fs, from: Path, to: Path, refuses: bool): (r: (Errno, Fs))
    ensures r.1.limits == fs.limits
    requires from != [] && to != []
  {
    if RenameChecks(fs, from, to) != EOK then (RenameChecks(fs, from, to), fs)
    else if refuses then (EIO, fs)
    else if Under(from, to) then (EINVAL, fs)
    else (EOK, AfterRename(fs, from, to))
  }

  function Rename(fs: Fs, from: string, to: string, refuses: bool): (r: (Errno, Fs))
    ensures r.1.limits == fs.limits
  {
    var p, q := Clean(fs.limits, from, false), Clean(fs.limits, to, false);
    if p.None? || q.None? || p.value == [] || q.value == [] then (EPERM, fs)
    else RenameClean(fs, p.value, q.value, refuses)
  }

  function UnlinkChecks(fs: Fs, p: Path): Errno {
    if Validate(fs, p, false) != EOK then Validate(fs, p, false)
    else if p !in fs.entries then ENOENT
    else if fs.entries[p] then EISDIR
    else if OpenCount(fs, p) != 0 then EACCES
    else EOK
  }

  function Unlink(fs: Fs, name: string, refuses: bool): (r: (Errno, Fs))
    ensures r.1.limits == fs.limits
  {
    match Clean(fs.limits, name, false)
    case None => (EPERM, fs)
    case Some(p) =>
      if UnlinkChecks(fs, p) != EOK then (UnlinkChecks(fs, p), fs)
      else if refuses then (EIO, fs)
      else (EOK, fs.(disk := fs.disk - {p}, files := fs.files - 1, bytes := fs.bytes - Size(fs, p),
                     entries := fs.entries - {p}, sizes := fs.sizes - {p}))
  }

  function RmdirChecks(fs: Fs, p: Path): Errno {
    if Validate(fs, p, false) != EOK then Validate(fs, p, false)
    else if p !in fs.entries then ENOENT
    else if !fs.entries[p] then ENOTDIR
    else if HasOpenUnder(fs, p) then EACCES
    else EOK
  }

  function Rmdir(fs: Fs, name: string, refuses: bool): (r: (Errno, Fs))
    ensures r.1.limits == fs.limits
  {
    match Clean(fs.limits, name, false)
    case None => (EPERM, fs)
    case Some(p) =>
      if RmdirChecks(fs, p) != EOK then (RmdirChecks(fs, p), fs)
      else if refuses then (EIO, fs)
      else if HasBelow(fs.disk, p) then (ENOTEMPTY, fs)
      else (EOK, fs.(disk := fs.disk - {p}, files := fs.files - 1, entries := fs.entries - {p}))
  }

  // ------------------------------------------------------------------------- open files

  function Close(fs: Fs, h: nat): Fs
    requires h < |fs.handles|
  {
    var f := fs.handles[h];
    if f.closed then fs
    else
      var count := OpenCount(fs, f.name);
      fs.(open := if count <= 1 then fs.open - {f.name} else fs.open[f.name := count - 1],
          handles := fs.handles[h := f.(closed := true)])
  }

  /** Room for the file to grow to `size`, taken in advance. */
  function Reserve(fs: Fs, p: Path, size: nat): Option<Fs> {
    var current := Size(fs, p);
    if size <= current then Some(fs)
    else if size > fs.limits.maxFileBytes || fs.bytes > fs.limits.maxBytes then None
    else if size - current > fs.limits.maxBytes - fs.bytes then None
    else Some(fs.(sizes := fs.sizes[p := size], bytes := fs.bytes + (size - current)))
  }

  /** The true size replaces the one that was reserved. */
  function Reconcile(fs: Fs, p: Path, actual: nat): Fs {
    fs.(bytes := fs.bytes - Size(fs, p) + actual, sizes := fs.sizes[p := actual])
  }

  /**
   What the host does with a write: how many bytes it takes, whether the size can be asked for
   afterwards, and the size it gives for a directory.
   */
  datatype HostWrite = HostWrite(written: nat, statFails: bool, dirSize: nat)

  function StatSize(disk: map<Path, Node>, p: Path, dirSize: nat): nat {
    if p in disk && disk[p].File? then disk[p].size else dirSize
  }

  function NodeSize(disk: map<Path, Node>, p: Path): nat {
    if p in disk && disk[p].File? then disk[p].size else 0
  }

  /** How long a file is after `n` bytes were written at `pos`. */
  function Grown(size: nat, pos: nat, n: nat): nat {
    if n > 0 && pos + n > size then pos + n else size
  }

  /** The host writes at `pos`, to the node of the handle. */
  function DiskWrite(disk: map<Path, Node>, f: Handle, pos: nat, n: nat): map<Path, Node> {
    map p | p in disk ::
      var node := disk[p];
      if node.File? && node.id == f.node then File(node.id, Grown(node.size, pos, n)) else node
  }

  function Least(a: nat, b: nat): nat {
    if a < b then a else b
  }

  /** What the host says the size is, or what it was before if the host fails to say. */
  function Actual(fs: Fs, f: Handle, disk: map<Path, Node>, host: HostWrite): nat {
    if host.statFails then Size(fs, f.name) else StatSize(disk, f.name, host.dirSize)
  }

  /** Both kinds of write, once the place is known: `offset` by the index, `pos` by the host. */
  function WriteAt(fs: Fs, f: Handle, offset: int, pos: nat, len: nat, host: HostWrite): (r: (Errno, Fs))
    ensures r.1.limits == fs.limits
  {
    if offset < 0 || offset > Size(fs, f.name) || offset + len > MAX_U64 then (EACCES, fs)
    else match Reserve(fs, f.name, offset + len)
      case None => (EACCES, fs)
      case Some(reserved) =>
        var disk := DiskWrite(fs.disk, f, pos, Least(host.written, len));
        (if host.written < len then EIO else EOK,
         Reconcile(reserved, f.name, Actual(fs, f, disk, host)).(disk := disk))
  }

  /** Where the host appends: the end of the node. */
  function EndOf(fs: Fs, f: Handle): nat {
    if f.name in fs.disk && fs.disk[f.name].id == f.node then NodeSize(fs.disk, f.name) else 0
  }

  /** `seek` is the file offset that the host reports and writes at, unless it appends. */
  function Write(fs: Fs, h: nat, len: nat, seek: int, host: HostWrite): (r: (Errno, Fs))
    ensures r.1.limits == fs.limits
    requires h < |fs.handles|
  {
    var f := fs.handles[h];
    if f.closed || fs.closed then (EBADF, fs)
    else if f.append then WriteAt(fs, f, Size(fs, f.name), EndOf(fs, f), len, host)
    else WriteAt(fs, f, seek, if seek < 0 then 0 else seek, len, host)
  }

  function Pwrite(fs: Fs, h: nat, len: nat, offset: int, host: HostWrite): (r: (Errno, Fs))
    ensures r.1.limits == fs.limits
    requires h < |fs.handles|
  {
    var f := fs.handles[h];
    if f.closed || fs.closed then (EBADF, fs)
    else WriteAt(fs, f, offset, if offset < 0 then 0 else offset, len, host)
  }

  function Truncate(fs: Fs, h: nat, size: int, refuses: bool): (r: (Errno, Fs))
    ensures r.1.limits == fs.limits
    requires h < |fs.handles|
  {
    var f := fs.handles[h];
    var current := Size(fs, f.name);
    if f.closed || fs.closed then (EBADF, fs)
    else if size < 0 || size > current then (EACCES, fs)
    else if refuses then (EIO, fs)
    else if !(f.name in fs.disk && fs.disk[f.name].File?) then (EISDIR, fs)
    else (EOK, fs.(disk := DiskResize(fs.disk, f.node, size), bytes := fs.bytes - (current - size),
                   sizes := fs.sizes[f.name := size]))
  }

  function SetAppend(fs: Fs, h: nat, on: bool): Fs
    requires h < |fs.handles|
  {
    fs.(handles := fs.handles[h := fs.handles[h].(append := on)])
  }

  function Shut(fs: Fs): Fs {
    fs.(closed := true)
  }
}
