/**
 Every operation keeps the index but a write that cannot be counted; so a run keeps it throughout
 exactly if it makes no such write.
 */
module WorkspaceRuns {
  import opened WorkspaceModel
  import opened WorkspaceSums
  import opened WorkspaceIndex

  // -------------------------------------------------------------------------- operations

  lemma OpenKeeps(fs: Fs, name: string, fl: Flags, refuses: bool, fs': Fs)
    requires Inv(fs) && fs' == OpenFile(fs, name, fl, refuses).1
    ensures Inv(fs')
  {
    CleanIsOk(fs.limits, name, true);
    if OpenFile(fs, name, fl, refuses).0 == EOK && Clean(fs.limits, name, true).Some? {
      OpenedKeeps(fs, Clean(fs.limits, name, true).value, fl, fs');
    }
  }

  lemma EmptiedKeeps(fs: Fs, p: Path, fs': Fs)
    requires Inv(fs) && p in fs.disk && fs.disk[p].File? && fs' == Emptied(fs, p)
    ensures Inv(fs') && p in fs'.disk
  {
    assert EntryOk(fs, p);
    ResizedIs(fs.disk, p, 0);
    SizeKeeps(fs, p, 0, fs');
  }

  /** The file is there, made if it has to be. */
  lemma FileIsThere(fs: Fs, p: Path, fl: Flags, there: Fs)
    requires Inv(fs) && (p == [] || PathOk(fs.limits, p))
    requires OpenChecks(fs, p, fl) == EOK && DiskOpen(fs.disk, p, fl) == EOK
    requires there == if p == [] || p in fs.entries then fs else Created(fs, p)
    ensures Inv(there) && (p == [] || p in there.disk) && (fl.truncate ==> p in there.disk && there.disk[p].File?)
  {
    if p != [] && p !in fs.entries { CreateKeeps(fs, p); }
  }

  lemma OpenedKeeps(fs: Fs, p: Path, fl: Flags, fs': Fs)
    requires Inv(fs) && (p == [] || PathOk(fs.limits, p))
    requires OpenChecks(fs, p, fl) == EOK && DiskOpen(fs.disk, p, fl) == EOK && fs' == Opened(fs, p, fl)
    ensures Inv(fs')
  {
    var there := if p == [] || p in fs.entries then fs else Created(fs, p);
    FileIsThere(fs, p, fl, there);
    var ready := if fl.truncate then Emptied(there, p) else there;
    if fl.truncate { EmptiedKeeps(there, p, ready); }
    HandleKeeps(ready, p, fl.append);
  }

  lemma MkdirKeeps(fs: Fs, name: string, refuses: bool, fs': Fs)
    requires Inv(fs) && fs' == Mkdir(fs, name, refuses).1
    ensures Inv(fs')
  {
    CleanIsOk(fs.limits, name, false);
    if Mkdir(fs, name, refuses).0 == EOK {
      AddKeeps(fs, Clean(fs.limits, name, false).value, Directory(fs.next), fs');
    }
  }

  lemma UnlinkKeeps(fs: Fs, name: string, refuses: bool, fs': Fs)
    requires Inv(fs) && fs' == Unlink(fs, name, refuses).1
    ensures Inv(fs')
  {
    if Unlink(fs, name, refuses).0 == EOK {
      var p := Clean(fs.limits, name, false).value;
      assert EntryOk(fs, p);
      FileHasNothingBelow(fs, p);
      RemoveKeeps(fs, p, fs');
    }
  }

  lemma DirectoryIsClosed(fs: Fs, p: Path)
    requires EntriesOk(fs) && RmdirChecks(fs, p) == EOK
    ensures p in fs.disk && fs.sizes - {p} == fs.sizes && Size(fs, p) == 0 && OpenCount(fs, p) == 0
  {
    assert EntryOk(fs, p);
    assert Under(p, p);
  }

  lemma RmdirKeeps(fs: Fs, name: string, refuses: bool, fs': Fs)
    requires Inv(fs) && fs' == Rmdir(fs, name, refuses).1
    ensures Inv(fs')
  {
    if Rmdir(fs, name, refuses).0 == EOK {
      DirectoryRemoved(fs, Clean(fs.limits, name, false).value, fs');
    }
  }

  lemma DirectoryRemoved(fs: Fs, p: Path, fs': Fs)
    requires Inv(fs) && RmdirChecks(fs, p) == EOK && !HasBelow(fs.disk, p)
    requires fs' == fs.(disk := fs.disk - {p}, files := fs.files - 1, entries := fs.entries - {p})
    ensures Inv(fs')
  {
    DirectoryIsClosed(fs, p);
    RemoveKeeps(fs, p, fs');
  }

  lemma RenamesKeep(fs: Fs, from: string, to: string, refuses: bool, fs': Fs)
    requires Inv(fs) && fs' == Rename(fs, from, to, refuses).1
    ensures Inv(fs')
  {
    if Rename(fs, from, to, refuses).0 == EOK {
      MovedKeeps(fs, Clean(fs.limits, from, false).value, Clean(fs.limits, to, false).value, fs');
    }
  }

  lemma MovedKeeps(fs: Fs, p: Path, q: Path, fs': Fs)
    requires Inv(fs) && p != [] && q != [] && RenameChecks(fs, p, q) == EOK && !Under(p, q) && fs' == AfterRename(fs, p, q)
    ensures Inv(fs')
  {
    MoveIsChecked(fs, p, q);
    RenameKeeps(fs, p, q, fs');
  }

  lemma MoveIsChecked(fs: Fs, p: Path, q: Path)
    requires EntriesOk(fs) && p != [] && q != [] && RenameChecks(fs, p, q) == EOK
    ensures p in fs.disk && q !in fs.disk && IsDir(fs, Parent(q)) && !HasOpenUnder(fs, p) && MovesOk(fs, p, q)
  {
    assert RenameFirstChecks(fs, p, q) == EOK;
    ValidatedIsThere(fs.disk, p, 1);
  }

  lemma CloseKeeps(fs: Fs, h: nat, fs': Fs)
    requires Inv(fs) && h < |fs.handles| && fs' == Close(fs, h)
    ensures Inv(fs')
  {
    var f := fs.handles[h];
    if !f.closed {
      OpenIsCounted(fs, h);
      HandlePutKeeps(fs, h, f.(closed := true), fs'.open, fs');
    }
  }

  lemma SetAppendKeeps(fs: Fs, h: nat, on: bool, fs': Fs)
    requires Inv(fs) && h < |fs.handles| && fs' == SetAppend(fs, h, on)
    ensures Inv(fs')
  {
    HandlePutKeeps(fs, h, fs.handles[h].(append := on), fs.open, fs');
  }

  lemma ShutKeeps(fs: Fs, fs': Fs)
    requires Inv(fs) && fs' == Shut(fs)
    ensures Inv(fs')
  {
    IndexSame(fs, fs');
    forall k: nat | k < |fs'.handles| ensures HandleOk(fs', k) { assert HandleOk(fs, k); }
  }

  lemma TruncateKeeps(fs: Fs, h: nat, size: int, refuses: bool, fs': Fs)
    requires Inv(fs) && h < |fs.handles| && fs' == Truncate(fs, h, size, refuses).1
    ensures Inv(fs')
  {
    if Truncate(fs, h, size, refuses).0 == EOK {
      var f := fs.handles[h];
      assert HandleOk(fs, h) && EntryOk(fs, f.name);
      ResizedIs(fs.disk, f.name, size);
      SizeKeeps(fs, f.name, size, fs');
    }
  }

  // ----------------------------------------------------------------------------- writing

  ghost predicate IsFile(fs: Fs, f: Handle) {
    f.name in fs.disk && fs.disk[f.name].File?
  }

  /** What the index checks before the host is asked to write. */
  predicate Passes(fs: Fs, f: Handle, offset: int, len: nat) {
    0 <= offset <= Size(fs, f.name) && offset + len <= MAX_U64 && Reserve(fs, f.name, offset + len).Some?
  }

  lemma WrittenIs(fs: Fs, f: Handle, pos: nat, n: nat)
    requires Distinct(fs.disk) && IsFile(fs, f) && fs.disk[f.name].id == f.node
    ensures DiskWrite(fs.disk, f, pos, n) == fs.disk[f.name := File(f.node, Grown(fs.disk[f.name].size, pos, n))]
  {
  }

  lemma DirectoryWriteIs(fs: Fs, f: Handle, pos: nat, n: nat)
    requires EntriesOk(fs) && Distinct(fs.disk) && !IsFile(fs, f)
    requires if f.name == [] then f.node == 0 else f.name in fs.disk && fs.disk[f.name].id == f.node
    ensures DiskWrite(fs.disk, f, pos, n) == fs.disk
  {
    forall p | p in fs.disk ensures EntryOk(fs, p) { }
  }

  /**
   A write that is refused, or that goes to a file and leaves its size as it is or where the host
   can tell it afterwards.
   */
  ghost predicate Countable(fs: Fs, f: Handle, offset: int, len: nat, host: HostWrite) {
    Passes(fs, f, offset, len) ==>
      IsFile(fs, f) && (host.statFails ==>
        Grown(fs.disk[f.name].size, offset, Least(host.written, len)) == fs.disk[f.name].size)
  }

  /** A write keeps the index if and only if it can be counted. */
  lemma WriteKeepsExactly(fs: Fs, h: nat, offset: int, len: nat, host: HostWrite, fs': Fs)
    requires Inv(fs) && h < |fs.handles| && !fs.handles[h].closed
    requires fs' == WriteAt(fs, fs.handles[h], offset, if offset < 0 then 0 else offset, len, host).1
    ensures Inv(fs') <==> Countable(fs, fs.handles[h], offset, len, host)
  {
    var f := fs.handles[h];
    assert HandleOk(fs, h);
    if Passes(fs, f, offset, len) {
      if IsFile(fs, f) {
        assert EntryOk(fs, f.name);
        FileWrite(fs, f, offset, len, host, fs');
      } else {
        var n := Least(host.written, len);
        DirectoryWriteIs(fs, f, offset, n);
        WriteAtIs(fs, f, offset, offset, len, host, fs.disk);
        SizedIsEntry(fs', f.name);
      }
    }
  }

  /** What was reserved makes no difference once the size is known. */
  lemma ReservedIsReplaced(fs: Fs, p: Path, size: nat, actual: nat)
    requires Reserve(fs, p, size).Some?
    ensures Reconcile(Reserve(fs, p, size).value, p, actual) ==
      fs.(sizes := fs.sizes[p := actual], bytes := fs.bytes - Size(fs, p) + actual)
  {
    var reserved := Reserve(fs, p, size).value;
    assert reserved.sizes[p := actual] == fs.sizes[p := actual];
  }

  lemma WriteAtIs(fs: Fs, f: Handle, offset: nat, pos: nat, len: nat, host: HostWrite, disk: map<Path, Node>)
    requires Passes(fs, f, offset, len) && disk == DiskWrite(fs.disk, f, pos, Least(host.written, len))
    ensures var actual := Actual(fs, f, disk, host);
      WriteAt(fs, f, offset, pos, len, host).1 ==
        fs.(disk := disk, sizes := fs.sizes[f.name := actual], bytes := fs.bytes - Size(fs, f.name) + actual)
  {
    ReservedIsReplaced(fs, f.name, offset + len, Actual(fs, f, disk, host));
  }

  lemma ReservedHasRoom(fs: Fs, p: Path, size: nat)
    requires Inv(fs) && p in fs.sizes && Reserve(fs, p, size).Some?
    ensures size > fs.sizes[p] ==> size <= fs.limits.maxFileBytes && fs.bytes - fs.sizes[p] + size <= fs.limits.maxBytes
    ensures fs.sizes[p] <= fs.limits.maxFileBytes && fs.bytes <= fs.limits.maxBytes
  {
    assert EntryOk(fs, p);
  }

  lemma FileWriteIs(fs: Fs, f: Handle, offset: nat, len: nat, host: HostWrite, fs': Fs, n: nat, size: nat, actual: nat)
    requires Inv(fs) && IsFile(fs, f) && fs.disk[f.name].id == f.node && Passes(fs, f, offset, len)
    requires fs' == WriteAt(fs, f, offset, offset, len, host).1
    requires n == Least(host.written, len) && size == Grown(fs.disk[f.name].size, offset, n)
    requires actual == if host.statFails then fs.disk[f.name].size else size
    ensures fs' == fs.(disk := fs.disk[f.name := File(f.node, size)], sizes := fs.sizes[f.name := actual],
                       bytes := fs.bytes - fs.disk[f.name].size + actual)
    ensures size <= fs.limits.maxFileBytes && fs.bytes - fs.disk[f.name].size + size <= fs.limits.maxBytes
    ensures f.name in fs.sizes && fs.sizes[f.name] == fs.disk[f.name].size
  {
    assert EntryOk(fs, f.name);
    WrittenIs(fs, f, offset, n);
    WriteAtIs(fs, f, offset, offset, len, host, fs.disk[f.name := File(f.node, size)]);
    ReservedHasRoom(fs, f.name, offset + len);
  }

  lemma FileWrite(fs: Fs, f: Handle, offset: nat, len: nat, host: HostWrite, fs': Fs)
    requires Inv(fs) && IsFile(fs, f) && fs.disk[f.name].id == f.node && Passes(fs, f, offset, len)
    requires fs' == WriteAt(fs, f, offset, offset, len, host).1
    ensures var n := Least(host.written, len);
      Inv(fs') <==> (host.statFails ==> Grown(fs.disk[f.name].size, offset, n) == fs.disk[f.name].size)
  {
    var n := Least(host.written, len);
    var size := Grown(fs.disk[f.name].size, offset, n);
    FileWriteIs(fs, f, offset, len, host, fs', n, size, if host.statFails then fs.disk[f.name].size else size);
    if !host.statFails || size == fs.disk[f.name].size {
      SizeKeeps(fs, f.name, size, fs');
    } else {
      SizedIsEntry(fs', f.name);
    }
  }

  /**
   A write to a directory is such a case: the directory's own size is added to the total,
   whatever the limit is.
   */
  lemma DirectoryWriteCounts(fs: Fs, h: nat, len: nat, host: HostWrite, fs': Fs)
    requires Inv(fs) && h < |fs.handles| && !fs.handles[h].closed && !IsFile(fs, fs.handles[h]) && !host.statFails
    requires fs' == WriteAt(fs, fs.handles[h], 0, 0, len, host).1
    ensures Passes(fs, fs.handles[h], 0, len) <==>
      len <= MAX_U64 && (len > 0 ==> len <= fs.limits.maxFileBytes && len <= fs.limits.maxBytes - fs.bytes)
    ensures Passes(fs, fs.handles[h], 0, len) ==> fs'.bytes == Sum(DiskSizes(fs'.disk)) + host.dirSize
    ensures Passes(fs, fs.handles[h], 0, len) ==>
      (fs'.bytes <= fs.limits.maxBytes <==> host.dirSize <= fs.limits.maxBytes - fs.bytes)
  {
    var f := fs.handles[h];
    DirectoryHasNoSize(fs, h);
    if Passes(fs, f, 0, len) {
      WriteAtIs(fs, f, 0, 0, len, host, fs.disk);
      IndexMirrorsTree(fs);
    }
  }

  lemma DirectoryHasNoSize(fs: Fs, h: nat)
    requires Inv(fs) && h < |fs.handles| && !fs.handles[h].closed && !IsFile(fs, fs.handles[h])
    ensures Size(fs, fs.handles[h].name) == 0
    ensures forall pos, n :: DiskWrite(fs.disk, fs.handles[h], pos, n) == fs.disk
  {
    var f := fs.handles[h];
    assert HandleOk(fs, h);
    if f.name in fs.disk { assert EntryOk(fs, f.name); }
    forall pos, n ensures DiskWrite(fs.disk, f, pos, n) == fs.disk { DirectoryWriteIs(fs, f, pos, n); }
  }

  // -------------------------------------------------------------------------------- runs

  datatype Action =
    | Open(name: string, flags: Flags, refuses: bool)
    | MakeDirectory(name: string, refuses: bool)
    | Move(from: string, to: string, refuses: bool)
    | Remove(name: string, refuses: bool)
    | RemoveDirectory(name: string, refuses: bool)
    | CloseFile(h: nat)
    | WriteFile(h: nat, len: nat, seek: int, host: HostWrite)
    | WriteFileAt(h: nat, len: nat, offset: int, host: HostWrite)
    | TruncateFile(h: nat, size: int, refuses: bool)
    | AppendMode(h: nat, on: bool)
    | CloseAll

  predicate Names(fs: Fs, a: Action) {
    match a
    case CloseFile(h) => h < |fs.handles|
    case WriteFile(h, _, _, _) => h < |fs.handles|
    case WriteFileAt(h, _, _, _) => h < |fs.handles|
    case TruncateFile(h, _, _) => h < |fs.handles|
    case AppendMode(h, _) => h < |fs.handles|
    case _ => true
  }

  /** An action on a file that was never opened does nothing. */
  function Apply(fs: Fs, a: Action): Fs {
    if !Names(fs, a) then fs
    else match a
      case Open(name, flags, refuses) => OpenFile(fs, name, flags, refuses).1
      case MakeDirectory(name, refuses) => Mkdir(fs, name, refuses).1
      case Move(from, to, refuses) => Rename(fs, from, to, refuses).1
      case Remove(name, refuses) => Unlink(fs, name, refuses).1
      case RemoveDirectory(name, refuses) => Rmdir(fs, name, refuses).1
      case CloseFile(h) => Close(fs, h)
      case WriteFile(h, len, seek, host) => Write(fs, h, len, seek, host).1
      case WriteFileAt(h, len, offset, host) => Pwrite(fs, h, len, offset, host).1
      case TruncateFile(h, size, refuses) => Truncate(fs, h, size, refuses).1
      case AppendMode(h, on) => SetAppend(fs, h, on)
      case CloseAll => Shut(fs)
  }

  /** Where the index takes a write to begin. */
  function OffsetOf(fs: Fs, f: Handle, seek: int): int {
    if f.append then Size(fs, f.name) else seek
  }

  /** Every operation is ordinary but a write that passes the checks and cannot be counted. */
  ghost predicate Ordinary(fs: Fs, a: Action) {
    Names(fs, a) && (a.WriteFile? || a.WriteFileAt?) && !fs.handles[a.h].closed && !fs.closed ==>
      var f := fs.handles[a.h];
      Countable(fs, f, if a.WriteFile? then OffsetOf(fs, f, a.seek) else a.offset, a.len, a.host)
  }

  lemma WriteKeeps(fs: Fs, h: nat, len: nat, seek: int, host: HostWrite, fs': Fs)
    requires Inv(fs) && h < |fs.handles| && !fs.handles[h].closed && !fs.closed && fs' == Write(fs, h, len, seek, host).1
    ensures Inv(fs') <==> Countable(fs, fs.handles[h], OffsetOf(fs, fs.handles[h], seek), len, host)
  {
    var f := fs.handles[h];
    assert HandleOk(fs, h);
    RootIsNoEntry(fs);
    if f.name in fs.disk { assert EntryOk(fs, f.name); }
    WriteKeepsExactly(fs, h, OffsetOf(fs, f, seek), len, host, fs');
  }

  lemma OtherKeeps(fs: Fs, a: Action)
    requires Inv(fs) && Names(fs, a) && !a.WriteFile? && !a.WriteFileAt?
    ensures Inv(Apply(fs, a))
  {
    match a
    case Open(name, flags, refuses) => OpenKeeps(fs, name, flags, refuses, Apply(fs, a));
    case MakeDirectory(name, refuses) => MkdirKeeps(fs, name, refuses, Apply(fs, a));
    case Move(from, to, refuses) => RenamesKeep(fs, from, to, refuses, Apply(fs, a));
    case Remove(name, refuses) => UnlinkKeeps(fs, name, refuses, Apply(fs, a));
    case RemoveDirectory(name, refuses) => RmdirKeeps(fs, name, refuses, Apply(fs, a));
    case CloseFile(h) => CloseKeeps(fs, h, Apply(fs, a));
    case TruncateFile(h, size, refuses) => TruncateKeeps(fs, h, size, refuses, Apply(fs, a));
    case AppendMode(h, on) => SetAppendKeeps(fs, h, on, Apply(fs, a));
    case CloseAll => ShutKeeps(fs, Apply(fs, a));
    case _ =>
  }

  /** Exactly the ordinary operations keep the invariant. */
  lemma ApplyKeepsExactly(fs: Fs, a: Action)
    requires Inv(fs)
    ensures Inv(Apply(fs, a)) <==> Ordinary(fs, a)
  {
    if Names(fs, a) {
      if !a.WriteFile? && !a.WriteFileAt? { OtherKeeps(fs, a); }
      else if fs.handles[a.h].closed || fs.closed { assert Apply(fs, a) == fs; }
      else if a.WriteFile? { WriteKeeps(fs, a.h, a.len, a.seek, a.host, Apply(fs, a)); }
      else { WriteKeepsExactly(fs, a.h, a.offset, a.len, a.host, Apply(fs, a)); }
    }
  }

  function Run(fs: Fs, actions: seq<Action>): Fs
    decreases |actions|
  {
    if actions == [] then fs else Run(Apply(fs, actions[0]), actions[1..])
  }

  ghost predicate AllOrdinary(fs: Fs, actions: seq<Action>)
    decreases |actions|
  {
    actions == [] || (Ordinary(fs, actions[0]) && AllOrdinary(Apply(fs, actions[0]), actions[1..]))
  }

  /** The invariant holds at every moment of the run. */
  ghost predicate InvThroughout(fs: Fs, actions: seq<Action>)
    decreases |actions|
  {
    Inv(fs) && (actions == [] || InvThroughout(Apply(fs, actions[0]), actions[1..]))
  }

  /**
   From any index that mirrors a tree within the limits, it does so throughout a run if and only
   if every operation of the run is ordinary.
   */
  lemma {:induction false} RunKeepsExactly(fs: Fs, actions: seq<Action>)
    requires Inv(fs)
    ensures InvThroughout(fs, actions) <==> AllOrdinary(fs, actions)
    decreases |actions|
  {
    if actions != [] {
      ApplyKeepsExactly(fs, actions[0]);
      if Ordinary(fs, actions[0]) { RunKeepsExactly(Apply(fs, actions[0]), actions[1..]); }
    }
  }

  lemma {:induction false} RunKeeps(fs: Fs, actions: seq<Action>)
    requires InvThroughout(fs, actions)
    ensures Inv(Run(fs, actions))
    decreases |actions|
  {
    if actions != [] { RunKeeps(Apply(fs, actions[0]), actions[1..]); }
  }

  lemma {:induction false} RunKeepsLimits(fs: Fs, actions: seq<Action>)
    ensures Run(fs, actions).limits == fs.limits
    decreases |actions|
  {
    if actions != [] {
      assert Apply(fs, actions[0]).limits == fs.limits;
      RunKeepsLimits(Apply(fs, actions[0]), actions[1..]);
    }
  }

  /** The tree itself, not only the index, stays within the limits. */
  lemma RunStaysWithinLimits(fs: Fs, actions: seq<Action>)
    requires Inv(fs) && AllOrdinary(fs, actions)
    ensures var end := Run(fs, actions);
      && end.files == |end.disk| <= fs.limits.maxFiles
      && end.bytes == Sum(DiskSizes(end.disk)) <= fs.limits.maxBytes
      && (forall p :: p in end.disk && end.disk[p].File? ==> end.disk[p].size <= fs.limits.maxFileBytes)
  {
    RunKeepsExactly(fs, actions);
    RunKeeps(fs, actions);
    RunKeepsLimits(fs, actions);
    var end := Run(fs, actions);
    IndexMirrorsTree(end);
    forall p | p in end.disk ensures EntryOk(end, p) { }
  }

  // -------------------------------------------------------------------------- open files

  ghost predicate SameHandle(fs: Fs, fs': Fs, k: nat)
    requires k < |fs.handles|
  {
    && k < |fs'.handles|
    && fs'.handles[k].name == fs.handles[k].name && fs'.handles[k].node == fs.handles[k].node
    && (fs.handles[k].closed ==> fs'.handles[k].closed)
  }

  lemma OthersKeepHandles(fs: Fs, a: Action)
    requires !a.Open? && !a.CloseFile? && !a.AppendMode?
    ensures Apply(fs, a).handles == fs.handles
  {
  }

  lemma ApplyKeepsHandle(fs: Fs, a: Action, k: nat)
    requires k < |fs.handles|
    ensures SameHandle(fs, Apply(fs, a), k)
  {
    if !a.Open? && !a.CloseFile? && !a.AppendMode? { OthersKeepHandles(fs, a); }
  }

  lemma {:induction false} RunKeepsHandle(fs: Fs, actions: seq<Action>, k: nat)
    requires k < |fs.handles|
    ensures SameHandle(fs, Run(fs, actions), k)
    decreases |actions|
  {
    if actions != [] {
      ApplyKeepsHandle(fs, actions[0], k);
      RunKeepsHandle(Apply(fs, actions[0]), actions[1..], k);
    }
  }

  /**
   However a run goes on, an open file is found at the name it was opened by: no rename and no
   removal takes it away while it is open.
   */
  lemma OpenNamesStay(fs: Fs, actions: seq<Action>, k: nat)
    requires Inv(fs) && AllOrdinary(fs, actions) && k < |fs.handles|
    ensures var end, f := Run(fs, actions), fs.handles[k];
      k < |end.handles| && (!end.handles[k].closed && f.name != [] ==>
        f.name in end.disk && end.disk[f.name].id == f.node && f.name in end.entries)
  {
    RunKeepsExactly(fs, actions);
    RunKeeps(fs, actions);
    RunKeepsHandle(fs, actions, k);
    assert HandleOk(Run(fs, actions), k);
  }
}
