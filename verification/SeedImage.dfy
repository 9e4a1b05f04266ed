/**
 The seed image (internal/cowmem/cow_linux.go): a file that is given a size and written segment
 by segment, once. A capture that fails leaves what it has written, and a later one starts there.
 */
module SeedImage {
  import opened Options
  import opened Leb128
  import opened DataSection
  import opened ModuleShell
  import opened DataImage

  const MAX_INT: nat := 0x7fff_ffff_ffff_ffff

  // ----------------------------------------------------------------------------- writing

  /** The bytes at a place replaced. */
  function Overwritten(was: Bytes, at: nat, data: Bytes): (r: Bytes)
    requires at + |data| <= |was|
    ensures |r| == |was|
  {
    was[..at] + data + was[at + |data|..]
  }

  /** One call that writes: it may write less than it was given. */
  method PWrite(image: array<byte>, data: Bytes, at: nat, n: nat)
    requires n <= |data| && at + n <= image.Length
    modifies image
    ensures image[..] == Overwritten(old(image[..]), at, data[..n])
  {
    for i := 0 to n
      invariant image[..at] == old(image[..at])
      invariant image[at + n..] == old(image[at + n..])
      invariant image[at..at + i] == data[..i]
    {
      image[at + i] := data[i];
    }
    assert image[..] == image[..at] + image[at..at + n] + image[at + n..];
  }

  /** The segments before the first one that lies outside have been written, and no more. */
  ghost predicate StopsAt(segments: seq<Segment>, before: Bytes, after: Bytes) {
    exists n: nat {:trigger Overlay(segments[..n], before)} :: n < |segments| && Overlay(segments[..n], before) == Some(after)
      && Write(after, segments[n].offset, segments[n].data).None?
  }

  lemma OneMore(segments: seq<Segment>, k: nat, mem: Bytes)
    requires k < |segments|
    ensures Overlay(segments[..k + 1], mem) ==
      match Overlay(segments[..k], mem)
      case None => None
      case Some(next) => Write(next, segments[k].offset, segments[k].data)
  {
    OverlayAppend(segments[..k], segments[k], mem);
    assert segments[..k + 1] == segments[..k] + [segments[k]];
  }

  lemma {:induction false} OverlayAppend(segments: seq<Segment>, s: Segment, mem: Bytes)
    ensures Overlay(segments + [s], mem) ==
      match Overlay(segments, mem)
      case None => None
      case Some(next) => Write(next, s.offset, s.data)
  {
    if segments == [] {
      assert [s][1..] == [];
      var next := Write(mem, s.offset, s.data);
      assert next.Some? ==> Overlay([], next.value) == next;
    } else {
      assert (segments + [s])[1..] == segments[1..] + [s];
      var next := Write(mem, segments[0].offset, segments[0].data);
      if next.Some? { OverlayAppend(segments[1..], s, next.value); }
    }
  }

  /**
   Write the segments over the image, in order; `accepts(k, offset)` is how much one call at that
   place of segment `k` is ready to write. Nothing written is an error, and so is a segment that
   lies outside.
   */
  method WriteSegments(image: array<byte>, segments: seq<Segment>, accepts: (nat, nat) -> nat) returns (ok: bool)
    modifies image
    ensures ok ==> Overlay(segments, old(image[..])) == Some(image[..])
    ensures Overlay(segments, old(image[..])).None? ==> !ok
    ensures Overlay(segments, old(image[..])).Some? && (forall k, offset :: accepts(k, offset) > 0) ==> ok
    ensures !ok && (forall k, offset :: accepts(k, offset) > 0) ==> StopsAt(segments, old(image[..]), image[..])
  {
    ghost var start := image[..];
    assert segments[..0] == [];
    for k := 0 to |segments|
      invariant Overlay(segments, start) == Overlay(segments[k..], image[..])
      invariant Overlay(segments[..k], start) == Some(image[..])
    {
      var s := segments[k];
      assert segments[k..][0] == s && segments[k..][1..] == segments[k + 1..];
      OneMore(segments, k, start);
      if s.offset > image.Length || |s.data| > image.Length - s.offset { return false; }
      ok := WriteSegment(image, s, offset => accepts(k, offset));
      if !ok { return false; }
    }
    return true;
  }

  method WriteSegment(image: array<byte>, s: Segment, accepts: nat -> nat) returns (ok: bool)
    requires s.offset + |s.data| <= image.Length
    modifies image
    ensures ok ==> Write(old(image[..]), s.offset, s.data) == Some(image[..])
    ensures (forall offset :: accepts(offset) > 0) ==> ok
  {
    ghost var was := image[..];
    var offset: nat := 0;
    NothingWritten(was, s.offset, s.data);
    while offset < |s.data|
      invariant offset <= |s.data| && image[..] == Overwritten(was, s.offset, s.data[..offset])
    {
      var n := WritePiece(image, s, offset, accepts(offset), was);
      if n == 0 { return false; }
      offset := offset + n;
    }
    assert s.data[..offset] == s.data;
    return true;
  }

  /** As much of the rest of a segment as one call is ready to write. */
  method WritePiece(image: array<byte>, s: Segment, offset: nat, ready: nat, ghost was: Bytes) returns (n: nat)
    requires s.offset + |s.data| <= image.Length == |was| && offset <= |s.data|
    requires image[..] == Overwritten(was, s.offset, s.data[..offset])
    modifies image
    ensures n == (if ready <= |s.data| - offset then ready else |s.data| - offset)
    ensures image[..] == Overwritten(was, s.offset, s.data[..offset + n])
  {
    n := if ready <= |s.data| - offset then ready else |s.data| - offset;
    PWrite(image, s.data[offset..], s.offset + offset, n);
    OverwriteMore(was, s.data, s.offset, offset, n);
  }

  lemma NothingWritten(was: Bytes, at: nat, data: Bytes)
    requires at + |data| <= |was|
    ensures Overwritten(was, at, data[..0]) == was
  {
    assert data[..0] == [] && was[..at] + was[at..] == was;
  }

  lemma OverwriteMore(was: Bytes, data: Bytes, at: nat, done: nat, n: nat)
    requires at + |data| <= |was| && done + n <= |data|
    ensures Overwritten(Overwritten(was, at, data[..done]), at + done, data[done..][..n]) == Overwritten(was, at, data[..done + n])
  {
    var before := Overwritten(was, at, data[..done]);
    assert before[..at + done] == was[..at] + data[..done];
    assert before[at + done + n..] == was[at + done + n..];
    assert data[..done] + data[done..][..n] == data[..done + n];
  }

  // ------------------------------------------------------------------------- the capture

  /** What setting the size of a file leaves of it. */
  function Resized(was: Bytes, size: nat): (r: Bytes)
    ensures |r| == size
  {
    if size <= |was| then was[..size] else was + Zeros(size - |was|)
  }

  predicate SizeOk(size: nat, hostPage: nat)
    requires hostPage > 0
  {
    size > 0 && size % PAGE == 0 && size % hostPage == 0 && size <= MAX_INT
  }

  class Seed {
    const hostPage: nat
    var file: array<byte>
    var imageSize: nat
    var closed: bool

    ghost predicate Valid()
      reads this
    {
      hostPage > 0 && (imageSize > 0 ==> file.Length == imageSize && SizeOk(imageSize, hostPage))
    }

    predicate Ready()
      reads this
    {
      !closed && imageSize != 0
    }

    constructor (hostPage: nat)
      requires hostPage > 0
      ensures Valid() && this.hostPage == hostPage && fresh(file)
      ensures file[..] == [] && imageSize == 0 && !closed
    {
      this.hostPage, imageSize, closed := hostPage, 0, false;
      file := new byte[0];
    }

    predicate MayCapture(size: nat)
      requires hostPage > 0
      reads this
    {
      SizeOk(size, hostPage) && !closed && imageSize == 0
    }

    /** `ftruncate`, which cuts the file or fills it up with zeros. */
    method SetSize(size: nat)
      modifies this`file
      ensures fresh(file) && file[..] == Resized(old(file[..]), size)
    {
      var was, start := file, file[..];
      file := new byte[size](i requires 0 <= i < size => if i < |start| then start[i] else 0);
      assert file[..] == Resized(start, size);
    }

    /** Refused without an effect; or written, sealed and ready; or failed while it was written. */
    method CaptureSegments(size: nat, segments: seq<Segment>, accepts: (nat, nat) -> nat) returns (ok: bool)
      requires Valid()
      modifies this`file, this`imageSize
      ensures Valid() && closed == old(closed)
      ensures !old(MayCapture(size)) ==> !ok && file == old(file) && imageSize == old(imageSize)
      ensures ok ==> imageSize == size && Overlay(segments, Resized(old(file[..]), size)) == Some(file[..])
      ensures !ok ==> imageSize == old(imageSize)
      ensures old(MayCapture(size)) && (forall k, offset :: accepts(k, offset) > 0) ==>
        (ok <==> Overlay(segments, Resized(old(file[..]), size)).Some?)
      ensures old(MayCapture(size)) && !ok && (forall k, offset :: accepts(k, offset) > 0) ==>
        StopsAt(segments, Resized(old(file[..]), size), file[..])
    {
      if size == 0 || size % PAGE != 0 || size % hostPage != 0 { return false; }
      if closed { return false; }
      if imageSize != 0 { return false; }
      if size > MAX_INT { return false; }
      SetSize(size);
      ok := WriteSegments(file, segments, accepts);
      if !ok { return false; }
      imageSize := size;
    }

    method Close()
      requires Valid()
      modifies this`closed
      ensures Valid() && closed
    {
      closed := true;
    }
  }

  // ---------------------------------------------------------------- a capture after another

  predicate CoveredBy(s: Segment, k: nat) {
    s.offset <= k < s.offset + |s.data|
  }

  predicate Covered(segments: seq<Segment>, k: nat) {
    exists i {:trigger CoveredBy(segments[i], k)} :: 0 <= i < |segments| && CoveredBy(segments[i], k)
  }

  lemma CoveredCons(segments: seq<Segment>, k: nat)
    requires segments != []
    ensures Covered(segments, k) <==> CoveredBy(segments[0], k) || Covered(segments[1..], k)
  {
    var rest := segments[1..];
    if Covered(segments, k) && !CoveredBy(segments[0], k) {
      var i :| 0 <= i < |segments| && CoveredBy(segments[i], k);
      assert CoveredBy(rest[i - 1], k);
    }
    if Covered(rest, k) {
      var i :| 0 <= i < |rest| && CoveredBy(rest[i], k);
      assert CoveredBy(segments[i + 1], k);
    }
  }

  /** Over two memories the same segments give the same byte where they cover it or where it was the same. */
  lemma {:induction false} OverlaysAt(segments: seq<Segment>, a: Bytes, b: Bytes, k: nat)
    requires |a| == |b| && k < |a| && Overlay(segments, a).Some?
    ensures Overlay(segments, b).Some? && |Overlay(segments, a).value| == |Overlay(segments, b).value| == |a|
    ensures Overlay(segments, a).value[k] == Overlay(segments, b).value[k] <==> a[k] == b[k] || Covered(segments, k)
    decreases |segments|
  {
    if segments != [] {
      var s := segments[0];
      CoveredCons(segments, k);
      OverlaysAt(segments[1..], Write(a, s.offset, s.data).value, Write(b, s.offset, s.data).value, k);
    }
  }

  /**
   A capture after one that failed gives the image of a first capture if and only if it writes
   over every byte that the failed one left behind, unless that byte is zero.
   */
  lemma RetryExactly(left: Bytes, size: nat, segments: seq<Segment>)
    requires size > 0 && Overlay(segments, Zeros(size)).Some?
    ensures Overlay(segments, Resized(left, size)) == Overlay(segments, Zeros(size)) <==>
      forall k :: 0 <= k < size && k < |left| && left[k] != 0 ==> Covered(segments, k)
  {
    var start, zeros := Resized(left, size), Zeros(size);
    forall k | 0 <= k < size
      ensures Overlay(segments, start).Some? && |Overlay(segments, start).value| == |Overlay(segments, zeros).value| == size
      ensures Overlay(segments, start).value[k] == Overlay(segments, zeros).value[k] <==>
        (k < |left| ==> left[k] == 0) || Covered(segments, k)
    {
      OverlaysAt(segments, zeros, start, k);
    }
    OverlaysAt(segments, zeros, start, 0);
    var a, b := Overlay(segments, start).value, Overlay(segments, zeros).value;
    if forall k :: 0 <= k < size && k < |left| && left[k] != 0 ==> Covered(segments, k) {
      assert forall k :: 0 <= k < size ==> a[k] == b[k];
      assert a == b;
    } else {
      var k :| 0 <= k < size && k < |left| && left[k] != 0 && !Covered(segments, k);
      assert a[k] != b[k];
    }
  }

  /** A new file has nothing left in it. */
  lemma NewFileIsZero(size: nat)
    ensures Resized([], size) == Zeros(size)
  {
    if size == 0 { assert Zeros(0) == []; } else { assert [] + Zeros(size) == Zeros(size); }
  }

  /**
   Captured into a new image, the active segments of an accepted module with at most one Memory
   section are the memory that instantiating the original gives.
   */
  lemma FirstCaptureIsOriginalMemory(wasm: Bytes)
    requires Transformed(wasm).Some? && MemorySections(Scanned(wasm).value.0) <= 1
    ensures var image := Transformed(wasm).value;
      var memory := Overlay(image.active, Resized([], image.memorySize));
      memory.Some? && memory == Instantiate(Scanned(wasm).value.1.data.value, Zeros(image.memorySize))
  {
    SeedIsOriginalMemory(wasm);
    NewFileIsZero(Transformed(wasm).value.memorySize);
  }

  /** Such bytes exist: the second segment fails, the first one stays, and an empty capture shows it. */
  lemma LeftBehind(size: nat, b: byte)
    requires size > 0 && b != 0
    ensures var first, second := Segment(0, 0, [b]), Segment(1, size, [b]);
      && Overlay([first, second], Zeros(size)).None?
      && Overlay([first], Zeros(size)).Some?
      && Overlay([], Resized(Overlay([first], Zeros(size)).value, size)) != Overlay([], Zeros(size))
  {
    var first, second := Segment(0, 0, [b]), Segment(1, size, [b]);
    assert [first, second][1..] == [second] && [first][1..] == [];
    var left := Write(Zeros(size), 0, [b]).value;
    assert Overlay([first], Zeros(size)) == Overlay([], left) == Some(left);
    assert Write(left, size, [b]).None?;
    assert Overlay([second], left).None?;
    assert Resized(left, size)[0] == b;
    assert Zeros(size)[0] == 0;
  }
}
