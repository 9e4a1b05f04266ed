/**
 The Data section of a WebAssembly module (section 5.5.14 of the WebAssembly Core Specification
 2.0): how cow_data_image.go parses it, empties its active segments, and what memory it makes.
 */
module DataSection {
  import opened Options
  import opened Leb128

  // ------------------------------------------------------------------------------- parsing

  /**
   One segment as bytes: `head` is everything before the length field, `size` the length field,
   `data` the payload. An active segment has the offset that its head gives.
   */
  datatype Entry = Entry(active: bool, offset: nat, head: Bytes, size: Bytes, data: Bytes)

  function Raw(e: Entry): Bytes {
    e.head + e.size + e.data
  }

  datatype Head = Head(active: bool, offset: nat, end: nat)

  /** `i32.const n end`. */
  function I32Const(buf: Bytes, pos: nat): Option<(int, nat)> {
    if pos >= |buf| || buf[pos] != 0x41 then None
    else match SN(32, buf, pos + 1)
      case None => None
      case Some(n) => if n.1 >= |buf| || buf[n.1] != 0x0b then None else Some((n.0, n.1 + 1))
  }

  function ActiveHead(buf: Bytes, pos: nat): Option<Head> {
    match I32Const(buf, pos)
    case None => None
    case Some(n) => if n.0 < 0 then None else Some(Head(true, n.0, n.1))
  }

  /** Mode 0 is active in memory 0, mode 1 passive, mode 2 active in the memory it names. */
  function ParseHead(buf: Bytes, pos: nat): Option<Head> {
    match UN(32, buf, pos)
    case None => None
    case Some(mode) =>
      if mode.0 == 0 then ActiveHead(buf, mode.1)
      else if mode.0 == 1 then Some(Head(false, 0, mode.1))
      else if mode.0 == 2 then NamedHead(buf, mode.1)
      else None
  }

  lemma HeadEnds(buf: Bytes, pos: nat)
    requires ParseHead(buf, pos).Some?
    ensures pos < ParseHead(buf, pos).value.end <= |buf|
  {
    UNBounds(32, buf, pos);
    var mode := UN(32, buf, pos).value;
    if mode.0 == 2 { UNBounds(32, buf, mode.1); }
    var at := if mode.0 == 2 then UN(32, buf, mode.1).value.1 else mode.1;
    if mode.0 != 1 { SNBounds(32, buf, at + 1); }
  }

  /** A segment and where it ends. */
  function ParseEntry(buf: Bytes, pos: nat): (r: Option<(Entry, nat)>)
    ensures r.Some? ==> pos < r.value.1 <= |buf|
  {
    match ParseHead(buf, pos)
    case None => None
    case Some(head) =>
      HeadEnds(buf, pos);
      match UN(32, buf, head.end)
      case None => None
      case Some(length) =>
        UNBounds(32, buf, head.end);
        var end := length.1 + length.0;
        if end > |buf| then None
        else Some((Entry(head.active, head.offset, buf[pos..head.end], buf[head.end..length.1], buf[length.1..end]), end))
  }

  function ParseEntries(buf: Bytes, pos: nat, n: nat): (r: Option<seq<Entry>>)
    ensures r.Some? ==> |r.value| == n
    decreases n
  {
    if n == 0 then if pos == |buf| then Some([]) else None
    else match ParseEntry(buf, pos)
      case None => None
      case Some(e) =>
        match ParseEntries(buf, e.1, n - 1)
        case None => None
        case Some(rest) => Some([e.0] + rest)
  }

  function ParseSection(payload: Bytes): Option<seq<Entry>> {
    match UN(32, payload, 0)
    case None => None
    case Some(count) => ParseEntries(payload, count.1, count.0)
  }

  lemma {:induction false} NoMoreEntriesThanBytes(buf: Bytes, pos: nat, n: nat)
    requires ParseEntries(buf, pos, n).Some?
    ensures n <= |buf| - pos
    decreases n
  {
    if n > 0 { NoMoreEntriesThanBytes(buf, ParseEntry(buf, pos).value.1, n - 1); }
  }

  // ------------------------------------------------------------- the bytes of one segment

  lemma ActiveHeadLocal(a: Bytes, p: nat, b: Bytes, q: nat, n: nat)
    requires ActiveHead(a, p).Some? && ActiveHead(a, p).value.end == p + n && Same(a, p, b, q, n)
    ensures ActiveHead(b, q) == Some(ActiveHead(a, p).value.(end := q + n))
  {
    SNBounds(32, a, p + 1);
    var k := SN(32, a, p + 1).value.1 - (p + 1);
    assert SameAt(a, p, b, q, 0);
    SamePart(a, p, b, q, n, 1, 1 + k);
    SNLocal(32, a, p + 1, b, q + 1, k);
    assert SameAt(a, p, b, q, 1 + k);
  }

  lemma ActiveHeadEnds(buf: Bytes, pos: nat)
    requires ActiveHead(buf, pos).Some?
    ensures pos < ActiveHead(buf, pos).value.end <= |buf|
  {
    SNBounds(32, buf, pos + 1);
  }

  /** The memory index and the offset of a segment of mode 2. */
  function NamedHead(buf: Bytes, pos: nat): Option<Head> {
    match UN(32, buf, pos)
    case None => None
    case Some(memory) => if memory.0 != 0 then None else ActiveHead(buf, memory.1)
  }

  /** A number at the front of equal bytes is read alike, and the bytes after it are equal too. */
  lemma FrontLocal(a: Bytes, p: nat, b: Bytes, q: nat, n: nat) returns (k: nat)
    requires Same(a, p, b, q, n) && UN(32, a, p).Some? && UN(32, a, p).value.1 <= p + n
    ensures k <= n && UN(32, a, p).value.1 == p + k
    ensures UN(32, b, q) == Some((UN(32, a, p).value.0, q + k))
    ensures Same(a, p + k, b, q + k, n - k)
  {
    UNBounds(32, a, p);
    k := UN(32, a, p).value.1 - p;
    SamePart(a, p, b, q, n, 0, k);
    UNLocal(32, a, p, b, q, k);
    SamePart(a, p, b, q, n, k, n);
  }

  lemma NamedHeadLocal(a: Bytes, p: nat, b: Bytes, q: nat, n: nat)
    requires NamedHead(a, p).Some? && NamedHead(a, p).value.end == p + n && Same(a, p, b, q, n)
    ensures NamedHead(b, q) == Some(NamedHead(a, p).value.(end := q + n))
  {
    ActiveHeadEnds(a, UN(32, a, p).value.1);
    var m := FrontLocal(a, p, b, q, n);
    ActiveHeadLocal(a, p + m, b, q + m, n - m);
  }

  /** A head is parsed alike wherever its bytes stand. */
  lemma HeadLocal(a: Bytes, p: nat, b: Bytes, q: nat, n: nat)
    requires ParseHead(a, p).Some? && ParseHead(a, p).value.end == p + n && Same(a, p, b, q, n)
    ensures ParseHead(b, q) == Some(ParseHead(a, p).value.(end := q + n))
  {
    ModeEnds(a, p);
    var k := FrontLocal(a, p, b, q, n);
    if UN(32, a, p).value.0 == 0 {
      ActiveHeadLocal(a, p + k, b, q + k, n - k);
    } else if UN(32, a, p).value.0 == 2 {
      NamedHeadLocal(a, p + k, b, q + k, n - k);
    }
  }

  lemma ModeEnds(buf: Bytes, pos: nat)
    requires ParseHead(buf, pos).Some?
    ensures UN(32, buf, pos).value.1 <= ParseHead(buf, pos).value.end
  {
    var mode := UN(32, buf, pos).value;
    if mode.0 == 0 { ActiveHeadEnds(buf, mode.1); }
    if mode.0 == 2 {
      UNBounds(32, buf, mode.1);
      ActiveHeadEnds(buf, UN(32, buf, mode.1).value.1);
    }
  }

  /** What a parsed segment says about itself: its head parses to its mode, its length field to its length. */
  ghost predicate EntryOk(e: Entry) {
    && ParseHead(e.head, 0) == Some(Head(e.active, e.offset, |e.head|))
    && UN(32, e.size, 0) == Some((|e.data|, |e.size|))
  }

  lemma SizeIsOk(buf: Bytes, pos: nat)
    requires UN(32, buf, pos).Some?
    ensures var n := UN(32, buf, pos).value; pos < n.1 <= |buf| && UN(32, buf[pos..n.1], 0) == Some((n.0, n.1 - pos))
  {
    UNBounds(32, buf, pos);
    var n := UN(32, buf, pos).value;
    SameSlice(buf, pos, n.1 - pos);
    UNLocal(32, buf, pos, buf[pos..n.1], 0, n.1 - pos);
  }

  lemma HeadIsOk(buf: Bytes, pos: nat)
    requires ParseHead(buf, pos).Some?
    ensures var head := ParseHead(buf, pos).value;
      pos < head.end <= |buf| && ParseHead(buf[pos..head.end], 0) == Some(head.(end := head.end - pos))
  {
    HeadEnds(buf, pos);
    var head := ParseHead(buf, pos).value;
    SameSlice(buf, pos, head.end - pos);
    HeadLocal(buf, pos, buf[pos..head.end], 0, head.end - pos);
  }

  lemma ThreeSlices(buf: Bytes, a: nat, b: nat, c: nat, d: nat)
    requires a <= b <= c <= d <= |buf|
    ensures buf[a..b] + buf[b..c] + buf[c..d] == buf[a..d]
  {
  }

  lemma ParsedIsOk(buf: Bytes, pos: nat)
    requires ParseEntry(buf, pos).Some?
    ensures var (e, end) := ParseEntry(buf, pos).value; EntryOk(e) && Raw(e) == buf[pos..end]
  {
    var start := ParseHead(buf, pos).value.end;
    HeadIsOk(buf, pos);
    SizeIsOk(buf, start);
    ThreeSlices(buf, pos, start, UN(32, buf, start).value.1, ParseEntry(buf, pos).value.1);
  }

  lemma ParseAt(e: Entry, buf: Bytes, p: nat, q: nat, d: nat)
    requires EntryOk(e) && q == p + |e.head| && d == q + |e.size| && d + |e.data| <= |buf|
    requires Same(e.head, 0, buf, p, |e.head|) && Same(e.size, 0, buf, q, |e.size|)
    requires buf[p..q] == e.head && buf[q..d] == e.size && buf[d..d + |e.data|] == e.data
    ensures ParseEntry(buf, p) == Some((e, d + |e.data|))
  {
    HeadLocal(e.head, 0, buf, p, |e.head|);
    UNLocal(32, e.size, 0, buf, q, |e.size|);
  }

  /** The bytes of a segment parse to it wherever they stand. */
  lemma ParseRaw(e: Entry, before: Bytes, after: Bytes)
    requires EntryOk(e)
    ensures ParseEntry(before + Raw(e) + after, |before|) == Some((e, |before + Raw(e)|))
  {
    var buf, p := before + Raw(e) + after, |before|;
    var q := p + |e.head|;
    var d := q + |e.size|;
    assert buf[p..q] == e.head && buf[q..d] == e.size && buf[d..d + |e.data|] == e.data;
    SameSlice(buf, p, |e.head|);
    SameSlice(buf, q, |e.size|);
    ParseAt(e, buf, p, q, d);
  }

  // -------------------------------------------------------------------------- the rewrite

  function Emptied(e: Entry): Entry {
    if e.active then e.(size := [0], data := []) else e
  }

  function EmptiedAll(entries: seq<Entry>): (r: seq<Entry>)
    ensures |r| == |entries|
    ensures forall i :: 0 <= i < |r| ==> r[i] == Emptied(entries[i])
  {
    if entries == [] then [] else [Emptied(entries[0])] + EmptiedAll(entries[1..])
  }

  function RawAll(entries: seq<Entry>): Bytes {
    if entries == [] then [] else Raw(entries[0]) + RawAll(entries[1..])
  }

  ghost predicate EntriesOk(entries: seq<Entry>) {
    forall i {:trigger EntryOk(entries[i])} :: 0 <= i < |entries| ==> EntryOk(entries[i])
  }

  lemma EntriesCons(e: Entry, rest: seq<Entry>)
    ensures EntriesOk([e] + rest) <==> EntryOk(e) && EntriesOk(rest)
  {
    var all := [e] + rest;
    if EntriesOk(all) {
      assert EntryOk(all[0]);
      forall i | 0 <= i < |rest| ensures EntryOk(rest[i]) { assert EntryOk(all[i + 1]); }
    }
    if EntryOk(e) && EntriesOk(rest) {
      forall i | 0 <= i < |all| ensures EntryOk(all[i]) {
        if i > 0 { assert EntryOk(rest[i - 1]); }
      }
    }
  }

  lemma {:induction false} ParsedAreOk(buf: Bytes, pos: nat, n: nat)
    requires ParseEntries(buf, pos, n).Some? && pos <= |buf|
    ensures EntriesOk(ParseEntries(buf, pos, n).value)
    ensures RawAll(ParseEntries(buf, pos, n).value) == buf[pos..]
    decreases n
  {
    if n > 0 {
      ParsedIsOk(buf, pos);
      var (e, end) := ParseEntry(buf, pos).value;
      ParsedAreOk(buf, end, n - 1);
      OneMoreOk(buf, pos, e, end, ParseEntries(buf, end, n - 1).value);
    }
  }

  lemma OneMoreOk(buf: Bytes, pos: nat, e: Entry, end: nat, rest: seq<Entry>)
    requires pos <= end <= |buf| && EntryOk(e) && Raw(e) == buf[pos..end]
    requires EntriesOk(rest) && RawAll(rest) == buf[end..]
    ensures EntriesOk([e] + rest) && RawAll([e] + rest) == buf[pos..]
  {
    EntriesCons(e, rest);
    assert ([e] + rest)[1..] == rest;
    assert buf[pos..] == buf[pos..end] + buf[end..];
  }

  lemma EmptiedIsOk(e: Entry)
    requires EntryOk(e)
    ensures EntryOk(Emptied(e))
  {
    RoundTrip(32, [], 0, []);
    assert [] + Encode(0) + [] == [0];
  }

  lemma ParseOneMore(buf: Bytes, pos: nat, n: nat, e: Entry, end: nat, rest: seq<Entry>)
    requires n > 0 && ParseEntry(buf, pos) == Some((e, end)) && ParseEntries(buf, end, n - 1) == Some(rest)
    ensures ParseEntries(buf, pos, n) == Some([e] + rest)
  {
  }

  lemma {:induction false} ParseRawAll(entries: seq<Entry>, before: Bytes, buf: Bytes)
    requires EntriesOk(entries) && buf == before + RawAll(entries)
    ensures ParseEntries(buf, |before|, |entries|) == Some(entries)
  {
    if entries != [] {
      var e, rest := entries[0], entries[1..];
      assert entries == [e] + rest;
      EntriesCons(e, rest);
      assert buf == before + Raw(e) + RawAll(rest);
      ParseRaw(e, before, RawAll(rest));
      ParseRawAll(rest, before + Raw(e), buf);
      ParseOneMore(buf, |before|, |entries|, e, |before + Raw(e)|, rest);
    }
  }

  /** The rewritten section: the count as it was, and the segments with the active ones emptied. */
  function Rewritten(payload: Bytes): Option<Bytes> {
    match ParseSection(payload)
    case None => None
    case Some(entries) =>
      UNBounds(32, payload, 0);
      Some(payload[..UN(32, payload, 0).value.1] + RawAll(EmptiedAll(entries)))
  }

  /** The count in front of the segments is read alike when other bytes follow it. */
  lemma CountKept(payload: Bytes, end: nat, rest: Bytes)
    requires UN(32, payload, 0).Some? && UN(32, payload, 0).value.1 == end <= |payload|
    ensures UN(32, payload[..end] + rest, 0) == UN(32, payload, 0)
  {
    var out := payload[..end] + rest;
    forall k: nat | k < end ensures SameAt(payload, 0, out, 0, k) { }
    UNLocal(32, payload, 0, out, 0, end);
  }

  /** It parses to the same segments, with only the payloads of the active ones gone. */
  lemma RewrittenParses(payload: Bytes)
    requires ParseSection(payload).Some?
    ensures ParseSection(Rewritten(payload).value) == Some(EmptiedAll(ParseSection(payload).value))
  {
    UNBounds(32, payload, 0);
    var count := UN(32, payload, 0).value;
    var entries := ParseSection(payload).value;
    ParsedAreOk(payload, count.1, count.0);
    var emptied := EmptiedAll(entries);
    forall i | 0 <= i < |emptied| ensures EntryOk(emptied[i]) {
      assert EntryOk(entries[i]);
      EmptiedIsOk(entries[i]);
    }
    CountKept(payload, count.1, RawAll(emptied));
    ParseRawAll(emptied, payload[..count.1], payload[..count.1] + RawAll(emptied));
  }

  // --------------------------------------------------------------------------- the memory

  datatype Segment = Segment(index: nat, offset: nat, data: Bytes)

  /** The active segments in order, numbered from `index` on. */
  function Actives(entries: seq<Entry>, index: nat): seq<Segment>
  {
    if entries == [] then []
    else
      var rest := Actives(entries[1..], index + 1);
      if entries[0].active then [Segment(index, entries[0].offset, entries[0].data)] + rest else rest
  }

  /** Copying data into memory; it traps when it does not fit. */
  function Write(mem: Bytes, offset: nat, data: Bytes): Option<Bytes> {
    if offset + |data| > |mem| then None
    else Some(mem[..offset] + data + mem[offset + |data|..])
  }

  /** Instantiation copies the active segments in order (section 4.5.4); offsets are unsigned. */
  function Instantiate(entries: seq<Entry>, mem: Bytes): Option<Bytes>
  {
    if entries == [] then Some(mem)
    else if !entries[0].active then Instantiate(entries[1..], mem)
    else match Write(mem, entries[0].offset, entries[0].data)
      case None => None
      case Some(next) => Instantiate(entries[1..], next)
  }

  /** The seed image: segments laid over each other in order. */
  function Overlay(segments: seq<Segment>, mem: Bytes): Option<Bytes> {
    if segments == [] then Some(mem)
    else match Write(mem, segments[0].offset, segments[0].data)
      case None => None
      case Some(next) => Overlay(segments[1..], next)
  }

  predicate FitsIn(e: Entry, size: nat) {
    e.active ==> e.offset + |e.data| <= size
  }

  predicate Fits(entries: seq<Entry>, size: nat) {
    forall i {:trigger FitsIn(entries[i], size)} :: 0 <= i < |entries| ==> FitsIn(entries[i], size)
  }

  /** The shell never traps, and leaves the memory as it finds it. */
  lemma {:induction false} ShellKeepsMemory(entries: seq<Entry>, mem: Bytes)
    requires Fits(entries, |mem|)
    ensures Instantiate(EmptiedAll(entries), mem) == Some(mem)
  {
    if entries != [] {
      assert EmptiedAll(entries)[1..] == EmptiedAll(entries[1..]);
      forall i | 0 <= i < |entries[1..]| ensures FitsIn(entries[1..][i], |mem|) { assert FitsIn(entries[i + 1], |mem|); }
      ShellKeepsMemory(entries[1..], mem);
      var e := entries[0];
      assert FitsIn(e, |mem|);
      if e.active {
        assert mem[..e.offset] + [] + mem[e.offset..] == mem;
      }
    }
  }

  /** Laying the active segments over a memory is what instantiating the original does to it. */
  lemma {:induction false} OverlayIsInstantiation(entries: seq<Entry>, index: nat, mem: Bytes)
    requires Fits(entries, |mem|)
    ensures Instantiate(entries, mem).Some? && |Instantiate(entries, mem).value| == |mem|
    ensures Overlay(Actives(entries, index), mem) == Instantiate(entries, mem)
  {
    if entries != [] {
      var e := entries[0];
      assert FitsIn(e, |mem|);
      forall i | 0 <= i < |entries[1..]| ensures FitsIn(entries[1..][i], |mem|) { assert FitsIn(entries[i + 1], |mem|); }
      if e.active {
        OverlayIsInstantiation(entries[1..], index + 1, Write(mem, e.offset, e.data).value);
        assert Actives(entries, index)[1..] == Actives(entries[1..], index + 1);
      } else {
        OverlayIsInstantiation(entries[1..], index + 1, mem);
      }
    }
  }
}
