/**
 The replacement-only shell of a module (cow_data_image.go): its Data section without the active
 payloads, and the seed image that these make (internal/cowmem/cow_linux.go).
 */
module DataImage {
  import opened Options
  import opened Leb128
  import opened DataSection

  const PAGE: nat := 65536

  // ------------------------------------------------------------------------ the Data section

  /** An active segment needs a memory that holds all of it. */
  predicate Suits(e: Entry, memory: Option<nat>) {
    e.active ==> memory.Some? && e.offset + |e.data| <= memory.value
  }

  predicate AllSuit(entries: seq<Entry>, memory: Option<nat>) {
    forall i {:trigger Suits(entries[i], memory)} :: 0 <= i < |entries| ==> Suits(entries[i], memory)
  }

  method ReadI32Const(buf: Bytes, pos: nat) returns (r: Option<(int, nat)>)
    ensures r == I32Const(buf, pos)
  {
    if pos >= |buf| || buf[pos] != 0x41 { return None; }
    var value := ReadSLEB(buf, pos + 1, 32);
    if value.None? { return None; }
    if value.value.1 >= |buf| || buf[value.value.1] != 0x0b { return None; }
    return Some((value.value.0, value.value.1 + 1));
  }

  method ReadHead(buf: Bytes, pos: nat) returns (r: Option<Head>)
    ensures r == ParseHead(buf, pos)
  {
    var mode := ReadULEB(buf, pos, 32);
    if mode.None? { return None; }
    var cursor := mode.value.1;
    if mode.value.0 == 1 { return Some(Head(false, 0, cursor)); }
    if mode.value.0 != 0 && mode.value.0 != 2 { return None; }
    if mode.value.0 == 2 {
      var memory := ReadULEB(buf, cursor, 32);
      if memory.None? || memory.value.0 != 0 { return None; }
      cursor := memory.value.1;
    }
    var offset := ReadI32Const(buf, cursor);
    if offset.None? || offset.value.0 < 0 { return None; }
    return Some(Head(true, offset.value.0, offset.value.1));
  }

  method ReadEntry(buf: Bytes, pos: nat) returns (r: Option<(Entry, nat)>)
    ensures r == ParseEntry(buf, pos)
  {
    var head := ReadHead(buf, pos);
    if head.None? { return None; }
    HeadEnds(buf, pos);
    var start := head.value.end;
    var length := ReadULEB(buf, start, 32);
    if length.None? { return None; }
    UNBounds(32, buf, start);
    var end := length.value.1 + length.value.0;
    if end > |buf| { return None; }
    return Some((Entry(head.value.active, head.value.offset, buf[pos..start], buf[start..length.value.1],
                       buf[length.value.1..end]), end));
  }

  datatype Copy = Copy(out: Bytes, active: seq<Segment>)

  /** One more segment, without its payload when it is active. */
  function CopyOne(copy: Copy, e: Entry, index: nat): Copy {
    if e.active then Copy(copy.out + e.head + [0], copy.active + [Segment(index, e.offset, e.data)])
    else Copy(copy.out + Raw(e), copy.active)
  }

  /** The segments copied one after the other onto what was copied before. */
  function CopyAll(copy: Copy, entries: seq<Entry>, index: nat): Copy
    decreases |entries|
  {
    if entries == [] then copy else CopyAll(CopyOne(copy, entries[0], index), entries[1..], index + 1)
  }

  lemma Reassociate(a: Bytes, b: Bytes, c: Bytes)
    ensures a + (b + c) == (a + b) + c
  {
  }

  lemma CopyOneShell(copy: Copy, e: Entry, index: nat)
    ensures CopyOne(copy, e, index).out == copy.out + Raw(Emptied(e))
  {
    if e.active {
      assert e.head + [0] + [] == e.head + [0];
      Reassociate(copy.out, e.head, [0]);
    }
  }

  lemma {:induction false} CopyIsShell(copy: Copy, entries: seq<Entry>, index: nat)
    ensures CopyAll(copy, entries, index).out == copy.out + RawAll(EmptiedAll(entries))
    decreases |entries|
  {
    if entries != [] {
      var next, rest := CopyOne(copy, entries[0], index), entries[1..];
      CopyIsShell(next, rest, index + 1);
      CopyOneShell(copy, entries[0], index);
      assert EmptiedAll(entries)[1..] == EmptiedAll(rest);
      Reassociate(copy.out, Raw(Emptied(entries[0])), RawAll(EmptiedAll(rest)));
    }
  }

  lemma {:induction false} CopyIsActives(copy: Copy, entries: seq<Entry>, index: nat)
    ensures CopyAll(copy, entries, index).active == copy.active + Actives(entries, index)
    decreases |entries|
  {
    if entries != [] {
      var e, rest := entries[0], entries[1..];
      CopyIsActives(CopyOne(copy, e, index), rest, index + 1);
      if e.active {
        var one := [Segment(index, e.offset, e.data)];
        assert copy.active + (one + Actives(rest, index + 1)) == copy.active + one + Actives(rest, index + 1);
      }
    }
  }

  /** What the loop comes to from here, with `left` segments to come; nothing when one does not parse or fit. */
  function Rest(payload: Bytes, pos: nat, left: nat, memory: Option<nat>, copy: Copy, index: nat): Option<Copy>
    decreases left
  {
    if left == 0 then if pos == |payload| then Some(copy) else None
    else match ParseEntry(payload, pos)
      case None => None
      case Some(read) =>
        if !Suits(read.0, memory) then None
        else Rest(payload, read.1, left - 1, memory, CopyOne(copy, read.0, index), index + 1)
  }

  lemma SuitsCons(e: Entry, rest: seq<Entry>, memory: Option<nat>)
    ensures AllSuit([e] + rest, memory) <==> Suits(e, memory) && AllSuit(rest, memory)
  {
    var all := [e] + rest;
    if AllSuit(all, memory) {
      assert Suits(all[0], memory);
      forall i | 0 <= i < |rest| ensures Suits(rest[i], memory) { assert Suits(all[i + 1], memory); }
    }
    if Suits(e, memory) && AllSuit(rest, memory) {
      forall i | 0 <= i < |all| ensures Suits(all[i], memory) {
        if i > 0 { assert Suits(rest[i - 1], memory); }
      }
    }
  }

  /** It succeeds exactly when all parse and fit, and then copies them all. */
  lemma {:induction false} RestIsCopy(payload: Bytes, pos: nat, left: nat, memory: Option<nat>, copy: Copy, index: nat)
    ensures var parsed := ParseEntries(payload, pos, left);
      Rest(payload, pos, left, memory, copy, index) ==
        if parsed.Some? && AllSuit(parsed.value, memory) then Some(CopyAll(copy, parsed.value, index)) else None
    decreases left
  {
    if left > 0 && ParseEntry(payload, pos).Some? {
      var (e, end) := ParseEntry(payload, pos).value;
      RestIsCopy(payload, end, left - 1, memory, CopyOne(copy, e, index), index + 1);
      if ParseEntries(payload, end, left - 1).Some? {
        var rest := ParseEntries(payload, end, left - 1).value;
        SuitsCons(e, rest, memory);
        assert ([e] + rest)[1..] == rest;
      }
    }
  }

  method CopyEntry(payload: Bytes, pos: nat, e: Entry, end: nat, copy: Copy, index: nat) returns (r: Copy)
    requires ParseEntry(payload, pos) == Some((e, end))
    ensures r == CopyOne(copy, e, index)
  {
    ParsedIsOk(payload, pos);
    if e.active {
      var out := AppendULEB(copy.out + e.head, 0);
      r := Copy(out, copy.active + [Segment(index, e.offset, e.data)]);
    } else {
      r := Copy(copy.out + payload[pos..end], copy.active);
    }
  }

  /** The segments of the section, one after the other. */
  method RewriteEntries(payload: Bytes, n: nat, start: nat, memory: Option<nat>, prefix: Bytes) returns (r: Option<Copy>)
    ensures r == Rest(payload, start, n, memory, Copy(prefix, []), 0)
  {
    var cursor, copy := start, Copy(prefix, []);
    for index := 0 to n
      invariant Rest(payload, start, n, memory, Copy(prefix, []), 0) == Rest(payload, cursor, n - index, memory, copy, index)
    {
      var read := ReadEntry(payload, cursor);
      if read.None? { return None; }
      var (e, end) := read.value;
      if e.active && (memory.None? || e.offset + |e.data| > memory.value) { return None; }
      copy := CopyEntry(payload, cursor, e, end, copy, index);
      cursor := end;
    }
    return if cursor == |payload| then Some(copy) else None;
  }

  /**
   Copy the section but for the payloads of active segments, which become empty. It fails exactly
   when the section does not parse, or a segment does not fit the memory.
   */
  method RewriteDataSection(payload: Bytes, memory: Option<nat>) returns (r: Option<(Bytes, seq<Segment>)>)
    ensures r.Some? <==> ParseSection(payload).Some? && AllSuit(ParseSection(payload).value, memory)
    ensures r.Some? ==>
      && r.value == (Rewritten(payload).value, Actives(ParseSection(payload).value, 0))
  {
    var count := ReadULEB(payload, 0, 32);
    if count.None? { return None; }
    UNBounds(32, payload, 0);
    var n: nat, start: nat := count.value.0, count.value.1;
    if n > |payload| - start {
      if ParseSection(payload).Some? { NoMoreEntriesThanBytes(payload, start, n); }
      return None;
    }
    var prefix := payload[..start];
    var copy := RewriteEntries(payload, n, start, memory, prefix);
    RestIsCopy(payload, start, n, memory, Copy(prefix, []), 0);
    if copy.None? { return None; }
    CopyIsShell(Copy(prefix, []), ParseSection(payload).value, 0);
    CopyIsActives(Copy(prefix, []), ParseSection(payload).value, 0);
    assert [] + Actives(ParseSection(payload).value, 0) == Actives(ParseSection(payload).value, 0);
    return Some((copy.value.out, copy.value.active));
  }
}
