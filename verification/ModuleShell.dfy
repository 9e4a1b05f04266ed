/**
 The transformation of a whole module (cow_data_image.go): which modules it accepts, and what the
 shell and the seed image of an accepted module are worth.
 */
module ModuleShell {
  import opened Options
  import opened Leb128
  import opened DataSection
  import opened DataImage
  import opened CodeWalker
  import opened CodeCheck

  // ---------------------------------------------------------------------------- sections

  /** `head` is the section's id and its length field. */
  datatype Section = Section(id: nat, head: Bytes, payload: Bytes)

  function SectionBytes(s: Section): Bytes {
    s.head + s.payload
  }

  function ParseOne(wasm: Bytes, pos: nat): (r: Option<(Section, nat)>)
    ensures r.Some? ==> pos < r.value.1 <= |wasm|
  {
    if pos >= |wasm| then None
    else match UN(32, wasm, pos + 1)
      case None => None
      case Some(length) =>
        UNBounds(32, wasm, pos + 1);
        var end := length.1 + length.0;
        if end > |wasm| then None
        else Some((Section(wasm[pos], wasm[pos..length.1], wasm[length.1..end]), end))
  }

  function ParseSections(wasm: Bytes, pos: nat): Option<seq<Section>>
    decreases |wasm| - pos
  {
    if pos >= |wasm| then if pos == |wasm| then Some([]) else None
    else match ParseOne(wasm, pos)
      case None => None
      case Some(s) =>
        match ParseSections(wasm, s.1)
        case None => None
        case Some(rest) => Some([s.0] + rest)
  }

  function AllBytes(sections: seq<Section>): Bytes {
    if sections == [] then [] else SectionBytes(sections[0]) + AllBytes(sections[1..])
  }

  /** The head of a section is its id and the length of its payload. */
  predicate SectionOk(s: Section) {
    |s.head| > 1 && s.head[0] == s.id && UN(32, s.head, 1) == Some((|s.payload|, |s.head|))
  }

  predicate SectionsOk(sections: seq<Section>) {
    forall i {:trigger SectionOk(sections[i])} :: 0 <= i < |sections| ==> SectionOk(sections[i])
  }

  lemma HeadIsLocal(wasm: Bytes, pos: nat, length: nat, start: nat, head: Bytes)
    requires pos + 1 < start <= |wasm| && head == wasm[pos..start] && UN(32, wasm, pos + 1) == Some((length, start))
    ensures |head| == start - pos && head[0] == wasm[pos] && UN(32, head, 1) == Some((length, |head|))
  {
    var n := start - pos;
    SameSlice(wasm, pos, n);
    SamePart(wasm, pos, head, 0, n, 1, n);
    UNLocal(32, wasm, pos + 1, head, 1, n - 1);
  }

  lemma ParsedSectionOk(wasm: Bytes, pos: nat)
    requires ParseOne(wasm, pos).Some?
    ensures var (s, end) := ParseOne(wasm, pos).value; SectionOk(s) && SectionBytes(s) == wasm[pos..end]
  {
    UNBounds(32, wasm, pos + 1);
    var (s, end) := ParseOne(wasm, pos).value;
    var (length, start) := UN(32, wasm, pos + 1).value;
    HeadIsLocal(wasm, pos, length, start, s.head);
  }

  lemma ParseSectionBytes(s: Section, before: Bytes, after: Bytes)
    requires SectionOk(s)
    ensures ParseOne(before + SectionBytes(s) + after, |before|) == Some((s, |before + SectionBytes(s)|))
  {
    var wasm, p, n := before + SectionBytes(s) + after, |before|, |s.head|;
    assert wasm[p..p + n] == s.head && wasm[p + n..p + n + |s.payload|] == s.payload;
    SameSlice(wasm, p, n);
    SamePart(s.head, 0, wasm, p, n, 1, n);
    UNLocal(32, s.head, 1, wasm, p + 1, n - 1);
    assert wasm[p] == s.head[0];
  }

  lemma {:induction false} ParseAllBytes(sections: seq<Section>, before: Bytes, wasm: Bytes)
    requires SectionsOk(sections) && wasm == before + AllBytes(sections)
    ensures ParseSections(wasm, |before|) == Some(sections)
    decreases |sections|
  {
    if sections != [] {
      var s, rest := sections[0], sections[1..];
      assert SectionOk(s);
      assert wasm == before + SectionBytes(s) + AllBytes(rest);
      ParseSectionBytes(s, before, AllBytes(rest));
      forall i | 0 <= i < |rest| ensures SectionOk(rest[i]) { assert SectionOk(sections[i + 1]); }
      ParseAllBytes(rest, before + SectionBytes(s), wasm);
      assert sections == [s] + rest;
    }
  }

  // -------------------------------------------------------------- imports and memories

  function SkipName(b: Bytes, q: nat): Option<nat> {
    match UN(32, b, q)
    case None => None
    case Some(n) => if n.1 + n.0 > |b| then None else Some(n.1 + n.0)
  }

  /** Limits have a minimum, and a maximum when the lowest flag says so. */
  function SkipLimits(b: Bytes, q: nat): Option<nat> {
    match U32Pair(b, q)
    case None => None
    case Some(x) =>
      if x.0.0 % 2 == 0 then Some(x.1)
      else match UN(32, b, x.1)
        case None => None
        case Some(max) => Some(max.1)
  }

  /** What is imported, from its kind on: whether it is a memory, and where it ends. */
  function SkipExtern(b: Bytes, q: nat): Option<(bool, nat)> {
    if q >= |b| then None
    else match b[q]
      case 0 => (match UN(32, b, q + 1) case None => None case Some(x) => Some((false, x.1)))
      case 1 => if q + 1 >= |b| then None else (match SkipLimits(b, q + 2) case None => None case Some(e) => Some((false, e)))
      case 2 => (match SkipLimits(b, q + 1) case None => None case Some(e) => Some((true, e)))
      case 3 => if q + 3 > |b| then None else Some((false, q + 3))
      case _ => None
  }

  function SkipImport(b: Bytes, q: nat): Option<(bool, nat)> {
    match SkipName(b, q)
    case None => None
    case Some(m) =>
      match SkipName(b, m)
      case None => None
      case Some(n) => SkipExtern(b, n)
  }

  /** How many of `n` imports are memories. */
  function CountMemories(b: Bytes, q: nat, n: nat): Option<nat>
    decreases n
  {
    if n == 0 then Some(0)
    else match SkipImport(b, q)
      case None => None
      case Some(i) =>
        match CountMemories(b, i.1, n - 1)
        case None => None
        case Some(rest) => Some(rest + if i.0 then 1 else 0)
  }

  function ImportedMemories(payload: Bytes): Option<nat> {
    match UN(32, payload, 0)
    case None => None
    case Some(n) => CountMemories(payload, n.1, n.0)
  }

  /** The number of memories, and the limits in pages of a single one that has a maximum. */
  function Memories(payload: Bytes): Option<(nat, Option<(nat, nat)>)> {
    match UN(32, payload, 0)
    case None => None
    case Some(n) =>
      if n.0 != 1 then Some((n.0, None))
      else match U32Pair(payload, n.1)
        case None => None
        case Some(x) =>
          if x.0.0 != 1 then None
          else match UN(32, payload, x.1)
            case None => None
            case Some(max) => Some((1, Some((x.0.1, max.0))))
  }

  // ------------------------------------------------------------------------- acceptance

  /** What is known of the sections so far. `checked` is the memory that the segments were held against. */
  datatype Scan = Scan(imported: nat, count: nat, memory: Option<(nat, nat)>, code: Option<Bytes>,
                       data: Option<seq<Entry>>, checked: Option<(nat, nat)>)

  const EMPTY: Scan := Scan(0, 0, None, None, None, None)

  function SizeOf(memory: Option<(nat, nat)>): Option<nat> {
    match memory
    case None => None
    case Some(limits) => Some(limits.0 * PAGE)
  }

  function ScanOne(scan: Scan, s: Section): Option<Scan> {
    match s.id
    case 2 => (match ImportedMemories(s.payload) case None => None case Some(n) => Some(scan.(imported := scan.imported + n)))
    case 5 =>
      (match Memories(s.payload)
       case None => None
       case Some(m) => Some(scan.(count := m.0, memory := if m.1.Some? then m.1 else scan.memory)))
    case 8 => None
    case 10 => if scan.code.Some? then None else Some(scan.(code := Some(s.payload)))
    case 11 =>
      if scan.data.Some? || ParseSection(s.payload).None? || !AllSuit(ParseSection(s.payload).value, SizeOf(scan.memory)) then None
      else Some(scan.(data := ParseSection(s.payload), checked := scan.memory))
    case _ => Some(scan)
  }

  function ScanAll(scan: Scan, sections: seq<Section>): Option<Scan>
    decreases |sections|
  {
    if sections == [] then Some(scan)
    else match ScanOne(scan, sections[0])
      case None => None
      case Some(next) => ScanAll(next, sections[1..])
  }

  function Modes(entries: seq<Entry>): seq<bool> {
    seq(|entries|, i requires 0 <= i < |entries| => entries[i].active)
  }

  predicate HasActive(entries: seq<Entry>) {
    exists i :: 0 <= i < |entries| && entries[i].active
  }

  /** One local memory of a fixed size, active data, and code that names no active segment. */
  predicate Accepts(scan: Scan) {
    && scan.imported == 0 && scan.count == 1
    && scan.memory.Some? && 0 < scan.memory.value.0 <= scan.memory.value.1
    && scan.data.Some? && HasActive(scan.data.value)
    && (scan.code.Some? ==> AcceptsCode(scan.code.value, Modes(scan.data.value)))
  }

  /** The section of the shell that stands for a section of the module. */
  function Shelled(s: Section): Section {
    if s.id == 11 && ParseSection(s.payload).Some? then
      var payload := Rewritten(s.payload).value;
      Section(11, [11] + Encode(|payload|), payload)
    else s
  }

  function ShelledAll(sections: seq<Section>): (r: seq<Section>)
    ensures |r| == |sections|
    ensures forall i :: 0 <= i < |r| ==> r[i] == Shelled(sections[i])
  {
    if sections == [] then [] else [Shelled(sections[0])] + ShelledAll(sections[1..])
  }

  datatype Image = Image(shell: Bytes, memorySize: nat, active: seq<Segment>)

  const MAGIC: Bytes := [0x00, 0x61, 0x73, 0x6d, 0x01, 0x00, 0x00, 0x00]

  predicate HasHeader(wasm: Bytes) {
    |wasm| >= 8 && wasm[..8] == MAGIC
  }

  /** The sections of a module and what the scan finds in them, if it parses and the scan ends well. */
  function Scanned(wasm: Bytes): Option<(seq<Section>, Scan)> {
    if !HasHeader(wasm) || ParseSections(wasm, 8).None? then None
    else
      var sections := ParseSections(wasm, 8).value;
      match ScanAll(EMPTY, sections)
      case None => None
      case Some(scan) => Some((sections, scan))
  }

  function Transformed(wasm: Bytes): Option<Image> {
    match Scanned(wasm)
    case None => None
    case Some(found) =>
      if !Accepts(found.1) then None
      else Some(Image(wasm[..8] + AllBytes(ShelledAll(found.0)), found.1.memory.value.0 * PAGE, Actives(found.1.data.value, 0)))
  }

  // --------------------------------------------------------------------------- the shell

  lemma {:induction false} ParsedSectionsOk(wasm: Bytes, pos: nat)
    requires pos <= |wasm| && ParseSections(wasm, pos).Some?
    ensures SectionsOk(ParseSections(wasm, pos).value)
    ensures AllBytes(ParseSections(wasm, pos).value) == wasm[pos..]
    decreases |wasm| - pos
  {
    if pos < |wasm| {
      ParsedSectionOk(wasm, pos);
      var (s, end) := ParseOne(wasm, pos).value;
      ParsedSectionsOk(wasm, end);
      var rest := ParseSections(wasm, end).value;
      var all := [s] + rest;
      assert ParseSections(wasm, pos).value == all && all[1..] == rest;
      forall i | 0 <= i < |all| ensures SectionOk(all[i]) {
        if i > 0 { assert SectionOk(rest[i - 1]); }
      }
      assert wasm[pos..] == wasm[pos..end] + wasm[end..];
    }
  }

  lemma {:induction false} EmptiedIsShorter(entries: seq<Entry>)
    requires EntriesOk(entries)
    ensures |RawAll(EmptiedAll(entries))| <= |RawAll(entries)|
  {
    if entries != [] {
      EntriesCons(entries[0], entries[1..]);
      assert entries == [entries[0]] + entries[1..];
      UNBounds(32, entries[0].size, 0);
      assert EmptiedAll(entries)[1..] == EmptiedAll(entries[1..]);
      EmptiedIsShorter(entries[1..]);
    }
  }

  lemma RewrittenIsShorter(payload: Bytes)
    requires ParseSection(payload).Some?
    ensures |Rewritten(payload).value| <= |payload|
  {
    UNBounds(32, payload, 0);
    var count := UN(32, payload, 0).value;
    ParsedAreOk(payload, count.1, count.0);
    EmptiedIsShorter(ParseSection(payload).value);
  }

  lemma ShelledIsOk(s: Section)
    requires SectionOk(s)
    ensures SectionOk(Shelled(s))
  {
    if s.id == 11 && ParseSection(s.payload).Some? {
      RewrittenIsShorter(s.payload);
      var n := |Rewritten(s.payload).value|;
      UNBounds(32, s.head, 1);
      RoundTrip(32, [11], n, []);
      assert [11] + Encode(n) + [] == [11] + Encode(n);
    }
  }

  /** The shell is the module section by section: only the Data section is another one. */
  lemma ShellParses(wasm: Bytes)
    requires Transformed(wasm).Some?
    ensures HasHeader(Transformed(wasm).value.shell)
    ensures ParseSections(Transformed(wasm).value.shell, 8) == Some(ShelledAll(Scanned(wasm).value.0))
  {
    var sections := Scanned(wasm).value.0;
    ParsedSectionsOk(wasm, 8);
    var shelled := ShelledAll(sections);
    forall i | 0 <= i < |shelled| ensures SectionOk(shelled[i]) {
      assert SectionOk(sections[i]);
      ShelledIsOk(sections[i]);
    }
    ParseAllBytes(shelled, wasm[..8], Transformed(wasm).value.shell);
  }

  /** All other sections keep every byte; the Data section loses only the payloads of active segments. */
  lemma ShellSections(wasm: Bytes, i: nat)
    requires Transformed(wasm).Some? && i < |Scanned(wasm).value.0|
    ensures var s, shelled := Scanned(wasm).value.0[i], ShelledAll(Scanned(wasm).value.0)[i];
      && (s.id != 11 ==> shelled == s)
      && (s.id == 11 ==>
            && shelled.id == 11 && ParseSection(s.payload).Some?
            && ParseSection(shelled.payload) == Some(EmptiedAll(ParseSection(s.payload).value)))
  {
    var (sections, scan) := Scanned(wasm).value;
    if sections[i].id == 11 {
      ScannedDataParses(EMPTY, sections, i);
      RewrittenParses(sections[i].payload);
    }
  }

  lemma {:induction false} ScannedDataParses(scan: Scan, sections: seq<Section>, i: nat)
    requires i < |sections| && sections[i].id == 11 && ScanAll(scan, sections).Some?
    ensures ParseSection(sections[i].payload).Some?
    ensures ScanAll(scan, sections).value.data == ParseSection(sections[i].payload)
    decreases |sections|
  {
    var next := ScanOne(scan, sections[0]).value;
    if i > 0 {
      assert sections[1..][i - 1] == sections[i];
      ScannedDataParses(next, sections[1..], i - 1);
    } else {
      DataStays(next, sections[1..]);
    }
  }

  /** There is no second Data section, and what was read of the first stays. */
  lemma {:induction false} DataStays(scan: Scan, sections: seq<Section>)
    requires scan.data.Some? && ScanAll(scan, sections).Some?
    ensures ScanAll(scan, sections).value.data == scan.data
    ensures ScanAll(scan, sections).value.checked == scan.checked
    decreases |sections|
  {
    if sections != [] { DataStays(ScanOne(scan, sections[0]).value, sections[1..]); }
  }

  // ------------------------------------------------------------------------- the memory

  /** The segments were held against this memory and all fit. */
  predicate Checked(scan: Scan) {
    scan.data.Some? ==> AllSuit(scan.data.value, SizeOf(scan.checked))
  }

  lemma {:induction false} ScanChecks(scan: Scan, sections: seq<Section>)
    requires Checked(scan) && ScanAll(scan, sections).Some?
    ensures Checked(ScanAll(scan, sections).value)
    decreases |sections|
  {
    if sections != [] { ScanChecks(ScanOne(scan, sections[0]).value, sections[1..]); }
  }

  /** How many Memory sections there are; a valid module has at most one. */
  function MemorySections(sections: seq<Section>): nat {
    if sections == [] then 0 else MemorySections(sections[1..]) + if sections[0].id == 5 then 1 else 0
  }

  /** With at most one Memory section, active segments were held against the memory of the module. */
  lemma {:induction false} CheckedIsMemory(scan: Scan, sections: seq<Section>)
    requires ScanAll(scan, sections).Some?
    requires MemorySections(sections) + (if scan.memory.Some? then 1 else 0) <= 1
    requires scan.data.Some? && HasActive(scan.data.value) ==> scan.memory.Some? && scan.checked == scan.memory
    ensures var final := ScanAll(scan, sections).value;
      && (final.data.Some? && HasActive(final.data.value) ==> final.memory.Some? && final.checked == final.memory)
    decreases |sections|
  {
    if sections != [] {
      var s, next := sections[0], ScanOne(scan, sections[0]).value;
      if s.id == 11 && HasActive(next.data.value) {
        var i :| 0 <= i < |next.data.value| && next.data.value[i].active;
        assert Suits(next.data.value[i], SizeOf(scan.memory));
      }
      CheckedIsMemory(next, sections[1..]);
    }
  }

  function Zeros(n: nat): Bytes {
    seq(n, i => 0)
  }

  /**
   For every accepted module with at most one Memory section: the shell's segments are written
   without a trap and change nothing, and laying the active segments over a zero image of the
   memory's size gives the memory that instantiating the original gives.
   */
  lemma SeedIsOriginalMemory(wasm: Bytes)
    requires Transformed(wasm).Some? && MemorySections(Scanned(wasm).value.0) <= 1
    ensures var image := Transformed(wasm).value;
      var entries := Scanned(wasm).value.1.data.value;
      var zeros := Zeros(image.memorySize);
      && Instantiate(EmptiedAll(entries), zeros) == Some(zeros)
      && Instantiate(entries, zeros).Some?
      && Overlay(image.active, zeros) == Instantiate(entries, zeros)
  {
    var (sections, scan) := Scanned(wasm).value;
    var entries, size := scan.data.value, scan.memory.value.0 * PAGE;
    ScanChecks(EMPTY, sections);
    CheckedIsMemory(EMPTY, sections);
    forall i | 0 <= i < |entries| ensures FitsIn(entries[i], size) { assert Suits(entries[i], SizeOf(scan.memory)); }
    ShellKeepsMemory(entries, Zeros(size));
    OverlayIsInstantiation(entries, 0, Zeros(size));
  }
}
