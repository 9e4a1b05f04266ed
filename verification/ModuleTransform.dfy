/**
 The transformation as it runs: one pass over the sections (cow_data_image.go).
 */
module ModuleTransform {
  import opened Options
  import opened Leb128
  import opened DataSection
  import opened DataImage
  import opened CodeCheck
  import opened ModuleShell

  // ----------------------------------------------------------------------- single sections

  method ReadName(b: Bytes, q: nat) returns (r: Option<nat>)
    ensures r == SkipName(b, q)
  {
    var length := ReadULEB(b, q, 32);
    if length.None? { return None; }
    var end := length.value.1 + length.value.0;
    if end > |b| { return None; }
    return Some(end);
  }

  method ReadLimits(b: Bytes, q: nat) returns (r: Option<nat>)
    ensures r == SkipLimits(b, q)
  {
    var flags := ReadULEB(b, q, 32);
    if flags.None? { return None; }
    var min := ReadULEB(b, flags.value.1, 32);
    if min.None? { return None; }
    if flags.value.0 % 2 == 0 { return Some(min.value.1); }
    var max := ReadULEB(b, min.value.1, 32);
    if max.None? { return None; }
    return Some(max.value.1);
  }

  /** Past one import: its two names and what is imported; is it a memory? */
  method ReadImport(b: Bytes, q: nat) returns (r: Option<(bool, nat)>)
    ensures r == SkipImport(b, q)
  {
    var name := ReadName(b, q);
    if name.None? { return None; }
    name := ReadName(b, name.value);
    if name.None? { return None; }
    r := ReadExtern(b, name.value);
  }

  method ReadExtern(b: Bytes, q: nat) returns (r: Option<(bool, nat)>)
    ensures r == SkipExtern(b, q)
  {
    if q >= |b| { return None; }
    var cursor := q + 1;
    match b[q] {
      case 0 =>
        var index := ReadULEB(b, cursor, 32);
        if index.None? { return None; }
        return Some((false, index.value.1));
      case 1 =>
        if cursor >= |b| { return None; }
        var table := ReadLimits(b, cursor + 1);
        if table.None? { return None; }
        return Some((false, table.value));
      case 2 =>
        var memory := ReadLimits(b, cursor);
        if memory.None? { return None; }
        return Some((true, memory.value));
      case 3 =>
        if cursor + 2 > |b| { return None; }
        return Some((false, cursor + 2));
      case _ => return None;
    }
  }

  method CountImportedMemories(payload: Bytes) returns (r: Option<nat>)
    ensures r == ImportedMemories(payload)
  {
    var count := ReadULEB(payload, 0, 32);
    if count.None? { return None; }
    var q: nat, found: nat := count.value.1, 0;
    ghost var all := CountMemories(payload, q, count.value.0);
    for i := 0 to count.value.0
      invariant all.Some? <==> CountMemories(payload, q, count.value.0 - i).Some?
      invariant all.Some? ==> all.value == found + CountMemories(payload, q, count.value.0 - i).value
    {
      var one := ReadImport(payload, q);
      if one.None? { return None; }
      if one.value.0 { found := found + 1; }
      q := one.value.1;
    }
    return Some(found);
  }

  method ReadMemories(payload: Bytes) returns (r: Option<(nat, Option<(nat, nat)>)>)
    ensures r == Memories(payload)
  {
    var count := ReadULEB(payload, 0, 32);
    if count.None? { return None; }
    if count.value.0 != 1 { return Some((count.value.0, None)); }
    var flags := ReadULEB(payload, count.value.1, 32);
    if flags.None? { return None; }
    var min := ReadULEB(payload, flags.value.1, 32);
    if min.None? { return None; }
    if flags.value.0 != 1 { return None; }
    var max := ReadULEB(payload, min.value.1, 32);
    if max.None? { return None; }
    return Some((1, Some((min.value.0, max.value.0))));
  }

  /** What the section adds to the scan, and the bytes and segments that it leaves. */
  method TakeSection(scan: Scan, s: Section) returns (r: Option<Scan>, bytes: Bytes, active: seq<Segment>)
    ensures r == ScanOne(scan, s)
    ensures r.Some? ==> bytes == SectionBytes(Shelled(s))
    ensures r.Some? && s.id == 11 ==> r.value.data.Some? && active == Actives(r.value.data.value, 0)
    ensures r.Some? && s.id != 11 ==> r.value.data == scan.data
  {
    r, bytes, active := Some(scan), s.head + s.payload, [];
    match s.id {
      case 2 =>
        var imported := CountImportedMemories(s.payload);
        if imported.None? { return None, bytes, active; }
        r := Some(scan.(imported := scan.imported + imported.value));
      case 5 =>
        var memories := ReadMemories(s.payload);
        if memories.None? { return None, bytes, active; }
        r := Some(scan.(count := memories.value.0, memory := if memories.value.1.Some? then memories.value.1 else scan.memory));
      case 8 => r := None;
      case 10 => r := if scan.code.Some? then None else Some(scan.(code := Some(s.payload)));
      case 11 =>
        if scan.data.Some? { return None, bytes, active; }
        var rewritten := RewriteDataSection(s.payload, SizeOf(scan.memory));
        if rewritten.None? { return None, bytes, active; }
        r := Some(scan.(data := ParseSection(s.payload), checked := scan.memory));
        active := rewritten.value.1;
        bytes := AppendULEB([11], |rewritten.value.0|);
        bytes := bytes + rewritten.value.0;
      case _ =>
    }
  }

  // ------------------------------------------------------------------------ the whole pass

  /** What the pass comes to when it has got to `pos` with this scan and these bytes. */
  function Outcome(wasm: Bytes, pos: nat, scan: Scan, out: Bytes): Option<Image> {
    match ParseSections(wasm, pos)
    case None => None
    case Some(rest) =>
      match ScanAll(scan, rest)
      case None => None
      case Some(final) =>
        if !Accepts(final) then None
        else Some(Image(out + AllBytes(ShelledAll(rest)), final.memory.value.0 * PAGE, Actives(final.data.value, 0)))
  }

  lemma OutcomeNext(wasm: Bytes, pos: nat, scan: Scan, out: Bytes)
    requires pos < |wasm|
    ensures ParseOne(wasm, pos).None? ==> Outcome(wasm, pos, scan, out) == None
    ensures ParseOne(wasm, pos).Some? ==>
      var (s, end) := ParseOne(wasm, pos).value;
      Outcome(wasm, pos, scan, out) ==
        if ScanOne(scan, s).None? then None else Outcome(wasm, end, ScanOne(scan, s).value, out + SectionBytes(Shelled(s)))
  {
    if ParseOne(wasm, pos).Some? {
      var (s, end) := ParseOne(wasm, pos).value;
      if ParseSections(wasm, end).Some? {
        var rest := ParseSections(wasm, end).value;
        var all := [s] + rest;
        assert ParseSections(wasm, pos) == Some(all) && all[1..] == rest;
        assert ShelledAll(all) == [Shelled(s)] + ShelledAll(rest);
        var shelled := [Shelled(s)] + ShelledAll(rest);
        assert shelled[1..] == ShelledAll(rest);
        assert out + AllBytes(shelled) == out + SectionBytes(Shelled(s)) + AllBytes(ShelledAll(rest));
      }
    }
  }

  method ReadSection(wasm: Bytes, pos: nat) returns (r: Option<(Section, nat)>)
    requires pos < |wasm|
    ensures r == ParseOne(wasm, pos)
  {
    var length := ReadULEB(wasm, pos + 1, 32);
    if length.None? { return None; }
    UNBounds(32, wasm, pos + 1);
    var end := length.value.1 + length.value.0;
    if end > |wasm| { return None; }
    return Some((Section(wasm[pos], wasm[pos..length.value.1], wasm[length.value.1..end]), end));
  }

  method FinalCheck(scan: Scan) returns (ok: bool)
    ensures ok <==> Accepts(scan)
  {
    if scan.imported != 0 || scan.count != 1 || scan.memory.None? { return false; }
    if scan.memory.value.0 == 0 || scan.memory.value.1 < scan.memory.value.0 { return false; }
    if scan.data.None? || !HasActive(scan.data.value) { return false; }
    if scan.code.None? { return true; }
    ok := ValidateCode(scan.code.value, Modes(scan.data.value));
  }

  /** Make the shell and the seed of a module, or refuse it. */
  method Transform(wasm: Bytes) returns (r: Option<Image>)
    ensures r == Transformed(wasm)
  {
    if |wasm| < 8 || wasm[..8] != MAGIC { return None; }
    var pos: nat, out, scan, active: seq<Segment> := 8, wasm[..8], EMPTY, [];
    while pos < |wasm|
      invariant pos <= |wasm|
      invariant Transformed(wasm) == Outcome(wasm, pos, scan, out)
      invariant scan.data.Some? ==> active == Actives(scan.data.value, 0)
      decreases |wasm| - pos
    {
      OutcomeNext(wasm, pos, scan, out);
      var section := ReadSection(wasm, pos);
      if section.None? { return None; }
      var (s, end) := section.value;
      var next, bytes, segments := TakeSection(scan, s);
      if next.None? { return None; }
      if s.id == 11 { active := segments; }
      pos, out, scan := end, out + bytes, next.value;
    }
    assert out + AllBytes(ShelledAll([])) == out;
    var ok := FinalCheck(scan);
    if !ok { return None; }
    return Some(Image(out, scan.memory.value.0 * PAGE, active));
  }
}
