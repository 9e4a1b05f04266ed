/**
 The walker itself: it accepts what decodes and names no active and no missing segment.
 */
module CodeCheck {
  import opened Options
  import opened Leb128
  import opened CodeWalker

  // ------------------------------------------------------------------------- the walker

  method ReadPair(b: Bytes, q: nat) returns (r: Option<((nat, nat), nat)>)
    ensures r == U32Pair(b, q)
  {
    var x := ReadULEB(b, q, 32);
    if x.None? { return None; }
    var y := ReadULEB(b, x.value.1, 32);
    if y.None? { return None; }
    return Some(((x.value.0, y.value.0), y.value.1));
  }

  /** Past `n` indices. */
  method SkipIndices(b: Bytes, start: nat, n: nat) returns (r: Option<nat>)
    ensures r.Some? <==> U32s(b, start, n).Some?
    ensures r.Some? ==> r.value == U32s(b, start, n).value.1
  {
    var q := start;
    for i := 0 to n
      invariant U32s(b, start, n).Some? <==> U32s(b, q, n - i).Some?
      invariant U32s(b, q, n - i).Some? ==> U32s(b, start, n).value.1 == U32s(b, q, n - i).value.1
    {
      var x := ReadULEB(b, q, 32);
      if x.None? { return None; }
      q := x.value.1;
    }
    return Some(q);
  }

  method SkipTable(b: Bytes, q: nat) returns (r: Option<nat>)
    ensures r.Some? <==> DecodeTable(b, q).Some?
    ensures r.Some? ==> r.value == DecodeTable(b, q).value.1
  {
    var n := ReadULEB(b, q, 32);
    if n.None? { return None; }
    UNBounds(32, b, q);
    if n.value.0 > |b| - n.value.1 {
      if U32s(b, n.value.1, n.value.0 + 1).Some? { U32sEnds(b, n.value.1, n.value.0 + 1); }
      return None;
    }
    r := SkipIndices(b, n.value.1, n.value.0 + 1);
  }

  method SkipSelect(b: Bytes, q: nat) returns (r: Option<nat>)
    ensures r.Some? <==> DecodeSelect(b, q).Some?
    ensures r.Some? ==> r.value == DecodeSelect(b, q).value.1
  {
    var n := ReadULEB(b, q, 32);
    if n.None? { return None; }
    UNBounds(32, b, q);
    if n.value.0 > |b| - n.value.1 { return None; }
    return Some(n.value.1 + n.value.0);
  }

  /** The decoded instruction is there and may be. */
  predicate Passes(i: Option<(Instr, nat)>, active: seq<bool>) {
    i.Some? && Allowed(i.value.0, active)
  }

  method WalkMisc(b: Bytes, q: nat, active: seq<bool>) returns (r: Option<nat>)
    ensures r.Some? <==> Passes(DecodeMisc(b, q), active)
    ensures r.Some? ==> r.value == DecodeMisc(b, q).value.1
  {
    var sub := ReadULEB(b, q, 32);
    if sub.None? { return None; }
    var (kind, p) := sub.value;
    if kind <= 7 { return Some(p); }
    if kind == 8 || kind == 9 {
      var index := ReadULEB(b, p, 32);
      if index.None? { return None; }
      if index.value.0 >= |active| || active[index.value.0] { return None; }
      if kind == 9 { return Some(index.value.1); }
      var memory := ReadULEB(b, index.value.1, 32);
      if memory.None? { return None; }
      return Some(memory.value.1);
    }
    if IsMiscPair(kind) {
      var pair := ReadPair(b, p);
      if pair.None? { return None; }
      return Some(pair.value.1);
    }
    if IsMiscIndexed(kind) {
      var index := ReadULEB(b, p, 32);
      if index.None? { return None; }
      return Some(index.value.1);
    }
    return None;
  }

  method WalkSigned(b: Bytes, q: nat, bits: nat) returns (r: Option<nat>)
    requires 0 < bits <= 64
    ensures r.Some? <==> SN(bits, b, q).Some?
    ensures r.Some? ==> r.value == SN(bits, b, q).value.1
  {
    var n := ReadSLEB(b, q, bits);
    if n.None? { return None; }
    return Some(n.value.1);
  }

  /** Step over one instruction. */
  method WalkInstruction(b: Bytes, start: nat, active: seq<bool>) returns (r: Option<nat>)
    requires start < |b|
    ensures r.Some? <==> Passes(Decode(b, start), active)
    ensures r.Some? ==> r.value == Decode(b, start).value.1
  {
    var op, q := b[start], start + 1;
    if IsPlain(op) { return Some(q); }
    if IsTyped(op) { r := WalkSigned(b, q, 33); return; }
    if IsIndexed(op) {
      var x := ReadULEB(b, q, 32);
      if x.None? { return None; }
      return Some(x.value.1);
    }
    if IsPair(op) {
      var x := ReadPair(b, q);
      if x.None? { return None; }
      return Some(x.value.1);
    }
    if op == 0x0e { r := SkipTable(b, q); return; }
    if op == 0x1c { r := SkipSelect(b, q); return; }
    if op == 0x41 { r := WalkSigned(b, q, 32); return; }
    if op == 0x42 { r := WalkSigned(b, q, 64); return; }
    if op == 0x43 { return if q + 4 > |b| then None else Some(q + 4); }
    if op == 0x44 { return if q + 8 > |b| then None else Some(q + 8); }
    if op == 0xfc { r := WalkMisc(b, q, active); return; }
    return None;
  }

  /** The rest of a body decodes, and every instruction in it may be. */
  predicate AcceptsFrom(b: Bytes, q: nat, active: seq<bool>) {
    DecodeAll(b, q).Some? && AllAllowed(DecodeAll(b, q).value, active)
  }

  lemma AcceptsNext(b: Bytes, q: nat, active: seq<bool>)
    requires q < |b|
    ensures !Passes(Decode(b, q), active) ==> !AcceptsFrom(b, q, active)
    ensures Passes(Decode(b, q), active) ==> Decode(b, q).value.1 <= |b|
    ensures Passes(Decode(b, q), active) ==> (AcceptsFrom(b, q, active) <==> AcceptsFrom(b, Decode(b, q).value.1, active))
  {
    if Decode(b, q).Some? {
      DecodeEnds(b, q);
      var (i, end) := Decode(b, q).value;
      if DecodeAll(b, end).Some? {
        var rest := DecodeAll(b, end).value;
        AllowedCons(i, rest, active);
        assert DecodeAll(b, q) == Some([i] + rest);
      }
    }
  }

  lemma AllowedCons(i: Instr, rest: seq<Instr>, active: seq<bool>)
    ensures AllAllowed([i] + rest, active) <==> Allowed(i, active) && AllAllowed(rest, active)
  {
    var all := [i] + rest;
    if AllAllowed(all, active) {
      assert Allowed(all[0], active);
      forall k | 0 <= k < |rest| ensures Allowed(rest[k], active) { assert Allowed(all[k + 1], active); }
    }
    if Allowed(i, active) && AllAllowed(rest, active) {
      forall k | 0 <= k < |all| ensures Allowed(all[k], active) {
        if k > 0 { assert Allowed(rest[k - 1], active); }
      }
    }
  }

  method WalkInstructions(b: Bytes, start: nat, active: seq<bool>) returns (ok: bool)
    requires start <= |b|
    ensures ok <==> AcceptsFrom(b, start, active)
  {
    var q := start;
    while q < |b|
      invariant q <= |b| && (AcceptsFrom(b, start, active) <==> AcceptsFrom(b, q, active))
      decreases |b| - q
    {
      AcceptsNext(b, q, active);
      if Decode(b, q).Some? { DecodeEnds(b, q); }
      var next := WalkInstruction(b, q, active);
      if next.None? { return false; }
      q := next.value;
    }
    return true;
  }

  method WalkLocals(b: Bytes, start: nat, n: nat) returns (r: Option<nat>)
    requires start <= |b|
    ensures r == SkipLocals(b, start, n)
    ensures r.Some? ==> r.value <= |b|
  {
    var q: nat := start;
    for i := 0 to n
      invariant q <= |b| && SkipLocals(b, start, n) == SkipLocals(b, q, n - i)
    {
      var count := ReadULEB(b, q, 32);
      if count.None? || count.value.1 >= |b| { return None; }
      if !IsLocalType(b[count.value.1]) { return None; }
      q := count.value.1 + 1;
    }
    return Some(q);
  }

  predicate AcceptsBody(b: Bytes, active: seq<bool>) {
    DecodeBody(b).Some? && AllAllowed(DecodeBody(b).value, active)
  }

  method WalkBody(b: Bytes, active: seq<bool>) returns (ok: bool)
    ensures ok <==> AcceptsBody(b, active)
  {
    var n := ReadULEB(b, 0, 32);
    if n.None? { return false; }
    UNBounds(32, b, 0);
    var q := WalkLocals(b, n.value.1, n.value.0);
    if q.None? { return false; }
    ok := WalkInstructions(b, q.value, active);
  }

  predicate AcceptsBodies(code: Bytes, p: nat, n: nat, active: seq<bool>) {
    DecodeBodies(code, p, n).Some? && CodeAllowed(DecodeBodies(code, p, n).value, active)
  }

  lemma CodeCons(body: seq<Instr>, rest: seq<seq<Instr>>, active: seq<bool>)
    ensures CodeAllowed([body] + rest, active) <==> AllAllowed(body, active) && CodeAllowed(rest, active)
  {
    var all := [body] + rest;
    if CodeAllowed(all, active) {
      assert AllAllowed(all[0], active);
      forall k | 0 <= k < |rest| ensures AllAllowed(rest[k], active) { assert AllAllowed(all[k + 1], active); }
    }
    if AllAllowed(body, active) && CodeAllowed(rest, active) {
      forall k | 0 <= k < |all| ensures AllAllowed(all[k], active) {
        if k > 0 { assert AllAllowed(rest[k - 1], active); }
      }
    }
  }

  lemma BodiesNext(code: Bytes, p: nat, n: nat, active: seq<bool>)
    requires n > 0 && SizedBody(code, p).Some?
    ensures var (body, end) := SizedBody(code, p).value;
      AcceptsBodies(code, p, n, active) <==> AcceptsBody(body, active) && AcceptsBodies(code, end, n - 1, active)
  {
    var (body, end) := SizedBody(code, p).value;
    var first, rest := DecodeBody(body), DecodeBodies(code, end, n - 1);
    if first.Some? && rest.Some? { CodeCons(first.value, rest.value, active); }
  }

  /** The next body of the section, and where it ends. */
  method WalkNextBody(code: Bytes, p: nat, ghost left: nat, active: seq<bool>) returns (r: Option<nat>)
    requires left > 0
    ensures r.None? ==> !AcceptsBodies(code, p, left, active)
    ensures r.Some? ==>
      r.value <= |code| && (AcceptsBodies(code, p, left, active) <==> AcceptsBodies(code, r.value, left - 1, active))
  {
    var size := ReadULEB(code, p, 32);
    if size.None? { return None; }
    var end := size.value.1 + size.value.0;
    if end > |code| { return None; }
    UNBounds(32, code, p);
    BodiesNext(code, p, left, active);
    var good := WalkBody(code[size.value.1..end], active);
    if !good { return None; }
    return Some(end);
  }

  predicate AcceptsCode(code: Bytes, active: seq<bool>) {
    DecodeCode(code).Some? && CodeAllowed(DecodeCode(code).value, active)
  }

  /** The whole Code section. */
  method ValidateCode(code: Bytes, active: seq<bool>) returns (ok: bool)
    ensures ok <==> AcceptsCode(code, active)
  {
    var count := ReadULEB(code, 0, 32);
    if count.None? { return false; }
    UNBounds(32, code, 0);
    var n: nat, p: nat := count.value.0, count.value.1;
    for fn := 0 to n
      invariant p <= |code|
      invariant AcceptsCode(code, active) <==> AcceptsBodies(code, p, n - fn, active)
    {
      var next := WalkNextBody(code, p, n - fn, active);
      if next.None? { return false; }
      p := next.value;
    }
    return p == |code|;
  }
}
