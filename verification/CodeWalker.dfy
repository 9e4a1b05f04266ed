/**
 The walk over the Code section (cow_data_code.go): instructions as sections 5.4 and 5.5.13 of the
 WebAssembly Core Specification 2.0 encode them, and the two that may not name an active segment.
 */
module CodeWalker {
  import opened Options
  import opened Leb128

  /** A supported instruction with its immediates; structure is the engine's business. */
  datatype Instr =
    | Plain(op: nat)
    | Typed(op: nat, blockType: int)
    | Indexed(op: nat, index: nat)
    | BranchTable(targets: seq<nat>)
    | Pair(op: nat, first: nat, second: nat)
    | Select(types: Bytes)
    | Const32(n: int)
    | Const64(n: int)
    | Float(op: nat, bits: Bytes)
    | Misc(sub: nat)
    | MemoryInit(segment: nat, memory: nat)
    | DataDrop(segment: nat)
    | MiscIndexed(sub: nat, index: nat)
    | MiscPair(sub: nat, first: nat, second: nat)

  // ------------------------------------------------------------------------- immediates

  function U32(b: Bytes, q: nat): Option<(nat, nat)> {
    UN(32, b, q)
  }

  function U32Pair(b: Bytes, q: nat): Option<((nat, nat), nat)> {
    match U32(b, q)
    case None => None
    case Some(x) =>
      match U32(b, x.1)
      case None => None
      case Some(y) => Some(((x.0, y.0), y.1))
  }

  /** `n` indices one after the other. */
  function U32s(b: Bytes, q: nat, n: nat): Option<(seq<nat>, nat)>
    decreases n
  {
    if n == 0 then Some(([], q))
    else match U32(b, q)
      case None => None
      case Some(x) =>
        match U32s(b, x.1, n - 1)
        case None => None
        case Some(rest) => Some(([x.0] + rest.0, rest.1))
  }

  function Fixed(b: Bytes, q: nat, n: nat): Option<(Bytes, nat)> {
    if q + n > |b| then None else Some((b[q..q + n], q + n))
  }

  // ------------------------------------------------------------------------ instructions

  predicate IsPlain(op: nat) {
    op in {0x00, 0x01, 0x05, 0x0b, 0x0f, 0x1a, 0x1b, 0xd1} || 0x45 <= op <= 0xc4
  }

  predicate IsTyped(op: nat) { op in {0x02, 0x03, 0x04, 0xd0} }

  predicate IsIndexed(op: nat) {
    op in {0x0c, 0x0d, 0x10, 0xd2, 0x3f, 0x40} || 0x20 <= op <= 0x26
  }

  predicate IsPair(op: nat) { op == 0x11 || 0x28 <= op <= 0x3e }

  predicate IsMiscPair(sub: nat) { sub in {10, 12, 14} }

  predicate IsMiscIndexed(sub: nat) { sub in {11, 13, 15, 16, 17} }

  /** An instruction and where it ends. */
  function Decode(b: Bytes, q: nat): Option<(Instr, nat)> {
    if q >= |b| then None
    else
      var op := b[q];
      if IsPlain(op) then Some((Plain(op), q + 1))
      else if IsTyped(op) then
        match SN(33, b, q + 1) case None => None case Some(n) => Some((Typed(op, n.0), n.1))
      else if IsIndexed(op) then
        match U32(b, q + 1) case None => None case Some(x) => Some((Indexed(op, x.0), x.1))
      else if IsPair(op) then
        match U32Pair(b, q + 1) case None => None case Some(x) => Some((Pair(op, x.0.0, x.0.1), x.1))
      else if op == 0x0e then DecodeTable(b, q + 1)
      else if op == 0x1c then DecodeSelect(b, q + 1)
      else if op == 0x41 then
        match SN(32, b, q + 1) case None => None case Some(n) => Some((Const32(n.0), n.1))
      else if op == 0x42 then
        match SN(64, b, q + 1) case None => None case Some(n) => Some((Const64(n.0), n.1))
      else if op == 0x43 then
        match Fixed(b, q + 1, 4) case None => None case Some(x) => Some((Float(op, x.0), x.1))
      else if op == 0x44 then
        match Fixed(b, q + 1, 8) case None => None case Some(x) => Some((Float(op, x.0), x.1))
      else if op == 0xfc then DecodeMisc(b, q + 1)
      else None
  }

  /** The targets of a branch table and its default. */
  function DecodeTable(b: Bytes, q: nat): Option<(Instr, nat)> {
    match U32(b, q)
    case None => None
    case Some(n) =>
      match U32s(b, n.1, n.0 + 1)
      case None => None
      case Some(x) => Some((BranchTable(x.0), x.1))
  }

  function DecodeSelect(b: Bytes, q: nat): Option<(Instr, nat)> {
    match U32(b, q)
    case None => None
    case Some(n) =>
      match Fixed(b, n.1, n.0)
      case None => None
      case Some(x) => Some((Select(x.0), x.1))
  }

  function DecodeMisc(b: Bytes, q: nat): Option<(Instr, nat)> {
    match U32(b, q)
    case None => None
    case Some(sub) =>
      if sub.0 <= 7 then Some((Misc(sub.0), sub.1))
      else if sub.0 == 8 then
        match U32Pair(b, sub.1) case None => None case Some(x) => Some((MemoryInit(x.0.0, x.0.1), x.1))
      else if sub.0 == 9 then
        match U32(b, sub.1) case None => None case Some(x) => Some((DataDrop(x.0), x.1))
      else if IsMiscPair(sub.0) then
        match U32Pair(b, sub.1) case None => None case Some(x) => Some((MiscPair(sub.0, x.0.0, x.0.1), x.1))
      else if IsMiscIndexed(sub.0) then
        match U32(b, sub.1) case None => None case Some(x) => Some((MiscIndexed(sub.0, x.0), x.1))
      else None
  }

  /** What an instruction may name: `active` says which segments exist and which are active. */
  predicate Allowed(i: Instr, active: seq<bool>) {
    && (i.MemoryInit? ==> i.segment < |active| && !active[i.segment])
    && (i.DataDrop? ==> i.segment < |active| && !active[i.segment])
  }

  predicate AllAllowed(instrs: seq<Instr>, active: seq<bool>) {
    forall k {:trigger Allowed(instrs[k], active)} :: 0 <= k < |instrs| ==> Allowed(instrs[k], active)
  }

  // ------------------------------------------------------------------------------ ends

  lemma {:induction false} U32sEnds(b: Bytes, q: nat, n: nat)
    requires U32s(b, q, n).Some? && q <= |b|
    ensures q + n <= U32s(b, q, n).value.1 <= |b|
    decreases n
  {
    if n > 0 {
      UNBounds(32, b, q);
      U32sEnds(b, U32(b, q).value.1, n - 1);
    }
  }

  lemma PairEnds(b: Bytes, q: nat)
    requires U32Pair(b, q).Some?
    ensures q < U32Pair(b, q).value.1 <= |b|
  {
    UNBounds(32, b, q);
    UNBounds(32, b, U32(b, q).value.1);
  }

  lemma MiscEnds(b: Bytes, q: nat)
    requires DecodeMisc(b, q).Some?
    ensures q < DecodeMisc(b, q).value.1 <= |b|
  {
    UNBounds(32, b, q);
    var sub := U32(b, q).value;
    if sub.0 == 8 || IsMiscPair(sub.0) { PairEnds(b, sub.1); }
    if sub.0 == 9 || IsMiscIndexed(sub.0) { UNBounds(32, b, sub.1); }
  }

  lemma VectorEnds(b: Bytes, q: nat)
    ensures DecodeTable(b, q).Some? ==> q < DecodeTable(b, q).value.1 <= |b|
    ensures DecodeSelect(b, q).Some? ==> q < DecodeSelect(b, q).value.1 <= |b|
  {
    if U32(b, q).Some? {
      UNBounds(32, b, q);
      var n := U32(b, q).value;
      if U32s(b, n.1, n.0 + 1).Some? { U32sEnds(b, n.1, n.0 + 1); }
    }
  }

  lemma DecodeEnds(b: Bytes, q: nat)
    requires Decode(b, q).Some?
    ensures q < Decode(b, q).value.1 <= |b|
  {
    var op, p := b[q], q + 1;
    if IsPlain(op) {
    } else if IsTyped(op) {
      SNBounds(33, b, p);
    } else if IsIndexed(op) {
      UNBounds(32, b, p);
    } else if IsPair(op) {
      PairEnds(b, p);
    } else if op == 0x41 {
      SNBounds(32, b, p);
    } else if op == 0x42 {
      SNBounds(64, b, p);
    } else if op == 0xfc {
      MiscEnds(b, p);
    } else {
      VectorEnds(b, p);
    }
  }

  // --------------------------------------------------------------------------- bodies

  /** The instructions from `q` to the end. */
  function DecodeAll(b: Bytes, q: nat): Option<seq<Instr>>
    decreases |b| - q
  {
    if q >= |b| then if q == |b| then Some([]) else None
    else match Decode(b, q)
      case None => None
      case Some(i) =>
        DecodeEnds(b, q);
        match DecodeAll(b, i.1)
        case None => None
        case Some(rest) => Some([i.0] + rest)
  }

  predicate IsLocalType(t: nat) {
    t in {0x7f, 0x7e, 0x7d, 0x7c, 0x7b, 0x70, 0x6f}
  }

  /** Past `n` groups of locals. */
  function SkipLocals(b: Bytes, q: nat, n: nat): (r: Option<nat>)
    decreases n
  {
    if n == 0 then Some(q)
    else match U32(b, q)
      case None => None
      case Some(count) =>
        if count.1 >= |b| || !IsLocalType(b[count.1]) then None
        else SkipLocals(b, count.1 + 1, n - 1)
  }

  function DecodeBody(b: Bytes): Option<seq<Instr>> {
    match U32(b, 0)
    case None => None
    case Some(n) =>
      match SkipLocals(b, n.1, n.0)
      case None => None
      case Some(q) => DecodeAll(b, q)
  }

  /** The bytes of a body with its size in front, and where they end. */
  function SizedBody(code: Bytes, p: nat): (r: Option<(Bytes, nat)>)
    ensures r.Some? ==> p < r.value.1 <= |code|
  {
    match U32(code, p)
    case None => None
    case Some(size) =>
      var end := size.1 + size.0;
      UNBounds(32, code, p);
      if end > |code| then None else Some((code[size.1..end], end))
  }

  /** `n` bodies from `p` on, each with its size in front, and nothing after the last. */
  function DecodeBodies(code: Bytes, p: nat, n: nat): Option<seq<seq<Instr>>>
    decreases n
  {
    if n == 0 then if p == |code| then Some([]) else None
    else match SizedBody(code, p)
      case None => None
      case Some(b) => BodyAndRest(DecodeBody(b.0), DecodeBodies(code, b.1, n - 1))
  }

  function BodyAndRest(body: Option<seq<Instr>>, rest: Option<seq<seq<Instr>>>): Option<seq<seq<Instr>>> {
    if body.None? || rest.None? then None else Some([body.value] + rest.value)
  }

  function DecodeCode(code: Bytes): Option<seq<seq<Instr>>> {
    match U32(code, 0)
    case None => None
    case Some(n) => DecodeBodies(code, n.1, n.0)
  }

  predicate CodeAllowed(bodies: seq<seq<Instr>>, active: seq<bool>) {
    forall k {:trigger AllAllowed(bodies[k], active)} :: 0 <= k < |bodies| ==> AllAllowed(bodies[k], active)
  }
}
