/**
 The grammar of the Code section as sections 5.4, 5.5.13 and 5.2.2 of the WebAssembly Core
 Specification 2.0 give it: an instruction, a function body and the section are sequences of
 fields, and their encodings are any encodings of the fields, one after the other.
 */
module CodeGrammar {
  import opened Options
  import opened Leb128
  import opened CodeWalker

  // ----------------------------------------------------------------------------- fields

  datatype Field =
    | Byte(value: nat)
    | Unsigned(n: nat)             // u32
    | Signed(bits: nat, v: int)
    | Raw(bytes: Bytes)

  /** `w` is an encoding of the field, for integers in any of their forms. */
  predicate Spells(w: Bytes, f: Field) {
    match f
    case Byte(x) => |w| == 1 && w[0] == x
    case Unsigned(n) => UN(32, w, 0) == Some((n, |w|))
    case Signed(bits, v) => bits > 0 && SN(bits, w, 0) == Some((v, |w|))
    case Raw(bytes) => w == bytes
  }

  function Concat(words: seq<Bytes>): Bytes {
    if words == [] then [] else words[0] + Concat(words[1..])
  }

  predicate Spelling(words: seq<Bytes>, fs: seq<Field>) {
    |words| == |fs| && forall k {:trigger Spells(words[k], fs[k])} :: 0 <= k < |fs| ==> Spells(words[k], fs[k])
  }

  ghost predicate SpellsAll(w: Bytes, fs: seq<Field>) {
    exists words :: Spelling(words, fs) && w == Concat(words)
  }

  // ----------------------------------------------------------------------- instructions

  function Numbers(xs: seq<nat>): (r: seq<Field>)
    ensures |r| == |xs| && forall k :: 0 <= k < |xs| ==> r[k] == Unsigned(xs[k])
  {
    seq(|xs|, k requires 0 <= k < |xs| => Unsigned(xs[k]))
  }

  function Opcode(i: Instr): nat {
    match i
    case Plain(op) => op
    case Typed(op, _) => op
    case Indexed(op, _) => op
    case BranchTable(_) => 0x0e
    case Pair(op, _, _) => op
    case Select(_) => 0x1c
    case Const32(_) => 0x41
    case Const64(_) => 0x42
    case Float(op, _) => op
    case _ => 0xfc
  }

  function Immediates(i: Instr): seq<Field> {
    match i
    case Plain(_) => []
    case Typed(_, t) => [Signed(33, t)]
    case Indexed(_, x) => [Unsigned(x)]
    case BranchTable(targets) => if targets == [] then [] else [Unsigned(|targets| - 1)] + Numbers(targets)
    case Pair(_, x, y) => [Unsigned(x), Unsigned(y)]
    case Select(types) => [Unsigned(|types|), Raw(types)]
    case Const32(n) => [Signed(32, n)]
    case Const64(n) => [Signed(64, n)]
    case Float(_, bits) => [Raw(bits)]
    case Misc(sub) => [Unsigned(sub)]
    case MemoryInit(segment, memory) => [Unsigned(8), Unsigned(segment), Unsigned(memory)]
    case DataDrop(segment) => [Unsigned(9), Unsigned(segment)]
    case MiscIndexed(sub, x) => [Unsigned(sub), Unsigned(x)]
    case MiscPair(sub, x, y) => [Unsigned(sub), Unsigned(x), Unsigned(y)]
  }

  function Fields(i: Instr): seq<Field> {
    [Byte(Opcode(i))] + Immediates(i)
  }

  /** The opcodes that the walker supports; the last target of a branch table is its default. */
  predicate Supported(i: Instr) {
    match i
    case Plain(op) => IsPlain(op)
    case Typed(op, _) => IsTyped(op)
    case Indexed(op, _) => IsIndexed(op)
    case BranchTable(targets) => targets != []
    case Pair(op, _, _) => IsPair(op)
    case Float(op, bits) => (op == 0x43 && |bits| == 4) || (op == 0x44 && |bits| == 8)
    case Misc(sub) => sub <= 7
    case MiscIndexed(sub, _) => IsMiscIndexed(sub)
    case MiscPair(sub, _, _) => IsMiscPair(sub)
    case _ => true
  }

  predicate AllSupported(instrs: seq<Instr>) {
    forall i :: i in instrs ==> Supported(i)
  }

  function InstrFields(instrs: seq<Instr>): seq<Field> {
    if instrs == [] then [] else Fields(instrs[0]) + InstrFields(instrs[1..])
  }

  // ------------------------------------------------------------- functions and the section

  /** A function: groups of locals, each a count and a type, and the instructions. */
  datatype Function = Function(locals: seq<(nat, nat)>, instrs: seq<Instr>)

  predicate LegalLocals(locals: seq<(nat, nat)>) {
    forall l :: l in locals ==> IsLocalType(l.1)
  }

  function LocalFields(locals: seq<(nat, nat)>): seq<Field> {
    if locals == [] then [] else [Unsigned(locals[0].0)] + ([Byte(locals[0].1)] + LocalFields(locals[1..]))
  }

  function BodyFields(f: Function): seq<Field> {
    [Unsigned(|f.locals|)] + (LocalFields(f.locals) + InstrFields(f.instrs))
  }

  ghost predicate IsBody(body: Bytes, f: Function) {
    LegalLocals(f.locals) && AllSupported(f.instrs) && SpellsAll(body, BodyFields(f))
  }

  /** Every body has its size in front. */
  function SizedBodies(bodies: seq<Bytes>): seq<Field> {
    if bodies == [] then [] else [Unsigned(|bodies[0]|)] + ([Raw(bodies[0])] + SizedBodies(bodies[1..]))
  }

  ghost predicate AreBodies(bodies: seq<Bytes>, fns: seq<Function>) {
    |bodies| == |fns| && forall k {:trigger IsBody(bodies[k], fns[k])} :: 0 <= k < |fns| ==> IsBody(bodies[k], fns[k])
  }

  function SectionFields(bodies: seq<Bytes>): seq<Field> {
    [Unsigned(|bodies|)] + SizedBodies(bodies)
  }

  /** `code` is an encoding of the Code section with these functions. */
  ghost predicate IsCode(code: Bytes, fns: seq<Function>) {
    exists bodies :: AreBodies(bodies, fns) && SpellsAll(code, SectionFields(bodies))
  }

  // -------------------------------------------------------------------- reading fields

  /** Where the field ends, if it is what stands at `q`. */
  function ReadField(f: Field, b: Bytes, q: nat): Option<nat> {
    match f
    case Byte(x) => if q < |b| && b[q] == x then Some(q + 1) else None
    case Unsigned(n) =>
      (match U32(b, q) case None => None case Some(x) => if x.0 == n then Some(x.1) else None)
    case Signed(bits, v) =>
      if bits == 0 then None
      else (match SN(bits, b, q) case None => None case Some(x) => if x.0 == v then Some(x.1) else None)
    case Raw(bytes) =>
      if q + |bytes| <= |b| && b[q..q + |bytes|] == bytes then Some(q + |bytes|) else None
  }

  function ReadFields(fs: seq<Field>, b: Bytes, q: nat): Option<nat>
    decreases |fs|, 0
  {
    if fs == [] then Some(q) else ReadRest(ReadField(fs[0], b, q), fs[1..], b)
  }

  function ReadRest(at: Option<nat>, fs: seq<Field>, b: Bytes): Option<nat>
    decreases |fs|, 1
  {
    match at case None => None case Some(q) => ReadFields(fs, b, q)
  }

  lemma FieldEnds(f: Field, b: Bytes, q: nat)
    requires q <= |b| && ReadField(f, b, q).Some?
    ensures q <= ReadField(f, b, q).value <= |b|
  {
    match f
    case Unsigned(n) => UNBounds(32, b, q);
    case Signed(bits, v) => SNBounds(bits, b, q);
    case _ =>
  }

  /** A field reads alike wherever its bytes stand. */
  lemma FieldLocal(f: Field, a: Bytes, p: nat, b: Bytes, q: nat, n: nat)
    requires ReadField(f, a, p) == Some(p + n) && Same(a, p, b, q, n)
    ensures ReadField(f, b, q) == Some(q + n)
  {
    match f
    case Byte(_) => assert SameAt(a, p, b, q, 0);
    case Unsigned(_) => UNLocal(32, a, p, b, q, n);
    case Signed(bits, _) => SNLocal(bits, a, p, b, q, n);
    case Raw(_) => SameSlices(a, p, b, q, n);
  }

  lemma SpellsIsRead(w: Bytes, f: Field)
    ensures Spells(w, f) <==> ReadField(f, w, 0) == Some(|w|)
  {
    if f.Raw? && |f.bytes| == |w| { assert w[0..0 + |f.bytes|] == w; }
  }

  lemma {:induction false} ReadJoin(fs: seq<Field>, gs: seq<Field>, b: Bytes, q: nat)
    ensures ReadFields(fs + gs, b, q) == ReadRest(ReadFields(fs, b, q), gs, b)
  {
    if fs == [] {
      assert fs + gs == gs;
    } else {
      assert (fs + gs)[1..] == fs[1..] + gs;
      var next := ReadField(fs[0], b, q);
      if next.Some? { ReadJoin(fs[1..], gs, b, next.value); }
    }
  }

  lemma ReadFirst(f: Field, gs: seq<Field>, b: Bytes, q: nat)
    ensures ReadFields([f] + gs, b, q) == ReadRest(ReadField(f, b, q), gs, b)
  {
    assert ([f] + gs)[0] == f && ([f] + gs)[1..] == gs;
  }

  /** What is spelled is read, with any bytes before and after. */
  lemma {:induction false} SpelledReads(words: seq<Bytes>, fs: seq<Field>, before: Bytes, b: Bytes, after: Bytes)
    requires Spelling(words, fs) && b == before + Concat(words) + after
    ensures ReadFields(fs, b, |before|) == Some(|before| + |Concat(words)|)
    decreases |words|
  {
    if words != [] {
      var w, rest, q := words[0], words[1..], |before|;
      assert Spells(w, fs[0]);
      SpellsIsRead(w, fs[0]);
      assert b[q..q + |w|] == w;
      SameSlice(b, q, |w|);
      FieldLocal(fs[0], w, 0, b, q, |w|);
      assert forall k :: 0 <= k < |rest| ==> rest[k] == words[k + 1] && fs[1..][k] == fs[k + 1];
      SpellingTail(words, fs);
      assert b == (before + w) + Concat(rest) + after;
      SpelledReads(rest, fs[1..], before + w, b, after);
    }
  }

  lemma SpellingTail(words: seq<Bytes>, fs: seq<Field>)
    requires Spelling(words, fs) && words != []
    ensures Spelling(words[1..], fs[1..])
  {
    var rest, gs := words[1..], fs[1..];
    forall k | 0 <= k < |gs| ensures Spells(rest[k], gs[k]) { assert Spells(words[k + 1], fs[k + 1]); }
  }

  lemma SpellingCons(w: Bytes, f: Field, words: seq<Bytes>, fs: seq<Field>)
    requires Spells(w, f) && Spelling(words, fs)
    ensures Spelling([w] + words, [f] + fs)
  {
    var all, gs := [w] + words, [f] + fs;
    forall k | 0 <= k < |gs| ensures Spells(all[k], gs[k]) {
      if k > 0 { assert Spells(words[k - 1], fs[k - 1]); }
    }
  }

  /** What is read is tiled by encodings of the fields. */
  lemma {:induction false} ReadIsTiled(fs: seq<Field>, b: Bytes, q: nat) returns (words: seq<Bytes>)
    requires q <= |b| && ReadFields(fs, b, q).Some?
    ensures q <= ReadFields(fs, b, q).value <= |b|
    ensures Spelling(words, fs) && Concat(words) == b[q..ReadFields(fs, b, q).value]
    decreases |fs|
  {
    words := [];
    if fs != [] {
      FieldEnds(fs[0], b, q);
      var next := ReadField(fs[0], b, q).value;
      var rest := ReadIsTiled(fs[1..], b, next);
      var w := b[q..next];
      SameSlice(b, q, next - q);
      FieldLocal(fs[0], b, q, w, 0, next - q);
      SpellsIsRead(w, fs[0]);
      SpellingCons(w, fs[0], rest, fs[1..]);
      assert fs == [fs[0]] + fs[1..];
      words := [w] + rest;
    }
  }

  /** Spelling the whole of `w` is reading the fields from its start to its end. */
  lemma SpellsAllIsRead(w: Bytes, fs: seq<Field>)
    ensures SpellsAll(w, fs) <==> ReadFields(fs, w, 0) == Some(|w|)
  {
    if SpellsAll(w, fs) {
      var words :| Spelling(words, fs) && w == Concat(words);
      assert w == [] + Concat(words) + [];
      SpelledReads(words, fs, [], w, []);
    }
    if ReadFields(fs, w, 0) == Some(|w|) {
      var words := ReadIsTiled(fs, w, 0);
      assert w == w[0..|w|];
    }
  }

  // ------------------------------------------------------------- decoding is reading

  lemma ReadOne(f: Field, b: Bytes, q: nat)
    ensures ReadFields([f], b, q) == ReadField(f, b, q)
  {
    ReadFirst(f, [], b, q);
    assert [f] + [] == [f];
  }

  lemma ReadTwo(f: Field, g: Field, b: Bytes, q: nat)
    ensures ReadFields([f, g], b, q) ==
      match ReadField(f, b, q) case None => None case Some(p) => ReadField(g, b, p)
  {
    ReadFirst(f, [g], b, q);
    assert [f] + [g] == [f, g];
    if ReadField(f, b, q).Some? { ReadOne(g, b, ReadField(f, b, q).value); }
  }

  lemma ReadThree(f: Field, g: Field, h: Field, b: Bytes, q: nat)
    ensures ReadFields([f, g, h], b, q) ==
      match ReadField(f, b, q) case None => None case Some(p) => ReadFields([g, h], b, p)
  {
    ReadFirst(f, [g, h], b, q);
    assert [f] + [g, h] == [f, g, h];
  }

  lemma {:induction false} NumbersRead(b: Bytes, q: nat, xs: seq<nat>, end: nat)
    ensures U32s(b, q, |xs|) == Some((xs, end)) <==> ReadFields(Numbers(xs), b, q) == Some(end)
    decreases |xs|
  {
    if xs == [] {
      assert Numbers(xs) == [];
    } else {
      assert Numbers(xs)[1..] == Numbers(xs[1..]);
      assert Numbers(xs)[0] == Unsigned(xs[0]);
      var x := U32(b, q);
      if x.Some? {
        NumbersRead(b, x.value.1, xs[1..], end);
        assert xs == [xs[0]] + xs[1..];
        var rest := U32s(b, x.value.1, |xs| - 1);
        if rest.Some? && [x.value.0] + rest.value.0 == xs {
          assert ([x.value.0] + rest.value.0)[1..] == rest.value.0;
        }
      }
    }
  }

  lemma TableRead(b: Bytes, q: nat, targets: seq<nat>, end: nat)
    requires targets != []
    ensures DecodeTable(b, q) == Some((BranchTable(targets), end)) <==>
      ReadFields(Immediates(BranchTable(targets)), b, q) == Some(end)
  {
    ReadFirst(Unsigned(|targets| - 1), Numbers(targets), b, q);
    var n := U32(b, q);
    if n.Some? {
      NumbersRead(b, n.value.1, targets, end);
      if U32s(b, n.value.1, n.value.0 + 1).Some? { U32sCount(b, n.value.1, n.value.0 + 1); }
    }
  }

  lemma {:induction false} U32sCount(b: Bytes, q: nat, n: nat)
    requires U32s(b, q, n).Some?
    ensures |U32s(b, q, n).value.0| == n
    decreases n
  {
    if n > 0 { U32sCount(b, U32(b, q).value.1, n - 1); }
  }

  lemma SelectRead(b: Bytes, q: nat, types: Bytes, end: nat)
    ensures DecodeSelect(b, q) == Some((Select(types), end)) <==>
      ReadFields(Immediates(Select(types)), b, q) == Some(end)
  {
    ReadTwo(Unsigned(|types|), Raw(types), b, q);
  }

  lemma MiscRead(b: Bytes, q: nat, i: Instr, end: nat)
    requires Opcode(i) == 0xfc && Supported(i)
    ensures DecodeMisc(b, q) == Some((i, end)) <==> ReadFields(Immediates(i), b, q) == Some(end)
  {
    match i
    case Misc(sub) => ReadOne(Unsigned(sub), b, q);
    case MemoryInit(s, m) => MiscThree(b, q, 8, s, m);
    case DataDrop(s) => ReadTwo(Unsigned(9), Unsigned(s), b, q);
    case MiscIndexed(sub, x) => ReadTwo(Unsigned(sub), Unsigned(x), b, q);
    case MiscPair(sub, x, y) => MiscThree(b, q, sub, x, y);
    case _ =>
  }

  lemma MiscThree(b: Bytes, q: nat, sub: nat, x: nat, y: nat)
    ensures ReadFields([Unsigned(sub), Unsigned(x), Unsigned(y)], b, q) ==
      match U32(b, q)
      case None => None
      case Some(s) =>
        if s.0 != sub then None
        else match U32Pair(b, s.1) case None => None case Some(p) => if p.0 == (x, y) then Some(p.1) else None
  {
    ReadThree(Unsigned(sub), Unsigned(x), Unsigned(y), b, q);
    if U32(b, q).Some? { ReadTwo(Unsigned(x), Unsigned(y), b, U32(b, q).value.1); }
  }

  lemma ImmediatesRead(b: Bytes, q: nat, i: Instr, end: nat)
    requires q < |b| && b[q] == Opcode(i) && Supported(i)
    ensures Decode(b, q) == Some((i, end)) <==> ReadFields(Immediates(i), b, q + 1) == Some(end)
  {
    var p := q + 1;
    match i
    case Plain(_) =>
    case Typed(_, t) => ReadOne(Signed(33, t), b, p);
    case Indexed(_, x) => ReadOne(Unsigned(x), b, p);
    case BranchTable(targets) => TableRead(b, p, targets, end);
    case Pair(_, x, y) => ReadTwo(Unsigned(x), Unsigned(y), b, p);
    case Select(types) => SelectRead(b, p, types, end);
    case Const32(n) => ReadOne(Signed(32, n), b, p);
    case Const64(n) => ReadOne(Signed(64, n), b, p);
    case Float(_, bits) => ReadOne(Raw(bits), b, p);
    case _ => MiscRead(b, p, i, end);
  }

  lemma DecodedIsSupported(b: Bytes, q: nat)
    requires Decode(b, q).Some?
    ensures Supported(Decode(b, q).value.0) && b[q] == Opcode(Decode(b, q).value.0)
  {
    if b[q] == 0x0e {
      var n := U32(b, q + 1).value;
      U32sCount(b, n.1, n.0 + 1);
    }
  }

  /** The walker's decoder reads exactly the encodings of supported instructions. */
  lemma DecodeIsRead(b: Bytes, q: nat, i: Instr, end: nat)
    ensures Decode(b, q) == Some((i, end)) <==> Supported(i) && ReadFields(Fields(i), b, q) == Some(end)
  {
    ReadFirst(Byte(Opcode(i)), Immediates(i), b, q);
    if Decode(b, q).Some? { DecodedIsSupported(b, q); }
    if Supported(i) && q < |b| && b[q] == Opcode(i) { ImmediatesRead(b, q, i, end); }
  }

  /** An encoding of one instruction, and nothing else, is what decodes to it and ends there. */
  lemma EncodingDecodes(w: Bytes, i: Instr)
    ensures Decode(w, 0) == Some((i, |w|)) <==> Supported(i) && SpellsAll(w, Fields(i))
  {
    DecodeIsRead(w, 0, i, |w|);
    SpellsAllIsRead(w, Fields(i));
  }
}
