/**
 Encodings exist: each field has a shortest one, so every supported instruction whose immediates
 are in range has an encoding, and so has every list of functions that is not too long.
 */
module CodeEncodings {
  import opened Options
  import opened Leb128
  import opened CodeWalker
  import opened CodeGrammar

  /** The shortest encoding of a signed integer; the quotient rounds down. */
  function EncodeSigned(v: int): Bytes
    decreases if v < 0 then -v else v
  {
    if -64 <= v < 64 then [v % 128] else [v % 128 + 128] + EncodeSigned(v / 128)
  }

  lemma {:induction false} SignedRoundTrip(bits: nat, before: Bytes, v: int)
    requires bits > 0 && 0 - Pow2(bits - 1) <= v < Pow2(bits - 1)
    ensures SN(bits, before + EncodeSigned(v), |before|) == Some((v, |before + EncodeSigned(v)|))
    decreases if v < 0 then -v else v
  {
    var buf := before + EncodeSigned(v);
    if -64 <= v < 64 {
      assert buf[|before|] == v % 128;
    } else {
      SignedWidth(bits, v);
      var head := [v % 128 + 128];
      assert buf == (before + head) + EncodeSigned(v / 128);
      assert buf[|before|] == v % 128 + 128;
      SignedRoundTrip(bits - 7, before + head, v / 128);
    }
  }

  lemma {:induction false} Pow2Grows(a: nat, b: nat)
    requires a <= b
    ensures Pow2(a) <= Pow2(b)
  {
    if a < b { Pow2Grows(a, b - 1); }
  }

  /** A number of two bytes or more needs more than seven bits. */
  lemma SignedWidth(bits: nat, v: int)
    requires bits > 0 && 0 - Pow2(bits - 1) <= v < Pow2(bits - 1) && !(-64 <= v < 64)
    ensures bits > 7 && 0 - Pow2(bits - 8) <= v / 128 < Pow2(bits - 8)
  {
    assert Pow2(3) == 8;
    Pow2Add(3, 3);
    if bits > 7 { Pow2Add(7, bits - 8); } else { Pow2Grows(bits - 1, 6); }
    Pow2Seven();
  }

  // ----------------------------------------------------------------------------- fields

  predicate InRange(f: Field) {
    match f
    case Byte(x) => x < 256
    case Unsigned(n) => n < Pow2(32)
    case Signed(bits, v) => bits > 0 && 0 - Pow2(bits - 1) <= v < Pow2(bits - 1)
    case Raw(_) => true
  }

  predicate AllInRange(fs: seq<Field>) {
    forall f :: f in fs ==> InRange(f)
  }

  function Shortest(f: Field): Bytes
    requires InRange(f)
  {
    match f
    case Byte(x) => [x]
    case Unsigned(n) => Encode(n)
    case Signed(_, v) => EncodeSigned(v)
    case Raw(bytes) => bytes
  }

  lemma ShortestSpells(f: Field)
    requires InRange(f)
    ensures Spells(Shortest(f), f)
  {
    match f
    case Unsigned(n) =>
      RoundTrip(32, [], n, []);
      assert [] + Encode(n) + [] == Encode(n) && [] + Encode(n) == Encode(n);
    case Signed(bits, v) =>
      SignedRoundTrip(bits, [], v);
      assert [] + EncodeSigned(v) == EncodeSigned(v);
    case _ =>
  }

  lemma SpelledInRange(w: Bytes, f: Field)
    requires Spells(w, f)
    ensures InRange(f)
  {
    match f
    case Unsigned(_) => UNBounds(32, w, 0);
    case Signed(bits, _) => SNBounds(bits, w, 0);
    case _ =>
  }

  function ShortestWords(fs: seq<Field>): (words: seq<Bytes>)
    requires AllInRange(fs)
    ensures |words| == |fs| && forall k :: 0 <= k < |fs| ==> fs[k] in fs && words[k] == Shortest(fs[k])
  {
    seq(|fs|, k requires 0 <= k < |fs| => assert fs[k] in fs; Shortest(fs[k]))
  }

  function Word(fs: seq<Field>): Bytes
    requires AllInRange(fs)
  {
    Concat(ShortestWords(fs))
  }

  lemma FieldsHaveEncoding(fs: seq<Field>)
    requires AllInRange(fs)
    ensures SpellsAll(Word(fs), fs)
  {
    var words := ShortestWords(fs);
    forall k | 0 <= k < |fs| ensures Spells(words[k], fs[k]) { ShortestSpells(fs[k]); }
    assert Spelling(words, fs);
  }

  lemma EncodedInRange(w: Bytes, fs: seq<Field>)
    requires SpellsAll(w, fs)
    ensures AllInRange(fs)
  {
    var words :| Spelling(words, fs) && w == Concat(words);
    forall f | f in fs ensures InRange(f) {
      var k :| 0 <= k < |fs| && fs[k] == f;
      assert Spells(words[k], fs[k]);
      SpelledInRange(words[k], f);
    }
  }

  // -------------------------------------------------------------- instructions, sections

  /** Something decodes to an instruction if and only if it is supported and its fields are in range. */
  lemma InstructionsHaveEncodings(i: Instr)
    ensures Supported(i) && AllInRange(Fields(i)) <==> exists w :: Decode(w, 0) == Some((i, |w|))
  {
    if Supported(i) && AllInRange(Fields(i)) {
      FieldsHaveEncoding(Fields(i));
      EncodingDecodes(Word(Fields(i)), i);
    }
    if w :| Decode(w, 0) == Some((i, |w|)) {
      EncodingDecodes(w, i);
      EncodedInRange(w, Fields(i));
    }
  }

  predicate Encodable(f: Function) {
    LegalLocals(f.locals) && AllSupported(f.instrs) && AllInRange(BodyFields(f)) && |Word(BodyFields(f))| < Pow2(32)
  }

  function EncodedBody(f: Function): (r: Bytes)
    requires Encodable(f)
    ensures IsBody(r, f) && |r| < Pow2(32)
  {
    FieldsHaveEncoding(BodyFields(f));
    Word(BodyFields(f))
  }

  function EncodedBodies(fns: seq<Function>): (r: seq<Bytes>)
    requires forall k :: 0 <= k < |fns| ==> Encodable(fns[k])
    ensures |r| == |fns| && forall k :: 0 <= k < |fns| ==> r[k] == EncodedBody(fns[k])
  {
    seq(|fns|, k requires 0 <= k < |fns| => EncodedBody(fns[k]))
  }

  lemma {:induction false} SizesInRange(bodies: seq<Bytes>)
    requires forall k :: 0 <= k < |bodies| ==> |bodies[k]| < Pow2(32)
    ensures AllInRange(SizedBodies(bodies))
  {
    if bodies != [] {
      SizesInRange(bodies[1..]);
      assert InRange(Unsigned(|bodies[0]|)) && InRange(Raw(bodies[0]));
    }
  }

  /** Every list of supported functions within the format's limits is the content of a section. */
  lemma FunctionsHaveEncoding(fns: seq<Function>) returns (code: Bytes)
    requires |fns| < Pow2(32) && forall k :: 0 <= k < |fns| ==> Encodable(fns[k])
    ensures IsCode(code, fns)
  {
    var bodies := EncodedBodies(fns);
    SizesInRange(bodies);
    assert AreBodies(bodies, fns);
    code := Word(SectionFields(bodies));
    FieldsHaveEncoding(SectionFields(bodies));
  }
}
