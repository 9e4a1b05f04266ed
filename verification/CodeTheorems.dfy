/**
 What the walker accepts, in terms of the grammar: the encodings of Code sections, of any number
 of functions with any locals and any supported instructions, in which no `memory.init` and no
 `data.drop` names an active or a missing segment.
 */
module CodeTheorems {
  import opened Options
  import opened Leb128
  import opened CodeWalker
  import opened CodeCheck
  import opened CodeGrammar

  // ---------------------------------------------------------------- one function body

  lemma {:induction false} InstrsAreRead(b: Bytes, q: nat, instrs: seq<Instr>)
    requires q <= |b|
    ensures DecodeAll(b, q) == Some(instrs) <==> AllSupported(instrs) && ReadFields(InstrFields(instrs), b, q) == Some(|b|)
    decreases |instrs|
  {
    if instrs != [] {
      var i, rest := instrs[0], instrs[1..];
      ReadJoin(Fields(i), InstrFields(rest), b, q);
      assert instrs == [i] + rest;
      var at := ReadFields(Fields(i), b, q);
      if Decode(b, q).Some? {
        DecodeEnds(b, q);
        var (first, end) := Decode(b, q).value;
        DecodeIsRead(b, q, first, end);
        if first == i { InstrsAreRead(b, end, rest); }
        if DecodeAll(b, end).Some? { assert ([first] + DecodeAll(b, end).value)[1..] == DecodeAll(b, end).value; }
      }
      if Supported(i) && at.Some? { DecodeIsRead(b, q, i, at.value); }
    }
  }

  lemma {:induction false} LocalsAreRead(b: Bytes, q: nat, locals: seq<(nat, nat)>)
    requires LegalLocals(locals) && ReadFields(LocalFields(locals), b, q).Some? && q <= |b|
    ensures SkipLocals(b, q, |locals|) == ReadFields(LocalFields(locals), b, q)
    ensures ReadFields(LocalFields(locals), b, q).value <= |b|
    decreases |locals|
  {
    if locals != [] {
      var l, rest := locals[0], locals[1..];
      ReadFirst(Unsigned(l.0), [Byte(l.1)] + LocalFields(rest), b, q);
      var p := U32(b, q).value.1;
      ReadFirst(Byte(l.1), LocalFields(rest), b, p);
      LocalsAreRead(b, p + 1, rest);
    }
  }

  lemma {:induction false} SkippedAreLocals(b: Bytes, q: nat, n: nat) returns (locals: seq<(nat, nat)>)
    requires SkipLocals(b, q, n).Some?
    ensures |locals| == n && LegalLocals(locals)
    ensures ReadFields(LocalFields(locals), b, q) == SkipLocals(b, q, n)
    decreases n
  {
    locals := [];
    if n > 0 {
      var (count, p) := U32(b, q).value;
      var rest := SkippedAreLocals(b, p + 1, n - 1);
      ReadFirst(Unsigned(count), [Byte(b[p])] + LocalFields(rest), b, q);
      ReadFirst(Byte(b[p]), LocalFields(rest), b, p);
      locals := [(count, b[p] as nat)] + rest;
      assert locals[1..] == rest;
    }
  }

  lemma BodyReads(b: Bytes, f: Function)
    ensures ReadFields(BodyFields(f), b, 0) == match U32(b, 0)
      case None => None
      case Some(n) =>
        if n.0 != |f.locals| then None else ReadRest(ReadFields(LocalFields(f.locals), b, n.1), InstrFields(f.instrs), b)
  {
    ReadFirst(Unsigned(|f.locals|), LocalFields(f.locals) + InstrFields(f.instrs), b, 0);
    if U32(b, 0).Some? { ReadJoin(LocalFields(f.locals), InstrFields(f.instrs), b, U32(b, 0).value.1); }
  }

  lemma BodyDecodes(b: Bytes, f: Function)
    requires IsBody(b, f)
    ensures DecodeBody(b) == Some(f.instrs)
  {
    SpellsAllIsRead(b, BodyFields(f));
    BodyReads(b, f);
    UNBounds(32, b, 0);
    var p := U32(b, 0).value.1;
    LocalsAreRead(b, p, f.locals);
    InstrsAreRead(b, ReadFields(LocalFields(f.locals), b, p).value, f.instrs);
  }

  lemma DecodedIsBody(b: Bytes) returns (f: Function)
    requires DecodeBody(b).Some?
    ensures IsBody(b, f) && f.instrs == DecodeBody(b).value
  {
    var (n, p) := U32(b, 0).value;
    var locals := SkippedAreLocals(b, p, n);
    f := Function(locals, DecodeBody(b).value);
    var q := SkipLocals(b, p, n).value;
    UNBounds(32, b, 0);
    LocalsAreRead(b, p, locals);
    InstrsAreRead(b, q, f.instrs);
    BodyReads(b, f);
    SpellsAllIsRead(b, BodyFields(f));
  }

  // --------------------------------------------------------------------- the section

  function Instrs(fns: seq<Function>): (r: seq<seq<Instr>>)
    ensures |r| == |fns| && forall k :: 0 <= k < |fns| ==> r[k] == fns[k].instrs
  {
    seq(|fns|, k requires 0 <= k < |fns| => fns[k].instrs)
  }

  ghost predicate FunctionsAllowed(fns: seq<Function>, active: seq<bool>) {
    forall f :: f in fns ==> forall i :: i in f.instrs ==> Allowed(i, active)
  }

  lemma SizedRead(code: Bytes, p: nat, body: Bytes, end: nat)
    requires p <= |code|
    ensures SizedBody(code, p) == Some((body, end)) <==> ReadFields([Unsigned(|body|), Raw(body)], code, p) == Some(end)
  {
    ReadTwo(Unsigned(|body|), Raw(body), code, p);
    if U32(code, p).Some? { UNBounds(32, code, p); }
  }

  lemma SizedFirst(code: Bytes, p: nat, bodies: seq<Bytes>)
    requires bodies != []
    ensures ReadFields(SizedBodies(bodies), code, p) ==
      ReadRest(ReadFields([Unsigned(|bodies[0]|), Raw(bodies[0])], code, p), SizedBodies(bodies[1..]), code)
  {
    var head, rest := [Unsigned(|bodies[0]|), Raw(bodies[0])], SizedBodies(bodies[1..]);
    assert head + rest == [Unsigned(|bodies[0]|)] + ([Raw(bodies[0])] + rest);
    ReadJoin(head, rest, code, p);
  }

  lemma {:induction false} BodiesDecoded(code: Bytes, p: nat, bodies: seq<Bytes>, fns: seq<Function>)
    requires AreBodies(bodies, fns) && p <= |code|
    requires ReadFields(SizedBodies(bodies), code, p) == Some(|code|)
    ensures DecodeBodies(code, p, |bodies|) == Some(Instrs(fns))
    decreases |bodies|
  {
    if bodies == [] {
      assert Instrs(fns) == [];
    } else {
      SizedFirst(code, p, bodies);
      var end := ReadFields([Unsigned(|bodies[0]|), Raw(bodies[0])], code, p).value;
      SizedRead(code, p, bodies[0], end);
      assert IsBody(bodies[0], fns[0]);
      BodyDecodes(bodies[0], fns[0]);
      BodiesTail(bodies, fns);
      BodiesDecoded(code, end, bodies[1..], fns[1..]);
      assert Instrs(fns) == [fns[0].instrs] + Instrs(fns[1..]);
    }
  }

  lemma BodiesTail(bodies: seq<Bytes>, fns: seq<Function>)
    requires AreBodies(bodies, fns) && bodies != []
    ensures AreBodies(bodies[1..], fns[1..])
  {
    var rest, others := bodies[1..], fns[1..];
    forall k | 0 <= k < |others| ensures IsBody(rest[k], others[k]) { assert IsBody(bodies[k + 1], fns[k + 1]); }
  }

  lemma BodiesCons(body: Bytes, f: Function, bodies: seq<Bytes>, fns: seq<Function>)
    requires IsBody(body, f) && AreBodies(bodies, fns)
    ensures AreBodies([body] + bodies, [f] + fns)
  {
    var all, others := [body] + bodies, [f] + fns;
    forall k | 0 <= k < |others| ensures IsBody(all[k], others[k]) {
      if k > 0 { assert IsBody(bodies[k - 1], fns[k - 1]); }
    }
  }

  lemma {:induction false} DecodedAreBodies(code: Bytes, p: nat, n: nat) returns (bodies: seq<Bytes>, fns: seq<Function>)
    requires DecodeBodies(code, p, n).Some? && p <= |code|
    ensures |bodies| == n && AreBodies(bodies, fns) && Instrs(fns) == DecodeBodies(code, p, n).value
    ensures ReadFields(SizedBodies(bodies), code, p) == Some(|code|)
    decreases n
  {
    if n == 0 {
      bodies, fns := [], [];
    } else {
      var (body, end) := SizedBody(code, p).value;
      var f := DecodedIsBody(body);
      var rest, others := DecodedAreBodies(code, end, n - 1);
      BodiesCons(body, f, rest, others);
      SizedCons(code, p, body, end, rest);
      InstrsCons(f, others);
      bodies, fns := [body] + rest, [f] + others;
    }
  }

  lemma SizedCons(code: Bytes, p: nat, body: Bytes, end: nat, rest: seq<Bytes>)
    requires p <= |code| && SizedBody(code, p) == Some((body, end))
    ensures ReadFields(SizedBodies([body] + rest), code, p) == ReadFields(SizedBodies(rest), code, end)
  {
    var bodies := [body] + rest;
    assert bodies[0] == body && bodies[1..] == rest;
    SizedRead(code, p, body, end);
    SizedFirst(code, p, bodies);
  }

  lemma InstrsCons(f: Function, others: seq<Function>)
    ensures Instrs([f] + others) == [f.instrs] + Instrs(others)
  {
  }

  lemma AllowedTogether(fns: seq<Function>, active: seq<bool>)
    ensures CodeAllowed(Instrs(fns), active) <==> FunctionsAllowed(fns, active)
  {
    var bodies := Instrs(fns);
    if CodeAllowed(bodies, active) {
      forall k, l | 0 <= k < |fns| && 0 <= l < |fns[k].instrs| ensures Allowed(fns[k].instrs[l], active) {
        assert AllAllowed(bodies[k], active);
      }
    }
    if FunctionsAllowed(fns, active) {
      forall k | 0 <= k < |bodies| ensures AllAllowed(bodies[k], active) {
        assert fns[k] in fns;
        forall l | 0 <= l < |bodies[k]| ensures Allowed(bodies[k][l], active) { assert fns[k].instrs[l] in fns[k].instrs; }
      }
    }
  }

  /**
   An encoding of any list of functions is accepted if and only if no instruction in it names an
   active or a missing segment. The bytes leave no doubt about the instructions.
   */
  lemma CodeAcceptedExactly(code: Bytes, fns: seq<Function>, active: seq<bool>)
    requires IsCode(code, fns)
    ensures DecodeCode(code) == Some(Instrs(fns))
    ensures AcceptsCode(code, active) <==> FunctionsAllowed(fns, active)
  {
    var bodies :| AreBodies(bodies, fns) && SpellsAll(code, SectionFields(bodies));
    SpellsAllIsRead(code, SectionFields(bodies));
    ReadFirst(Unsigned(|bodies|), SizedBodies(bodies), code, 0);
    UNBounds(32, code, 0);
    BodiesDecoded(code, U32(code, 0).value.1, bodies, fns);
    AllowedTogether(fns, active);
  }

  /** What is accepted is tiled: a count, the bodies with their sizes, and nothing else. */
  lemma AcceptedIsTiled(code: Bytes, active: seq<bool>) returns (fns: seq<Function>)
    requires AcceptsCode(code, active)
    ensures IsCode(code, fns) && FunctionsAllowed(fns, active)
  {
    var (n, p) := U32(code, 0).value;
    UNBounds(32, code, 0);
    var bodies;
    bodies, fns := DecodedAreBodies(code, p, n);
    ReadFirst(Unsigned(n), SizedBodies(bodies), code, 0);
    SpellsAllIsRead(code, SectionFields(bodies));
    AllowedTogether(fns, active);
  }

  /** The walker accepts exactly the encodings of allowed functions. */
  lemma AcceptedExactly(code: Bytes, active: seq<bool>)
    ensures AcceptsCode(code, active) <==> exists fns :: IsCode(code, fns) && FunctionsAllowed(fns, active)
  {
    if AcceptsCode(code, active) {
      var fns := AcceptedIsTiled(code, active);
    }
    if fns :| IsCode(code, fns) && FunctionsAllowed(fns, active) {
      CodeAcceptedExactly(code, fns, active);
    }
  }
}
