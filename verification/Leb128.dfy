/**
 The LEB128 integers of the WebAssembly binary format: the grammar of section 5.2.2 of the
 WebAssembly Core Specification 2.0, and the readers and the writer of cow_data_image.go.
 Fields of seven bits never overlap, so `|` is written as `+` here and a shift as a product.
 */
module Leb128 {
  import opened Options

  type byte = x: int | 0 <= x < 256

  type Bytes = seq<byte>

  function Pow2(n: nat): (r: nat)
    ensures r > 0
  {
    if n == 0 then 1 else 2 * Pow2(n - 1)
  }

  lemma {:induction false} Pow2Add(a: nat, b: nat)
    ensures Pow2(a + b) == Pow2(a) * Pow2(b)
  {
    if a > 0 { Pow2Add(a - 1, b); }
  }

  lemma Pow2Seven()
    ensures Pow2(7) == 128
  {
    assert Pow2(3) == 8;
    Pow2Add(3, 4);
  }

  // ------------------------------------------------------------------------ the grammar

  /** An unsigned integer of `bits` bits at `pos`, and where it ends. */
  function UN(bits: nat, buf: Bytes, pos: nat): Option<(nat, nat)>
    decreases |buf| - pos
  {
    if pos >= |buf| then None
    else if buf[pos] < 128 then
      if buf[pos] < Pow2(bits) then Some((buf[pos], pos + 1)) else None
    else if bits <= 7 then None
    else match UN(bits - 7, buf, pos + 1)
      case None => None
      case Some(rest) => Some((128 * rest.0 + (buf[pos] - 128), rest.1))
  }

  /** A signed integer of `bits` bits at `pos`, and where it ends. */
  function SN(bits: nat, buf: Bytes, pos: nat): Option<(int, nat)>
    requires bits > 0
    decreases |buf| - pos
  {
    if pos >= |buf| then None
    else if buf[pos] < 64 then
      if buf[pos] < Pow2(bits - 1) then Some((buf[pos], pos + 1)) else None
    else if buf[pos] < 128 then
      if buf[pos] >= 128 - Pow2(bits - 1) then Some(((buf[pos] as int) - 128, pos + 1)) else None
    else if bits <= 7 then None
    else match SN(bits - 7, buf, pos + 1)
      case None => None
      case Some(rest) => Some((128 * rest.0 + (buf[pos] - 128), rest.1))
  }

  lemma {:induction false} UNBounds(bits: nat, buf: Bytes, pos: nat)
    requires UN(bits, buf, pos).Some?
    ensures UN(bits, buf, pos).value.0 < Pow2(bits)
    ensures pos < UN(bits, buf, pos).value.1 <= |buf|
    decreases bits
  {
    if buf[pos] >= 128 {
      UNBounds(bits - 7, buf, pos + 1);
      Pow2Add(7, bits - 7);
      Pow2Seven();
    }
  }

  lemma {:induction false} SNBounds(bits: nat, buf: Bytes, pos: nat)
    requires bits > 0 && SN(bits, buf, pos).Some?
    ensures 0 - Pow2(bits - 1) <= SN(bits, buf, pos).value.0 < Pow2(bits - 1)
    ensures pos < SN(bits, buf, pos).value.1 <= |buf|
    decreases bits
  {
    if buf[pos] >= 128 {
      SNBounds(bits - 7, buf, pos + 1);
      Pow2Add(7, bits - 8);
      Pow2Seven();
    }
  }

  predicate SameAt(a: Bytes, p: nat, b: Bytes, q: nat, k: nat) {
    p + k < |a| && q + k < |b| && a[p + k] == b[q + k]
  }

  /** The same `n` bytes stand at `p` in one sequence and at `q` in another. */
  ghost predicate Same(a: Bytes, p: nat, b: Bytes, q: nat, n: nat) {
    && p + n <= |a| && q + n <= |b|
    && forall k: nat {:trigger SameAt(a, p, b, q, k)} :: k < n ==> SameAt(a, p, b, q, k)
  }

  lemma SamePart(a: Bytes, p: nat, b: Bytes, q: nat, n: nat, i: nat, j: nat)
    requires Same(a, p, b, q, n) && i <= j <= n
    ensures Same(a, p + i, b, q + i, j - i)
  {
    var p', q' := p + i, q + i;
    forall k: nat | k < j - i ensures SameAt(a, p', b, q', k) { assert SameAt(a, p, b, q, i + k); }
  }

  /** A slice has the bytes of where it was taken. */
  lemma SameSlice(a: Bytes, p: nat, n: nat)
    requires p + n <= |a|
    ensures Same(a, p, a[p..p + n], 0, n) && Same(a[p..p + n], 0, a, p, n)
  {
    var s := a[p..p + n];
    forall k: nat | k < n ensures SameAt(a, p, s, 0, k) && SameAt(s, 0, a, p, k) { }
  }

  lemma SameSlices(a: Bytes, p: nat, b: Bytes, q: nat, n: nat)
    requires Same(a, p, b, q, n)
    ensures a[p..p + n] == b[q..q + n]
  {
    var s, t := a[p..p + n], b[q..q + n];
    forall k: nat | k < n ensures s[k] == t[k] { assert SameAt(a, p, b, q, k); }
  }

  /** Reading looks only at the bytes of the integer. */
  lemma {:induction false} UNLocal(bits: nat, a: Bytes, p: nat, b: Bytes, q: nat, n: nat)
    requires UN(bits, a, p).Some? && UN(bits, a, p).value.1 == p + n && Same(a, p, b, q, n)
    ensures UN(bits, b, q) == Some((UN(bits, a, p).value.0, q + n))
    decreases bits
  {
    UNBounds(bits, a, p);
    assert SameAt(a, p, b, q, 0);
    if a[p] >= 128 {
      SamePart(a, p, b, q, n, 1, n);
      UNBounds(bits - 7, a, p + 1);
      UNLocal(bits - 7, a, p + 1, b, q + 1, n - 1);
    }
  }

  lemma {:induction false} SNLocal(bits: nat, a: Bytes, p: nat, b: Bytes, q: nat, n: nat)
    requires bits > 0 && SN(bits, a, p).Some? && SN(bits, a, p).value.1 == p + n && Same(a, p, b, q, n)
    ensures SN(bits, b, q) == Some((SN(bits, a, p).value.0, q + n))
    decreases bits
  {
    SNBounds(bits, a, p);
    assert SameAt(a, p, b, q, 0);
    if a[p] >= 128 {
      SamePart(a, p, b, q, n, 1, n);
      SNBounds(bits - 7, a, p + 1);
      SNLocal(bits - 7, a, p + 1, b, q + 1, n - 1);
    }
  }

  // ------------------------------------------------------------------------- the readers

  /** What has been read so far, and what is read from here on. */
  function Onto(low: nat, scale: nat, rest: Option<(int, nat)>): Option<(int, nat)> {
    match rest
    case None => None
    case Some(r) => Some((low + scale * r.0, r.1))
  }

  lemma OntoStep(low: nat, scale: nat, b: nat, more: nat, rest: Option<(int, nat)>)
    requires 128 <= b < 256 && more == low + scale * (b - 128)
    ensures Onto(low, scale, Onto(b - 128, 128, rest)) == Onto(more, scale * 128, rest)
  {
    if rest.Some? {
      var m := rest.value.0;
      assert scale * (128 * m) == scale * 128 * m;
      assert scale * (b - 128 + 128 * m) == scale * (b - 128) + scale * (128 * m);
    }
  }

  lemma MoreBounds(low: nat, scale: nat, b: nat, more: int)
    requires 128 <= b < 256 && low < scale && more == low + scale * (b - 128)
    ensures 0 <= more < scale * 128
  {
    DigitBound(low, scale, b - 128, 128);
    assert scale * (b - 128) >= 0;
  }

  /** With `low` below the scale, a bound on the digits is a bound on the value. */
  lemma NotNegative(a: nat, b: nat)
    ensures a * b >= 0
  {
  }

  lemma DigitBound(low: nat, scale: nat, v: int, bound: int)
    requires low < scale
    ensures low + scale * v < scale * bound <==> v < bound
    ensures low + scale * v >= scale * bound <==> v >= bound
  {
    if v < bound {
      assert scale * v <= scale * (bound - 1);
      assert scale * (bound - 1) == scale * bound - scale;
    } else {
      assert scale * v >= scale * bound;
    }
  }

  lemma UnsignedLast(buf: Bytes, start: nat, bits: nat, low: nat, scale: nat, i: nat, pos: nat, value: int)
    requires pos < |buf| && buf[pos] < 128 && low < scale && 7 * i < bits && scale == Pow2(7 * i)
    requires UN(bits, buf, start) == Onto(low, scale, UN(bits - 7 * i, buf, pos))
    requires value == low + scale * buf[pos]
    ensures value >= 0
    ensures UN(bits, buf, start) == if value < Pow2(bits) then Some((value, pos + 1)) else None
  {
    var room := RoomLeft(bits, i, scale);
    NotNegative(scale, buf[pos]);
    DigitBound(low, scale, buf[pos], room);
  }

  lemma UnsignedMore(buf: Bytes, start: nat, bits: nat, low: nat, scale: nat, i: nat, pos: nat, more: nat)
    requires pos < |buf| && buf[pos] >= 128 && 7 * i < bits && more == low + scale * (buf[pos] - 128)
    requires UN(bits, buf, start) == Onto(low, scale, UN(bits - 7 * i, buf, pos))
    ensures 7 * (i + 1) >= bits ==> UN(bits, buf, start) == None
    ensures 7 * (i + 1) < bits ==>
      UN(bits, buf, start) == Onto(more, scale * 128, UN(bits - 7 * (i + 1), buf, pos + 1))
  {
    var left := bits - 7 * i;
    if left > 7 {
      assert UN(left, buf, pos) == Onto(buf[pos] - 128, 128, UN(left - 7, buf, pos + 1));
      OntoStep(low, scale, buf[pos], more, UN(left - 7, buf, pos + 1));
    }
  }

  /** The scale of group `i` and what is left of the width. */
  lemma Widths(bits: nat, i: nat)
    requires 7 * i < bits
    ensures Pow2(bits) == Pow2(7 * i) * Pow2(bits - 7 * i)
    ensures Pow2(7 * (i + 1)) == Pow2(7 * i) * 128
  {
    Pow2Add(7 * i, bits - 7 * i);
    Pow2Add(7 * i, 7);
    Pow2Seven();
  }

  lemma RoomLeft(bits: nat, i: nat, scale: nat) returns (room: nat)
    requires 7 * i < bits && scale == Pow2(7 * i)
    ensures room == Pow2(bits - 7 * i) && Pow2(bits) == scale * room
  {
    Pow2Add(7 * i, bits - 7 * i);
    room := Pow2(bits - 7 * i);
  }

  /** At the full width the last group needs no other check than that it is at most 1. */
  lemma WidestFits(bits: nat, low: nat, scale: nat, i: nat, b: nat, value: int)
    requires bits == 64 && i <= 9 && scale == Pow2(7 * i) && low < scale && b < 128 && (i == 9 ==> b <= 1)
    requires value == low + scale * b
    ensures value < Pow2(bits)
  {
    var room := RoomLeft(bits, i, scale);
    if i == 9 {
      assert Pow2(1) == 2;
    } else {
      Pow2Add(7, bits - 7 * i - 7);
      Pow2Seven();
    }
    DigitBound(low, scale, b, room);
  }

  method ReadULEB(buf: Bytes, start: nat, bits: nat) returns (r: Option<(nat, nat)>)
    requires 0 < bits <= 64
    ensures r == UN(bits, buf, start)
  {
    var pos: nat, value: nat, scale: nat := start, 0, 1;
    for i := 0 to (bits + 6) / 7
      invariant pos == start + i
      invariant scale == Pow2(7 * i) && value < scale
      invariant 7 * i < bits ==> UN(bits, buf, start) == Onto(value, scale, UN(bits - 7 * i, buf, pos))
      invariant 7 * i >= bits ==> UN(bits, buf, start) == None
    {
      if pos >= |buf| { return None; }
      var b := buf[pos];
      if i == 9 && b > 1 {
        assert Pow2(1) == 2;
        return None;
      }
      if b < 128 {
        var last := value + scale * b;
        UnsignedLast(buf, start, bits, value, scale, i, pos, last);
        if bits == 64 { WidestFits(bits, value, scale, i, b, last); }
        if bits < 64 && last >= Pow2(bits) { return None; }
        return Some((last, pos + 1));
      }
      var more := value + scale * (b - 128);
      Widths(bits, i);
      MoreBounds(value, scale, b, more);
      UnsignedMore(buf, start, bits, value, scale, i, pos, more);
      value, scale, pos := more, scale * 128, pos + 1;
    }
    return None;
  }

  // ------------------------------------------------------------------------ signed integers

  /** The value of a last byte, with its sign. */
  function LastDigit(b: nat): int {
    if b < 64 then b else b - 128
  }

  lemma SignedLast(buf: Bytes, start: nat, bits: nat, low: nat, scale: nat, i: nat, pos: nat, value: int)
    requires pos < |buf| && buf[pos] < 128 && low < scale && 7 * i < bits && scale == Pow2(7 * i)
    requires SN(bits, buf, start) == Onto(low, scale, SN(bits - 7 * i, buf, pos))
    requires value == low + scale * LastDigit(buf[pos])
    ensures SN(bits, buf, start) == if 0 - Pow2(bits - 1) <= value < Pow2(bits - 1) then Some((value, pos + 1)) else None
  {
    SignedWidths(bits, i);
    var left := bits - 7 * i;
    var v, half := LastDigit(buf[pos]), Pow2(left - 1);
    assert SN(left, buf, pos) == if 0 - half <= v < half then Some((v, pos + 1)) else None;
    SignedBound(low, scale, v, half);
  }

  lemma SignedMore(buf: Bytes, start: nat, bits: nat, low: nat, scale: nat, i: nat, pos: nat, more: nat)
    requires pos < |buf| && buf[pos] >= 128 && 7 * i < bits && more == low + scale * (buf[pos] - 128)
    requires SN(bits, buf, start) == Onto(low, scale, SN(bits - 7 * i, buf, pos))
    ensures 7 * (i + 1) >= bits ==> SN(bits, buf, start) == None
    ensures 7 * (i + 1) < bits ==>
      SN(bits, buf, start) == Onto(more, scale * 128, SN(bits - 7 * (i + 1), buf, pos + 1))
  {
    var left := bits - 7 * i;
    if left > 7 {
      assert SN(left, buf, pos) == Onto(buf[pos] - 128, 128, SN(left - 7, buf, pos + 1));
      OntoStep(low, scale, buf[pos], more, SN(left - 7, buf, pos + 1));
    }
  }

  lemma SignedWidths(bits: nat, i: nat)
    requires 7 * i < bits
    ensures Pow2(bits - 1) == Pow2(7 * i) * Pow2(bits - 7 * i - 1)
    ensures Pow2(7 * (i + 1)) == Pow2(7 * i) * 128
  {
    Pow2Add(7 * i, bits - 7 * i - 1);
    Pow2Add(7 * i, 7);
    Pow2Seven();
  }

  /** At the full width the sign is right without a range check. */
  lemma WidestSigned(bits: nat, low: nat, scale: nat, i: nat, v: int, value: int)
    requires bits == 64 && i <= 9 && scale == Pow2(7 * i) && low < scale && -64 <= v < 64 && (i == 9 ==> v == 0 || v == -1)
    requires value == low + scale * v
    ensures 0 - Pow2(bits - 1) <= value < Pow2(bits - 1)
  {
    SignedWidths(bits, i);
    var half := Pow2(bits - 7 * i - 1);
    assert half >= 64 || i == 9 by {
      if i < 9 {
        Pow2Add(6, bits - 7 * i - 7);
        assert Pow2(3) == 8;
        Pow2Add(3, 3);
      }
    }
    SignedBound(low, scale, v, half);
  }

  lemma SignedBound(low: nat, scale: nat, v: int, half: nat)
    requires low < scale
    ensures 0 - scale * half <= low + scale * v < scale * half <==> 0 - half <= v < half
  {
    DigitBound(low, scale, v, half);
    DigitBound(low, scale, v, 0 - half);
    assert scale * (0 - half) == 0 - scale * half;
  }

  /**
   The tenth group of a 64-bit integer adds only its lowest bit, at the place of the sign; so a last
   byte 0x7f there means minus one.
   */
  method ReadSLEB(buf: Bytes, start: nat, bits: nat) returns (r: Option<(int, nat)>)
    requires 0 < bits <= 64
    ensures r == SN(bits, buf, start)
  {
    var pos: nat, value: nat, scale: nat := start, 0, 1;
    for i := 0 to (bits + 6) / 7
      invariant pos == start + i
      invariant scale == Pow2(7 * i) && value < scale
      invariant 7 * i < bits ==> SN(bits, buf, start) == Onto(value, scale, SN(bits - 7 * i, buf, pos))
      invariant 7 * i >= bits ==> SN(bits, buf, start) == None
    {
      if pos >= |buf| { return None; }
      var b := buf[pos];
      if bits == 64 && i == 9 && b != 0 && b != 127 {
        assert Pow2(0) == 1;
        return None;
      }
      if b < 128 {
        var last := value + scale * LastDigit(b);
        SignedLast(buf, start, bits, value, scale, i, pos, last);
        if bits == 64 { WidestSigned(bits, value, scale, i, LastDigit(b), last); }
        if bits < 64 && !(0 - Pow2(bits - 1) <= last < Pow2(bits - 1)) { return None; }
        return Some((last, pos + 1));
      }
      var more := value + scale * (b - 128);
      SignedWidths(bits, i);
      MoreBounds(value, scale, b, more);
      SignedMore(buf, start, bits, value, scale, i, pos, more);
      value, scale, pos := more, scale * 128, pos + 1;
    }
    return None;
  }

  // --------------------------------------------------------------------------- the writer

  /** The shortest encoding. */
  function Encode(value: nat): Bytes {
    if value < 128 then [value] else [value % 128 + 128] + Encode(value / 128)
  }

  method AppendULEB(dst: Bytes, value: nat) returns (r: Bytes)
    ensures r == dst + Encode(value)
  {
    r := dst;
    var v := value;
    while v >= 128
      invariant r + Encode(v) == dst + Encode(value)
    {
      assert Encode(v) == [v % 128 + 128] + Encode(v / 128);
      assert r + Encode(v) == (r + [v % 128 + 128]) + Encode(v / 128);
      r, v := r + [v % 128 + 128], v / 128;
    }
    r := r + [v];
  }

  /** Reading undoes writing, at any width the value fits in, with any bytes before and after. */
  lemma {:induction false} RoundTrip(bits: nat, before: Bytes, value: nat, after: Bytes)
    requires value < Pow2(bits)
    ensures UN(bits, before + Encode(value) + after, |before|) == Some((value, |before + Encode(value)|))
    decreases value
  {
    var buf := before + Encode(value) + after;
    if value >= 128 {
      Pow2Small(bits);
      assert bits > 7;
      Pow2Add(7, bits - 7);
      Pow2Seven();
      assert value == 128 * (value / 128) + value % 128;
      var head := [value % 128 + 128];
      assert buf == (before + head) + Encode(value / 128) + after;
      RoundTrip(bits - 7, before + head, value / 128, after);
      assert before + Encode(value) == (before + head) + Encode(value / 128);
      assert buf[|before|] == value % 128 + 128;
    } else {
      assert buf[|before|] == value;
    }
  }

  lemma Pow2Small(bits: nat)
    ensures Pow2(bits) > 128 ==> bits > 7
  {
    if bits <= 7 {
      Pow2Add(bits, 7 - bits);
      Pow2Seven();
      assert Pow2(bits) * Pow2(7 - bits) >= Pow2(bits);
    }
  }
}
