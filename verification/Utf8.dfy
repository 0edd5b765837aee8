/** UTF-8 as RFC 3629 defines it, and the byte scanner that recognises it. */
module Utf8 {
  import opened Bytes
  import opened Wrappers

  /** A Unicode scalar value: any code point that is not a surrogate. */
  type scalar = x: int | 0 <= x < 0xD800 || 0xE000 <= x < 0x110000

  /** The shortest encoding of one scalar value: section 3 of RFC 3629. */
  function Encode(x: scalar): seq<byte> {
    if x < 0x80 then [x]
    else if x < 0x800 then [0xC0 + x / 64, 0x80 + x % 64]
    else if x < 0x10000 then [0xE0 + x / 4096, 0x80 + x / 64 % 64, 0x80 + x % 64]
    else [0xF0 + x / 262144, 0x80 + x / 4096 % 64, 0x80 + x / 64 % 64, 0x80 + x % 64]
  }

  function EncodeAll(xs: seq<scalar>): seq<byte> {
    if xs == [] then [] else Encode(xs[0]) + EncodeAll(xs[1..])
  }

  /** How many continuation bytes a lead byte announces, and the bits it contributes. */
  function Lead(b: byte): Option<(nat, nat)> {
    if b < 0x80 then Some((0, b))
    else if 0xC0 <= b < 0xE0 then Some((1, b % 32))
    else if 0xE0 <= b < 0xF0 then Some((2, b % 16))
    else if 0xF0 <= b < 0xF8 then Some((3, b % 8))
    else None
  }

  /** The code point after `n` continuation bytes at the start of `s`. */
  function Continue(s: seq<byte>, n: nat, cp: nat): Option<nat> {
    if n == 0 then Some(cp)
    else if s == [] || !(0x80 <= s[0] < 0xC0) then None
    else Continue(s[1..], n - 1, cp * 64 + s[0] % 64)
  }

  /** Not overlong, not a surrogate, not beyond U+10FFFF. */
  predicate Fits(n: nat, cp: nat) {
    && (n == 1 ==> cp >= 0x80) && (n == 2 ==> cp >= 0x800) && (n == 3 ==> cp >= 0x10000)
    && !(0xD800 <= cp < 0xE000) && cp < 0x110000
  }

  /** The first scalar value of `s`, and how many bytes it takes. */
  function First(s: seq<byte>): (r: Option<(scalar, nat)>)
    ensures r.Some? ==> 1 <= r.value.1 <= 4 && r.value.1 <= |s|
  {
    if s == [] || Lead(s[0]).None? then None
    else
      var (n, bits) := Lead(s[0]).value;
      var c := Continue(s[1..], n, bits);
      ContinueLength(s[1..], n, bits);
      if c.Some? && Fits(n, c.value) then Some((c.value, n + 1)) else None
  }

  lemma {:induction false} ContinueLength(s: seq<byte>, n: nat, cp: nat)
    ensures Continue(s, n, cp).Some? ==> n <= |s|
  {
    if n > 0 && s != [] { ContinueLength(s[1..], n - 1, cp * 64 + s[0] % 64); }
  }

  function Decode(s: seq<byte>): Option<seq<scalar>> {
    if s == [] then Some([])
    else
      match First(s)
      case None => None
      case Some((x, n)) =>
        match Decode(s[n..])
        case None => None
        case Some(xs) => Some([x] + xs)
  }

  // ---------------------------------------------------------------------------
  // One scalar value
  // ---------------------------------------------------------------------------

  /** The six bits of a continuation byte. */
  function Bits(b: byte): int { b - 0x80 }

  predicate IsContinuation(b: byte) { 0x80 <= b < 0xC0 }

  lemma Continue1(s: seq<byte>, cp: nat)
    ensures Continue(s, 1, cp) == if |s| >= 1 && IsContinuation(s[0]) then Some(cp * 64 + Bits(s[0])) else None
  {}

  lemma Continue2(s: seq<byte>, cp: nat)
    ensures Continue(s, 2, cp) == if |s| >= 2 && IsContinuation(s[0]) && IsContinuation(s[1])
                                  then Some(cp * 4096 + Bits(s[0]) * 64 + Bits(s[1])) else None
  {
    if s != [] { Continue1(s[1..], cp * 64 + s[0] % 64); }
  }

  lemma Continue3(s: seq<byte>, cp: nat)
    ensures Continue(s, 3, cp) == if |s| >= 3 && IsContinuation(s[0]) && IsContinuation(s[1]) && IsContinuation(s[2])
                                  then Some(cp * 262144 + Bits(s[0]) * 4096 + Bits(s[1]) * 64 + Bits(s[2])) else None
  {
    if s != [] { Continue2(s[1..], cp * 64 + s[0] % 64); }
  }

  lemma LastDigit(x: nat, hi: nat, lo: nat)
    requires lo < 64
    ensures x == hi * 64 + lo <==> hi == x / 64 && lo == x % 64
  {}

  /** A number is its base-64 digits, and only those. */
  lemma Digits(a: nat, b: nat, c: nat, d: nat, x: nat)
    requires b < 64 && c < 64 && d < 64
    ensures x == a * 262144 + b * 4096 + c * 64 + d <==>
        a == x / 262144 && b == x / 4096 % 64 && c == x / 64 % 64 && d == x % 64
  {
    LastDigit(x, (a * 64 + b) * 64 + c, d);
    LastDigit(x / 64, a * 64 + b, c);
    LastDigit(x / 4096, a, b);
    assert x / 64 / 64 == x / 4096 && x / 4096 / 64 == x / 262144;
  }

  /** Reading an encoding gives the scalar value back, whatever follows. */
  lemma FirstOfEncode(x: scalar, rest: seq<byte>)
    ensures First(Encode(x) + rest) == Some((x, |Encode(x)|))
  {
    var s := Encode(x) + rest;
    if x >= 0x10000 {
      FirstOfFour(x, s);
    } else if x >= 0x800 {
      FirstOfThree(x, s);
    } else if x >= 0x80 {
      Continue1(s[1..], x / 64);
    }
  }

  lemma FirstOfThree(x: scalar, s: seq<byte>)
    requires 0x800 <= x < 0x10000 && Encode(x) <= s
    ensures First(s) == Some((x, 3))
  {
    Digits(0, x / 4096, x / 64 % 64, x % 64, x);
    assert Lead(s[0]).value == (2, x / 4096);
    Continue2(s[1..], x / 4096);
    assert s[1..][0] == s[1] && s[1..][1] == s[2];
    assert Bits(s[1]) == x / 64 % 64 && Bits(s[2]) == x % 64;
  }

  lemma FirstOfFour(x: scalar, s: seq<byte>)
    requires 0x10000 <= x && Encode(x) <= s
    ensures First(s) == Some((x, 4))
  {
    Digits(x / 262144, x / 4096 % 64, x / 64 % 64, x % 64, x);
    assert Lead(s[0]).value == (3, x / 262144);
    Continue3(s[1..], x / 262144);
    assert s[1..][0] == s[1] && s[1..][1] == s[2] && s[1..][2] == s[3];
    assert Bits(s[1]) == x / 4096 % 64 && Bits(s[2]) == x / 64 % 64 && Bits(s[3]) == x % 64;
  }

  /** What is read as a scalar value is its shortest encoding. */
  lemma FirstIsEncode(s: seq<byte>)
    requires First(s).Some?
    ensures s[..First(s).value.1] == Encode(First(s).value.0)
  {
    var x, n := First(s).value.0, Lead(s[0]).value.0;
    if n == 1 {
      Continue1(s[1..], s[0] % 32);
      assert s[1..][0] == s[1];
      Digits(0, 0, s[0] % 32, Bits(s[1]), x);
    } else if n == 2 {
      FirstIsThree(s, x);
    } else if n == 3 {
      FirstIsFour(s, x);
    }
  }

  lemma FirstIsThree(s: seq<byte>, x: scalar)
    requires First(s) == Some((x, 3))
    ensures s[..3] == Encode(x)
  {
    Continue2(s[1..], s[0] % 16);
    assert s[1..][0] == s[1] && s[1..][1] == s[2];
    Digits(0, s[0] % 16, Bits(s[1]), Bits(s[2]), x);
    assert x / 4096 == s[0] % 16 by { assert x < 0x10000; }
  }

  lemma FirstIsFour(s: seq<byte>, x: scalar)
    requires First(s) == Some((x, 4))
    ensures s[..4] == Encode(x)
  {
    Continue3(s[1..], s[0] % 8);
    assert s[1..][0] == s[1] && s[1..][1] == s[2] && s[1..][2] == s[3];
    Digits(s[0] % 8, Bits(s[1]), Bits(s[2]), Bits(s[3]), x);
  }

  // ---------------------------------------------------------------------------
  // Whole sequences
  // ---------------------------------------------------------------------------

  lemma {:induction false} DecodeOfEncode(xs: seq<scalar>)
    ensures Decode(EncodeAll(xs)) == Some(xs)
  {
    if xs != [] {
      var e := Encode(xs[0]);
      FirstOfEncode(xs[0], EncodeAll(xs[1..]));
      assert EncodeAll(xs)[|e|..] == EncodeAll(xs[1..]) && EncodeAll(xs) != [];
      DecodeOfEncode(xs[1..]);
      assert [xs[0]] + xs[1..] == xs;
    }
  }

  lemma FirstThenRest(s: seq<byte>, xs: seq<scalar>)
    requires First(s).Some? && EncodeAll(xs) == s[First(s).value.1..]
    ensures EncodeAll([First(s).value.0] + xs) == s
  {
    FirstIsEncode(s);
    var x, n := First(s).value.0, First(s).value.1;
    assert ([x] + xs)[1..] == xs;
    assert s == s[..n] + s[n..];
  }

  lemma {:induction false} DecodeIsEncode(s: seq<byte>)
    requires Decode(s).Some?
    ensures EncodeAll(Decode(s).value) == s
    decreases |s|
  {
    if s != [] {
      var rest := s[First(s).value.1..];
      DecodeIsEncode(rest);
      FirstThenRest(s, Decode(rest).value);
    }
  }

  /** A byte sequence encodes at most one sequence of scalar values. */
  lemma EncodeInjective(xs: seq<scalar>, ys: seq<scalar>)
    requires EncodeAll(xs) == EncodeAll(ys)
    ensures xs == ys
  {
    DecodeOfEncode(xs);
    DecodeOfEncode(ys);
  }

  /** Decoding succeeds exactly on the encodings. */
  lemma DecodeExact(s: seq<byte>)
    ensures Decode(s).Some? <==> exists xs :: EncodeAll(xs) == s
  {
    if Decode(s).Some? {
      DecodeIsEncode(s);
    }
    if xs :| EncodeAll(xs) == s {
      DecodeOfEncode(xs);
    }
  }

  // ---------------------------------------------------------------------------
  // The scanner
  // ---------------------------------------------------------------------------

  /** The continuation bytes of one sequence. */
  method ReadContinuation(data: seq<byte>, start: nat, n: nat, bits: nat) returns (ok: bool, cp: nat)
    requires start <= |data|
    ensures Continue(data[start..], n, bits) == if ok then Some(cp) else None
    ensures ok ==> start + n <= |data|
  {
    ContinueLength(data[start..], n, bits);
    cp := bits;
    if start + n > |data| { return false, cp; }
    for i := 0 to n
      invariant Continue(data[start..], n, bits) == Continue(data[start + i..], n - i, cp)
    {
      var b := data[start + i];
      assert data[start + i..][1..] == data[start + i + 1..];
      if !(0x80 <= b < 0xC0) { return false, cp; }
      cp := cp * 64 + b % 64;
    }
    return true, cp;
  }

  method IsValidUtf8(data: seq<byte>) returns (ok: bool)
    ensures ok <==> exists xs :: EncodeAll(xs) == data
  {
    ok := Scan(data);
    DecodeExact(data);
  }

  method Scan(data: seq<byte>) returns (ok: bool)
    ensures ok <==> Decode(data).Some?
  {
    var pos := 0;
    while pos < |data|
      invariant pos <= |data|
      invariant Decode(data).Some? <==> Decode(data[pos..]).Some?
    {
      ghost var s := data[pos..];
      var b := data[pos];
      pos := pos + 1;
      assert s[0] == b && s[1..] == data[pos..];
      if b < 0x80 {
        assert Lead(b) == Some((0, b));
        continue;
      }
      var n: nat, cp: nat := 0, 0;
      if 0xC0 <= b < 0xE0 {
        n, cp := 1, b % 32;
      } else if 0xE0 <= b < 0xF0 {
        n, cp := 2, b % 16;
      } else if 0xF0 <= b < 0xF8 {
        n, cp := 3, b % 8;
      } else {
        return false;
      }
      assert Lead(b) == Some((n, cp));
      var whole: bool;
      whole, cp := ReadContinuation(data, pos, n, cp);
      if !whole { return false; }
      pos := pos + n;
      if n == 1 && cp < 0x80 { return false; }
      if n == 2 && cp < 0x800 { return false; }
      if n == 3 && cp < 0x10000 { return false; }
      if 0xD800 <= cp <= 0xDFFF || cp > 0x10FFFF { return false; }
      assert First(s) == Some((cp, n + 1));
      assert s[n + 1..] == data[pos..];
    }
    assert data[pos..] == [];
    return true;
  }
}
