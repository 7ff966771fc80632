/** LUT configuration strings and the primitive cells of the carry chain.

    A LUT's INIT parameter is a hexadecimal string. Read as a number, its
    bit i is the LUT output for the input combination whose index is
    i = I0 + 2*I1 + 4*I2 + 8*I3; so the last hex digit holds the outputs for
    the indices 0..3, the one before it those for 4..7, and so on. */
module TruthTable {
  import opened Wrappers
  import opened Bits

  function HexDigit(c: char): (r: Option<nat>)
    ensures r.Some? ==> r.value < 16
  {
    if '0' <= c <= '9' then Some(c as int - '0' as int)
    else if 'A' <= c <= 'F' then Some(c as int - 'A' as int + 10)
    else if 'a' <= c <= 'f' then Some(c as int - 'a' as int + 10)
    else None
  }

  /** Every character of s is a hex digit (checked from the last one back). */
  predicate IsHex(s: string)
  {
    s == [] || (HexDigit(s[|s| - 1]).Some? && IsHex(s[..|s| - 1]))
  }

  const UpperDigits: string := "0123456789ABCDEF"

  predicate IsUpperHex(s: string)
  {
    s == [] || (s[|s| - 1] in UpperDigits && IsUpperHex(s[..|s| - 1]))
  }

  function HexChar(d: nat): (c: char)
    requires d < 16
    ensures HexDigit(c) == Some(d)
    ensures c in UpperDigits
  {
    UpperDigits[d]
  }

  /** The four table entries one hex digit holds, lowest index first. */
  function Nibble(d: nat): (r: seq<bool>)
    requires d < 16
    ensures |r| == 4 && Val(r) == d
  {
    var r := [d % 2 == 1, (d / 2) % 2 == 1, (d / 4) % 2 == 1, d / 8 == 1];
    Val4(r);
    r
  }

  lemma Val4(x: seq<bool>)
    requires |x| == 4
    ensures Val(x) == B2N(x[0]) + 2 * B2N(x[1]) + 4 * B2N(x[2]) + 8 * B2N(x[3])
  {
    var x1, x2, x3 := x[1..], x[2..], x[3..];
    assert x1[1..] == x2 && x2[1..] == x3 && x3[1..] == [];
    assert Val(x3) == B2N(x[3]);
    assert Val(x2) == B2N(x[2]) + 2 * B2N(x[3]);
    assert Val(x1) == B2N(x[1]) + 2 * B2N(x[2]) + 4 * B2N(x[3]);
  }

  lemma NibbleOfVal(x: seq<bool>)
    requires |x| == 4
    ensures Val(x) < 16 && Nibble(Val(x)) == x
  {
    assert Pow2(4) == 16;
    var n := Nibble(Val(x));
    ValInjective(n, x);
  }

  /** The truth table an INIT string configures: entry i is the output for input index i. */
  function DecodeInit(s: string): (r: Option<seq<bool>>)
    ensures r.Some? <==> IsHex(s)
    ensures r.Some? ==> |r.value| == 4 * |s|
  {
    if s == [] then Some([])
    else
      var last := s[|s| - 1];
      var front := s[..|s| - 1];
      match HexDigit(last)
      case None => None
      case Some(d) =>
        match DecodeInit(front)
        case None => None
        case Some(t) => Some(Nibble(d) + t)
  }

  /** The number an INIT string denotes, most significant digit first. */
  function HexValue(s: string): nat
    requires IsHex(s)
  {
    if s == [] then 0 else HexValue(s[..|s| - 1]) * 16 + HexDigit(s[|s| - 1]).value
  }

  /** The hex string of a truth table, four entries per digit (a trailing
      group of fewer than four entries is dropped). */
  function EncodeInit(t: seq<bool>): (s: string)
    ensures 4 * |s| <= |t| < 4 * |s| + 4 && IsUpperHex(s)
  {
    if |t| < 4 then "" else EncodeInit(t[4..]) + [HexChar(Val(t[..4]))]
  }

  /** Decoding an INIT string yields the binary digits of the number it denotes. */
  lemma {:induction false} DecodeValue(s: string)
    requires IsHex(s)
    ensures Val(DecodeInit(s).value) == HexValue(s)
  {
    if s != [] {
      var front := s[..|s| - 1];
      var d := HexDigit(s[|s| - 1]).value;
      var t := DecodeInit(front).value;
      DecodeUnfold(s);
      DecodeValue(front);
      NibbleValue(d, t);
    }
  }

  lemma NibbleValue(d: nat, t: seq<bool>)
    requires d < 16
    ensures Val(Nibble(d) + t) == Val(t) * 16 + d
  {
    ValConcat(Nibble(d), t);
    assert Pow2(|Nibble(d)|) == 16;
  }

  /** Every truth table survives encoding and decoding. */
  lemma {:induction false} EncodeDecode(t: seq<bool>)
    requires |t| % 4 == 0
    ensures DecodeInit(EncodeInit(t)) == Some(t)
  {
    if t != [] {
      Mod4Step(|t|);
      var rest := t[4..];
      var front := EncodeInit(rest);
      var v := Val(t[..4]);
      EncodeDecode(rest);
      NibbleOfVal(t[..4]);
      var c := HexChar(v);
      assert EncodeInit(t) == front + [c];
      DecodeSnoc(front, c);
      assert HexDigit(c).value == v;
      assert t == Nibble(v) + rest;
    }
  }

  lemma Mod4Step(n: nat)
    requires n % 4 == 0 && n > 0
    ensures n >= 4 && (n - 4) % 4 == 0
  {
  }

  lemma DecodeSnoc(front: string, c: char)
    requires DecodeInit(front).Some? && HexDigit(c).Some?
    ensures DecodeInit(front + [c]) == Some(Nibble(HexDigit(c).value) + DecodeInit(front).value)
  {
    var s := front + [c];
    assert s[..|s| - 1] == front && s[|s| - 1] == c;
  }

  lemma UpperDigitInverse(c: char)
    requires c in UpperDigits
    ensures HexDigit(c).Some? && HexChar(HexDigit(c).value) == c
  {
    var k :| 0 <= k < |UpperDigits| && UpperDigits[k] == c;
    assert HexDigit(HexChar(k)) == Some(k);
  }

  lemma {:induction false} UpperIsHex(s: string)
    requires IsUpperHex(s)
    ensures IsHex(s)
  {
    if s != [] {
      UpperIsHex(s[..|s| - 1]);
      UpperDigitInverse(s[|s| - 1]);
    }
  }

  lemma DecodeUnfold(s: string)
    requires IsHex(s) && s != []
    ensures IsHex(s[..|s| - 1]) && HexDigit(s[|s| - 1]).Some?
    ensures DecodeInit(s).value == Nibble(HexDigit(s[|s| - 1]).value) + DecodeInit(s[..|s| - 1]).value
  {
  }

  lemma EncodeNibble(d: nat, t: seq<bool>)
    requires d < 16
    ensures EncodeInit(Nibble(d) + t) == EncodeInit(t) + [HexChar(d)]
  {
    var u := Nibble(d) + t;
    assert u[..4] == Nibble(d) && u[4..] == t;
  }

  lemma EncodeNibbleAfter(front: string, c: char, d: nat, t: seq<bool>)
    requires d < 16 && HexChar(d) == c && EncodeInit(t) == front
    ensures EncodeInit(Nibble(d) + t) == front + [c]
  {
    EncodeNibble(d, t);
  }

  /** Every upper-case INIT string survives decoding and encoding. */
  lemma DecodeEncode(s: string)
    requires IsUpperHex(s)
    ensures IsHex(s) && EncodeInit(DecodeInit(s).value) == s
  {
    UpperIsHex(s);
    DecodeEncodeHex(s);
  }

  lemma {:induction false} DecodeEncodeHex(s: string)
    requires IsUpperHex(s) && IsHex(s)
    ensures EncodeInit(DecodeInit(s).value) == s
  {
    if s != [] {
      var front, c := s[..|s| - 1], s[|s| - 1];
      DecodeUnfold(s);
      DecodeEncodeHex(front);
      UpperDigitInverse(c);
      var t := DecodeInit(front).value;
      EncodeNibbleAfter(front, c, HexDigit(c).value, t);
      assert s == front + [c];
    }
  }

  /** The output of a LUT with configuration init for the inputs ins = [I0, I1, ...]. */
  function LutOut(init: string, ins: seq<bool>): bool
  {
    match DecodeInit(init)
    case None => false
    case Some(t) => Val(ins) < |t| && t[Val(ins)]
  }

  /** A LUT's output is bit (I0 + 2*I1 + ...) of the number its INIT denotes. */
  lemma LutOutIsInitBit(init: string, ins: seq<bool>)
    requires IsHex(init) && Val(ins) < 4 * |init|
    ensures LutOut(init, ins) == Bit(HexValue(init), Val(ins))
  {
    DecodeValue(init);
    BitOfVal(DecodeInit(init).value, Val(ins));
  }

  lemma Val1(v: seq<bool>)
    requires |v| == 1
    ensures Val(v) == B2N(v[0])
  {
    assert v[1..] == [];
  }

  lemma Val2(x: seq<bool>)
    requires |x| == 2
    ensures Val(x) == B2N(x[0]) + 2 * B2N(x[1])
  {
    assert x[1..][1..] == [];
  }

  lemma Val3(x: seq<bool>)
    requires |x| == 3
    ensures Val(x) == B2N(x[0]) + 2 * B2N(x[1]) + 4 * B2N(x[2])
  {
    Val2(x[1..]);
  }

  /** The table of a one-digit INIT string. */
  lemma Decode1(c0: char)
    requires HexDigit(c0).Some?
    ensures DecodeInit([c0]) == Some(Nibble(HexDigit(c0).value))
  {
    DecodeSnoc("", c0);
    assert [] + [c0] == [c0];
    assert DecodeInit("") == Some([]);
    assert Nibble(HexDigit(c0).value) + [] == Nibble(HexDigit(c0).value);
  }

  /** The table of a two-digit INIT string: the last digit holds entries 0..3. */
  lemma Decode2(c1: char, c0: char)
    requires HexDigit(c1).Some? && HexDigit(c0).Some?
    ensures DecodeInit([c1, c0]) == Some(Nibble(HexDigit(c0).value) + Nibble(HexDigit(c1).value))
  {
    Decode1(c1);
    DecodeSnoc([c1], c0);
    assert [c1] + [c0] == [c1, c0];
  }

  /** The table of a four-digit INIT string. */
  lemma Decode4(c3: char, c2: char, c1: char, c0: char)
    requires HexDigit(c3).Some? && HexDigit(c2).Some? && HexDigit(c1).Some? && HexDigit(c0).Some?
    ensures DecodeInit([c3, c2, c1, c0]) == Some(Nibble(HexDigit(c0).value) + Nibble(HexDigit(c1).value)
                                                + Nibble(HexDigit(c2).value) + Nibble(HexDigit(c3).value))
  {
    var n0, n1, n2, n3 := Nibble(HexDigit(c0).value), Nibble(HexDigit(c1).value),
                          Nibble(HexDigit(c2).value), Nibble(HexDigit(c3).value);
    Decode2(c3, c2);
    DecodeSnoc([c3, c2], c1);
    assert [c3, c2] + [c1] == [c3, c2, c1];
    assert DecodeInit([c3, c2, c1]) == Some(n1 + (n2 + n3));
    DecodeSnoc([c3, c2, c1], c0);
    assert [c3, c2, c1] + [c0] == [c3, c2, c1, c0];
    assert n0 + (n1 + (n2 + n3)) == n0 + n1 + n2 + n3;
  }

  /** The output of a LUT2 is entry I0 + 2*I1 of its table. */
  lemma LutAt2(init: string, a: bool, b: bool)
    requires DecodeInit(init).Some? && |DecodeInit(init).value| == 4
    ensures LutOut(init, [a, b]) == DecodeInit(init).value[B2N(a) + 2 * B2N(b)]
  {
    Val2([a, b]);
    assert [a, b][0] == a && [a, b][1] == b;
  }

  /** The output of a LUT3 is entry I0 + 2*I1 + 4*I2 of its table. */
  lemma LutAt3(init: string, a: bool, b: bool, c: bool)
    requires DecodeInit(init).Some? && |DecodeInit(init).value| == 8
    ensures LutOut(init, [a, b, c]) == DecodeInit(init).value[B2N(a) + 2 * B2N(b) + 4 * B2N(c)]
  {
    Val3([a, b, c]);
    assert [a, b, c][0] == a && [a, b, c][1] == b && [a, b, c][2] == c;
  }

  /** The output of a LUT4 is entry I0 + 2*I1 + 4*I2 + 8*I3 of its table. */
  lemma LutAt4(init: string, a: bool, b: bool, c: bool, d: bool)
    requires DecodeInit(init).Some? && |DecodeInit(init).value| == 16
    ensures LutOut(init, [a, b, c, d]) == DecodeInit(init).value[B2N(a) + 2 * B2N(b) + 4 * B2N(c) + 8 * B2N(d)]
  {
    Val4([a, b, c, d]);
    assert [a, b, c, d][0] == a && [a, b, c, d][1] == b && [a, b, c, d][2] == c && [a, b, c, d][3] == d;
  }

  /** MUXCY (and MUXCY_L): O = S ? CI : DI. */
  function MuxOut(s: bool, di: bool, ci: bool): bool
  {
    if s then ci else di
  }

  /** XORCY: O = LI xor CI. */
  function XorOut(li: bool, ci: bool): bool
  {
    li != ci
  }
}
