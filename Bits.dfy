/** Bit vectors as little-endian sequences of booleans: s[0] is bit 0. */
module Bits {

  function Pow2(n: nat): (r: nat)
    ensures r >= 1
  {
    if n == 0 then 1 else 2 * Pow2(n - 1)
  }

  function B2N(b: bool): nat
  {
    if b then 1 else 0
  }

  /** The unsigned value of a little-endian bit vector. */
  function Val(s: seq<bool>): (v: nat)
    ensures v < Pow2(|s|)
  {
    if s == [] then 0 else B2N(s[0]) + 2 * Val(s[1..])
  }

  /** Bitwise complement. */
  function Not(s: seq<bool>): (r: seq<bool>)
    ensures |r| == |s|
    ensures forall i :: 0 <= i < |s| ==> r[i] == !s[i]
  {
    seq(|s|, i requires 0 <= i < |s| => !s[i])
  }

  lemma {:induction false} Pow2Add(m: nat, n: nat)
    ensures Pow2(m + n) == Pow2(m) * Pow2(n)
  {
    if m > 0 {
      Pow2Add(m - 1, n);
    }
  }

  lemma {:induction false} ValConcat(x: seq<bool>, y: seq<bool>)
    ensures Val(x + y) == Val(x) + Pow2(|x|) * Val(y)
  {
    if x == [] {
      assert x + y == y;
    } else {
      var x' := x[1..];
      assert (x + y)[1..] == x' + y;
      ValConcat(x', y);
      var p, vy := Pow2(|x'|), Val(y);
      assert Val(x + y) == B2N(x[0]) + 2 * Val(x' + y);
      assert Val(x) == B2N(x[0]) + 2 * Val(x');
      assert Pow2(|x|) == 2 * p;
      ConcatArith(B2N(x[0]), Val(x'), vy, p, Val(x' + y));
    }
  }

  lemma ConcatArith(b: nat, vx: nat, vy: nat, p: nat, vxy: nat)
    requires vxy == vx + p * vy
    ensures b + 2 * vxy == (b + 2 * vx) + (2 * p) * vy
  {
  }

  /** Comparing the full prefixes of two vectors compares the vectors. */
  lemma GeFull(o: bool, x: seq<bool>, y: seq<bool>, n: nat)
    requires n == |x| == |y| && o == (Val(x[..n]) >= Val(y[..n]))
    ensures o == (Val(x) >= Val(y))
  {
    assert x[..n] == x && y[..n] == y;
  }

  lemma {:induction false} ValSnoc(s: seq<bool>, b: bool)
    ensures Val(s + [b]) == Val(s) + (if b then Pow2(|s|) else 0)
  {
    if s == [] {
      assert s + [b] == [b];
      assert [b][1..] == [];
    } else {
      assert (s + [b])[1..] == s[1..] + [b];
      ValSnoc(s[1..], b);
      assert Val(s + [b]) == B2N(s[0]) + 2 * Val(s[1..] + [b]);
    }
  }

  /** The complement of a W-bit vector is 2^W - 1 minus its value. */
  lemma {:induction false} ValNot(s: seq<bool>)
    ensures Val(Not(s)) == Pow2(|s|) - 1 - Val(s)
  {
    if s != [] {
      assert Not(s)[1..] == Not(s[1..]);
      ValNot(s[1..]);
    }
  }

  /** Bit i of a natural number, by repeated halving. */
  function Bit(v: nat, i: nat): bool
  {
    if i == 0 then v % 2 == 1 else Bit(v / 2, i - 1)
  }

  /** Bit i of a vector is bit i of its value. */
  lemma {:induction false} BitOfVal(t: seq<bool>, i: nat)
    requires i < |t|
    ensures t[i] == Bit(Val(t), i)
  {
    assert Val(t) == B2N(t[0]) + 2 * Val(t[1..]);
    if i > 0 {
      BitOfVal(t[1..], i - 1);
      assert Val(t) / 2 == Val(t[1..]);
    }
  }

  /** Vectors of one width are equal exactly when their values are. */
  lemma ValInjective(x: seq<bool>, y: seq<bool>)
    requires |x| == |y|
    ensures (Val(x) == Val(y)) == (x == y)
  {
    if Val(x) == Val(y) {
      forall i | 0 <= i < |x| ensures x[i] == y[i] {
        BitOfVal(x, i);
        BitOfVal(y, i);
      }
    }
  }

  /** q and c are the sum bits and carries of a ripple-carry addition of x
      and y: sum bit i is x[i] xor y[i] xor c[i], and the carry out of bit i
      is c[i] where x[i] and y[i] differ and x[i] where they agree. */
  predicate RippleAdds(x: seq<bool>, y: seq<bool>, q: seq<bool>, c: seq<bool>)
  {
    |y| == |x| && |q| == |x| && |c| == |x| + 1 &&
    forall i :: 0 <= i < |x| ==> q[i] == ((x[i] != y[i]) != c[i]) && c[i + 1] == (if x[i] != y[i] then c[i] else x[i])
  }

  /** A ripple-carry adder adds: the sum bits and the carry out of the top
      bit together denote x + y + the carry in. */
  lemma {:induction false} Ripple(x: seq<bool>, y: seq<bool>, q: seq<bool>, c: seq<bool>)
    requires RippleAdds(x, y, q, c)
    ensures Val(q) + (if c[|x|] then Pow2(|x|) else 0) == Val(x) + Val(y) + B2N(c[0])
  {
    if x != [] {
      var n := |x|;
      assert B2N(q[0]) + 2 * B2N(c[1]) == B2N(x[0]) + B2N(y[0]) + B2N(c[0]);
      assert RippleAdds(x[1..], y[1..], q[1..], c[1..]) by {
        forall i | 0 <= i < n - 1
          ensures q[1..][i] == ((x[1..][i] != y[1..][i]) != c[1..][i])
          ensures c[1..][i + 1] == (if x[1..][i] != y[1..][i] then c[1..][i] else x[1..][i])
        {
          assert q[i + 1] == ((x[i + 1] != y[i + 1]) != c[i + 1]);
        }
      }
      Ripple(x[1..], y[1..], q[1..], c[1..]);
      assert Val(q[1..]) + (if c[n] then Pow2(n - 1) else 0) == Val(x[1..]) + Val(y[1..]) + B2N(c[1]);
    }
  }

  lemma {:induction false} MulAtLeast(k: int, m: nat)
    requires k >= 1
    ensures k * m >= m
  {
    if k > 1 {
      MulAtLeast(k - 1, m);
      assert k * m == (k - 1) * m + m;
    }
  }

  /** The remainder modulo m is the unique r in [0, m) with t = k * m + r. */
  lemma ModUnique(t: int, m: nat, k: int, r: int)
    requires m > 0 && 0 <= r < m && t == k * m + r
    ensures t % m == r
  {
    var d, r1 := t / m, t % m;
    assert t == d * m + r1;
    var e := k - d;
    assert e * m == k * m - d * m;
    assert e * m == r1 - r;
    if e >= 1 {
      MulAtLeast(e, m);
    } else if e <= -1 {
      MulAtLeast(-e, m);
    }
  }

  /** t, which lies within m of [0, m), brought into [0, m) by adding or
      subtracting m once. */
  function Reduce(t: int, m: nat): (r: int)
    requires 0 <= t + m && t < 2 * m
  {
    if t < 0 then t + m else if t >= m then t - m else t
  }

  /** Reduce is the remainder modulo m. */
  lemma ReduceIsMod(t: int, m: nat)
    requires m > 0 && 0 <= t + m && t < 2 * m
    ensures 0 <= Reduce(t, m) < m && Reduce(t, m) == t % m
  {
    if t < 0 {
      ModUnique(t, m, -1, t + m);
    } else if t >= m {
      ModUnique(t, m, 1, t - m);
    } else {
      ModUnique(t, m, 0, t);
    }
  }

  lemma SumReduce(vq: int, vx: int, vy: int, m: int, carry: int)
    requires 0 <= vq < m && 0 <= vx < m && 0 <= vy < m && (carry == 0 || carry == m)
    requires vq + carry == vx + vy
    ensures vq == Reduce(vx + vy, m)
  {
  }

  lemma DiffReduce(vq: int, vx: int, vb: int, vnb: int, m: int, carry: int)
    requires 0 <= vq < m && 0 <= vx < m && 0 <= vb < m && (carry == 0 || carry == m)
    requires vnb == m - 1 - vb && vq + carry == vx + vnb + 1
    ensures vq == Reduce(vx - vb, m)
  {
  }

  /** A ripple-carry adder of x and y with carry in 0 computes x + y
      modulo 2^|x|. */
  lemma RippleSum(x: seq<bool>, y: seq<bool>, q: seq<bool>, c: seq<bool>)
    requires RippleAdds(x, y, q, c) && !c[0]
    ensures Val(q) == Reduce(Val(x) + Val(y), Pow2(|x|))
  {
    Ripple(x, y, q, c);
    SumReduce(Val(q), Val(x), Val(y), Pow2(|x|), if c[|x|] then Pow2(|x|) else 0);
  }

  /** A ripple-carry adder of x and the complement of b with carry in 1
      computes x - b modulo 2^|x|. */
  lemma RippleDiff(x: seq<bool>, b: seq<bool>, q: seq<bool>, c: seq<bool>)
    requires RippleAdds(x, Not(b), q, c) && c[0]
    ensures Val(q) == Reduce(Val(x) - Val(b), Pow2(|x|))
  {
    Ripple(x, Not(b), q, c);
    ValNot(b);
    DiffReduce(Val(q), Val(x), Val(b), Val(Not(b)), Pow2(|x|), if c[|x|] then Pow2(|x|) else 0);
  }
}
