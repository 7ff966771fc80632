/** virtex2_cmp_ge: CMP_GE, Q[0] = (A >= B) for W-bit unsigned vectors.

    A one-bit comparator is a LUT2 and a two-bit one a LUT4 over B0, B1,
    A0, A1. A wider one starts with that LUT4 on the select of a MUXCY_L
    whose DI is 0 and CI is 1, so that the MUXCY_L passes the comparison of
    the two low bits on. Each higher bit i adds a LUT2 computing A[i] xnor
    B[i] on the select of a MUXCY whose DI is A[i] and whose CI comes from
    the MUXCY below: where the bits agree the lower comparison decides,
    where they differ A[i] does. The top MUXCY drives Q[0]. */
module GeCompare {
  import opened Wrappers
  import opened Bits
  import opened TruthTable
  import opened Inits
  import opened Edif
  import opened Circuit

  const NarrowGeReason := "a magnitude comparator is at least one bit wide"

  /** A CMP_GE LPM: the output Q[0] and the operands A and B. */
  datatype GeCmp = GeCmp(q: Nexus, a: seq<Nexus>, b: seq<Nexus>)

  predicate WellShaped(g: GeCmp)
  {
    |g.b| == |g.a|
  }

  /** One-bit device: a LUT2 with INIT "D", Q[0] on O, A[0] on I1 and B[0]
      on the pin bpin. */
  function OneBitStepWith(s: NetState, g: GeCmp, bpin: Pin): NetState
    requires WellShaped(g) && |g.a| == 1
  {
    var r := |s.insts|;
    var s1 := WithProp(WithInstance(s, Lut2), r, "INIT", "D");
    WithConn(WithConn(WithConn(s1, Cached(g.q), r, LutO), Cached(g.a[0]), r, LutI1), Cached(g.b[0]), r, bpin)
  }

  /** The LUT4 of the two low bits, with I0..I3 = B0, B1, A0, A1. */
  function LowStep(s: NetState, g: GeCmp): NetState
    requires WellShaped(g) && |g.a| >= 2
  {
    var r := |s.insts|;
    var s1 := WithProp(WithInstance(s, Lut4), r, "INIT", "F731");
    var s2 := WithConn(WithConn(s1, Cached(g.a[0]), r, LutI2), Cached(g.b[0]), r, LutI0);
    WithConn(WithConn(s2, Cached(g.a[1]), r, LutI3), Cached(g.b[1]), r, LutI1)
  }

  /** The bindings of the head of the chain, whose LUT4 is r, MUXCY_L r + 1,
      GND r + 2 and VCC r + 3, with joints j0 .. j0 + 2. */
  function HeadWires(r: nat, j0: nat): seq<Conn>
  {
    [Conn(Internal(j0), CellPin(r, LutO)), Conn(Internal(j0), CellPin(r + 1, MuxS)),
     Conn(Internal(j0 + 1), CellPin(r + 2, Port(0))), Conn(Internal(j0 + 1), CellPin(r + 1, MuxDI)),
     Conn(Internal(j0 + 2), CellPin(r + 3, Port(0))), Conn(Internal(j0 + 2), CellPin(r + 1, MuxCI))]
  }

  /** The head of a wide device: the LUT4, then the MUXCY_L and its constants. */
  function ChainHead(s: NetState, g: GeCmp): NetState
    requires WellShaped(g) && |g.a| >= 2
  {
    Grow(LowStep(s, g), [MuxcyL, Gnd, Vcc], [], 3, HeadWires(|s.insts|, |s.joints|))
  }

  /** The carry multiplexer whose output is the comparison of bits 0 .. i
      (i >= 1) in a device started at instance r: the MUXCY_L for i = 1,
      the MUXCY of the slice of bit i above. */
  function GeMux(r: nat, i: int): nat
  {
    if i <= 1 then r + 1 else r + 2 * i + 1
  }

  /** The bindings of the slice of bit i >= 2: its LUT2 is r + 2i, its MUXCY
      r + 2i + 1, its select joint j0 + 2i - 1 and its carry joint j0 + 2i. */
  function SliceWires(g: GeCmp, r: nat, j0: nat, i: nat): seq<Conn>
    requires WellShaped(g) && 2 <= i < |g.a|
  {
    var l, sel, carry := r + 2 * i, Internal(j0 + 2 * i - 1), Internal(j0 + 2 * i);
    [Conn(sel, CellPin(l, LutO)), Conn(sel, CellPin(l + 1, MuxS)),
     Conn(carry, CellPin(l + 1, MuxCI)), Conn(carry, CellPin(GeMux(r, i - 1), MuxO)),
     Conn(Cached(g.a[i]), CellPin(l, LutI0)), Conn(Cached(g.a[i]), CellPin(l + 1, MuxDI)),
     Conn(Cached(g.b[i]), CellPin(l, LutI1))]
  }

  /** The slice of bit i >= 2 of the device started at instance r and joint j0. */
  function SliceStep(s: NetState, g: GeCmp, r: nat, j0: nat, i: nat): NetState
    requires WellShaped(g) && 2 <= i < |g.a|
  {
    Grow(s, [Lut2, Muxcy], [CellProp(r + 2 * i, "INIT", "9")], 2, SliceWires(g, r, j0, i))
  }

  /** The head, then the slices of bits 2 .. count - 1. */
  function GeChain(s: NetState, g: GeCmp, count: nat): NetState
    requires WellShaped(g) && 2 <= count <= |g.a|
  {
    if count == 2 then ChainHead(s, g)
    else SliceStep(GeChain(s, g, count - 1), g, |s.insts|, |s.joints|, count - 1)
  }

  /** The whole chain of a device of three bits or more (s itself for any
      other device). */
  function WideChain(s: NetState, g: GeCmp): NetState
  {
    if WellShaped(g) && |g.a| >= 3 then GeChain(s, g, |g.a|) else s
  }

  /** A device of three bits or more: the chain, then Q[0] on the top MUXCY. */
  function WideStep(s: NetState, g: GeCmp): NetState
    requires WellShaped(g) && |g.a| >= 3
  {
    WithConn(WideChain(s, g), Cached(g.q), GeMux(|s.insts|, |g.a| - 1), MuxO)
  }

  /** virtex2_cmp_ge with B[0] of a one-bit device on bpin. A zero-width
      device fails the width assertion that guards the LUT4. */
  function GeStepWith(s: NetState, g: GeCmp, bpin: Pin): Step
    requires WellShaped(g)
  {
    if |g.a| == 1 then Emit(OneBitStepWith(s, g, bpin))
    else if |g.a| == 0 then Abort(NarrowGeReason)
    else if |g.a| == 2 then Emit(WithConn(LowStep(s, g), Cached(g.q), |s.insts|, LutO))
    else Emit(WideStep(s, g))
  }

  /** virtex2_cmp_ge as written: B[0] of a one-bit device goes to LUT_I2,
      which a LUT2 does not have. */
  function GeStepAsWritten(s: NetState, g: GeCmp): Step
    requires WellShaped(g)
  {
    GeStepWith(s, g, LutI2)
  }

  /** virtex2_cmp_ge with B[0] of a one-bit device on I0, as its truth table
      and its comment mean. */
  function GeStep(s: NetState, g: GeCmp): Step
    requires WellShaped(g)
  {
    GeStepWith(s, g, LutI0)
  }

  // ---------------------------------------------------------------------
  // The hook.

  method PlaceOneBit(n: Netlist, g: GeCmp)
    requires n.Valid() && WellShaped(g) && |g.a| == 1
    modifies n`instances, n`cellProps, n`conns
    ensures n.Valid() && n.State() == OneBitStepWith(old(n.State()), g, LutI0)
  {
    var lut := n.CreateInstance(Lut2);
    n.CellrefProperty(lut, "INIT", "D");
    n.AddToJoint(JointOfNexus(g.q), lut, LutO);
    n.AddToJoint(JointOfNexus(g.a[0]), lut, LutI1);
    n.AddToJoint(JointOfNexus(g.b[0]), lut, LutI0);
  }

  /** The LUT4 of the two low bits; returns it. */
  method PlaceLow(n: Netlist, g: GeCmp) returns (lut: nat)
    requires n.Valid() && WellShaped(g) && |g.a| >= 2
    modifies n`instances, n`cellProps, n`conns
    ensures n.Valid() && lut == |old(n.instances)| && n.State() == LowStep(old(n.State()), g)
  {
    lut := n.CreateInstance(Lut4);
    n.CellrefProperty(lut, "INIT", "F731");
    n.AddToJoint(JointOfNexus(g.a[0]), lut, LutI2);
    n.AddToJoint(JointOfNexus(g.b[0]), lut, LutI0);
    n.AddToJoint(JointOfNexus(g.a[1]), lut, LutI3);
    n.AddToJoint(JointOfNexus(g.b[1]), lut, LutI1);
  }

  /** The MUXCY_L over the LUT4 lut and its two constants. */
  method PlaceHead(n: Netlist, g: GeCmp, lut: nat, j0: nat)
    requires n.Valid() && WellShaped(g) && |g.a| >= 3
    requires |n.instances| == lut + 1 && |n.joints| == j0
    modifies n`instances, n`joints, n`conns
    ensures n.Valid() && |n.instances| == lut + 4 && |n.joints| == j0 + 3
    ensures n.State() == Grow(old(n.State()), [MuxcyL, Gnd, Vcc], [], 3, HeadWires(lut, j0))
  {
    var muxcy := n.CreateInstance(MuxcyL);
    var sel := n.CreateJoint();
    var p0 := n.CreateInstance(Gnd);
    var p1 := n.CreateInstance(Vcc);
    var jdi := n.CreateJoint();
    var jci := n.CreateJoint();
    n.Bind(HeadWires(lut, j0));
    ghost var s := old(n.State());
    assert s.insts + [MuxcyL] + [Gnd] + [Vcc] == s.insts + [MuxcyL, Gnd, Vcc];
    assert s.joints + [None] + [None] + [None] == s.joints + seq(3, i => None);
  }

  /** One iteration of the slice loop, for bit i >= 2. */
  method PlaceSlice(n: Netlist, g: GeCmp, r: nat, j0: nat, i: nat)
    requires n.Valid() && WellShaped(g) && 2 <= i < |g.a|
    requires |n.instances| == r + 2 * i && |n.joints| == j0 + 2 * i - 1
    modifies n`instances, n`cellProps, n`joints, n`conns
    ensures n.Valid() && |n.instances| == r + 2 * i + 2 && |n.joints| == j0 + 2 * i + 1
    ensures n.State() == SliceStep(old(n.State()), g, r, j0, i)
  {
    var lut := n.CreateInstance(Lut2);
    var muxcy := n.CreateInstance(Muxcy);
    n.CellrefProperty(lut, "INIT", "9");
    var sel := n.CreateJoint();
    var carry := n.CreateJoint();
    n.Bind(SliceWires(g, r, j0, i));
    ghost var s := old(n.State());
    assert s.insts + [Lut2] + [Muxcy] == s.insts + [Lut2, Muxcy];
    assert s.joints + [None] + [None] == s.joints + seq(2, i => None);
  }

  /** The loop over bits 2 .. W - 1 of the device started on s0, at
      instance r and joint j0. */
  method PlaceSlices(n: Netlist, g: GeCmp, ghost s0: NetState, r: nat, j0: nat)
    requires n.Valid() && WellShaped(g) && |g.a| >= 3 && r == |s0.insts| && j0 == |s0.joints|
    requires n.State() == GeChain(s0, g, 2) && |n.instances| == r + 4 && |n.joints| == j0 + 3
    modifies n`instances, n`cellProps, n`joints, n`conns
    ensures n.Valid() && n.State() == GeChain(s0, g, |g.a|) && |n.instances| == r + 2 * |g.a|
  {
    var idx := 2;
    while idx < |g.a|
      invariant 2 <= idx <= |g.a| && n.Valid()
      invariant n.State() == GeChain(s0, g, idx)
      invariant |n.instances| == r + 2 * idx && |n.joints| + 1 == j0 + 2 * idx
    {
      ghost var p := n.State();
      PlaceSlice(n, g, r, j0, idx);
      assert n.State() == SliceStep(p, g, |s0.insts|, |s0.joints|, idx);
      idx := idx + 1;
    }
  }

  /** The head and the loop over bits 2 .. W - 1. */
  method PlaceChain(n: Netlist, g: GeCmp)
    requires n.Valid() && WellShaped(g) && |g.a| >= 3
    modifies n`instances, n`cellProps, n`joints, n`conns
    ensures n.Valid() && n.State() == GeChain(old(n.State()), g, |g.a|)
    ensures |n.instances| == |old(n.instances)| + 2 * |g.a|
  {
    ghost var s0 := n.State();
    var r, j0 := |n.instances|, |n.joints|;
    var lut := PlaceLow(n, g);
    PlaceHead(n, g, lut, j0);
    PlaceSlices(n, g, s0, r, j0);
  }

  /** virtex2_cmp_ge, with B[0] of the one-bit device on I0. */
  method MapGe(n: Netlist, g: GeCmp) returns (o: Outcome)
    requires n.Valid() && WellShaped(g)
    modifies n`instances, n`cellProps, n`joints, n`conns
    ensures n.Valid()
    ensures var st := GeStep(old(n.State()), g); o == OutcomeOf(st) && n.State() == After(st, old(n.State()))
  {
    if |g.a| == 1 {
      PlaceOneBit(n, g);
      return Done;
    }
    if |g.a| == 0 {
      return Fatal(NarrowGeReason);
    }
    if |g.a| == 2 {
      var lut := PlaceLow(n, g);
      n.AddToJoint(JointOfNexus(g.q), lut, LutO);
      return Done;
    }
    var r := |n.instances|;
    PlaceChain(n, g);
    n.AddToJoint(JointOfNexus(g.q), GeMux(r, |g.a| - 1), MuxO);
    o := Done;
  }

  /** The chain up to bit count - 1 has two instances per bit and two
      joints per bit above the first, less one, and only appended to s. */
  lemma {:induction false} ChainSize(s: NetState, g: GeCmp, count: nat)
    requires WellShaped(g) && 2 <= count <= |g.a|
    ensures var t := GeChain(s, g, count);
      |t.insts| == |s.insts| + 2 * count && |t.joints| == |s.joints| + 2 * count - 1 && Extends(s, t)
  {
    var r, j0 := |s.insts|, |s.joints|;
    if count == 2 {
      var low := LowStep(s, g);
      assert low.insts == s.insts + [Lut4] && low.props == s.props + [CellProp(r, "INIT", "F731")];
      assert low.joints == s.joints && low.conns[..|s.conns|] == s.conns;
      GrowExtends(low, [MuxcyL, Gnd, Vcc], [], 3, HeadWires(r, j0));
      assert Extends(s, low);
      ExtendsTrans(s, low, ChainHead(s, g));
    } else {
      var p := GeChain(s, g, count - 1);
      ChainSize(s, g, count - 1);
      GrowExtends(p, [Lut2, Muxcy], [CellProp(r + 2 * (count - 1), "INIT", "9")], 2, SliceWires(g, r, j0, count - 1));
      ExtendsTrans(s, p, GeChain(s, g, count));
    }
  }

  // ---------------------------------------------------------------------
  // Where the device puts things.

  /** The bindings of the inputs of the LUT4 r. */
  function LowWires(g: GeCmp, r: nat): seq<Conn>
    requires WellShaped(g) && |g.a| >= 2
  {
    [Conn(Cached(g.a[0]), CellPin(r, LutI2)), Conn(Cached(g.b[0]), CellPin(r, LutI0)),
     Conn(Cached(g.a[1]), CellPin(r, LutI3)), Conn(Cached(g.b[1]), CellPin(r, LutI1))]
  }

  /** The LUT4 of the two low bits is instance r of t, with its INIT and inputs. */
  predicate LowAt(t: NetState, g: GeCmp, r: nat)
    requires WellShaped(g) && |g.a| >= 2
  {
    r < |t.insts| && t.insts[r] == Lut4 && CellProp(r, "INIT", "F731") in t.props &&
    forall w :: w in LowWires(g, r) ==> w in t.conns
  }

  /** The head of a chain started at instance r and joint j0 is present in t. */
  predicate HeadAt(t: NetState, g: GeCmp, r: nat, j0: nat)
    requires WellShaped(g) && |g.a| >= 2
  {
    LowAt(t, g, r) && r + 3 < |t.insts| && t.insts[r + 1] == MuxcyL && t.insts[r + 2] == Gnd &&
    t.insts[r + 3] == Vcc && forall w :: w in HeadWires(r, j0) ==> w in t.conns
  }

  /** The slice of bit i >= 2 is present in t. */
  predicate SliceAt(t: NetState, g: GeCmp, r: nat, j0: nat, i: nat)
    requires WellShaped(g) && 2 <= i < |g.a|
  {
    var l := r + 2 * i;
    l + 1 < |t.insts| && t.insts[l] == Lut2 && t.insts[l + 1] == Muxcy && CellProp(l, "INIT", "9") in t.props &&
    forall w :: w in SliceWires(g, r, j0, i) ==> w in t.conns
  }

  lemma LowStepAt(s: NetState, g: GeCmp)
    requires WellShaped(g) && |g.a| >= 2
    ensures LowAt(LowStep(s, g), g, |s.insts|) && Extends(s, LowStep(s, g))
    ensures LowStep(s, g).joints == s.joints && |LowStep(s, g).insts| == |s.insts| + 1
  {
    var t, r := LowStep(s, g), |s.insts|;
    assert t.conns == s.conns + LowWires(g, r);
    assert t.props == s.props + [CellProp(r, "INIT", "F731")];
    assert t.insts == s.insts + [Lut4];
    assert t.insts[..|s.insts|] == s.insts && t.props[..|s.props|] == s.props && t.conns[..|s.conns|] == s.conns;
  }

  lemma LowAtExtends(t: NetState, u: NetState, g: GeCmp, r: nat)
    requires WellShaped(g) && |g.a| >= 2 && LowAt(t, g, r) && Extends(t, u)
    ensures LowAt(u, g, r)
  {
    assert u.insts[r] == t.insts[r];
    PropExtends(t, u, CellProp(r, "INIT", "F731"));
    ConnsExtend(t, u, LowWires(g, r));
  }

  lemma HeadAtExtends(t: NetState, u: NetState, g: GeCmp, r: nat, j0: nat)
    requires WellShaped(g) && |g.a| >= 2 && HeadAt(t, g, r, j0) && Extends(t, u)
    ensures HeadAt(u, g, r, j0)
  {
    LowAtExtends(t, u, g, r);
    assert u.insts[r + 1] == t.insts[r + 1] && u.insts[r + 2] == t.insts[r + 2] && u.insts[r + 3] == t.insts[r + 3];
    ConnsExtend(t, u, HeadWires(r, j0));
  }

  lemma SliceAtExtends(t: NetState, u: NetState, g: GeCmp, r: nat, j0: nat, i: nat)
    requires WellShaped(g) && 2 <= i < |g.a| && SliceAt(t, g, r, j0, i) && Extends(t, u)
    ensures SliceAt(u, g, r, j0, i)
  {
    var l := r + 2 * i;
    assert u.insts[l] == t.insts[l] && u.insts[l + 1] == t.insts[l + 1];
    PropExtends(t, u, CellProp(l, "INIT", "9"));
    ConnsExtend(t, u, SliceWires(g, r, j0, i));
  }

  /** The head of the chain is present in it. */
  lemma ChainHeadAt(s: NetState, g: GeCmp)
    requires WellShaped(g) && |g.a| >= 2
    ensures HeadAt(ChainHead(s, g), g, |s.insts|, |s.joints|)
  {
    var low, t, r := LowStep(s, g), ChainHead(s, g), |s.insts|;
    LowStepAt(s, g);
    GrowExtends(low, [MuxcyL, Gnd, Vcc], [], 3, HeadWires(r, |s.joints|));
    LowAtExtends(low, t, g, r);
    assert t.insts[r + 1] == MuxcyL && t.insts[r + 2] == Gnd && t.insts[r + 3] == Vcc;
  }

  /** The newest slice of GeChain(s, count) is present in it. */
  lemma NextSlice(s: NetState, g: GeCmp, count: nat)
    requires WellShaped(g) && 3 <= count <= |g.a|
    ensures SliceAt(GeChain(s, g, count), g, |s.insts|, |s.joints|, count - 1)
  {
    ChainSize(s, g, count - 1);
    SliceGrownAt(GeChain(s, g, count - 1), g, |s.insts|, |s.joints|, count - 1);
  }

  /** Each slice only appends to the chain before it. */
  lemma NextExtends(s: NetState, g: GeCmp, count: nat)
    requires WellShaped(g) && 3 <= count <= |g.a|
    ensures Extends(GeChain(s, g, count - 1), GeChain(s, g, count))
  {
    var r, i := |s.insts|, count - 1;
    GrowExtends(GeChain(s, g, i), [Lut2, Muxcy], [CellProp(r + 2 * i, "INIT", "9")], 2, SliceWires(g, r, |s.joints|, i));
  }

  /** The slice of bit i appended where the chain numbers it is present. */
  lemma SliceGrownAt(p: NetState, g: GeCmp, r: nat, j0: nat, i: nat)
    requires WellShaped(g) && 2 <= i < |g.a| && |p.insts| == r + 2 * i
    ensures SliceAt(SliceStep(p, g, r, j0, i), g, r, j0, i)
  {
    var t := SliceStep(p, g, r, j0, i);
    assert t.insts[r + 2 * i] == Lut2 && t.insts[r + 2 * i + 1] == Muxcy;
    assert t.props[|p.props|] == CellProp(r + 2 * i, "INIT", "9");
  }

  /** The head stays present as the slices are appended. */
  lemma {:induction false} HeadLayout(s: NetState, g: GeCmp, count: nat)
    requires WellShaped(g) && 2 <= count <= |g.a|
    ensures HeadAt(GeChain(s, g, count), g, |s.insts|, |s.joints|)
  {
    if count == 2 {
      ChainHeadAt(s, g);
    } else {
      HeadLayout(s, g, count - 1);
      NextExtends(s, g, count);
      HeadAtExtends(GeChain(s, g, count - 1), GeChain(s, g, count), g, |s.insts|, |s.joints|);
    }
  }

  /** Every slice made so far is present. */
  lemma {:induction false} SlicesLayout(s: NetState, g: GeCmp, count: nat)
    requires WellShaped(g) && 2 <= count <= |g.a|
    ensures forall i :: 2 <= i < count ==> SliceAt(GeChain(s, g, count), g, |s.insts|, |s.joints|, i)
  {
    if count > 2 {
      var p, t := GeChain(s, g, count - 1), GeChain(s, g, count);
      SlicesLayout(s, g, count - 1);
      NextSlice(s, g, count);
      NextExtends(s, g, count);
      forall i | 2 <= i < count - 1 ensures SliceAt(t, g, |s.insts|, |s.joints|, i) {
        SliceAtExtends(p, t, g, |s.insts|, |s.joints|, i);
      }
    }
  }

  // ---------------------------------------------------------------------
  // What the device computes.

  /** INIT "F731" on B0, B1, A0, A1 is the comparison of the two-bit values. */
  lemma GeInit(a0: bool, a1: bool, b0: bool, b1: bool)
    ensures LutOut("F731", [b0, b1, a0, a1]) == (Val([a0, a1]) >= Val([b0, b1]))
  {
    TableF731();
    LutAt4("F731", b0, b1, a0, a1);
    Val2([a0, a1]);
    Val2([b0, b1]);
  }

  /** INIT "D" on B, A is A or not B, the one-bit comparison. */
  lemma GeInit1(a: bool, b: bool)
    ensures LutOut("D", [b, a]) == (a || !b)
  {
    TableD();
    LutAt2("D", b, a);
  }

  /** With A and B reading x and y, a present LUT4 of the low bits outputs
      the comparison of their values. */
  lemma LowComputes(t: NetState, g: GeCmp, r: nat, x: seq<bool>, y: seq<bool>, jv: JointId -> bool,
                    pv: Binding -> bool)
    requires WellShaped(g) && |g.a| >= 2 && LowAt(t, g, r) && Behaves(t, jv, pv)
    requires x == Read(jv, g.a) && y == Read(jv, g.b)
    ensures pv(CellPin(r, LutO)) == (Val(x[..2]) >= Val(y[..2]))
  {
    var ws := LowWires(g, r);
    WiredPart(t, ws, jv, pv);
    LowPins(g, r, ws, jv, pv);
    assert LutHolds(t.insts[r], r, "F731", pv);
    LowLut(r, x, y, pv);
  }

  lemma LowPins(g: GeCmp, r: nat, ws: seq<Conn>, jv: JointId -> bool, pv: Binding -> bool)
    requires WellShaped(g) && |g.a| >= 2 && ws == LowWires(g, r) && Wired(ws, jv, pv)
    ensures pv(CellPin(r, LutI0)) == jv(Cached(g.b[0])) && pv(CellPin(r, LutI1)) == jv(Cached(g.b[1]))
    ensures pv(CellPin(r, LutI2)) == jv(Cached(g.a[0])) && pv(CellPin(r, LutI3)) == jv(Cached(g.a[1]))
  {
    assert ws[0] in ws && ws[1] in ws && ws[2] in ws && ws[3] in ws;
  }

  /** A LUT4 "F731" with inputs B0, B1, A0, A1 outputs x[..2] >= y[..2]. */
  lemma LowLut(r: nat, x: seq<bool>, y: seq<bool>, pv: Binding -> bool)
    requires |x| >= 2 && |y| >= 2 && LutHolds(Lut4, r, "F731", pv)
    requires pv(CellPin(r, LutI0)) == y[0] && pv(CellPin(r, LutI1)) == y[1]
    requires pv(CellPin(r, LutI2)) == x[0] && pv(CellPin(r, LutI3)) == x[1]
    ensures pv(CellPin(r, LutO)) == (Val(x[..2]) >= Val(y[..2]))
  {
    Lut4Pins(r, "F731", y[0], y[1], x[0], x[1], pv);
    GeInit(x[0], x[1], y[0], y[1]);
    assert x[..2] == [x[0], x[1]] && y[..2] == [y[0], y[1]];
  }

  /** The MUXCY_L of a present head passes the low comparison on: its DI
      is 0 and its CI 1. */
  lemma HeadComputes(t: NetState, g: GeCmp, r: nat, j0: nat, x: seq<bool>, y: seq<bool>, jv: JointId -> bool,
                     pv: Binding -> bool)
    requires WellShaped(g) && |g.a| >= 2 && HeadAt(t, g, r, j0) && Behaves(t, jv, pv)
    requires x == Read(jv, g.a) && y == Read(jv, g.b)
    ensures pv(CellPin(GeMux(r, 1), MuxO)) == (Val(x[..2]) >= Val(y[..2]))
  {
    LowComputes(t, g, r, x, y, jv, pv);
    var ws := HeadWires(r, j0);
    WiredPart(t, ws, jv, pv);
    assert ws[0] in ws && ws[1] in ws && ws[2] in ws && ws[3] in ws && ws[4] in ws && ws[5] in ws;
    assert CellHolds(t.insts[r + 1], r + 1, pv) && CellHolds(t.insts[r + 2], r + 2, pv);
    assert CellHolds(t.insts[r + 3], r + 3, pv);
  }

  /** The output of a present slice of bit i: where A[i] and B[i] agree the
      comparison from below, where they differ A[i]. */
  predicate SliceEqn(g: GeCmp, r: nat, i: nat, x: seq<bool>, y: seq<bool>, pv: Binding -> bool)
    requires WellShaped(g) && 2 <= i < |g.a| && |x| == |g.a| && |y| == |g.a|
  {
    pv(CellPin(GeMux(r, i), MuxO)) == (if x[i] == y[i] then pv(CellPin(GeMux(r, i - 1), MuxO)) else x[i])
  }

  /** The pins of the slice of bit i carry the values of their joints. */
  lemma SlicePins(g: GeCmp, r: nat, j0: nat, i: nat, ws: seq<Conn>, jv: JointId -> bool, pv: Binding -> bool)
    requires WellShaped(g) && 2 <= i < |g.a| && ws == SliceWires(g, r, j0, i) && Wired(ws, jv, pv)
    ensures var l := r + 2 * i;
      pv(CellPin(l, LutO)) == pv(CellPin(l + 1, MuxS)) && pv(CellPin(l + 1, MuxCI)) == pv(CellPin(GeMux(r, i - 1), MuxO)) &&
      pv(CellPin(l, LutI0)) == jv(Cached(g.a[i])) && pv(CellPin(l + 1, MuxDI)) == jv(Cached(g.a[i])) &&
      pv(CellPin(l, LutI1)) == jv(Cached(g.b[i]))
  {
    assert ws[0] in ws && ws[1] in ws && ws[2] in ws && ws[3] in ws;
    assert ws[4] in ws && ws[5] in ws && ws[6] in ws;
  }

  lemma SliceComputes(t: NetState, g: GeCmp, r: nat, j0: nat, i: nat, x: seq<bool>, y: seq<bool>,
                      jv: JointId -> bool, pv: Binding -> bool)
    requires WellShaped(g) && 2 <= i < |g.a| && SliceAt(t, g, r, j0, i) && Behaves(t, jv, pv)
    requires x == Read(jv, g.a) && y == Read(jv, g.b)
    ensures SliceEqn(g, r, i, x, y, pv)
  {
    var l, ws := r + 2 * i, SliceWires(g, r, j0, i);
    WiredPart(t, ws, jv, pv);
    SlicePins(g, r, j0, i, ws, jv, pv);
    SliceHolds(t, g, r, j0, i, pv);
    SliceMux(l, x[i], y[i], pv(CellPin(GeMux(r, i - 1), MuxO)), pv);
    assert GeMux(r, i) == l + 1;
  }

  lemma SliceHolds(t: NetState, g: GeCmp, r: nat, j0: nat, i: nat, pv: Binding -> bool)
    requires WellShaped(g) && 2 <= i < |g.a| && SliceAt(t, g, r, j0, i) && CellsHold(t.insts, t.props, pv)
    ensures LutHolds(Lut2, r + 2 * i, "9", pv) && CellHolds(Muxcy, r + 2 * i + 1, pv)
  {
    var l := r + 2 * i;
    assert LutHolds(t.insts[l], l, "9", pv) && CellHolds(t.insts[l + 1], l + 1, pv);
  }

  /** A LUT2 "9" at l on the select of the MUXCY l + 1 whose DI is a:
      the MUXCY passes c on where a and b agree and a where they differ. */
  lemma SliceMux(l: nat, a: bool, b: bool, c: bool, pv: Binding -> bool)
    requires LutHolds(Lut2, l, "9", pv) && CellHolds(Muxcy, l + 1, pv)
    requires pv(CellPin(l, LutO)) == pv(CellPin(l + 1, MuxS)) && pv(CellPin(l + 1, MuxCI)) == c
    requires pv(CellPin(l, LutI0)) == a && pv(CellPin(l + 1, MuxDI)) == a && pv(CellPin(l, LutI1)) == b
    ensures pv(CellPin(l + 1, MuxO)) == (if a == b then c else a)
  {
    Lut2Pins(l, "9", a, b, pv);
    Table9();
    LutAt2("9", a, b);
  }

  /** Appending a top bit: the wider values compare as the top bits do
      where those differ, and as the narrower values where they agree. */
  lemma GeSnoc(x: seq<bool>, y: seq<bool>, i: nat)
    requires i < |x| && |y| == |x|
    ensures (Val(x[..i + 1]) >= Val(y[..i + 1])) == (if x[i] == y[i] then Val(x[..i]) >= Val(y[..i]) else x[i])
  {
    assert x[..i + 1] == x[..i] + [x[i]] && y[..i + 1] == y[..i] + [y[i]];
    ValSnoc(x[..i], x[i]);
    ValSnoc(y[..i], y[i]);
  }

  /** The carry multiplexer of bit k outputs the comparison of bits 0 .. k. */
  lemma {:induction false} ChainGe(g: GeCmp, r: nat, k: nat, x: seq<bool>, y: seq<bool>, pv: Binding -> bool)
    requires WellShaped(g) && 1 <= k < |g.a| && |x| == |g.a| && |y| == |g.a|
    requires pv(CellPin(GeMux(r, 1), MuxO)) == (Val(x[..2]) >= Val(y[..2]))
    requires forall i :: 2 <= i <= k ==> SliceEqn(g, r, i, x, y, pv)
    ensures pv(CellPin(GeMux(r, k), MuxO)) == (Val(x[..k + 1]) >= Val(y[..k + 1]))
  {
    if k >= 2 {
      ChainGe(g, r, k - 1, x, y, pv);
      assert SliceEqn(g, r, k, x, y, pv);
      GeSnoc(x, y, k);
    }
  }

  lemma WideComputes(s: NetState, g: GeCmp, jv: JointId -> bool, pv: Binding -> bool)
    requires WellShaped(g) && |g.a| >= 3 && Behaves(WideStep(s, g), jv, pv)
    ensures jv(Cached(g.q)) == (Val(Read(jv, g.a)) >= Val(Read(jv, g.b)))
  {
    WideLaidOut(s, g);
    ChainEqns(WideStep(s, g), g, |s.insts|, |s.joints|, jv, pv);
  }

  /** A wide device holds its chain and binds Q[0] to the top MUXCY. */
  lemma WideLaidOut(s: NetState, g: GeCmp)
    requires WellShaped(g) && |g.a| >= 3
    ensures ChainAt(WideStep(s, g), g, |s.insts|, |s.joints|)
    ensures Conn(Cached(g.q), CellPin(GeMux(|s.insts|, |g.a| - 1), MuxO)) in WideStep(s, g).conns
  {
    var u, t := WideChain(s, g), WideStep(s, g);
    ChainLaidOut(s, g);
    ExtendsConn(u, Cached(g.q), GeMux(|s.insts|, |g.a| - 1), MuxO);
    ChainAtExtends(u, t, g, |s.insts|, |s.joints|);
    assert t.conns[|u.conns|] == Conn(Cached(g.q), CellPin(GeMux(|s.insts|, |g.a| - 1), MuxO));
  }

  /** The head and the slices stay present as the netlist grows. */
  lemma ChainAtExtends(t: NetState, u: NetState, g: GeCmp, r: nat, j0: nat)
    requires WellShaped(g) && |g.a| >= 2 && ChainAt(t, g, r, j0) && Extends(t, u)
    ensures ChainAt(u, g, r, j0)
  {
    HeadAtExtends(t, u, g, r, j0);
    forall i | 2 <= i < |g.a| ensures SliceAt(u, g, r, j0, i) {
      SliceAtExtends(t, u, g, r, j0, i);
    }
  }

  /** The head and every slice of a wide chain are present in it. */
  predicate ChainAt(u: NetState, g: GeCmp, r: nat, j0: nat)
    requires WellShaped(g) && |g.a| >= 2
  {
    HeadAt(u, g, r, j0) && forall i :: 2 <= i < |g.a| ==> SliceAt(u, g, r, j0, i)
  }

  lemma ChainLaidOut(s: NetState, g: GeCmp)
    requires WellShaped(g) && |g.a| >= 3
    ensures ChainAt(WideChain(s, g), g, |s.insts|, |s.joints|)
  {
    HeadLayout(s, g, |g.a|);
    SlicesLayout(s, g, |g.a|);
  }

  /** In a netlist holding a wide chain, the top carry multiplexer outputs
      A >= B. */
  lemma ChainEqns(u: NetState, g: GeCmp, r: nat, j0: nat, jv: JointId -> bool, pv: Binding -> bool)
    requires WellShaped(g) && |g.a| >= 3
    ensures ChainAt(u, g, r, j0) && Behaves(u, jv, pv) ==>
      pv(CellPin(GeMux(r, |g.a| - 1), MuxO)) == (Val(Read(jv, g.a)) >= Val(Read(jv, g.b)))
  {
    if ChainAt(u, g, r, j0) && Behaves(u, jv, pv) {
      ChainHolds(u, g, r, j0, jv, pv);
    }
  }

  lemma ChainHolds(u: NetState, g: GeCmp, r: nat, j0: nat, jv: JointId -> bool, pv: Binding -> bool)
    requires WellShaped(g) && |g.a| >= 3 && ChainAt(u, g, r, j0) && Behaves(u, jv, pv)
    ensures pv(CellPin(GeMux(r, |g.a| - 1), MuxO)) == (Val(Read(jv, g.a)) >= Val(Read(jv, g.b)))
  {
    var x, y := Read(jv, g.a), Read(jv, g.b);
    HeadComputes(u, g, r, j0, x, y, jv, pv);
    forall i | 2 <= i <= |g.a| - 1 ensures SliceEqn(g, r, i, x, y, pv) {
      SliceComputes(u, g, r, j0, i, x, y, jv, pv);
    }
    TopGe(g, r, x, y, pv);
  }

  /** The top carry multiplexer outputs the comparison of the whole values. */
  lemma TopGe(g: GeCmp, r: nat, x: seq<bool>, y: seq<bool>, pv: Binding -> bool)
    requires WellShaped(g) && |g.a| >= 3 && |x| == |g.a| && |y| == |g.a|
    requires pv(CellPin(GeMux(r, 1), MuxO)) == (Val(x[..2]) >= Val(y[..2]))
    requires forall i :: 2 <= i <= |g.a| - 1 ==> SliceEqn(g, r, i, x, y, pv)
    ensures pv(CellPin(GeMux(r, |g.a| - 1), MuxO)) == (Val(x) >= Val(y))
  {
    var k := |g.a| - 1;
    ChainGe(g, r, k, x, y, pv);
    assert x[..k + 1] == x && y[..k + 1] == y;
  }

  lemma TwoBitComputes(s: NetState, g: GeCmp, jv: JointId -> bool, pv: Binding -> bool)
    requires WellShaped(g) && |g.a| == 2 && Behaves(WithConn(LowStep(s, g), Cached(g.q), |s.insts|, LutO), jv, pv)
    ensures jv(Cached(g.q)) == (Val(Read(jv, g.a)) >= Val(Read(jv, g.b)))
  {
    var low, r, x, y := LowStep(s, g), |s.insts|, Read(jv, g.a), Read(jv, g.b);
    var t := WithConn(low, Cached(g.q), r, LutO);
    LowStepAt(s, g);
    ExtendsConn(low, Cached(g.q), r, LutO);
    LowAtExtends(low, t, g, r);
    assert t.conns[|low.conns|] in t.conns;
    LowComputes(t, g, r, x, y, jv, pv);
    assert x[..2] == x && y[..2] == y;
  }

  /** A one-bit device outputs its LUT2's table at [I0, A[0]]. */
  lemma OneBitOutput(s: NetState, g: GeCmp, bpin: Pin, jv: JointId -> bool, pv: Binding -> bool)
    requires WellShaped(g) && |g.a| == 1 && Behaves(OneBitStepWith(s, g, bpin), jv, pv)
    ensures jv(Cached(g.q)) == LutOut("D", [pv(CellPin(|s.insts|, LutI0)), jv(Cached(g.a[0]))])
    ensures pv(CellPin(|s.insts|, bpin)) == jv(Cached(g.b[0]))
  {
    var t, r, n := OneBitStepWith(s, g, bpin), |s.insts|, |s.conns|;
    assert t.conns[n] in t.conns && t.conns[n + 1] in t.conns && t.conns[n + 2] in t.conns;
    assert t.props[|s.props|] in t.props;
    assert LutHolds(t.insts[r], r, "D", pv);
  }

  lemma OneBitComputes(s: NetState, g: GeCmp, jv: JointId -> bool, pv: Binding -> bool)
    requires WellShaped(g) && |g.a| == 1 && Behaves(OneBitStepWith(s, g, LutI0), jv, pv)
    ensures jv(Cached(g.q)) == (Val(Read(jv, g.a)) >= Val(Read(jv, g.b)))
  {
    OneBitOutput(s, g, LutI0, jv, pv);
    GeInit1(jv(Cached(g.a[0])), jv(Cached(g.b[0])));
    Val1(Read(jv, g.a));
    Val1(Read(jv, g.b));
  }

  /** The hook implements CMP_GE: under every valuation consistent with the
      netlist it leaves, Q[0] is A >= B. */
  lemma GeComputes(s: NetState, g: GeCmp, jv: JointId -> bool, pv: Binding -> bool)
    requires WellShaped(g) && |g.a| >= 1 && Behaves(GeStep(s, g).after, jv, pv)
    ensures jv(Cached(g.q)) == (Val(Read(jv, g.a)) >= Val(Read(jv, g.b)))
  {
    if |g.a| == 1 {
      OneBitComputes(s, g, jv, pv);
    } else if |g.a| == 2 {
      TwoBitComputes(s, g, jv, pv);
    } else {
      WideComputes(s, g, jv, pv);
    }
  }

  /** A valuation with every joint 0 and only pin I0 of instance 0 at 1. */
  function AllLow(j: JointId): bool
  {
    false
  }

  function OnlyI0(b: Binding): bool
  {
    b == CellPin(0, LutI0)
  }

  /** As written, a one-bit device leaves I0 of its LUT2 unbound, so Q[0]
      follows a floating input: for A = B = 0 on a fresh netlist, the
      valuation with I0 at 1 is consistent with the netlist and gives
      Q[0] = 0 although A >= B. */
  lemma OneBitAsWrittenWrong()
    ensures var g := GeCmp(0, [1], [2]);
      var t := GeStepAsWritten(NetState([], [], [], []), g).after;
      Behaves(t, AllLow, OnlyI0) && Val(Read(AllLow, g.a)) >= Val(Read(AllLow, g.b)) && !AllLow(Cached(g.q))
  {
    var g := GeCmp(0, [1], [2]);
    var t := GeStepAsWritten(NetState([], [], [], []), g).after;
    assert t.insts == [Lut2] && t.props == [CellProp(0, "INIT", "D")];
    assert t.conns == [Conn(Cached(0), CellPin(0, LutO)), Conn(Cached(1), CellPin(0, LutI1)),
                       Conn(Cached(2), CellPin(0, LutI2))];
    GeInit1(false, true);
    assert LutInputs(Lut2, 0, OnlyI0) == [true, false];
    Val1(Read(AllLow, g.a));
    Val1(Read(AllLow, g.b));
  }
}
