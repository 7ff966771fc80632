/** virtex_eq: CMP_EQ and CMP_NE of W-bit vectors.

    A one-bit comparator is a LUT2 and a two-bit one a LUT4. A wider one is
    a carry chain: bits 2k and 2k + 1 go to a LUT4 (a trailing single bit to
    a LUT2) that computes their equality and drives the select of a MUXCY.
    Every MUXCY takes DI from one shared joint driven by a constant, 0 for
    EQ and 1 for NE; the lowest one takes CI from the other constant and
    each higher one from the output of the one below. The top MUXCY drives
    Q[0]. The LUTs always compute equality; NE swaps the two constants. */
module EqCompare {
  import opened Wrappers
  import opened Bits
  import opened TruthTable
  import opened Inits
  import opened Edif
  import opened Circuit

  const NarrowEqReason := "an equality comparator is at least one bit wide"

  datatype EqOp = Eq | Ne

  /** A CMP_EQ or CMP_NE LPM: the output Q[0] and the operands A and B. */
  datatype EqCmp = EqCmp(op: EqOp, q: Nexus, a: seq<Nexus>, b: seq<Nexus>)

  predicate WellShaped(e: EqCmp)
  {
    |e.b| == |e.a|
  }

  /** The INIT of a one-bit comparator: XNOR for EQ, XOR for NE. */
  function NarrowInit(op: EqOp): string
  {
    if op == Eq then "9" else "6"
  }

  /** The INIT of a two-bit comparator with I0..I3 = A0, B0, A1, B1. */
  function TwoBitInit(op: EqOp): string
  {
    if op == Eq then "9009" else "6FF6"
  }

  /** The constant on the DI input of every MUXCY. */
  function DiCell(op: EqOp): CellKind
  {
    if op == Eq then Gnd else Vcc
  }

  /** The constant on the CI input of the lowest MUXCY. */
  function CiCell(op: EqOp): CellKind
  {
    if op == Eq then Vcc else Gnd
  }

  /** The number of MUXCYs of a wide comparator: one per pair of bits. */
  function Pairs(e: EqCmp): (p: nat)
    ensures |e.a| <= 2 * p <= |e.a| + 1
  {
    HalfUp(|e.a|)
  }

  /** n / 2 rounded up, counted out by twos. */
  function HalfUp(n: nat): (h: nat)
    ensures n <= 2 * h <= n + 1
  {
    if n == 0 then 0 else if n == 1 then 1 else HalfUp(n - 2) + 1
  }

  /** Pair k holds two bits, except a trailing single bit. */
  predicate Full(e: EqCmp, k: nat)
  {
    2 * k + 1 < |e.a|
  }

  function PairCell(e: EqCmp, k: nat): CellKind
  {
    if Full(e, k) then Lut4 else Lut2
  }

  function PairInit(e: EqCmp, k: nat): string
  {
    if Full(e, k) then "9009" else "9"
  }

  /** The instance number of pair k's MUXCY when the device starts at r:
      the DI constant is r, pair 0 has its MUXCY, LUT and CI constant at
      r + 1 .. r + 3, pair k >= 1 its MUXCY and LUT at r + 2k + 2, r + 2k + 3. */
  function MuxAt(r: nat, k: nat): nat
  {
    if k == 0 then r + 1 else r + 2 * k + 2
  }

  /** The joints of pair k when the device's joints start at j0: the DI
      joint is j0, pair k has its select joint at j0 + 2k + 1 and its carry
      joint at j0 + 2k + 2. */
  function SelJoint(j0: nat, k: nat): JointId
  {
    Internal(j0 + 2 * k + 1)
  }

  function CarryJoint(j0: nat, k: nat): JointId
  {
    Internal(j0 + 2 * k + 2)
  }

  /** One-bit device: a LUT2 from A[0] and B[0] to Q[0]. */
  function OneBitStep(s: NetState, e: EqCmp): NetState
    requires WellShaped(e) && |e.a| == 1
  {
    var r := |s.insts|;
    var s1 := WithProp(WithInstance(s, Lut2), r, "INIT", NarrowInit(e.op));
    WithConn(WithConn(WithConn(s1, Cached(e.q), r, LutO), Cached(e.a[0]), r, LutI0), Cached(e.b[0]), r, LutI1)
  }

  /** Two-bit device: a LUT4 with I0..I3 = A0, B0, A1, B1. */
  function TwoBitStep(s: NetState, e: EqCmp): NetState
    requires WellShaped(e) && |e.a| == 2
  {
    var r := |s.insts|;
    var s1 := WithProp(WithInstance(s, Lut4), r, "INIT", TwoBitInit(e.op));
    var s2 := WithConn(WithConn(WithConn(s1, Cached(e.q), r, LutO), Cached(e.a[0]), r, LutI0), Cached(e.b[0]), r, LutI1);
    WithConn(WithConn(s2, Cached(e.a[1]), r, LutI2), Cached(e.b[1]), r, LutI3)
  }

  /** The bindings of pair k's LUT, whose select joint is sel. */
  function LutWires(e: EqCmp, k: nat, m: nat, sel: JointId): seq<Conn>
    requires WellShaped(e) && 2 * k < |e.a|
  {
    var i := 2 * k;
    if Full(e, k) then
      [Conn(sel, CellPin(m + 1, LutO)), Conn(sel, CellPin(m, MuxS)),
       Conn(Cached(e.a[i]), CellPin(m + 1, LutI0)), Conn(Cached(e.b[i]), CellPin(m + 1, LutI1)),
       Conn(Cached(e.a[i + 1]), CellPin(m + 1, LutI2)), Conn(Cached(e.b[i + 1]), CellPin(m + 1, LutI3))]
    else
      [Conn(sel, CellPin(m + 1, LutO)), Conn(sel, CellPin(m, MuxS)),
       Conn(Cached(e.a[i]), CellPin(m + 1, LutI0)), Conn(Cached(e.b[i]), CellPin(m + 1, LutI1))]
  }

  /** The bindings of pair k's MUXCY inputs DI and CI: pair 0 ties CI to
      the CI constant at r + 3, pair k >= 1 to the MUXCY below. */
  function MuxWires(r: nat, j0: nat, k: nat): seq<Conn>
  {
    var m, carry := MuxAt(r, k), CarryJoint(j0, k);
    if k == 0 then
      [Conn(Internal(j0), CellPin(m, MuxDI)), Conn(carry, CellPin(r + 3, Port(0))), Conn(carry, CellPin(m, MuxCI))]
    else
      [Conn(Internal(j0), CellPin(m, MuxDI)), Conn(carry, CellPin(m, MuxCI)), Conn(carry, CellPin(MuxAt(r, k - 1), MuxO))]
  }

  /** All bindings of pair k, in the order virtex_eq makes them; pair 0
      starts with the binding of the DI constant r to the DI joint j0. */
  function PairWires(e: EqCmp, r: nat, j0: nat, k: nat): seq<Conn>
    requires WellShaped(e) && 2 * k < |e.a|
  {
    (if k == 0 then [Conn(Internal(j0), CellPin(r, Port(0)))] else []) +
    LutWires(e, k, MuxAt(r, k), SelJoint(j0, k)) + MuxWires(r, j0, k)
  }

  /** The cells of pair k; pair 0 also has the two constants. */
  function PairCells(e: EqCmp, k: nat): seq<CellKind>
  {
    if k == 0 then [DiCell(e.op), Muxcy, PairCell(e, 0), CiCell(e.op)] else [Muxcy, PairCell(e, k)]
  }

  /** Pair k of the device whose instances start at r and joints at j0. */
  function PairStep(s: NetState, e: EqCmp, r: nat, j0: nat, k: nat): NetState
    requires WellShaped(e) && 2 * k < |e.a|
  {
    Grow(s, PairCells(e, k), [CellProp(MuxAt(r, k) + 1, "INIT", PairInit(e, k))], if k == 0 then 3 else 2,
         PairWires(e, r, j0, k))
  }

  /** The first count pairs of a wide device started on s. */
  function PairSteps(s: NetState, e: EqCmp, count: nat): NetState
    requires WellShaped(e) && 1 <= count <= Pairs(e)
  {
    if count == 1 then PairStep(s, e, |s.insts|, |s.joints|, 0)
    else PairStep(PairSteps(s, e, count - 1), e, |s.insts|, |s.joints|, count - 1)
  }

  /** A wide device: the pairs, then Q[0] on the top MUXCY. */
  function WideStep(s: NetState, e: EqCmp): NetState
    requires WellShaped(e) && |e.a| >= 3
  {
    WithConn(PairSteps(s, e, Pairs(e)), Cached(e.q), MuxAt(|s.insts|, Pairs(e) - 1), MuxO)
  }

  /** virtex_eq. */
  function EqStep(s: NetState, e: EqCmp): Step
    requires WellShaped(e)
  {
    if |e.a| == 0 then Abort(NarrowEqReason)
    else if |e.a| == 1 then Emit(OneBitStep(s, e))
    else if |e.a| == 2 then Emit(TwoBitStep(s, e))
    else Emit(WideStep(s, e))
  }

  // ---------------------------------------------------------------------
  // The hook.

  method PlaceOneBit(n: Netlist, e: EqCmp)
    requires n.Valid() && WellShaped(e) && |e.a| == 1
    modifies n`instances, n`cellProps, n`conns
    ensures n.Valid() && n.State() == OneBitStep(old(n.State()), e)
  {
    var lut := n.CreateInstance(Lut2);
    n.CellrefProperty(lut, "INIT", NarrowInit(e.op));
    n.AddToJoint(JointOfNexus(e.q), lut, LutO);
    n.AddToJoint(JointOfNexus(e.a[0]), lut, LutI0);
    n.AddToJoint(JointOfNexus(e.b[0]), lut, LutI1);
  }

  method PlaceTwoBit(n: Netlist, e: EqCmp)
    requires n.Valid() && WellShaped(e) && |e.a| == 2
    modifies n`instances, n`cellProps, n`conns
    ensures n.Valid() && n.State() == TwoBitStep(old(n.State()), e)
  {
    var lut := n.CreateInstance(Lut4);
    n.CellrefProperty(lut, "INIT", TwoBitInit(e.op));
    n.AddToJoint(JointOfNexus(e.q), lut, LutO);
    n.AddToJoint(JointOfNexus(e.a[0]), lut, LutI0);
    n.AddToJoint(JointOfNexus(e.b[0]), lut, LutI1);
    n.AddToJoint(JointOfNexus(e.a[1]), lut, LutI2);
    n.AddToJoint(JointOfNexus(e.b[1]), lut, LutI3);
  }

  /** The DI constant and its joint, then pair 0, whose CI comes from a
      constant; returns the pair's MUXCY. */
  method PlaceHead(n: Netlist, e: EqCmp) returns (mux: nat)
    requires n.Valid() && WellShaped(e) && |e.a| >= 3
    modifies n`instances, n`cellProps, n`joints, n`conns
    ensures n.Valid() && mux == |old(n.instances)| + 1
    ensures |n.instances| == |old(n.instances)| + 4 && |n.joints| == |old(n.joints)| + 3
    ensures n.State() == PairStep(old(n.State()), e, |old(n.instances)|, |old(n.joints)|, 0)
  {
    var di := n.CreateInstance(DiCell(e.op));
    var jdi := n.CreateJoint();
    mux := n.CreateInstance(Muxcy);
    var lut := n.CreateInstance(PairCell(e, 0));
    n.CellrefProperty(lut, "INIT", PairInit(e, 0));
    var ci := n.CreateInstance(CiCell(e.op));
    var sel := n.CreateJoint();
    var carry := n.CreateJoint();
    PairWithin(e, di, jdi.index, 0);
    n.Bind(PairWires(e, di, jdi.index, 0));
    PairStepIs(old(n.State()), e, di, jdi.index, 0);
  }

  /** One iteration k >= 1 of the pair loop, its CI coming from the MUXCY
      of pair k - 1. */
  method PlacePair(n: Netlist, e: EqCmp, r: nat, j0: nat, k: nat)
    requires n.Valid() && WellShaped(e) && 1 <= k && 2 * k < |e.a|
    requires |n.instances| == MuxAt(r, k) && |n.joints| == j0 + 2 * k + 1
    modifies n`instances, n`cellProps, n`joints, n`conns
    ensures n.Valid() && |n.instances| == MuxAt(r, k + 1) && |n.joints| == j0 + 2 * k + 3
    ensures n.State() == PairStep(old(n.State()), e, r, j0, k)
  {
    var mux := n.CreateInstance(Muxcy);
    var lut := n.CreateInstance(PairCell(e, k));
    n.CellrefProperty(lut, "INIT", PairInit(e, k));
    var sel := n.CreateJoint();
    var carry := n.CreateJoint();
    PairWithin(e, r, j0, k);
    n.Bind(PairWires(e, r, j0, k));
    PairStepIs(old(n.State()), e, r, j0, k);
  }

  /** The pair loop: pair k covers bits 2k and 2k + 1, and the loop runs
      while 2k < W, that is while k < Pairs(e). */
  method PlacePairs(n: Netlist, e: EqCmp)
    requires n.Valid() && WellShaped(e) && |e.a| >= 3
    modifies n`instances, n`cellProps, n`joints, n`conns
    ensures n.Valid() && n.State() == PairSteps(old(n.State()), e, Pairs(e))
  {
    ghost var s0 := n.State();
    var r, j0 := |n.instances|, |n.joints|;
    assert r == |s0.insts| && j0 == |s0.joints|;
    var mux := PlaceHead(n, e);
    assert n.State() == PairSteps(s0, e, 1);
    var k, np := 1, Pairs(e);
    while k < np
      invariant 1 <= k <= np && n.Valid()
      invariant n.State() == PairSteps(s0, e, k)
      invariant |n.instances| == MuxAt(r, k) && |n.joints| == j0 + 2 * k + 1
    {
      PlaceNextPair(n, e, s0, r, j0, k);
      k := k + 1;
    }
  }

  /** The body of the pair loop: one more pair of the device started on s0. */
  method PlaceNextPair(n: Netlist, e: EqCmp, ghost s0: NetState, r: nat, j0: nat, k: nat)
    requires n.Valid() && WellShaped(e) && 1 <= k < Pairs(e) && r == |s0.insts| && j0 == |s0.joints|
    requires n.State() == PairSteps(s0, e, k) && |n.instances| == MuxAt(r, k) && |n.joints| == j0 + 2 * k + 1
    modifies n`instances, n`cellProps, n`joints, n`conns
    ensures n.Valid() && n.State() == PairSteps(s0, e, k + 1)
    ensures |n.instances| == MuxAt(r, k + 1) && |n.joints| == j0 + 2 * k + 3
  {
    ghost var p := n.State();
    PlacePair(n, e, r, j0, k);
    assert n.State() == PairStep(p, e, r, j0, k);
  }

  /** The pair loop and the final binding of Q[0] to the top MUXCY. */
  method PlaceWide(n: Netlist, e: EqCmp)
    requires n.Valid() && WellShaped(e) && |e.a| >= 3
    modifies n`instances, n`cellProps, n`joints, n`conns
    ensures n.Valid() && n.State() == WideStep(old(n.State()), e)
  {
    var r := |n.instances|;
    PlacePairs(n, e);
    PairsSize(old(n.State()), e, Pairs(e));
    n.AddToJoint(JointOfNexus(e.q), MuxAt(r, Pairs(e) - 1), MuxO);
  }

  /** virtex_eq. */
  method MapEq(n: Netlist, e: EqCmp) returns (o: Outcome)
    requires n.Valid() && WellShaped(e)
    modifies n`instances, n`cellProps, n`joints, n`conns
    ensures n.Valid()
    ensures var st := EqStep(old(n.State()), e); o == OutcomeOf(st) && n.State() == After(st, old(n.State()))
  {
    if |e.a| == 0 {
      return Fatal(NarrowEqReason);
    }
    if |e.a| == 1 {
      PlaceOneBit(n, e);
    } else if |e.a| == 2 {
      PlaceTwoBit(n, e);
    } else {
      PlaceWide(n, e);
    }
    o := Done;
  }

  /** The bindings of pair k name only its own cells, the MUXCY below and
      its joints. */
  lemma PairWithin(e: EqCmp, r: nat, j0: nat, k: nat)
    requires WellShaped(e) && 2 * k < |e.a|
    ensures PinsWithin(PairWires(e, r, j0, k), j0 + 2 * k + 3, MuxAt(r, k) + (if k == 0 then 3 else 2))
  {
  }

  /** The calls PlacePair makes append what PairStep says; the C code
      interleaves joint creation and bindings, which leaves the same state. */
  lemma PairStepIs(s: NetState, e: EqCmp, r: nat, j0: nat, k: nat)
    requires WellShaped(e) && 2 * k < |e.a|
    ensures var m := MuxAt(r, k);
      var head := if k == 0 then WithJoint(WithInstance(s, DiCell(e.op))) else s;
      var s1 := WithProp(WithInstance(WithInstance(head, Muxcy), PairCell(e, k)), m + 1, "INIT", PairInit(e, k));
      var s2 := if k == 0 then WithInstance(s1, CiCell(e.op)) else s1;
      WithConns(WithJoint(WithJoint(s2)), PairWires(e, r, j0, k)) == PairStep(s, e, r, j0, k)
  {
    assert s.insts + [DiCell(e.op)] + [Muxcy] + [PairCell(e, 0)] + [CiCell(e.op)] == s.insts + PairCells(e, 0);
    assert s.insts + [Muxcy] + [PairCell(e, k)] == s.insts + [Muxcy, PairCell(e, k)];
    assert s.joints + [None] + [None] + [None] == s.joints + seq(3, i => None);
    assert s.joints + [None] + [None] == s.joints + seq(2, i => None);
  }

  /** After count pairs the device has 2 * count + 2 instances and
      2 * count + 1 joints, and only appended to s. */
  lemma {:induction false} PairsSize(s: NetState, e: EqCmp, count: nat)
    requires WellShaped(e) && 1 <= count <= Pairs(e)
    ensures var t := PairSteps(s, e, count);
      |t.insts| == MuxAt(|s.insts|, count) && |t.joints| == |s.joints| + 2 * count + 1 &&
      |t.props| == |s.props| + count && Extends(s, t)
  {
    var r, j0 := |s.insts|, |s.joints|;
    if count == 1 {
      GrowExtends(s, PairCells(e, 0), [CellProp(MuxAt(r, 0) + 1, "INIT", PairInit(e, 0))], 3, PairWires(e, r, j0, 0));
    } else {
      var p := PairSteps(s, e, count - 1);
      PairsSize(s, e, count - 1);
      GrowExtends(p, PairCells(e, count - 1), [CellProp(MuxAt(r, count - 1) + 1, "INIT", PairInit(e, count - 1))], 2,
                  PairWires(e, r, j0, count - 1));
      ExtendsTrans(s, p, PairSteps(s, e, count));
    }
  }

  // ---------------------------------------------------------------------
  // Where the wide device puts things.

  /** Pair k of a device started at instance r and joint j0 is present in
      t: its cells at their numbers, the INIT of its LUT and its bindings;
      pair 0 also has the two constants. */
  predicate PairAt(t: NetState, e: EqCmp, r: nat, j0: nat, k: nat)
    requires WellShaped(e) && 2 * k < |e.a|
  {
    var m := MuxAt(r, k);
    m + 1 < |t.insts| && t.insts[m] == Muxcy && t.insts[m + 1] == PairCell(e, k) &&
    (k == 0 ==> r + 3 < |t.insts| && t.insts[r] == DiCell(e.op) && t.insts[r + 3] == CiCell(e.op)) &&
    CellProp(m + 1, "INIT", PairInit(e, k)) in t.props &&
    Present(PairWires(e, r, j0, k), t.conns)
  }

  /** A pair stays present as the netlist grows. */
  lemma PairAtExtends(t: NetState, u: NetState, e: EqCmp, r: nat, j0: nat, k: nat)
    requires WellShaped(e) && 2 * k < |e.a| && PairAt(t, e, r, j0, k) && Extends(t, u)
    ensures PairAt(u, e, r, j0, k)
  {
    var m := MuxAt(r, k);
    assert u.insts[m] == t.insts[m] && u.insts[m + 1] == t.insts[m + 1];
    if k == 0 {
      assert u.insts[r] == t.insts[r] && u.insts[r + 3] == t.insts[r + 3];
    }
    assert CellProp(m + 1, "INIT", PairInit(e, k)) in u.props by {
      var i :| 0 <= i < |t.props| && t.props[i] == CellProp(m + 1, "INIT", PairInit(e, k));
      assert u.props[i] == t.props[i];
    }
    forall w | w in PairWires(e, r, j0, k) ensures w in u.conns {
      var i :| 0 <= i < |t.conns| && t.conns[i] == w;
      assert u.conns[i] == t.conns[i];
    }
  }

  /** Pair k appended where the device numbers it is present. */
  lemma PairAtGrown(p: NetState, e: EqCmp, r: nat, j0: nat, k: nat)
    requires WellShaped(e) && 2 * k < |e.a| && |p.insts| == (if k == 0 then r else MuxAt(r, k))
    ensures PairAt(PairStep(p, e, r, j0, k), e, r, j0, k)
  {
    var t, m := PairStep(p, e, r, j0, k), MuxAt(r, k);
    assert t.insts[m] == Muxcy && t.insts[m + 1] == PairCell(e, k);
    assert t.props[|p.props|] == CellProp(m + 1, "INIT", PairInit(e, k));
  }

  /** The newest pair of PairSteps(s, count) is present in it, and it only
      appended to the pairs before it. */
  lemma NextPair(s: NetState, e: EqCmp, count: nat)
    requires WellShaped(e) && 2 <= count <= Pairs(e)
    ensures PairAt(PairSteps(s, e, count), e, |s.insts|, |s.joints|, count - 1)
    ensures Extends(PairSteps(s, e, count - 1), PairSteps(s, e, count))
  {
    var p, r, j0 := PairSteps(s, e, count - 1), |s.insts|, |s.joints|;
    PairsSize(s, e, count - 1);
    PairAtGrown(p, e, r, j0, count - 1);
    GrowExtends(p, PairCells(e, count - 1), [CellProp(MuxAt(r, count - 1) + 1, "INIT", PairInit(e, count - 1))], 2,
                PairWires(e, r, j0, count - 1));
  }

  /** Every pair made so far is present. */
  lemma PairsLayout(s: NetState, e: EqCmp, count: nat)
    requires WellShaped(e) && 1 <= count <= Pairs(e)
    ensures forall k :: 0 <= k < count ==> PairAt(PairSteps(s, e, count), e, |s.insts|, |s.joints|, k)
  {
    forall k | 0 <= k < count ensures PairAt(PairSteps(s, e, count), e, |s.insts|, |s.joints|, k) {
      PairPresent(s, e, count, k);
    }
  }

  /** Pair k, once made, is present after every later pair. */
  lemma {:induction false} PairPresent(s: NetState, e: EqCmp, count: nat, k: nat)
    requires WellShaped(e) && k < count <= Pairs(e)
    ensures PairAt(PairSteps(s, e, count), e, |s.insts|, |s.joints|, k)
    decreases count
  {
    if k + 1 == count {
      PairNewestAt(s, e, k);
    } else {
      PairPresent(s, e, count - 1, k);
      PairKept(s, e, count, k);
    }
  }

  /** The first pair is present once made. */
  lemma PairFirst(s: NetState, e: EqCmp, count: nat)
    requires WellShaped(e) && count == 1 <= Pairs(e)
    ensures PairAt(PairSteps(s, e, count), e, |s.insts|, |s.joints|, count - 1)
  {
    assert PairSteps(s, e, count) == PairStep(s, e, |s.insts|, |s.joints|, 0);
    PairAtGrown(s, e, |s.insts|, |s.joints|, 0);
  }

  /** The pair made last is present. */
  lemma PairNewestAt(s: NetState, e: EqCmp, k: nat)
    requires WellShaped(e) && k < Pairs(e)
    ensures PairAt(PairSteps(s, e, k + 1), e, |s.insts|, |s.joints|, k)
  {
    PairNewest(s, e, k + 1);
  }

  lemma PairNewest(s: NetState, e: EqCmp, count: nat)
    requires WellShaped(e) && 1 <= count <= Pairs(e)
    ensures PairAt(PairSteps(s, e, count), e, |s.insts|, |s.joints|, count - 1)
  {
    if count == 1 {
      PairFirst(s, e, count);
    } else {
      NextPair(s, e, count);
    }
  }

  /** A pair present before pair count - 1 is present after it. */
  lemma PairKept(s: NetState, e: EqCmp, count: nat, k: nat)
    requires WellShaped(e) && k + 1 < count <= Pairs(e) && PairAt(PairSteps(s, e, count - 1), e, |s.insts|, |s.joints|, k)
    ensures PairAt(PairSteps(s, e, count), e, |s.insts|, |s.joints|, k)
  {
    NextPair(s, e, count);
    PairAtExtends(PairSteps(s, e, count - 1), PairSteps(s, e, count), e, |s.insts|, |s.joints|, k);
  }

  // ---------------------------------------------------------------------
  // What the device computes.

  /** One past the highest bit pair k covers. */
  function Hi(e: EqCmp, k: nat): (h: nat)
    requires 2 * k < |e.a|
    ensures 2 * k < h <= |e.a|
  {
    if Full(e, k) then 2 * k + 2 else 2 * k + 1
  }

  /** INIT "9009" on A0, B0, A1, B1 is the equality of the two pairs. */
  lemma Eq2Init(a0: bool, b0: bool, a1: bool, b1: bool)
    ensures LutOut("9009", [a0, b0, a1, b1]) == (a0 == b0 && a1 == b1)
  {
    Table9009();
    LutAt4("9009", a0, b0, a1, b1);
  }

  /** INIT "6FF6" on A0, B0, A1, B1 is their inequality. */
  lemma Ne2Init(a0: bool, b0: bool, a1: bool, b1: bool)
    ensures LutOut("6FF6", [a0, b0, a1, b1]) == !(a0 == b0 && a1 == b1)
  {
    Table6FF6();
    LutAt4("6FF6", a0, b0, a1, b1);
  }

  /** INIT "9" is XNOR and INIT "6" XOR. */
  lemma Eq1Init(a: bool, b: bool)
    ensures LutOut("9", [a, b]) == (a == b) && LutOut("6", [a, b]) == (a != b)
  {
    Table9();
    LutAt2("9", a, b);
    Table6();
    LutAt2("6", a, b);
  }

  /** Two slices of two bits agree when both bits do. */
  lemma Slice2Equal(x: seq<bool>, y: seq<bool>, i: nat)
    requires i + 2 <= |x| && |y| == |x|
    ensures (x[i..i + 2] == y[i..i + 2]) == (x[i] == y[i] && x[i + 1] == y[i + 1])
  {
    if x[i] == y[i] && x[i + 1] == y[i + 1] {
      assert x[i..i + 2] == [x[i], x[i + 1]] && y[i..i + 2] == [y[i], y[i + 1]];
    } else if x[i] != y[i] {
      assert x[i..i + 2][0] != y[i..i + 2][0];
    } else {
      assert x[i..i + 2][1] != y[i..i + 2][1];
    }
  }

  lemma Slice1Equal(x: seq<bool>, y: seq<bool>, i: nat)
    requires i + 1 <= |x| && |y| == |x|
    ensures (x[i..i + 1] == y[i..i + 1]) == (x[i] == y[i])
  {
    assert x[i..i + 1] == [x[i]] && y[i..i + 1] == [y[i]];
  }

  /** The equations pair k imposes on a valuation in which A and B read x
      and y: its select sel is the equality of its bits, its MUXCY passes on
      sel ? CI : DI, pair 0's DI is the DI constant (1 for NE) and its CI the
      other constant, and the CI of pair k >= 1 is the output of pair k - 1. */
  predicate PairEqns(e: EqCmp, r: nat, j0: nat, k: nat, x: seq<bool>, y: seq<bool>, jv: JointId -> bool,
                     pv: Binding -> bool)
    requires WellShaped(e) && 2 * k < |e.a| && |x| == |e.a| && |y| == |e.a|
  {
    var sel, c := jv(SelJoint(j0, k)), jv(CarryJoint(j0, k));
    sel == (x[2 * k..Hi(e, k)] == y[2 * k..Hi(e, k)]) &&
    pv(CellPin(MuxAt(r, k), MuxO)) == MuxOut(sel, jv(Internal(j0)), c) &&
    (k == 0 ==> jv(Internal(j0)) == (e.op == Ne) && c == (e.op == Eq)) &&
    (k >= 1 ==> c == pv(CellPin(MuxAt(r, k - 1), MuxO)))
  }

  /** The cells of pair k behave as their kinds under pv. */
  predicate PairHolds(e: EqCmp, r: nat, k: nat, pv: Binding -> bool)
    requires WellShaped(e) && 2 * k < |e.a|
  {
    var m := MuxAt(r, k);
    CellHolds(Muxcy, m, pv) && LutHolds(PairCell(e, k), m + 1, PairInit(e, k), pv) &&
    (k == 0 ==> CellHolds(DiCell(e.op), r, pv) && CellHolds(CiCell(e.op), r + 3, pv))
  }

  lemma PairHoldsFrom(t: NetState, e: EqCmp, r: nat, j0: nat, k: nat, pv: Binding -> bool)
    requires WellShaped(e) && 2 * k < |e.a| && PairAt(t, e, r, j0, k) && CellsHold(t.insts, t.props, pv)
    ensures PairHolds(e, r, k, pv)
  {
    var m := MuxAt(r, k);
    assert CellHolds(t.insts[m], m, pv);
    assert LutHolds(t.insts[m + 1], m + 1, PairInit(e, k), pv);
    if k == 0 {
      assert CellHolds(t.insts[r], r, pv) && CellHolds(t.insts[r + 3], r + 3, pv);
    }
  }

  /** The pins of pair k carry the values of the joints they are bound to. */
  predicate PairPinned(e: EqCmp, r: nat, j0: nat, k: nat, jv: JointId -> bool, pv: Binding -> bool)
    requires WellShaped(e) && 2 * k < |e.a|
  {
    var m, i, sel, c := MuxAt(r, k), 2 * k, jv(SelJoint(j0, k)), jv(CarryJoint(j0, k));
    pv(CellPin(m + 1, LutO)) == sel && pv(CellPin(m, MuxS)) == sel &&
    pv(CellPin(m + 1, LutI0)) == jv(Cached(e.a[i])) && pv(CellPin(m + 1, LutI1)) == jv(Cached(e.b[i])) &&
    (Full(e, k) ==> pv(CellPin(m + 1, LutI2)) == jv(Cached(e.a[i + 1])) &&
                    pv(CellPin(m + 1, LutI3)) == jv(Cached(e.b[i + 1]))) &&
    pv(CellPin(m, MuxDI)) == jv(Internal(j0)) && pv(CellPin(m, MuxCI)) == c &&
    (k == 0 ==> pv(CellPin(r, Port(0))) == jv(Internal(j0)) && pv(CellPin(r + 3, Port(0))) == c) &&
    (k >= 1 ==> pv(CellPin(MuxAt(r, k - 1), MuxO)) == c)
  }

  lemma LutPins(e: EqCmp, k: nat, m: nat, sel: JointId, ws: seq<Conn>, jv: JointId -> bool, pv: Binding -> bool)
    requires WellShaped(e) && 2 * k < |e.a| && ws == LutWires(e, k, m, sel) && Wired(ws, jv, pv)
    ensures pv(CellPin(m + 1, LutO)) == jv(sel) && pv(CellPin(m, MuxS)) == jv(sel)
    ensures pv(CellPin(m + 1, LutI0)) == jv(Cached(e.a[2 * k])) && pv(CellPin(m + 1, LutI1)) == jv(Cached(e.b[2 * k]))
    ensures Full(e, k) ==> pv(CellPin(m + 1, LutI2)) == jv(Cached(e.a[2 * k + 1])) &&
                           pv(CellPin(m + 1, LutI3)) == jv(Cached(e.b[2 * k + 1]))
  {
    assert ws[0] in ws && ws[1] in ws && ws[2] in ws && ws[3] in ws;
    if Full(e, k) {
      assert ws[4] in ws && ws[5] in ws;
    }
  }

  lemma MuxPins(r: nat, j0: nat, k: nat, ws: seq<Conn>, jv: JointId -> bool, pv: Binding -> bool)
    requires ws == MuxWires(r, j0, k) && Wired(ws, jv, pv)
    ensures pv(CellPin(MuxAt(r, k), MuxDI)) == jv(Internal(j0)) && pv(CellPin(MuxAt(r, k), MuxCI)) == jv(CarryJoint(j0, k))
    ensures k == 0 ==> pv(CellPin(r + 3, Port(0))) == jv(CarryJoint(j0, k))
    ensures k >= 1 ==> pv(CellPin(MuxAt(r, k - 1), MuxO)) == jv(CarryJoint(j0, k))
  {
    assert ws[0] in ws && ws[1] in ws && ws[2] in ws;
  }

  /** Every binding of pair k carries its joint's value to its pin. */
  lemma PairPins(e: EqCmp, r: nat, j0: nat, k: nat, jv: JointId -> bool, pv: Binding -> bool)
    requires WellShaped(e) && 2 * k < |e.a| && Wired(PairWires(e, r, j0, k), jv, pv)
    ensures PairPinned(e, r, j0, k, jv, pv)
  {
    var ws := PairWires(e, r, j0, k);
    var lw, mw := LutWires(e, k, MuxAt(r, k), SelJoint(j0, k)), MuxWires(r, j0, k);
    forall w | w in lw ensures pv(w.end) == jv(w.joint) {
      assert w in ws;
    }
    forall w | w in mw ensures pv(w.end) == jv(w.joint) {
      assert w in ws;
    }
    LutPins(e, k, MuxAt(r, k), SelJoint(j0, k), lw, jv, pv);
    MuxPins(r, j0, k, mw, jv, pv);
    if k == 0 {
      assert ws[0] in ws;
    }
  }

  /** The LUT of pair k, at instance l, outputs the equality of the pair's bits. */
  lemma PairSel(e: EqCmp, k: nat, l: nat, x: seq<bool>, y: seq<bool>, sel: bool, pv: Binding -> bool)
    requires WellShaped(e) && 2 * k < |e.a| && |x| == |e.a| && |y| == |e.a|
    requires LutHolds(PairCell(e, k), l, PairInit(e, k), pv) && pv(CellPin(l, LutO)) == sel
    requires pv(CellPin(l, LutI0)) == x[2 * k] && pv(CellPin(l, LutI1)) == y[2 * k]
    requires Full(e, k) ==> pv(CellPin(l, LutI2)) == x[2 * k + 1] && pv(CellPin(l, LutI3)) == y[2 * k + 1]
    ensures sel == (x[2 * k..Hi(e, k)] == y[2 * k..Hi(e, k)])
  {
    var i := 2 * k;
    if Full(e, k) {
      Lut4Pins(l, "9009", x[i], y[i], x[i + 1], y[i + 1], pv);
      Eq2Init(x[i], y[i], x[i + 1], y[i + 1]);
      Slice2Equal(x, y, i);
    } else {
      Lut2Pins(l, "9", x[i], y[i], pv);
      Eq1Init(x[i], y[i]);
      Slice1Equal(x, y, i);
    }
  }

  /** A pair whose pins carry their joints' values and whose cells hold
      imposes its equations. */
  lemma PairEqnsOf(e: EqCmp, r: nat, j0: nat, k: nat, x: seq<bool>, y: seq<bool>, jv: JointId -> bool,
                   pv: Binding -> bool)
    requires WellShaped(e) && 2 * k < |e.a| && x == Read(jv, e.a) && y == Read(jv, e.b)
    requires PairPinned(e, r, j0, k, jv, pv) && PairHolds(e, r, k, pv)
    ensures PairEqns(e, r, j0, k, x, y, jv, pv)
  {
    PairSel(e, k, MuxAt(r, k) + 1, x, y, jv(SelJoint(j0, k)), pv);
  }

  /** A pair present in a netlist imposes its equations on every valuation
      consistent with the netlist. */
  lemma PairEqnsFrom(t: NetState, e: EqCmp, r: nat, j0: nat, k: nat, jv: JointId -> bool, pv: Binding -> bool)
    requires WellShaped(e) && 2 * k < |e.a| && PairAt(t, e, r, j0, k) && Behaves(t, jv, pv)
    ensures PairEqns(e, r, j0, k, Read(jv, e.a), Read(jv, e.b), jv, pv)
  {
    forall w | w in PairWires(e, r, j0, k) ensures pv(w.end) == jv(w.joint) {
      assert w in t.conns;
    }
    PairHoldsFrom(t, e, r, j0, k, pv);
    PairPins(e, r, j0, k, jv, pv);
    PairEqnsOf(e, r, j0, k, Read(jv, e.a), Read(jv, e.b), jv, pv);
  }

  /** Prefixes agree up to h' when they agree up to h and the slice between does. */
  lemma PrefixSplit(x: seq<bool>, y: seq<bool>, h: nat, h': nat)
    requires h <= h' <= |x| && |y| == |x|
    ensures (x[..h'] == y[..h']) == (x[..h] == y[..h] && x[h..h'] == y[h..h'])
  {
    assert x[..h'] == x[..h] + x[h..h'] && y[..h'] == y[..h] + y[h..h'];
    if x[..h'] == y[..h'] {
      assert x[..h] == x[..h'][..h] && y[..h] == y[..h'][..h];
      assert x[h..h'] == x[..h'][h..] && y[h..h'] == y[..h'][h..];
    }
  }

  /** The MUXCY of pair k outputs whether A and B agree on the bits of
      pairs 0 .. k, for EQ, and whether they differ there, for NE. */
  lemma {:induction false} ChainCompares(e: EqCmp, r: nat, j0: nat, k: nat, x: seq<bool>, y: seq<bool>,
                                         jv: JointId -> bool, pv: Binding -> bool)
    requires WellShaped(e) && k < Pairs(e) && |x| == |e.a| && |y| == |e.a|
    requires forall i :: 0 <= i <= k ==> PairEqns(e, r, j0, i, x, y, jv, pv)
    ensures pv(CellPin(MuxAt(r, k), MuxO)) == ((x[..Hi(e, k)] == y[..Hi(e, k)]) == (e.op == Eq))
  {
    assert PairEqns(e, r, j0, 0, x, y, jv, pv);
    assert PairEqns(e, r, j0, k, x, y, jv, pv);
    if k == 0 {
      assert x[..Hi(e, 0)] == x[0..Hi(e, 0)] && y[..Hi(e, 0)] == y[0..Hi(e, 0)];
    } else {
      ChainCompares(e, r, j0, k - 1, x, y, jv, pv);
      assert Hi(e, k - 1) == 2 * k;
      PrefixSplit(x, y, 2 * k, Hi(e, k));
    }
  }

  /** Every pair of a wide device relates its signals as PairEqns says, so
      the top MUXCY outputs the comparison. */
  lemma PairsCompare(s: NetState, e: EqCmp, u: NetState, x: seq<bool>, y: seq<bool>, jv: JointId -> bool, pv: Binding -> bool)
    requires WellShaped(e) && |e.a| >= 3 && u == PairSteps(s, e, Pairs(e)) && Behaves(u, jv, pv)
    requires x == Read(jv, e.a) && y == Read(jv, e.b)
    ensures pv(CellPin(MuxAt(|s.insts|, Pairs(e) - 1), MuxO)) == ((x == y) == (e.op == Eq))
  {
    PairsLayout(s, e, Pairs(e));
    forall k | 0 <= k < Pairs(e) ensures PairEqns(e, |s.insts|, |s.joints|, k, x, y, jv, pv) {
      PairEqnsFrom(u, e, |s.insts|, |s.joints|, k, jv, pv);
    }
    TopCompares(e, |s.insts|, |s.joints|, x, y, jv, pv);
  }

  /** The last binding of a wide device connects Q[0] to the top MUXCY. */
  lemma WideBehaves(s: NetState, e: EqCmp, jv: JointId -> bool, pv: Binding -> bool)
    requires WellShaped(e) && |e.a| >= 3 && Behaves(WideStep(s, e), jv, pv)
    ensures Behaves(PairSteps(s, e, Pairs(e)), jv, pv)
    ensures jv(Cached(e.q)) == pv(CellPin(MuxAt(|s.insts|, Pairs(e) - 1), MuxO))
  {
    BehavesWithConn(PairSteps(s, e, Pairs(e)), Cached(e.q), MuxAt(|s.insts|, Pairs(e) - 1), MuxO, jv, pv);
  }

  /** A wide device: the top MUXCY drives Q[0] with the comparison. */
  lemma WideCompares(s: NetState, e: EqCmp, jv: JointId -> bool, pv: Binding -> bool)
    requires WellShaped(e) && |e.a| >= 3 && Behaves(WideStep(s, e), jv, pv)
    ensures jv(Cached(e.q)) == ((Read(jv, e.a) == Read(jv, e.b)) == (e.op == Eq))
  {
    WideBehaves(s, e, jv, pv);
    PairsCompare(s, e, PairSteps(s, e, Pairs(e)), Read(jv, e.a), Read(jv, e.b), jv, pv);
  }

  /** The top MUXCY of the pairs outputs the comparison of all of A and B. */
  lemma TopCompares(e: EqCmp, r: nat, j0: nat, x: seq<bool>, y: seq<bool>, jv: JointId -> bool, pv: Binding -> bool)
    requires WellShaped(e) && |e.a| >= 3 && |x| == |e.a| && |y| == |e.a|
    requires forall k :: 0 <= k < Pairs(e) ==> PairEqns(e, r, j0, k, x, y, jv, pv)
    ensures pv(CellPin(MuxAt(r, Pairs(e) - 1), MuxO)) == ((x == y) == (e.op == Eq))
  {
    var top := Pairs(e) - 1;
    ChainCompares(e, r, j0, top, x, y, jv, pv);
    HiTop(e);
    assert x[..Hi(e, top)] == x && y[..Hi(e, top)] == y;
  }

  /** The last pair ends at the top bit. */
  lemma HiTop(e: EqCmp)
    requires |e.a| >= 1
    ensures Hi(e, Pairs(e) - 1) == |e.a|
  {
    var p := Pairs(e);
    assert |e.a| <= 2 * p <= |e.a| + 1;
  }

  lemma OneBitCompares(s: NetState, e: EqCmp, jv: JointId -> bool, pv: Binding -> bool)
    requires WellShaped(e) && |e.a| == 1 && Behaves(OneBitStep(s, e), jv, pv)
    ensures jv(Cached(e.q)) == ((Read(jv, e.a) == Read(jv, e.b)) == (e.op == Eq))
  {
    var t, r, n := OneBitStep(s, e), |s.insts|, |s.conns|;
    var x, y := Read(jv, e.a), Read(jv, e.b);
    assert t.conns[n] in t.conns && t.conns[n + 1] in t.conns && t.conns[n + 2] in t.conns;
    assert t.props[|s.props|] in t.props;
    assert LutHolds(t.insts[r], r, NarrowInit(e.op), pv);
    Lut2Pins(r, NarrowInit(e.op), x[0], y[0], pv);
    assert jv(Cached(e.q)) == pv(CellPin(r, LutO));
    OneBitValue(e.op, x, y, pv(CellPin(r, LutO)));
  }

  /** The one-bit table outputs the comparison of two one-bit vectors. */
  lemma OneBitValue(op: EqOp, x: seq<bool>, y: seq<bool>, o: bool)
    requires |x| == 1 && |y| == 1 && o == LutOut(NarrowInit(op), [x[0], y[0]])
    ensures o == ((x == y) == (op == Eq))
  {
    Eq1Init(x[0], y[0]);
    Slice1Equal(x, y, 0);
    assert x == x[0..1] && y == y[0..1];
  }

  lemma TwoBitCompares(s: NetState, e: EqCmp, jv: JointId -> bool, pv: Binding -> bool)
    requires WellShaped(e) && |e.a| == 2 && Behaves(TwoBitStep(s, e), jv, pv)
    ensures jv(Cached(e.q)) == ((Read(jv, e.a) == Read(jv, e.b)) == (e.op == Eq))
  {
    var t, r, n := TwoBitStep(s, e), |s.insts|, |s.conns|;
    var x, y := Read(jv, e.a), Read(jv, e.b);
    assert t.conns[n] in t.conns && t.conns[n + 1] in t.conns && t.conns[n + 2] in t.conns;
    assert t.conns[n + 3] in t.conns && t.conns[n + 4] in t.conns;
    assert t.props[|s.props|] in t.props;
    assert LutHolds(t.insts[r], r, TwoBitInit(e.op), pv);
    Lut4Pins(r, TwoBitInit(e.op), x[0], y[0], x[1], y[1], pv);
    assert jv(Cached(e.q)) == pv(CellPin(r, LutO));
    TwoBitValue(e.op, x, y, pv(CellPin(r, LutO)));
  }

  /** The two-bit table outputs the comparison of two two-bit vectors. */
  lemma TwoBitValue(op: EqOp, x: seq<bool>, y: seq<bool>, o: bool)
    requires |x| == 2 && |y| == 2 && o == LutOut(TwoBitInit(op), [x[0], y[0], x[1], y[1]])
    ensures o == ((x == y) == (op == Eq))
  {
    Eq2Init(x[0], y[0], x[1], y[1]);
    Ne2Init(x[0], y[0], x[1], y[1]);
    Slice2Equal(x, y, 0);
    assert x == x[0..2] && y == y[0..2];
  }

  /** The hook implements CMP_EQ and CMP_NE: under every valuation
      consistent with the netlist it leaves, Q[0] is A = B for EQ and
      A != B for NE. */
  lemma EqComputes(s: NetState, e: EqCmp, jv: JointId -> bool, pv: Binding -> bool)
    requires WellShaped(e) && |e.a| >= 1 && Behaves(EqStep(s, e).after, jv, pv)
    ensures jv(Cached(e.q)) == ((Val(Read(jv, e.a)) == Val(Read(jv, e.b))) == (e.op == Eq))
  {
    ValInjective(Read(jv, e.a), Read(jv, e.b));
    if |e.a| == 1 {
      OneBitCompares(s, e, jv, pv);
    } else if |e.a| == 2 {
      TwoBitCompares(s, e, jv, pv);
    } else {
      WideCompares(s, e, jv, pv);
    }
  }
}
