/** virtex2_add: ADD and SUB of W-bit vectors as a ripple-carry chain.

    A one-bit device is a single LUT2. A wider one is a chain of slices,
    bit i in slice i: a LUT2 computing the propagate signal of the bit pair
    (XOR for ADD, XNOR for SUB, which adds the complement of B), an XORCY
    that turns it and the incoming carry into the sum bit, and, on every bit
    but the top one, a MUXCY_L that passes the carry on. The carry into
    bit 0 comes from a GND instance for ADD and a VCC instance for SUB (the
    +1 of the two's complement of B). */
module Adder {
  import opened Wrappers
  import opened Bits
  import opened TruthTable
  import opened Inits
  import opened Edif
  import opened Circuit

  const NarrowAddReason := "an adder is at least one bit wide"

  datatype ArithOp = Add | Sub

  /** An ADD or SUB LPM: Q = A + B or Q = A - B, bit by bit. */
  datatype Arith = Arith(op: ArithOp, q: seq<Nexus>, a: seq<Nexus>, b: seq<Nexus>)

  predicate WellShaped(ar: Arith)
  {
    |ar.a| == |ar.q| && |ar.b| == |ar.q|
  }

  /** The INIT of every slice's LUT2 (ha_init): XOR for ADD, XNOR for SUB. */
  function SliceInit(op: ArithOp): string
  {
    if op == Add then "6" else "9"
  }

  /** The INIT a one-bit adder or subtracter needs: bit 0 of A + B and of
      A - B are both A xor B. */
  const HalfSumInit := "6"

  /** The constant cell that feeds the bottom carry: 0 for ADD, 1 for SUB. */
  function CarryCell(op: ArithOp): CellKind
  {
    if op == Add then Gnd else Vcc
  }

  /** The instance number of slice i's LUT2 when the chain starts at r; its
      XORCY and MUXCY_L follow it. Slice 0 also owns the carry constant at
      r + 3. */
  function LutIdx(r: nat, i: nat): nat
  {
    if i == 0 then r else r + 3 * i + 1
  }

  /** The MUXCY_L of slice i - 1, whose output is slice i's carry in. */
  function CarryFrom(r: nat, i: nat): nat
    requires i >= 1
  {
    LutIdx(r, i - 1) + 2
  }

  /** A one-bit device: one LUT2 from A and B to Q, configured with init. */
  function HalfStep(s: NetState, ar: Arith, init: string): NetState
    requires WellShaped(ar) && |ar.q| == 1
  {
    var r := |s.insts|;
    var s1 := WithConn(WithInstance(s, Lut2), Cached(ar.q[0]), r, LutO);
    var s2 := WithConn(WithConn(s1, Cached(ar.a[0]), r, LutI0), Cached(ar.b[0]), r, LutI1);
    WithProp(s2, r, "INIT", init)
  }

  /** The bindings of slice 0 with its cells from r and its joints from j,
      in the order virtex2_add makes them: the carry-in joint j (the
      constant, MUXCY_L CI, XORCY CI), the sum bit, the propagate joint
      j + 1 (XORCY LI, MUXCY_L S, LUT2 O) and the operand bits. */
  function HeadWires(ar: Arith, r: nat, j: nat): seq<Conn>
    requires WellShaped(ar) && |ar.q| >= 2
  {
    var c, l := Internal(j), Internal(j + 1);
    [Conn(c, CellPin(r + 3, Port(0))), Conn(c, CellPin(r + 2, MuxCI)), Conn(c, CellPin(r + 1, XorCI)),
     Conn(Cached(ar.q[0]), CellPin(r + 1, XorO)),
     Conn(l, CellPin(r + 1, XorLI)), Conn(l, CellPin(r + 2, MuxS)), Conn(l, CellPin(r, LutO)),
     Conn(Cached(ar.a[0]), CellPin(r, LutI0)), Conn(Cached(ar.a[0]), CellPin(r + 2, MuxDI)),
     Conn(Cached(ar.b[0]), CellPin(r, LutI1))]
  }

  /** The bindings of slice idx >= 1 below the top: as in slice 0, but the
      carry comes from the MUXCY_L mux0 of the slice below. */
  function MidWires(ar: Arith, idx: nat, r: nat, j: nat, mux0: nat): seq<Conn>
    requires WellShaped(ar) && idx < |ar.q|
  {
    var c, l := Internal(j), Internal(j + 1);
    [Conn(c, CellPin(mux0, MuxO)), Conn(c, CellPin(r + 1, XorCI)), Conn(c, CellPin(r + 2, MuxCI)),
     Conn(Cached(ar.q[idx]), CellPin(r + 1, XorO)),
     Conn(l, CellPin(r + 1, XorLI)), Conn(l, CellPin(r + 2, MuxS)), Conn(l, CellPin(r, LutO)),
     Conn(Cached(ar.a[idx]), CellPin(r, LutI0)), Conn(Cached(ar.a[idx]), CellPin(r + 2, MuxDI)),
     Conn(Cached(ar.b[idx]), CellPin(r, LutI1))]
  }

  /** The bindings of the top slice, which has no MUXCY_L. */
  function TopWires(ar: Arith, idx: nat, r: nat, j: nat, mux0: nat): seq<Conn>
    requires WellShaped(ar) && idx < |ar.q|
  {
    var c, l := Internal(j), Internal(j + 1);
    [Conn(c, CellPin(mux0, MuxO)), Conn(c, CellPin(r + 1, XorCI)),
     Conn(Cached(ar.q[idx]), CellPin(r + 1, XorO)),
     Conn(l, CellPin(r + 1, XorLI)), Conn(l, CellPin(r, LutO)),
     Conn(Cached(ar.a[idx]), CellPin(r, LutI0)),
     Conn(Cached(ar.b[idx]), CellPin(r, LutI1))]
  }

  /** Slice 0 of a wide device: its LUT2, XORCY, MUXCY_L and carry
      constant, the INIT of the LUT2, two joints and its bindings. */
  function AddHead(s: NetState, ar: Arith, init: string): NetState
    requires WellShaped(ar) && |ar.q| >= 2
  {
    var r := |s.insts|;
    Grow(s, [Lut2, Xorcy, MuxcyL, CarryCell(ar.op)], [CellProp(r, "INIT", init)], 2, HeadWires(ar, r, |s.joints|))
  }

  /** The cells of slice idx >= 1: the top slice has no MUXCY_L. */
  function SliceCells(ar: Arith, idx: nat): seq<CellKind>
  {
    if idx + 1 < |ar.q| then [Lut2, Xorcy, MuxcyL] else [Lut2, Xorcy]
  }

  /** Slice idx >= 1 (one iteration of the loop of virtex2_add), its carry
      coming from MUXCY_L mux0. */
  function AddSlice(s: NetState, ar: Arith, init: string, idx: nat, mux0: nat): NetState
    requires WellShaped(ar) && 1 <= idx < |ar.q|
  {
    var r, j := |s.insts|, |s.joints|;
    Grow(s, SliceCells(ar, idx), [CellProp(r, "INIT", init)], 2,
         if idx + 1 < |ar.q| then MidWires(ar, idx, r, j, mux0) else TopWires(ar, idx, r, j, mux0))
  }

  /** The first count slices of a wide device started on s. */
  function AddSlices(s: NetState, ar: Arith, init: string, count: nat): NetState
    requires WellShaped(ar) && |ar.q| >= 2 && 1 <= count <= |ar.q|
  {
    if count == 1 then AddHead(s, ar, init)
    else AddSlice(AddSlices(s, ar, init, count - 1), ar, init, count - 1, CarryFrom(|s.insts|, count - 1))
  }

  /** The hook, with the INIT given to a one-bit device as a parameter. */
  function AddStepWith(s: NetState, ar: Arith, half: string): Step
    requires WellShaped(ar)
  {
    if |ar.q| == 1 then Emit(HalfStep(s, ar, half))
    else if |ar.q| == 0 then Abort(NarrowAddReason)
    else Emit(AddSlices(s, ar, SliceInit(ar.op), |ar.q|))
  }

  /** virtex2_add as written: a one-bit device also gets ha_init. */
  function AddStepAsWritten(s: NetState, ar: Arith): Step
    requires WellShaped(ar)
  {
    AddStepWith(s, ar, SliceInit(ar.op))
  }

  /** virtex2_add with the one-bit subtracter corrected to XOR. */
  function AddStep(s: NetState, ar: Arith): Step
    requires WellShaped(ar)
  {
    AddStepWith(s, ar, HalfSumInit)
  }

  // ---------------------------------------------------------------------
  // The hook.

  /** The one-bit device. */
  method PlaceHalf(n: Netlist, ar: Arith)
    requires n.Valid() && WellShaped(ar) && |ar.q| == 1
    modifies n`instances, n`cellProps, n`conns
    ensures n.Valid()
    ensures n.State() == HalfStep(old(n.State()), ar, HalfSumInit)
  {
    var lut := n.CreateInstance(Lut2);
    n.AddToJoint(JointOfNexus(ar.q[0]), lut, LutO);
    n.AddToJoint(JointOfNexus(ar.a[0]), lut, LutI0);
    n.AddToJoint(JointOfNexus(ar.b[0]), lut, LutI1);
    n.CellrefProperty(lut, "INIT", HalfSumInit);
  }

  /** Slice 0 of a wide device; returns its MUXCY_L. */
  method PlaceHead(n: Netlist, ar: Arith, init: string) returns (muxcy: nat)
    requires n.Valid() && WellShaped(ar) && |ar.q| >= 2
    modifies n`instances, n`cellProps, n`joints, n`conns
    ensures n.Valid() && muxcy == |old(n.instances)| + 2
    ensures n.State() == AddHead(old(n.State()), ar, init)
  {
    var lut := n.CreateInstance(Lut2);
    var xorcy := n.CreateInstance(Xorcy);
    muxcy := n.CreateInstance(MuxcyL);
    n.CellrefProperty(lut, "INIT", init);
    var pad := n.CreateInstance(CarryCell(ar.op));
    var carry := n.CreateJoint();
    var propagate := n.CreateJoint();
    HeadWithin(ar, lut, carry.index);
    n.Bind(HeadWires(ar, lut, carry.index));
    HeadSteps(old(n.State()), ar, init);
  }

  /** One iteration of the slice loop; returns the slice's MUXCY_L, or 0
      for the top slice, which has none. */
  method PlaceSlice(n: Netlist, ar: Arith, init: string, idx: nat, muxcy0: nat) returns (muxcy: nat)
    requires n.Valid() && WellShaped(ar) && 1 <= idx < |ar.q| && muxcy0 < |n.instances|
    modifies n`instances, n`cellProps, n`joints, n`conns
    ensures n.Valid() && muxcy == (if idx + 1 < |ar.q| then |old(n.instances)| + 2 else 0)
    ensures |n.instances| == |old(n.instances)| + |SliceCells(ar, idx)|
    ensures n.State() == AddSlice(old(n.State()), ar, init, idx, muxcy0)
  {
    var lut := n.CreateInstance(Lut2);
    var xorcy := n.CreateInstance(Xorcy);
    n.CellrefProperty(lut, "INIT", init);
    if idx + 1 < |ar.q| {
      muxcy := n.CreateInstance(MuxcyL);
    } else {
      muxcy := 0;
    }
    var carry := n.CreateJoint();
    var propagate := n.CreateJoint();
    SliceWithin(ar, idx, lut, carry.index, muxcy0);
    if muxcy != 0 {
      n.Bind(MidWires(ar, idx, lut, carry.index, muxcy0));
    } else {
      n.Bind(TopWires(ar, idx, lut, carry.index, muxcy0));
    }
    SliceSteps(old(n.State()), ar, init, idx, muxcy0);
  }

  /** The slices of a wide device: slice 0, then the loop over bits 1 to
      W - 1, each slice taking its carry from the MUXCY_L of the one below. */
  method PlaceChain(n: Netlist, ar: Arith, init: string)
    requires n.Valid() && WellShaped(ar) && |ar.q| >= 2
    modifies n`instances, n`cellProps, n`joints, n`conns
    ensures n.Valid() && n.State() == AddSlices(old(n.State()), ar, init, |ar.q|)
  {
    ghost var s0 := n.State();
    var muxcy := PlaceHead(n, ar, init);
    var idx := 1;
    while idx < |ar.q|
      invariant 1 <= idx <= |ar.q| && n.Valid()
      invariant n.State() == AddSlices(s0, ar, init, idx)
      invariant idx < |ar.q| ==> |n.instances| == LutIdx(|s0.insts|, idx) && muxcy == CarryFrom(|s0.insts|, idx)
    {
      muxcy := PlaceSlice(n, ar, init, idx, muxcy);
      idx := idx + 1;
    }
  }

  /** virtex2_add, with the one-bit subtracter corrected. */
  method MapAdd(n: Netlist, ar: Arith) returns (o: Outcome)
    requires n.Valid() && WellShaped(ar)
    modifies n`instances, n`cellProps, n`joints, n`conns
    ensures n.Valid()
    ensures var st := AddStep(old(n.State()), ar); o == OutcomeOf(st) && n.State() == After(st, old(n.State()))
  {
    var haInit := SliceInit(ar.op);
    if |ar.q| == 1 {
      PlaceHalf(n, ar);
      return Done;
    }
    if |ar.q| == 0 {
      return Fatal(NarrowAddReason);
    }
    PlaceChain(n, ar, haInit);
    o := Done;
  }

  /** The bindings of a slice name only its own cells, the MUXCY_L below
      and its two joints. */
  lemma HeadWithin(ar: Arith, r: nat, j: nat)
    requires WellShaped(ar) && |ar.q| >= 2
    ensures PinsWithin(HeadWires(ar, r, j), j + 2, r + 4)
  {
  }

  lemma SliceWithin(ar: Arith, idx: nat, r: nat, j: nat, mux0: nat)
    requires WellShaped(ar) && idx < |ar.q| && mux0 < r
    ensures PinsWithin(MidWires(ar, idx, r, j, mux0), j + 2, r + 3)
    ensures PinsWithin(TopWires(ar, idx, r, j, mux0), j + 2, r + 2)
  {
  }

  /** The calls PlaceHead makes append what AddHead says. The two joints
      are created before the bindings are made; the C code interleaves
      them, which leaves the same state since they extend different parts
      of it. */
  lemma HeadSteps(s: NetState, ar: Arith, init: string)
    requires WellShaped(ar) && |ar.q| >= 2
    ensures var r, j := |s.insts|, |s.joints|;
      var s1 := WithInstance(WithInstance(WithInstance(s, Lut2), Xorcy), MuxcyL);
      var s2 := WithInstance(WithProp(s1, r, "INIT", init), CarryCell(ar.op));
      WithConns(WithJoint(WithJoint(s2)), HeadWires(ar, r, j)) == AddHead(s, ar, init)
  {
    assert s.insts + [Lut2] + [Xorcy] + [MuxcyL] + [CarryCell(ar.op)] == s.insts + [Lut2, Xorcy, MuxcyL, CarryCell(ar.op)];
    assert s.joints + [None] + [None] == s.joints + seq(2, i => None);
  }

  /** The calls PlaceSlice makes append what AddSlice says. */
  lemma SliceSteps(s: NetState, ar: Arith, init: string, idx: nat, mux0: nat)
    requires WellShaped(ar) && 1 <= idx < |ar.q|
    ensures var r, j := |s.insts|, |s.joints|;
      var s1 := WithProp(WithInstance(WithInstance(s, Lut2), Xorcy), r, "INIT", init);
      AddSlice(s, ar, init, idx, mux0) ==
        if idx + 1 < |ar.q| then WithConns(WithJoint(WithJoint(WithInstance(s1, MuxcyL))), MidWires(ar, idx, r, j, mux0))
        else WithConns(WithJoint(WithJoint(s1)), TopWires(ar, idx, r, j, mux0))
  {
    assert s.insts + [Lut2] + [Xorcy] + [MuxcyL] == s.insts + [Lut2, Xorcy, MuxcyL];
    assert s.insts + [Lut2] + [Xorcy] == s.insts + [Lut2, Xorcy];
    assert s.joints + [None] + [None] == s.joints + seq(2, i => None);
  }

  // ---------------------------------------------------------------------
  // The layout of the chain.

  /** The bindings of slice i of a chain whose cells start at r and whose
      joints start at j0. */
  function SliceWires(ar: Arith, i: nat, r: nat, j0: nat): seq<Conn>
    requires WellShaped(ar) && |ar.q| >= 2 && i < |ar.q|
  {
    if i == 0 then HeadWires(ar, r, j0)
    else if i + 1 < |ar.q| then MidWires(ar, i, LutIdx(r, i), j0 + 2 * i, CarryFrom(r, i))
    else TopWires(ar, i, LutIdx(r, i), j0 + 2 * i, CarryFrom(r, i))
  }

  /** The first count slices take 3 instances each plus the carry constant
      (the top one 2), one INIT property each and two joints each, and only
      append to s. */
  lemma {:induction false} AddSlicesSize(s: NetState, ar: Arith, init: string, count: nat)
    requires WellShaped(ar) && |ar.q| >= 2 && 1 <= count <= |ar.q|
    ensures var t := AddSlices(s, ar, init, count);
      (count < |ar.q| ==> |t.insts| == LutIdx(|s.insts|, count)) &&
      (count == |ar.q| ==> |t.insts| == |s.insts| + 3 * count) &&
      |t.props| == |s.props| + count && |t.joints| == |s.joints| + 2 * count && Extends(s, t)
  {
    if count == 1 {
      GrowExtends(s, [Lut2, Xorcy, MuxcyL, CarryCell(ar.op)], [CellProp(|s.insts|, "INIT", init)], 2,
                  HeadWires(ar, |s.insts|, |s.joints|));
    } else {
      var p := AddSlices(s, ar, init, count - 1);
      var mux0 := CarryFrom(|s.insts|, count - 1);
      AddSlicesSize(s, ar, init, count - 1);
      GrowExtends(p, SliceCells(ar, count - 1), [CellProp(|p.insts|, "INIT", init)], 2,
                  if count < |ar.q| then MidWires(ar, count - 1, |p.insts|, |p.joints|, mux0)
                  else TopWires(ar, count - 1, |p.insts|, |p.joints|, mux0));
      ExtendsTrans(s, p, AddSlices(s, ar, init, count));
    }
  }

  /** Slice i of a chain started at instance r and joint j0 is present in t:
      its cells at their numbers, the INIT of its LUT2 and all its bindings;
      slice 0 also has the carry constant. */
  predicate SliceAt(t: NetState, ar: Arith, init: string, r: nat, j0: nat, i: nat)
    requires WellShaped(ar) && |ar.q| >= 2 && i < |ar.q|
  {
    var k := LutIdx(r, i);
    k + 1 < |t.insts| && t.insts[k] == Lut2 && t.insts[k + 1] == Xorcy &&
    (i + 1 < |ar.q| ==> k + 2 < |t.insts| && t.insts[k + 2] == MuxcyL) &&
    (i == 0 ==> r + 3 < |t.insts| && t.insts[r + 3] == CarryCell(ar.op)) &&
    CellProp(k, "INIT", init) in t.props &&
    forall w :: w in SliceWires(ar, i, r, j0) ==> w in t.conns
  }

  /** A slice stays present as the netlist grows. */
  lemma SliceAtExtends(t: NetState, u: NetState, ar: Arith, init: string, r: nat, j0: nat, i: nat)
    requires WellShaped(ar) && |ar.q| >= 2 && i < |ar.q|
    requires SliceAt(t, ar, init, r, j0, i) && Extends(t, u)
    ensures SliceAt(u, ar, init, r, j0, i)
  {
    var k := LutIdx(r, i);
    assert u.insts[k] == t.insts[k] && u.insts[k + 1] == t.insts[k + 1];
    if i + 1 < |ar.q| {
      assert u.insts[k + 2] == t.insts[k + 2];
    }
    if i == 0 {
      assert u.insts[r + 3] == t.insts[r + 3];
    }
    assert CellProp(k, "INIT", init) in u.props by {
      var m :| 0 <= m < |t.props| && t.props[m] == CellProp(k, "INIT", init);
      assert u.props[m] == t.props[m];
    }
    forall w | w in SliceWires(ar, i, r, j0)
      ensures w in u.conns
    {
      var m :| 0 <= m < |t.conns| && t.conns[m] == w;
      assert u.conns[m] == t.conns[m];
    }
  }

  /** A slice is present once its cells, its INIT and its bindings are
      appended at the numbers the chain gives it. */
  lemma SliceAtGrown(p: NetState, t: NetState, ar: Arith, init: string, r: nat, j0: nat, i: nat)
    requires WellShaped(ar) && |ar.q| >= 2 && i < |ar.q| && |p.insts| == LutIdx(r, i)
    requires t.insts == p.insts + (if i == 0 then [Lut2, Xorcy, MuxcyL, CarryCell(ar.op)] else SliceCells(ar, i))
    requires t.props == p.props + [CellProp(LutIdx(r, i), "INIT", init)]
    requires t.conns == p.conns + SliceWires(ar, i, r, j0)
    ensures SliceAt(t, ar, init, r, j0, i)
  {
    var k := LutIdx(r, i);
    assert t.insts[k] == Lut2 && t.insts[k + 1] == Xorcy;
    if i + 1 < |ar.q| {
      assert t.insts[k + 2] == MuxcyL;
    }
    assert t.props[|p.props|] == CellProp(k, "INIT", init);
  }

  /** Slice i >= 1 appended at the instance and joint numbers the chain
      gives it is present. */
  lemma SliceGrownAt(p: NetState, ar: Arith, init: string, r: nat, j0: nat, i: nat)
    requires WellShaped(ar) && 1 <= i < |ar.q| && |p.insts| == LutIdx(r, i) && |p.joints| == j0 + 2 * i
    ensures SliceAt(AddSlice(p, ar, init, i, CarryFrom(r, i)), ar, init, r, j0, i)
  {
    SliceAtGrown(p, AddSlice(p, ar, init, i, CarryFrom(r, i)), ar, init, r, j0, i);
  }

  /** The newest slice of AddSlices(s, k + 1), k >= 1, is present in it. */
  lemma NextSliceAt(s: NetState, ar: Arith, init: string, k: nat)
    requires WellShaped(ar) && 1 <= k < |ar.q|
    ensures SliceAt(AddSlices(s, ar, init, k + 1), ar, init, |s.insts|, |s.joints|, k)
  {
    var p := AddSlices(s, ar, init, k);
    AddSlicesSize(s, ar, init, k);
    SliceGrownAt(p, ar, init, |s.insts|, |s.joints|, k);
    assert AddSlices(s, ar, init, k + 1) == AddSlice(p, ar, init, k, CarryFrom(|s.insts|, k));
  }

  /** Slice count - 1 only appends to the slices before it. */
  lemma NextSliceExtends(s: NetState, ar: Arith, init: string, count: nat)
    requires WellShaped(ar) && 2 <= count <= |ar.q|
    ensures Extends(AddSlices(s, ar, init, count - 1), AddSlices(s, ar, init, count))
  {
    var p := AddSlices(s, ar, init, count - 1);
    var mux0 := CarryFrom(|s.insts|, count - 1);
    GrowExtends(p, SliceCells(ar, count - 1), [CellProp(|p.insts|, "INIT", init)], 2,
                if count < |ar.q| then MidWires(ar, count - 1, |p.insts|, |p.joints|, mux0)
                else TopWires(ar, count - 1, |p.insts|, |p.joints|, mux0));
  }

  /** Slice i stays present as the later slices are appended. */
  lemma SliceKept(s: NetState, ar: Arith, init: string, count: nat, i: nat)
    requires WellShaped(ar) && 2 <= count <= |ar.q| && i + 1 < count
    requires SliceAt(AddSlices(s, ar, init, count - 1), ar, init, |s.insts|, |s.joints|, i)
    ensures SliceAt(AddSlices(s, ar, init, count), ar, init, |s.insts|, |s.joints|, i)
  {
    NextSliceExtends(s, ar, init, count);
    SliceAtExtends(AddSlices(s, ar, init, count - 1), AddSlices(s, ar, init, count), ar, init, |s.insts|, |s.joints|, i);
  }

  /** Slice i is present in every chain that has made it. */
  lemma {:induction false} SlicePresent(s: NetState, ar: Arith, init: string, count: nat, i: nat)
    requires WellShaped(ar) && |ar.q| >= 2 && i < count <= |ar.q|
    ensures SliceAt(AddSlices(s, ar, init, count), ar, init, |s.insts|, |s.joints|, i)
    decreases count
  {
    if i + 1 == count {
      if i == 0 {
        SliceAtGrown(s, AddSlices(s, ar, init, 1), ar, init, |s.insts|, |s.joints|, 0);
      } else {
        NextSliceAt(s, ar, init, i);
      }
    } else {
      SlicePresent(s, ar, init, count - 1, i);
      SliceKept(s, ar, init, count, i);
    }
  }

  /** Every slice made so far is present. */
  lemma AddSlicesLayout(s: NetState, ar: Arith, init: string, count: nat)
    requires WellShaped(ar) && |ar.q| >= 2 && 1 <= count <= |ar.q|
    ensures forall i :: 0 <= i < count ==> SliceAt(AddSlices(s, ar, init, count), ar, init, |s.insts|, |s.joints|, i)
  {
    forall i | 0 <= i < count ensures SliceAt(AddSlices(s, ar, init, count), ar, init, |s.insts|, |s.joints|, i) {
      SlicePresent(s, ar, init, count, i);
    }
  }

  // ---------------------------------------------------------------------
  // What the chain computes.

  /** The slice LUT2 computes the propagate signal: A xor B for ADD and
      A xor not B for SUB. */
  lemma PropagateInit(op: ArithOp, a: bool, b: bool)
    ensures LutOut(SliceInit(op), [a, b]) == (a != (if op == Add then b else !b))
  {
    if op == Add {
      Table6();
      LutAt2("6", a, b);
    } else {
      Table9();
      LutAt2("9", a, b);
    }
  }

  /** The equations slice i imposes on a valuation: its LUT2 computes the
      propagate signal l, the sum bit Q[i] is l xor c for the carry in c,
      below the top the MUXCY_L passes on l ? c : A[i], the carry into
      slice 0 is the constant (0 for ADD, 1 for SUB) and the carry into
      slice i >= 1 is the MUXCY_L output of slice i - 1. */
  predicate SliceEqns(ar: Arith, init: string, r: nat, j0: nat, i: nat, jv: JointId -> bool, pv: Binding -> bool)
    requires WellShaped(ar) && |ar.q| >= 2 && i < |ar.q|
  {
    var c, l, a := jv(Internal(j0 + 2 * i)), jv(Internal(j0 + 2 * i + 1)), jv(Cached(ar.a[i]));
    l == LutOut(init, [a, jv(Cached(ar.b[i]))]) && jv(Cached(ar.q[i])) == XorOut(l, c) &&
    (i + 1 < |ar.q| ==> pv(CellPin(LutIdx(r, i) + 2, MuxO)) == MuxOut(l, a, c)) &&
    (i == 0 ==> c == (ar.op == Sub)) &&
    (i >= 1 ==> c == pv(CellPin(CarryFrom(r, i), MuxO)))
  }

  /** The cells of slice i behave as their kinds under pv. */
  predicate SliceHolds(ar: Arith, init: string, r: nat, i: nat, pv: Binding -> bool)
    requires WellShaped(ar) && |ar.q| >= 2 && i < |ar.q|
  {
    var k := LutIdx(r, i);
    LutHolds(Lut2, k, init, pv) && CellHolds(Xorcy, k + 1, pv) &&
    (i + 1 < |ar.q| ==> CellHolds(MuxcyL, k + 2, pv)) &&
    (i == 0 ==> CellHolds(CarryCell(ar.op), r + 3, pv))
  }

  lemma SliceHoldsFrom(t: NetState, ar: Arith, init: string, r: nat, j0: nat, i: nat, pv: Binding -> bool)
    requires WellShaped(ar) && |ar.q| >= 2 && i < |ar.q|
    requires SliceAt(t, ar, init, r, j0, i) && CellsHold(t.insts, t.props, pv)
    ensures SliceHolds(ar, init, r, i, pv)
  {
    var k := LutIdx(r, i);
    assert LutHolds(t.insts[k], k, init, pv);
    assert CellHolds(t.insts[k + 1], k + 1, pv);
    if i + 1 < |ar.q| {
      assert CellHolds(t.insts[k + 2], k + 2, pv);
    }
    if i == 0 {
      assert CellHolds(t.insts[r + 3], r + 3, pv);
    }
  }

  lemma SliceWiredFrom(t: NetState, ar: Arith, init: string, r: nat, j0: nat, i: nat, jv: JointId -> bool, pv: Binding -> bool)
    requires WellShaped(ar) && |ar.q| >= 2 && i < |ar.q|
    requires SliceAt(t, ar, init, r, j0, i) && Wired(t.conns, jv, pv)
    ensures Wired(SliceWires(ar, i, r, j0), jv, pv)
  {
    forall w | w in SliceWires(ar, i, r, j0) ensures pv(w.end) == jv(w.joint) {
      assert w in t.conns;
    }
  }

  /** The pins of slice i carry the values of the joints they are bound to. */
  predicate SlicePinned(ar: Arith, r: nat, j0: nat, i: nat, jv: JointId -> bool, pv: Binding -> bool)
    requires WellShaped(ar) && |ar.q| >= 2 && i < |ar.q|
  {
    var k, c, l := LutIdx(r, i), jv(Internal(j0 + 2 * i)), jv(Internal(j0 + 2 * i + 1));
    pv(CellPin(k, LutO)) == l && pv(CellPin(k, LutI0)) == jv(Cached(ar.a[i])) &&
    pv(CellPin(k, LutI1)) == jv(Cached(ar.b[i])) &&
    pv(CellPin(k + 1, XorCI)) == c && pv(CellPin(k + 1, XorLI)) == l && pv(CellPin(k + 1, XorO)) == jv(Cached(ar.q[i])) &&
    (i + 1 < |ar.q| ==>
       pv(CellPin(k + 2, MuxCI)) == c && pv(CellPin(k + 2, MuxS)) == l && pv(CellPin(k + 2, MuxDI)) == jv(Cached(ar.a[i]))) &&
    (i == 0 ==> pv(CellPin(r + 3, Port(0))) == c) &&
    (i >= 1 ==> pv(CellPin(CarryFrom(r, i), MuxO)) == c)
  }

  lemma HeadPins(ar: Arith, r: nat, j0: nat, ws: seq<Conn>, jv: JointId -> bool, pv: Binding -> bool)
    requires WellShaped(ar) && |ar.q| >= 2 && ws == HeadWires(ar, r, j0) && Wired(ws, jv, pv)
    ensures pv(CellPin(r, LutO)) == jv(Internal(j0 + 1)) && pv(CellPin(r, LutI0)) == jv(Cached(ar.a[0]))
    ensures pv(CellPin(r, LutI1)) == jv(Cached(ar.b[0])) && pv(CellPin(r + 1, XorCI)) == jv(Internal(j0))
    ensures pv(CellPin(r + 1, XorLI)) == jv(Internal(j0 + 1)) && pv(CellPin(r + 1, XorO)) == jv(Cached(ar.q[0]))
    ensures pv(CellPin(r + 2, MuxCI)) == jv(Internal(j0)) && pv(CellPin(r + 2, MuxS)) == jv(Internal(j0 + 1))
    ensures pv(CellPin(r + 2, MuxDI)) == jv(Cached(ar.a[0])) && pv(CellPin(r + 3, Port(0))) == jv(Internal(j0))
  {
    assert ws[0] in ws && ws[1] in ws && ws[2] in ws && ws[3] in ws && ws[4] in ws;
    assert ws[5] in ws && ws[6] in ws && ws[7] in ws && ws[8] in ws && ws[9] in ws;
  }

  lemma MidPins(ar: Arith, r: nat, j0: nat, i: nat, ws: seq<Conn>, jv: JointId -> bool, pv: Binding -> bool)
    requires WellShaped(ar) && 1 <= i && i + 1 < |ar.q|
    requires ws == MidWires(ar, i, LutIdx(r, i), j0 + 2 * i, CarryFrom(r, i)) && Wired(ws, jv, pv)
    ensures SlicePinned(ar, r, j0, i, jv, pv)
  {
    assert ws[0] in ws && ws[1] in ws && ws[2] in ws && ws[3] in ws && ws[4] in ws;
    assert ws[5] in ws && ws[6] in ws && ws[7] in ws && ws[8] in ws && ws[9] in ws;
  }

  lemma TopPins(ar: Arith, r: nat, j0: nat, i: nat, ws: seq<Conn>, jv: JointId -> bool, pv: Binding -> bool)
    requires WellShaped(ar) && 1 <= i && i + 1 == |ar.q|
    requires ws == TopWires(ar, i, LutIdx(r, i), j0 + 2 * i, CarryFrom(r, i)) && Wired(ws, jv, pv)
    ensures SlicePinned(ar, r, j0, i, jv, pv)
  {
    assert ws[0] in ws && ws[1] in ws && ws[2] in ws && ws[3] in ws;
    assert ws[4] in ws && ws[5] in ws && ws[6] in ws;
  }

  /** Every binding of slice i carries its joint's value to its pin. */
  lemma SlicePins(ar: Arith, r: nat, j0: nat, i: nat, jv: JointId -> bool, pv: Binding -> bool)
    requires WellShaped(ar) && |ar.q| >= 2 && i < |ar.q| && Wired(SliceWires(ar, i, r, j0), jv, pv)
    ensures SlicePinned(ar, r, j0, i, jv, pv)
  {
    var ws := SliceWires(ar, i, r, j0);
    if i == 0 {
      HeadPins(ar, r, j0, ws, jv, pv);
      assert LutIdx(r, i) == r;
    } else if i + 1 < |ar.q| {
      MidPins(ar, r, j0, i, ws, jv, pv);
    } else {
      TopPins(ar, r, j0, i, ws, jv, pv);
    }
  }

  /** A slice whose pins carry their joints' values and whose cells hold
      imposes its equations. */
  lemma SliceEqnsOf(ar: Arith, init: string, r: nat, j0: nat, i: nat, jv: JointId -> bool, pv: Binding -> bool)
    requires WellShaped(ar) && |ar.q| >= 2 && i < |ar.q|
    requires SlicePinned(ar, r, j0, i, jv, pv) && SliceHolds(ar, init, r, i, pv)
    ensures SliceEqns(ar, init, r, j0, i, jv, pv)
  {
    Lut2Pins(LutIdx(r, i), init, jv(Cached(ar.a[i])), jv(Cached(ar.b[i])), pv);
  }

  /** A slice present in a netlist imposes its equations on every
      valuation consistent with the netlist. */
  lemma SliceEqnsFrom(t: NetState, ar: Arith, init: string, r: nat, j0: nat, i: nat, jv: JointId -> bool,
                      pv: Binding -> bool)
    requires WellShaped(ar) && |ar.q| >= 2 && i < |ar.q| && SliceAt(t, ar, init, r, j0, i) && Behaves(t, jv, pv)
    ensures SliceEqns(ar, init, r, j0, i, jv, pv)
  {
    SliceWiredFrom(t, ar, init, r, j0, i, jv, pv);
    SliceHoldsFrom(t, ar, init, r, j0, i, pv);
    SlicePins(ar, r, j0, i, jv, pv);
    SliceEqnsOf(ar, init, r, j0, i, jv, pv);
  }

  /** What an ADD or SUB of w-bit operands of values a and b leaves in Q:
      the sum or the difference modulo 2^w. */
  function ArithValue(op: ArithOp, a: nat, b: nat, w: nat): int
    requires a < Pow2(w) && b < Pow2(w)
  {
    Reduce(if op == Add then a + b else a - b, Pow2(w))
  }

  /** For w-bit operands, ArithValue is the sum or the difference modulo 2^w. */
  lemma ArithValueMod(op: ArithOp, a: nat, b: nat, w: nat)
    requires a < Pow2(w) && b < Pow2(w)
    ensures ArithValue(op, a, b, w) == (if op == Add then (a + b) % Pow2(w) else (a - b) % Pow2(w))
  {
    ReduceIsMod(if op == Add then a + b else a - b, Pow2(w));
  }

  function Operand(op: ArithOp, b: seq<bool>): (y: seq<bool>)
    ensures |y| == |b|
  {
    if op == Add then b else Not(b)
  }

  /** The carries of a chain with joints from j0: the carry joint of each
      slice, then the carry out of the top slice (no cell computes it, so it
      is given by the MUXCY_L equation of that slice). */
  function Carries(ar: Arith, j0: nat, jv: JointId -> bool): (c: seq<bool>)
    requires WellShaped(ar) && |ar.q| >= 1
    ensures |c| == |ar.q| + 1
  {
    var w := |ar.q|;
    var top := MuxOut(jv(Internal(j0 + 2 * (w - 1) + 1)), jv(Cached(ar.a[w - 1])), jv(Internal(j0 + 2 * (w - 1))));
    seq(w + 1, i requires 0 <= i <= w => if i < w then jv(Internal(j0 + 2 * i)) else top)
  }

  /** Slice i, with the carry equation of slice i + 1, is one stage of the
      ripple-carry adder of A and Operand(B). */
  lemma SliceRipple(ar: Arith, r: nat, j0: nat, i: nat, jv: JointId -> bool, pv: Binding -> bool)
    requires WellShaped(ar) && |ar.q| >= 2 && i < |ar.q|
    requires forall k :: 0 <= k < |ar.q| ==> SliceEqns(ar, SliceInit(ar.op), r, j0, k, jv, pv)
    ensures var x, b, c := jv(Cached(ar.a[i])), jv(Cached(ar.b[i])), Carries(ar, j0, jv);
      var y := if ar.op == Add then b else !b;
      jv(Cached(ar.q[i])) == ((x != y) != c[i]) && c[i + 1] == (if x != y then c[i] else x)
  {
    assert SliceEqns(ar, SliceInit(ar.op), r, j0, i, jv, pv);
    PropagateInit(ar.op, jv(Cached(ar.a[i])), jv(Cached(ar.b[i])));
    if i + 1 < |ar.q| {
      assert SliceEqns(ar, SliceInit(ar.op), r, j0, i + 1, jv, pv);
      assert CarryFrom(r, i + 1) == LutIdx(r, i) + 2;
    }
  }

  /** A chain whose every slice imposes its equations is a ripple-carry
      adder of A and Operand(B) with carry in 0 for ADD and 1 for SUB. */
  lemma ChainRipples(ar: Arith, r: nat, j0: nat, jv: JointId -> bool, pv: Binding -> bool)
    requires WellShaped(ar) && |ar.q| >= 2
    requires forall i :: 0 <= i < |ar.q| ==> SliceEqns(ar, SliceInit(ar.op), r, j0, i, jv, pv)
    ensures RippleAdds(Read(jv, ar.a), Operand(ar.op, Read(jv, ar.b)), Read(jv, ar.q), Carries(ar, j0, jv))
    ensures Carries(ar, j0, jv)[0] == (ar.op == Sub)
  {
    var x, y, q, c := Read(jv, ar.a), Operand(ar.op, Read(jv, ar.b)), Read(jv, ar.q), Carries(ar, j0, jv);
    forall i | 0 <= i < |x|
      ensures q[i] == ((x[i] != y[i]) != c[i]) && c[i + 1] == (if x[i] != y[i] then c[i] else x[i])
    {
      SliceRipple(ar, r, j0, i, jv, pv);
    }
    assert SliceEqns(ar, SliceInit(ar.op), r, j0, 0, jv, pv);
  }

  /** A ripple-carry adder of x and Operand(op, b) with carry in 0 for ADD
      and 1 for SUB computes ArithValue. */
  lemma RippleArith(op: ArithOp, x: seq<bool>, b: seq<bool>, q: seq<bool>, c: seq<bool>)
    requires RippleAdds(x, Operand(op, b), q, c) && c[0] == (op == Sub)
    ensures Val(q) == ArithValue(op, Val(x), Val(b), |x|)
  {
    if op == Add {
      RippleSum(x, b, q, c);
    } else {
      RippleDiff(x, b, q, c);
    }
  }

  /** A chain whose every slice imposes its equations computes A + B or
      A - B modulo 2^W in Q. */
  lemma ChainComputes(ar: Arith, r: nat, j0: nat, jv: JointId -> bool, pv: Binding -> bool)
    requires WellShaped(ar) && |ar.q| >= 2
    requires forall i :: 0 <= i < |ar.q| ==> SliceEqns(ar, SliceInit(ar.op), r, j0, i, jv, pv)
    ensures Val(Read(jv, ar.q)) == ArithValue(ar.op, Val(Read(jv, ar.a)), Val(Read(jv, ar.b)), |ar.q|)
  {
    ChainRipples(ar, r, j0, jv, pv);
    RippleArith(ar.op, Read(jv, ar.a), Read(jv, ar.b), Read(jv, ar.q), Carries(ar, j0, jv));
  }

  /** A one-bit device outputs the table init at [A[0], B[0]]. */
  lemma HalfComputes(s: NetState, ar: Arith, init: string, jv: JointId -> bool, pv: Binding -> bool)
    requires WellShaped(ar) && |ar.q| == 1 && Behaves(HalfStep(s, ar, init), jv, pv)
    ensures jv(Cached(ar.q[0])) == LutOut(init, [jv(Cached(ar.a[0])), jv(Cached(ar.b[0]))])
  {
    var t, r, n := HalfStep(s, ar, init), |s.insts|, |s.conns|;
    assert t.conns[n] in t.conns && t.conns[n + 1] in t.conns && t.conns[n + 2] in t.conns;
    assert t.props[|s.props|] in t.props;
    assert LutHolds(t.insts[r], r, init, pv);
  }

  /** The hook implements ADD and SUB: under every valuation consistent
      with the netlist it leaves, Q holds A + B or A - B modulo 2^W. */
  lemma AddComputes(s: NetState, ar: Arith, jv: JointId -> bool, pv: Binding -> bool)
    requires WellShaped(ar) && |ar.q| >= 1 && Behaves(AddStep(s, ar).after, jv, pv)
    ensures Val(Read(jv, ar.q)) == ArithValue(ar.op, Val(Read(jv, ar.a)), Val(Read(jv, ar.b)), |ar.q|)
  {
    var w, init := |ar.q|, SliceInit(ar.op);
    if w == 1 {
      var a0, b0 := jv(Cached(ar.a[0])), jv(Cached(ar.b[0]));
      HalfComputes(s, ar, HalfSumInit, jv, pv);
      Table6();
      LutAt2("6", a0, b0);
      Val1(Read(jv, ar.q));
      Val1(Read(jv, ar.a));
      Val1(Read(jv, ar.b));
    } else {
      var t := AddSlices(s, ar, init, w);
      AddSlicesLayout(s, ar, init, w);
      forall i | 0 <= i < w ensures SliceEqns(ar, init, |s.insts|, |s.joints|, i, jv, pv) {
        SliceEqnsFrom(t, ar, init, |s.insts|, |s.joints|, i, jv, pv);
      }
      ChainComputes(ar, |s.insts|, |s.joints|, jv, pv);
    }
  }

  /** As written, a one-bit SUB is an XNOR: Q is the complement of the
      difference bit, under every valuation. */
  lemma HalfSubAsWritten(s: NetState, ar: Arith, jv: JointId -> bool, pv: Binding -> bool)
    requires WellShaped(ar) && |ar.q| == 1 && ar.op == Sub && Behaves(AddStepAsWritten(s, ar).after, jv, pv)
    ensures Val(Read(jv, ar.q)) == 1 - ArithValue(Sub, Val(Read(jv, ar.a)), Val(Read(jv, ar.b)), 1)
  {
    var a0, b0 := jv(Cached(ar.a[0])), jv(Cached(ar.b[0]));
    HalfComputes(s, ar, "9", jv, pv);
    Table9();
    LutAt2("9", a0, b0);
    Val1(Read(jv, ar.q));
    Val1(Read(jv, ar.a));
    Val1(Read(jv, ar.b));
  }

  /** The input that shows it: with A = B the difference is 0, yet the
      one-bit subtracter as written puts 1 on Q. */
  lemma HalfSubAsWrittenEqual(s: NetState, ar: Arith, jv: JointId -> bool, pv: Binding -> bool)
    requires WellShaped(ar) && |ar.q| == 1 && ar.op == Sub && Behaves(AddStepAsWritten(s, ar).after, jv, pv)
    requires jv(Cached(ar.a[0])) == jv(Cached(ar.b[0]))
    ensures ArithValue(Sub, Val(Read(jv, ar.a)), Val(Read(jv, ar.b)), 1) == 0 && Val(Read(jv, ar.q)) == 1
  {
    HalfSubAsWritten(s, ar, jv, pv);
    Val1(Read(jv, ar.a));
    Val1(Read(jv, ar.b));
  }
}
