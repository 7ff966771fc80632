/** virtex2_generic_dff: a register of D flip-flops.

    Each bit becomes one flip-flop: an FDCPE when the register has an
    asynchronous set and the set value's bit is '1', an FDCE otherwise. Q,
    D and the clock are always bound; CE when the register has an enable;
    CLR to the asynchronous clear when there is one. The asynchronous set
    goes to PRE on a bit whose set value is '1'; on any other bit it goes to
    CLR, which is then only allowed when there is no asynchronous clear. A
    set without a set value stops the mapper. */
module FlipFlops {
  import opened Wrappers
  import opened Edif
  import opened Circuit

  const NoSetValueReason := "asynchronous set without a set value"
  const TwoClearsReason := "asynchronous set of a 0 bit and asynchronous clear both need CLR"

  /** A D flip-flop LPM: its Q and data bits, clock, optional enable,
      asynchronous clear and set, and the set value's bits ('0', '1', 'x',
      'z'), one per Q bit. */
  datatype Dff = Dff(q: seq<Nexus>, data: seq<Nexus>, clk: Nexus, enable: Option<Nexus>,
                     aclr: Option<Nexus>, aset: Option<Nexus>, setBits: Option<string>)

  /** The shape the front end gives an LPM: one data bit per Q bit, and a
      set value as wide as the register. */
  predicate WellShaped(d: Dff)
  {
    |d.data| == |d.q| && (d.setBits.Some? ==> |d.setBits.value| >= |d.q|)
  }

  /** Bit idx is preset: there is a set and its value's bit is '1'. */
  predicate Presets(d: Dff, idx: nat)
    requires WellShaped(d) && idx < |d.q|
  {
    d.aset.Some? && d.setBits.Some? && d.setBits.value[idx] == '1'
  }

  function FfCell(d: Dff, idx: nat): CellKind
    requires WellShaped(d) && idx < |d.q|
  {
    if Presets(d, idx) then Fdcpe else Fdce
  }

  /** The flip-flop of bit idx with the pins every register binds the same
      way: Q, D, C, and CE and CLR when the register has them. */
  function FfBase(s: NetState, d: Dff, idx: nat): NetState
    requires WellShaped(d) && idx < |d.q|
  {
    var r := |s.insts|;
    var s1 := WithInstance(s, FfCell(d, idx));
    var s2 := WithConn(s1, Cached(d.q[idx]), r, FdceQ);
    var s3 := WithConn(s2, Cached(d.data[idx]), r, FdceD);
    var s4 := WithConn(s3, Cached(d.clk), r, FdceC);
    var s5 := if d.enable.Some? then WithConn(s4, Cached(d.enable.value), r, FdceCE) else s4;
    if d.aclr.Some? then WithConn(s5, Cached(d.aclr.value), r, FdceCLR) else s5
  }

  /** One iteration of the loop: the flip-flop of bit idx and its pins. */
  function DffBit(s: NetState, d: Dff, idx: nat): Step
    requires WellShaped(d) && idx < |d.q|
  {
    var r := |s.insts|;
    var s6 := FfBase(s, d, idx);
    if d.aset.None? then Emit(s6)
    else if Presets(d, idx) then Emit(WithConn(s6, Cached(d.aset.value), r, FdcePRE))
    else if d.aclr.Some? then Abort(TwoClearsReason)
    else Emit(WithConn(s6, Cached(d.aset.value), r, FdceCLR))
  }

  /** The flip-flops of the first count bits, in order. */
  function DffBits(s: NetState, d: Dff, count: nat): Step
    requires WellShaped(d) && count <= |d.q|
  {
    if count == 0 then Emit(s)
    else
      match DffBits(s, d, count - 1)
      case Emit(t) => DffBit(t, d, count - 1)
      case other => other
  }

  /** The whole hook. */
  function DffStep(s: NetState, d: Dff): Step
    requires WellShaped(d)
  {
    if d.aset.Some? && d.setBits.None? then Abort(NoSetValueReason)
    else DffBits(s, d, |d.q|)
  }

  /** The netlist the loop leaves after count bits: the flip-flops of the
      bits it placed and, for a bit whose set has to go to CLR while there is
      also a clear, that bit's flip-flop with its Q, D, C, CE and CLR pins,
      which are bound before the assertion stops the program. */
  function DffLeft(s: NetState, d: Dff, count: nat): NetState
    requires WellShaped(d) && count <= |d.q|
  {
    if count == 0 then s
    else
      match DffBits(s, d, count - 1)
      case Emit(t) =>
        (match DffBit(t, d, count - 1)
         case Emit(u) => u
         case _ => FfBase(t, d, count - 1))
      case _ => DffLeft(s, d, count - 1)
  }

  /** The netlist the hook leaves: unchanged when a set has no set value,
      since that is checked before the loop; otherwise what the loop leaves. */
  function DffStepLeft(s: NetState, d: Dff): NetState
    requires WellShaped(d)
  {
    if d.aset.Some? && d.setBits.None? then s else DffLeft(s, d, |d.q|)
  }

  /** The first part of one iteration of the loop of virtex2_generic_dff:
      the flip-flop and its Q, D, C, CE and CLR pins. */
  method PlaceFfBase(n: Netlist, d: Dff, idx: nat) returns (obj: nat)
    requires n.Valid() && WellShaped(d) && idx < |d.q| && (d.aset.Some? ==> d.setBits.Some?)
    modifies n`instances, n`conns
    ensures n.Valid() && obj == |old(n.State()).insts|
    ensures n.State() == FfBase(old(n.State()), d, idx)
  {
    if d.aset.Some? && d.setBits.value[idx] == '1' {
      obj := n.CreateInstance(Fdcpe);
    } else {
      obj := n.CreateInstance(Fdce);
    }
    var jnt := JointOfNexus(d.q[idx]);
    n.AddToJoint(jnt, obj, FdceQ);
    jnt := JointOfNexus(d.data[idx]);
    n.AddToJoint(jnt, obj, FdceD);
    jnt := JointOfNexus(d.clk);
    n.AddToJoint(jnt, obj, FdceC);
    if d.enable.Some? {
      jnt := JointOfNexus(d.enable.value);
      n.AddToJoint(jnt, obj, FdceCE);
    }
    if d.aclr.Some? {
      jnt := JointOfNexus(d.aclr.value);
      n.AddToJoint(jnt, obj, FdceCLR);
    }
  }

  /** One iteration of the loop of virtex2_generic_dff. */
  method PlaceFf(n: Netlist, d: Dff, idx: nat) returns (o: Outcome)
    requires n.Valid() && WellShaped(d) && idx < |d.q| && (d.aset.Some? ==> d.setBits.Some?)
    modifies n`instances, n`conns
    ensures n.Valid()
    ensures var st := DffBit(old(n.State()), d, idx);
      o == OutcomeOf(st) && (st.Emit? ==> n.State() == st.after) &&
      (st.Abort? ==> n.State() == FfBase(old(n.State()), d, idx))
  {
    var obj := PlaceFfBase(n, d, idx);
    var jnt;
    if d.aset.Some? {
      if d.setBits.value[idx] == '1' {
        jnt := JointOfNexus(d.aset.value);
        n.AddToJoint(jnt, obj, FdcePRE);
      } else {
        if d.aclr.Some? {
          return Fatal(TwoClearsReason);
        }
        jnt := JointOfNexus(d.aset.value);
        n.AddToJoint(jnt, obj, FdceCLR);
      }
    }
    o := Done;
  }

  /** virtex2_generic_dff. */
  method MapDff(n: Netlist, d: Dff) returns (o: Outcome)
    requires n.Valid() && WellShaped(d)
    modifies n`instances, n`conns
    ensures n.Valid()
    ensures var st := DffStep(old(n.State()), d);
      o == OutcomeOf(st) && (st.Emit? ==> n.State() == st.after)
    ensures n.State() == DffStepLeft(old(n.State()), d)
  {
    if d.aset.Some? && d.setBits.None? {
      return Fatal(NoSetValueReason);
    }
    ghost var s0 := n.State();
    var idx := 0;
    while idx < |d.q|
      invariant idx <= |d.q| && n.Valid()
      invariant DffBits(s0, d, idx) == Emit(n.State())
    {
      ghost var t := n.State();
      o := PlaceFf(n, d, idx);
      if o.Fatal? {
        DffBitsAbortStays(s0, d, idx + 1, |d.q|);
        assert DffLeft(s0, d, idx + 1) == FfBase(t, d, idx);
        DffLeftStays(s0, d, idx + 1, |d.q|);
        return;
      }
      idx := idx + 1;
    }
    DffLeftEmit(s0, d, |d.q|);
    o := Done;
  }

  /** What the loop leaves is the emitted netlist when every bit is placed. */
  lemma DffLeftEmit(s: NetState, d: Dff, count: nat)
    requires WellShaped(d) && count <= |d.q| && DffBits(s, d, count).Emit?
    ensures DffLeft(s, d, count) == DffBits(s, d, count).after
  {
  }

  /** Once a bit stops the program, the netlist stays as that bit left it. */
  lemma {:induction false} DffLeftStays(s: NetState, d: Dff, k: nat, m: nat)
    requires WellShaped(d) && k <= m <= |d.q| && DffBits(s, d, k).Abort?
    ensures DffLeft(s, d, m) == DffLeft(s, d, k)
    decreases m - k
  {
    if k < m {
      DffBitsAbortStays(s, d, k, m - 1);
      DffLeftStays(s, d, k, m - 1);
    }
  }

  /** When bit k is the first to stop the program, the netlist holds the
      flip-flops of bits 0..k-1 and bit k's flip-flop with its Q, D, C, CE
      and CLR pins bound. */
  lemma DffLeftAtConflict(s: NetState, d: Dff, k: nat, count: nat)
    requires WellShaped(d) && k < count <= |d.q| && DffBits(s, d, k).Emit?
    requires DffBit(DffBits(s, d, k).after, d, k).Abort?
    ensures DffLeft(s, d, count) == FfBase(DffBits(s, d, k).after, d, k)
  {
    DffLeftStays(s, d, k + 1, count);
  }

  /** Once a bit stops the mapper, the whole register does, for the same reason. */
  lemma {:induction false} DffBitsAbortStays(s: NetState, d: Dff, k: nat, m: nat)
    requires WellShaped(d) && k <= m <= |d.q| && DffBits(s, d, k).Abort?
    ensures DffBits(s, d, m) == DffBits(s, d, k)
    decreases m - k
  {
    if k < m {
      DffBitsAbortStays(s, d, k, m - 1);
    }
  }

  /** A bit stops the mapper exactly when its set must go to CLR and the
      register also has a clear. */
  predicate Conflicts(d: Dff, idx: nat)
    requires WellShaped(d) && idx < |d.q|
  {
    d.aset.Some? && !Presets(d, idx) && d.aclr.Some?
  }

  /** The loop stops exactly at a conflicting bit, and otherwise adds one
      flip-flop per bit. */
  lemma {:induction false} DffBitsOutcome(s: NetState, d: Dff, count: nat)
    requires WellShaped(d) && count <= |d.q|
    ensures DffBits(s, d, count).Emit? <==> forall i :: 0 <= i < count ==> !Conflicts(d, i)
    ensures DffBits(s, d, count).Emit? ==> |DffBits(s, d, count).after.insts| == |s.insts| + count
    ensures !DffBits(s, d, count).Emit? ==> DffBits(s, d, count) == Abort(TwoClearsReason)
  {
    if count > 0 {
      DffBitsOutcome(s, d, count - 1);
      var p := DffBits(s, d, count - 1);
      if p.Emit? {
        DffBitOutcome(p.after, d, count - 1);
        assert DffBits(s, d, count) == DffBit(p.after, d, count - 1);
      } else {
        assert DffBits(s, d, count) == p;
        var i :| 0 <= i < count - 1 && Conflicts(d, i);
      }
    }
  }

  /** A single bit stops exactly when it conflicts, and otherwise adds one
      instance. */
  lemma DffBitOutcome(s: NetState, d: Dff, idx: nat)
    requires WellShaped(d) && idx < |d.q|
    ensures DffBit(s, d, idx).Emit? <==> !Conflicts(d, idx)
    ensures DffBit(s, d, idx).Emit? ==> |DffBit(s, d, idx).after.insts| == |s.insts| + 1
    ensures !DffBit(s, d, idx).Emit? ==> DffBit(s, d, idx) == Abort(TwoClearsReason)
  {
    assert |FfBase(s, d, idx).insts| == |s.insts| + 1;
  }

  /** The bindings one flip-flop gets, as the Virtex-II cells name them:
      instance r's pins with the nets they join. */
  function FfWires(d: Dff, idx: nat, r: nat): seq<Conn>
    requires WellShaped(d) && idx < |d.q|
  {
    BaseWires(d, idx, r) +
    (if d.aset.Some? then [Conn(Cached(d.aset.value), CellPin(r, if Presets(d, idx) then FdcePRE else FdceCLR))] else [])
  }

  /** The bindings every flip-flop of the register gets on instance r. */
  function BaseWires(d: Dff, idx: nat, r: nat): seq<Conn>
    requires WellShaped(d) && idx < |d.q|
  {
    [Conn(Cached(d.q[idx]), CellPin(r, FdceQ)),
     Conn(Cached(d.data[idx]), CellPin(r, FdceD)),
     Conn(Cached(d.clk), CellPin(r, FdceC))] +
    (if d.enable.Some? then [Conn(Cached(d.enable.value), CellPin(r, FdceCE))] else []) +
    (if d.aclr.Some? then [Conn(Cached(d.aclr.value), CellPin(r, FdceCLR))] else [])
  }

  lemma FfBaseAppends(s: NetState, d: Dff, idx: nat)
    requires WellShaped(d) && idx < |d.q|
    ensures var t := FfBase(s, d, idx);
      t.insts == s.insts + [FfCell(d, idx)] && t.props == s.props && t.joints == s.joints &&
      t.conns == s.conns + BaseWires(d, idx, |s.insts|)
  {
    var r := |s.insts|;
    var base := [Conn(Cached(d.q[idx]), CellPin(r, FdceQ)), Conn(Cached(d.data[idx]), CellPin(r, FdceD)),
                 Conn(Cached(d.clk), CellPin(r, FdceC))];
    var ce := if d.enable.Some? then [Conn(Cached(d.enable.value), CellPin(r, FdceCE))] else [];
    var clr := if d.aclr.Some? then [Conn(Cached(d.aclr.value), CellPin(r, FdceCLR))] else [];
    assert s.conns + base == s.conns + [base[0]] + [base[1]] + [base[2]];
    assert FfBase(s, d, idx).conns == s.conns + base + ce + clr;
    assert s.conns + base + ce + clr == s.conns + (base + ce + clr);
  }

  /** A bit that does not conflict appends one flip-flop and exactly its
      bindings. */
  lemma DffBitAppends(s: NetState, d: Dff, idx: nat)
    requires WellShaped(d) && idx < |d.q| && !Conflicts(d, idx)
    ensures DffBit(s, d, idx).Emit?
    ensures var t := DffBit(s, d, idx).after;
      t.insts == s.insts + [FfCell(d, idx)] && t.props == s.props && t.joints == s.joints &&
      t.conns == s.conns + FfWires(d, idx, |s.insts|)
  {
    var r := |s.insts|;
    FfBaseAppends(s, d, idx);
    var st := if d.aset.Some? then [Conn(Cached(d.aset.value), CellPin(r, if Presets(d, idx) then FdcePRE else FdceCLR))] else [];
    assert FfWires(d, idx, r) == BaseWires(d, idx, r) + st;
    assert DffBit(s, d, idx).after.conns == s.conns + BaseWires(d, idx, r) + st;
  }

  /** The cells of the first count bits of a register, in order. */
  function RegCells(d: Dff, count: nat): seq<CellKind>
    requires WellShaped(d) && count <= |d.q|
  {
    if count == 0 then [] else RegCells(d, count - 1) + [FfCell(d, count - 1)]
  }

  /** The bindings of the first count bits, bit i on instance r + i. */
  function RegWires(d: Dff, count: nat, r: nat): seq<Conn>
    requires WellShaped(d) && count <= |d.q|
  {
    if count == 0 then [] else RegWires(d, count - 1, r) + FfWires(d, count - 1, r + count - 1)
  }

  /** A register with no conflicting bit becomes exactly its flip-flops,
      one per bit in bit order, with exactly their bindings; no property
      and no joint is added. */
  lemma {:induction false} DffBitsLayout(s: NetState, d: Dff, count: nat)
    requires WellShaped(d) && count <= |d.q| && forall i :: 0 <= i < count ==> !Conflicts(d, i)
    ensures DffBits(s, d, count).Emit?
    ensures var t := DffBits(s, d, count).after;
      t.insts == s.insts + RegCells(d, count) && t.props == s.props && t.joints == s.joints &&
      t.conns == s.conns + RegWires(d, count, |s.insts|)
  {
    if count > 0 {
      DffBitsLayout(s, d, count - 1);
      var p := DffBits(s, d, count - 1).after;
      LayoutStep(s, p, d, count);
      assert DffBits(s, d, count) == DffBit(p, d, count - 1);
    }
  }

  /** The induction step of DffBitsLayout: bit count - 1 on top of the
      earlier bits. */
  lemma LayoutStep(s: NetState, p: NetState, d: Dff, count: nat)
    requires WellShaped(d) && 0 < count <= |d.q| && !Conflicts(d, count - 1)
    requires p.insts == s.insts + RegCells(d, count - 1) && p.props == s.props && p.joints == s.joints &&
      p.conns == s.conns + RegWires(d, count - 1, |s.insts|)
    ensures DffBit(p, d, count - 1).Emit?
    ensures var t := DffBit(p, d, count - 1).after;
      t.insts == s.insts + RegCells(d, count) && t.props == s.props && t.joints == s.joints &&
      t.conns == s.conns + RegWires(d, count, |s.insts|)
  {
    DffBitAppends(p, d, count - 1);
    RegCellsLength(d, count - 1);
    var w := FfWires(d, count - 1, |p.insts|);
    var before := RegWires(d, count - 1, |s.insts|);
    assert RegWires(d, count, |s.insts|) == before + w;
    ConcatAssoc(s.conns, before, w);
    ConcatAssoc(s.insts, RegCells(d, count - 1), [FfCell(d, count - 1)]);
  }

  lemma ConcatAssoc<T>(a: seq<T>, b: seq<T>, c: seq<T>)
    ensures a + b + c == a + (b + c)
  {
  }

  lemma {:induction false} RegCellsLength(d: Dff, count: nat)
    requires WellShaped(d) && count <= |d.q|
    ensures |RegCells(d, count)| == count
  {
    if count > 0 {
      RegCellsLength(d, count - 1);
    }
  }

  /** The pins a flip-flop's bindings use: each is a pin of its cell (PRE
      only on an FDCPE), and no pin is bound twice — in particular CLR
      joins at most one net. */
  lemma FfWiresPins(d: Dff, idx: nat, r: nat)
    requires WellShaped(d) && idx < |d.q| && !Conflicts(d, idx)
    ensures var w := FfWires(d, idx, r);
      (forall c :: c in w ==> c.end.CellPin? && c.end.inst == r && c.end.pin in PinsOf(FfCell(d, idx))) &&
      (forall i, j :: 0 <= i < j < |w| ==> w[i].end != w[j].end)
  {
  }

  /** Which net each flip-flop pin joins, read off its bindings: Q, D and C
      the bit's Q and data nets and the clock; CE the enable; CLR the clear,
      or the set on a bit whose set value is not '1'; PRE the set on a bit
      whose set value is '1'. */
  lemma FfWiresNets(d: Dff, idx: nat, r: nat)
    requires WellShaped(d) && idx < |d.q| && !Conflicts(d, idx)
    ensures var w := FfWires(d, idx, r);
      Conn(Cached(d.q[idx]), CellPin(r, FdceQ)) in w && Conn(Cached(d.data[idx]), CellPin(r, FdceD)) in w &&
      Conn(Cached(d.clk), CellPin(r, FdceC)) in w &&
      (forall x: nat :: Conn(Cached(x), CellPin(r, FdceCE)) in w <==> d.enable == Some(x)) &&
      (forall x: nat :: Conn(Cached(x), CellPin(r, FdcePRE)) in w <==> Presets(d, idx) && d.aset == Some(x)) &&
      (forall x: nat :: Conn(Cached(x), CellPin(r, FdceCLR)) in w <==>
        d.aclr == Some(x) || (d.aset == Some(x) && !Presets(d, idx)))
  {
  }
}
