/** virtex2_pad: a signal with a PAD attribute is bound to device pads.

    The IPAD and OPAD library cells are declared the first time a pad is
    placed. The attribute's value is read as a comma separated list of
    unsigned decimal pin numbers, one per bit; a separator other than ','
    or the end of the string is fatal, a list shorter than the signal is
    not (the missing numbers read as 0). The numbers are not used further.
    Then every bit gets a pad instance and a buffer instance: an input bit
    an IPAD and an IBUF, an output bit an OPAD and an OBUF. A fresh joint,
    named after the bit, connects the pad's pin and the buffer's outer pin;
    the buffer's inner pin joins the joint of the bit's nexus. A pad
    signal that is neither input nor output is fatal. */
module Pads {
  import opened Wrappers
  import opened Edif
  import opened Circuit
  import opened Decimal
  import opened Design

  const BadSeparatorReason := "PAD pin list: a number is followed by neither ',' nor the end"
  const BadPadDirReason := "PAD signal is neither an input nor an output"

  /** An unsigned int holds a number modulo 2^32. */
  const UIntModulus: nat := 0x1_0000_0000

  function Prepend(p: seq<nat>, o: Option<seq<nat>>): Option<seq<nat>>
  {
    if o.None? then None else Some(p + o.value)
  }

  /** Where the next number starts when strtoul stopped at e: past a comma,
      or at the end. */
  function NextPos(str: string, e: nat): (r: nat)
    requires e <= |str|
    ensures r <= |str|
  {
    if e < |str| then e + 1 else e
  }

  /** The pin numbers the parse loop reads from str for count bits; None
      when a number is followed by neither ',' nor the end. */
  function ParsePins(str: string, count: nat): (r: Option<seq<nat>>)
    ensures r.Some? ==> |r.value| == count && forall k :: 0 <= k < count ==> r.value[k] < UIntModulus
    decreases count
  {
    if count == 0 then Some([])
    else
      var v := Strtoul(str);
      if v.1 < |str| && str[v.1] != ',' then None
      else Prepend([v.0 % UIntModulus], ParsePins(str[NextPos(str, v.1)..], count - 1))
  }

  lemma PrependSome(p: seq<nat>, o: Option<seq<nat>>, v: seq<nat>, a: Option<seq<nat>>, w: seq<nat>)
    requires o == Some(v) && a == Prepend(p, o) && w == p + v
    ensures a == Some(w)
  {
  }

  lemma PrependAssoc(p: seq<nat>, q: seq<nat>, o: Option<seq<nat>>)
    ensures Prepend(p, Prepend(q, o)) == Prepend(p + q, o)
    ensures Prepend([], o) == o
  {
    if o.Some? {
      assert p + (q + o.value) == (p + q) + o.value;
      assert [] + o.value == o.value;
    }
  }

  /** One round of the parse loop, in terms of what is left to read: v is
      what strtoul returns on rest. */
  lemma ParseRound(rest: string, c: nat, v: (nat, nat))
    requires c >= 1 && v == Strtoul(rest)
    ensures v.1 < |rest| && rest[v.1] != ',' ==> ParsePins(rest, c) == None
    ensures !(v.1 < |rest| && rest[v.1] != ',') ==>
      ParsePins(rest, c) == Prepend([v.0 % UIntModulus], ParsePins(rest[NextPos(rest, v.1)..], c - 1))
  {
  }

  /** The parse loop of virtex2_pad: each round reads a number and moves
      past it and its comma. */
  method ParsePinList(str: string, count: nat) returns (pins: seq<nat>, ok: bool)
    ensures ok <==> ParsePins(str, count).Some?
    ensures ok ==> pins == ParsePins(str, count).value
  {
    ghost var want := ParsePins(str, count);
    pins := [];
    PrependAssoc([], [], want);
    var rest := str;
    var idx: nat := 0;
    while idx < count
      invariant idx <= count && |pins| == idx
      invariant want == Prepend(pins, ParsePins(rest, count - idx))
    {
      RoundStep(pins, rest, count - idx);
      var v := Strtoul(rest);
      if v.1 < |rest| && rest[v.1] != ',' {
        return pins, false;
      }
      var pin: nat := v.0 % UIntModulus;
      pins := pins + [pin];
      rest := rest[NextPos(rest, v.1)..];
      idx := idx + 1;
    }
    PrependAssoc(pins, [], Some([]));
    ok := true;
  }

  /** One round of the parse loop, seen from the numbers read so far: a
      bad separator ends the parse with None, otherwise the number moves
      from what is left to what is read. */
  lemma RoundStep(pins: seq<nat>, rest: string, c: nat)
    requires c >= 1
    ensures var v := Strtoul(rest);
      v.1 < |rest| && rest[v.1] != ',' ==> Prepend(pins, ParsePins(rest, c)) == None
    ensures var v := Strtoul(rest);
      !(v.1 < |rest| && rest[v.1] != ',') ==>
        Prepend(pins, ParsePins(rest, c)) ==
        Prepend(pins + [v.0 % UIntModulus], ParsePins(rest[NextPos(rest, v.1)..], c - 1))
  {
    var v := Strtoul(rest);
    ParseRound(rest, c, v);
    if !(v.1 < |rest| && rest[v.1] != ',') {
      PrependAssoc(pins, [v.0 % UIntModulus], ParsePins(rest[NextPos(rest, v.1)..], c - 1));
    }
  }

  /** A pin list written the way the attribute expects it. */
  function JoinPins(ns: seq<nat>): string
  {
    if ns == [] then ""
    else if |ns| == 1 then NatToString(ns[0])
    else NatToString(ns[0]) + "," + JoinPins(ns[1..])
  }

  function Zeros(c: nat): (r: seq<nat>)
    ensures |r| == c && forall k :: 0 <= k < c ==> r[k] == 0
  {
    seq(c, _ => 0)
  }

  /** What reading back a written list of ns yields for c bits: its first
      c numbers, or all of them followed by zeros. */
  function ReadBack(ns: seq<nat>, c: nat): seq<nat>
  {
    if c <= |ns| then ns[..c] else ns + Zeros(c - |ns|)
  }

  lemma ReadBackCons(ns: seq<nat>, c: nat)
    requires |ns| >= 1 && c >= 1
    ensures ReadBack(ns, c) == [ns[0]] + ReadBack(ns[1..], c - 1)
  {
    if c <= |ns| {
      assert [ns[0]] + ns[1..][..c - 1] == ns[..c];
    } else {
      assert [ns[0]] + (ns[1..] + Zeros(c - |ns|)) == ns + Zeros(c - |ns|);
    }
  }

  /** A written list is read back: its first count numbers, or all of them
      followed by zeros when the signal has more bits than the list. */
  lemma {:induction false} ParseJoined(ns: seq<nat>, c: nat)
    requires forall k :: 0 <= k < |ns| ==> ns[k] < UIntModulus
    ensures ParsePins(JoinPins(ns), c) == Some(ReadBack(ns, c))
    decreases c, 1
  {
    if c == 0 {
    } else if ns == [] {
      ParseAtEnd(c);
      assert [] + Zeros(c) == Zeros(c);
    } else {
      ParseJoinedCons(ns, c);
    }
  }

  lemma {:induction false} ParseJoinedCons(ns: seq<nat>, c: nat)
    requires |ns| >= 1 && c >= 1 && forall k :: 0 <= k < |ns| ==> ns[k] < UIntModulus
    ensures ParsePins(JoinPins(ns), c) == Some(ReadBack(ns, c))
    decreases c, 0
  {
    ParseFirst(ns, c);
    TailBounded(ns);
    ParseJoined(ns[1..], c - 1);
    ReadBackCons(ns, c);
    PrependSome([ns[0]], ParsePins(JoinPins(ns[1..]), c - 1), ReadBack(ns[1..], c - 1), ParsePins(JoinPins(ns), c), ReadBack(ns, c));
  }

  lemma TailBounded(ns: seq<nat>)
    requires |ns| >= 1 && forall k :: 0 <= k < |ns| ==> ns[k] < UIntModulus
    ensures forall k :: 0 <= k < |ns[1..]| ==> ns[1..][k] < UIntModulus
  {
    forall k | 0 <= k < |ns[1..]| ensures ns[1..][k] < UIntModulus {
      assert ns[1..][k] == ns[k + 1];
    }
  }

  /** An exhausted list reads as zeros. */
  lemma {:induction false} ParseAtEnd(c: nat)
    ensures ParsePins("", c) == Some(Zeros(c))
    decreases c
  {
    if c > 0 {
      assert Strtoul("") == (0, 0);
      assert ""[0..] == "";
      ParseAtEnd(c - 1);
      assert [0] + Zeros(c - 1) == Zeros(c);
    }
  }

  /** The first number of a written list, and where its rest starts. */
  lemma ParseFirst(ns: seq<nat>, c: nat)
    requires |ns| >= 1 && ns[0] < UIntModulus && c >= 1
    ensures ParsePins(JoinPins(ns), c) == Prepend([ns[0]], ParsePins(JoinPins(ns[1..]), c - 1))
  {
    var s, t := JoinPins(ns), NatToString(ns[0]);
    var e;
    if |ns| == 1 {
      e := ReadLast(s, ns[0]);
    } else {
      e := ReadBeforeComma(s, ns[0], JoinPins(ns[1..]));
    }
    assert s[NextPos(s, e)..] == JoinPins(ns[1..]);
    ParseRound(s, c, Strtoul(s));
    assert ns[0] % UIntModulus == ns[0];
  }

  /** strtoul reads a whole rendered number. */
  lemma ReadLast(s: string, n: nat) returns (e: nat)
    requires s == NatToString(n) && n < UIntModulus
    ensures e == |s| && Strtoul(s) == (n, e) && s[NextPos(s, e)..] == ""
  {
    assert s[..|s|] == s;
    StrtoulRendered(s, n);
    e := |s|;
  }

  /** strtoul reads a rendered number up to the comma after it. */
  lemma ReadBeforeComma(s: string, n: nat, rest: string) returns (e: nat)
    requires s == NatToString(n) + "," + rest && n < UIntModulus
    ensures e < |s| && s[e] == ',' && Strtoul(s) == (n, e) && s[NextPos(s, e)..] == rest
  {
    var t := NatToString(n);
    assert s[..|t|] == t;
    assert s[|t|] == ',';
    StrtoulRendered(s, n);
    e := |t|;
    assert s[e + 1..] == rest;
  }

  /** A number followed by anything but ',' or a digit stops the mapper. */
  lemma ParseBadSeparator(s: string, n: nat, c: nat)
    requires n <= ULongMax && c >= 1
    requires |NatToString(n)| < |s| && s[..|NatToString(n)|] == NatToString(n)
    requires s[|NatToString(n)|] != ',' && !IsDigit(s[|NatToString(n)|])
    ensures ParsePins(s, c) == None
  {
    StrtoulRendered(s, n);
  }

  /** The name of the pad net of bit idx. */
  function PadName(sig: Signal, idx: nat): string
  {
    if |sig.pins| > 1 then BitName(sig.name, idx) else sig.name
  }

  function PadCell(dir: PortDir): CellKind
  {
    if dir == Input then Ipad else Opad
  }

  function BufCell(dir: PortDir): CellKind
  {
    if dir == Input then Ibuf else Obuf
  }

  /** The buffer pin on the pad net, and the one on the signal's net. */
  function PadSide(dir: PortDir): Pin
  {
    if dir == Input then BufI else BufO
  }

  function SignalSide(dir: PortDir): Pin
  {
    if dir == Input then BufO else BufI
  }

  /** The pad, buffer and nets of bit idx. */
  function PadBit(s: NetState, sig: Signal, idx: nat): Step
    requires idx < |sig.pins|
  {
    if sig.port == Input || sig.port == Output then
      var pad := |s.insts|;
      var s1 := WithInstance(s, PadCell(sig.port));
      var buf := |s1.insts|;
      var s2 := WithInstance(s1, BufCell(sig.port));
      var k := |s2.joints|;
      var s3 := WithJoint(s2);
      var s4 := WithName(s3, k, PadName(sig, idx));
      var s5 := WithConn(s4, Internal(k), pad, Port(0));
      var s6 := WithConn(s5, Internal(k), buf, PadSide(sig.port));
      Emit(WithConn(s6, Cached(sig.pins[idx]), buf, SignalSide(sig.port)))
    else
      Abort(BadPadDirReason)
  }

  /** The pads of the first count bits, placed in order. */
  function PadBits(s: NetState, sig: Signal, count: nat): Step
    requires count <= |sig.pins|
  {
    if count == 0 then Emit(s)
    else
      match PadBits(s, sig, count - 1)
      case Emit(t) => PadBit(t, sig, count - 1)
      case other => other
  }

  /** The whole of virtex2_pad after the pad cells exist. */
  function PadStep(s: NetState, sig: Signal, str: string): Step
  {
    if ParsePins(str, |sig.pins|).None? then Abort(BadSeparatorReason)
    else PadBits(s, sig, |sig.pins|)
  }

  /** Declares IPAD and OPAD unless they exist. */
  method DeclarePads(n: Netlist)
    requires n.Valid()
    modifies n`cells, n`ipadMade, n`opadMade
    ensures n.Valid() && n.ipadMade && n.opadMade
    ensures n.cells == old(n.cells) + (if old(n.ipadMade) then [] else [IpadDecl]) + (if old(n.opadMade) then [] else [OpadDecl])
  {
    if !n.ipadMade {
      n.DeclareIpad();
    }
    if !n.opadMade {
      n.DeclareOpad();
    }
  }

  /** One iteration of the pad loop. */
  method PlacePad(n: Netlist, sig: Signal, idx: nat)
    requires n.Valid() && idx < |sig.pins| && (sig.port == Input || sig.port == Output)
    modifies n`instances, n`joints, n`conns
    ensures n.Valid() && n.State() == PadBit(old(n.State()), sig, idx).after
  {
    if sig.port == Input {
      var pad := n.CreateInstance(Ipad);
      var buf := n.CreateInstance(Ibuf);
      var jnt := n.CreateJoint();
      n.RenameJoint(jnt, PadName(sig, idx));
      n.AddToJoint(jnt, pad, Port(0));
      n.AddToJoint(jnt, buf, BufI);
      jnt := JointOfNexus(sig.pins[idx]);
      n.AddToJoint(jnt, buf, BufO);
    } else {
      var pad := n.CreateInstance(Opad);
      var buf := n.CreateInstance(Obuf);
      var jnt := n.CreateJoint();
      n.RenameJoint(jnt, PadName(sig, idx));
      n.AddToJoint(jnt, pad, Port(0));
      n.AddToJoint(jnt, buf, BufO);
      jnt := JointOfNexus(sig.pins[idx]);
      n.AddToJoint(jnt, buf, BufI);
    }
  }

  /** The pad loop of virtex2_pad. */
  method PlacePads(n: Netlist, sig: Signal) returns (o: Outcome)
    requires n.Valid()
    modifies n`instances, n`joints, n`conns
    ensures n.Valid()
    ensures var st := PadBits(old(n.State()), sig, |sig.pins|);
      o == OutcomeOf(st) && (st.Emit? ==> n.State() == st.after) && (!st.Emit? ==> n.State() == old(n.State()))
  {
    ghost var s0 := n.State();
    var idx := 0;
    while idx < |sig.pins|
      invariant idx <= |sig.pins| && n.Valid()
      invariant PadBits(s0, sig, idx) == Emit(n.State())
      invariant idx > 0 ==> sig.port == Input || sig.port == Output
    {
      if sig.port != Input && sig.port != Output {
        PadBitsOutcome(s0, sig, |sig.pins|);
        return Fatal(BadPadDirReason);
      }
      PlacePad(n, sig, idx);
      idx := idx + 1;
    }
    o := Done;
  }

  /** virtex2_pad. */
  method MapPad(n: Netlist, sig: Signal, str: string) returns (o: Outcome)
    requires n.Valid()
    modifies n`cells, n`ipadMade, n`opadMade, n`instances, n`joints, n`conns
    ensures n.Valid() && n.ipadMade && n.opadMade
    ensures n.cells == old(n.cells) + (if old(n.ipadMade) then [] else [IpadDecl]) + (if old(n.opadMade) then [] else [OpadDecl])
    ensures var st := PadStep(old(n.State()), sig, str);
      o == OutcomeOf(st) && (st.Emit? ==> n.State() == st.after) && (!st.Emit? ==> n.State() == old(n.State()))
  {
    DeclarePads(n);
    var pins, ok := ParsePinList(str, |sig.pins|);
    if !ok {
      return Fatal(BadSeparatorReason);
    }
    o := PlacePads(n, sig);
  }

  /** The pads are placed exactly when the signal is an input or an output
      (or has no bits); otherwise the first bit stops the mapper. */
  lemma {:induction false} PadBitsOutcome(s: NetState, sig: Signal, count: nat)
    requires count <= |sig.pins|
    ensures PadBits(s, sig, count).Emit? <==> count == 0 || sig.port == Input || sig.port == Output
    ensures !PadBits(s, sig, count).Emit? ==> PadBits(s, sig, count) == Abort(BadPadDirReason)
  {
    if count > 0 {
      PadBitsOutcome(s, sig, count - 1);
    }
  }

  /** Bit i's instances, its named pad net and its three bindings, at the
      places the pad loop creates them starting from s. */
  predicate PadBitAt(s: NetState, t: NetState, sig: Signal, i: nat)
    requires i < |sig.pins|
  {
    var r := |s.insts| + 2 * i;
    var k := |s.joints| + i;
    var c := |s.conns| + 3 * i;
    r + 1 < |t.insts| && t.insts[r] == PadCell(sig.port) && t.insts[r + 1] == BufCell(sig.port) &&
    k < |t.joints| && t.joints[k] == Some(PadName(sig, i)) &&
    c + 2 < |t.conns| && t.conns[c] == Conn(Internal(k), CellPin(r, Port(0))) &&
    t.conns[c + 1] == Conn(Internal(k), CellPin(r + 1, PadSide(sig.port))) &&
    t.conns[c + 2] == Conn(Cached(sig.pins[i]), CellPin(r + 1, SignalSide(sig.port)))
  }

  lemma PadBitAtExtends(s: NetState, t: NetState, u: NetState, sig: Signal, i: nat)
    requires i < |sig.pins| && PadBitAt(s, t, sig, i) && Extends(t, u)
    ensures PadBitAt(s, u, sig, i)
  {
    var r, k, c := |s.insts| + 2 * i, |s.joints| + i, |s.conns| + 3 * i;
    assert u.insts[r] == u.insts[..|t.insts|][r] && u.insts[r + 1] == u.insts[..|t.insts|][r + 1];
    assert u.joints[k] == u.joints[..|t.joints|][k];
    assert u.conns[c] == u.conns[..|t.conns|][c] && u.conns[c + 1] == u.conns[..|t.conns|][c + 1];
    assert u.conns[c + 2] == u.conns[..|t.conns|][c + 2];
  }

  /** One bit appends two instances, one joint and three bindings, laid
      out as PadBitAt says. */
  lemma PadBitShape(s: NetState, t: NetState, sig: Signal, idx: nat)
    requires idx < |sig.pins| && PadBit(t, sig, idx).Emit?
    requires |t.insts| == |s.insts| + 2 * idx && |t.joints| == |s.joints| + idx && |t.conns| == |s.conns| + 3 * idx
    ensures var u := PadBit(t, sig, idx).after;
      Extends(t, u) && |u.insts| == |t.insts| + 2 && |u.joints| == |t.joints| + 1 &&
      |u.conns| == |t.conns| + 3 && PadBitAt(s, u, sig, idx)
  {
    var s1 := WithInstance(t, PadCell(sig.port));
    var s2 := WithInstance(s1, BufCell(sig.port));
    var k := |s2.joints|;
    var s4 := WithName(WithJoint(s2), k, PadName(sig, idx));
    var s5 := WithConn(s4, Internal(k), |t.insts|, Port(0));
    var s6 := WithConn(s5, Internal(k), |s1.insts|, PadSide(sig.port));
    var u := WithConn(s6, Cached(sig.pins[idx]), |s1.insts|, SignalSide(sig.port));
    ExtendsInstance(t, PadCell(sig.port));
    ExtendsInstance(s1, BufCell(sig.port));
    ExtendsNamedJoint(s2, PadName(sig, idx));
    ExtendsConn(s4, Internal(k), |t.insts|, Port(0));
    ExtendsConn(s5, Internal(k), |s1.insts|, PadSide(sig.port));
    ExtendsConn(s6, Cached(sig.pins[idx]), |s1.insts|, SignalSide(sig.port));
    ExtendsTrans(t, s1, s2);
    ExtendsTrans(t, s2, s4);
    ExtendsTrans(t, s4, s5);
    ExtendsTrans(t, s5, s6);
    ExtendsTrans(t, s6, u);
    assert u == PadBit(t, sig, idx).after;
  }

  /** The pad loop lays out every bit at its place, and only appends. */
  lemma {:induction false} PadBitsLayout(s: NetState, sig: Signal, count: nat)
    requires count <= |sig.pins| && PadBits(s, sig, count).Emit?
    ensures var t := PadBits(s, sig, count).after;
      Extends(s, t) && |t.insts| == |s.insts| + 2 * count && |t.joints| == |s.joints| + count &&
      |t.conns| == |s.conns| + 3 * count &&
      forall i :: 0 <= i < count ==> PadBitAt(s, t, sig, i)
  {
    if count == 0 {
      assert s.insts[..|s.insts|] == s.insts && s.props[..|s.props|] == s.props;
      assert s.conns[..|s.conns|] == s.conns && s.joints[..|s.joints|] == s.joints;
    } else {
      PadBitsLayout(s, sig, count - 1);
      var t := PadBits(s, sig, count - 1).after;
      var u := PadBit(t, sig, count - 1).after;
      PadBitShape(s, t, sig, count - 1);
      ExtendsTrans(s, t, u);
      forall i | 0 <= i < count - 1 ensures PadBitAt(s, u, sig, i) {
        PadBitAtExtends(s, t, u, sig, i);
      }
    }
  }

  /** The buffer of a placed bit carries its nexus's value to its pad net. */
  lemma PadBitDrives(s: NetState, t: NetState, sig: Signal, i: nat, jv: JointId -> bool, pv: Binding -> bool)
    requires i < |sig.pins| && PadBitAt(s, t, sig, i) && Behaves(t, jv, pv)
    ensures Conn(Internal(|s.joints| + i), CellPin(|s.insts| + 2 * i, Port(0))) in t.conns
    ensures jv(Internal(|s.joints| + i)) == jv(Cached(sig.pins[i]))
  {
    var r, c := |s.insts| + 2 * i, |s.conns| + 3 * i;
    assert t.conns[c] in t.conns && t.conns[c + 1] in t.conns && t.conns[c + 2] in t.conns;
    assert CellHolds(t.insts[r + 1], r + 1, pv);
  }

  /** Bit i's pad net, made from s, is named after the bit, holds the pad's
      pin and carries the value of the bit's nexus. */
  predicate PadNetDriven(s: NetState, t: NetState, sig: Signal, i: nat, jv: JointId -> bool)
    requires i < |sig.pins|
  {
    var k := |s.joints| + i;
    k < |t.joints| && t.joints[k] == Some(PadName(sig, i)) &&
    Conn(Internal(k), CellPin(|s.insts| + 2 * i, Port(0))) in t.conns &&
    jv(Internal(k)) == jv(Cached(sig.pins[i]))
  }

  /** Under every valuation consistent with the netlist, each bit's named
      pad net carries the value of the bit's nexus, and the pad's pin is on
      that net. */
  lemma PadsDrive(s: NetState, sig: Signal, jv: JointId -> bool, pv: Binding -> bool)
    requires PadBits(s, sig, |sig.pins|).Emit? && Behaves(PadBits(s, sig, |sig.pins|).after, jv, pv)
    ensures forall i :: 0 <= i < |sig.pins| ==> PadNetDriven(s, PadBits(s, sig, |sig.pins|).after, sig, i, jv)
  {
    PadBitsLayout(s, sig, |sig.pins|);
    PadsDriveAt(s, PadBits(s, sig, |sig.pins|).after, sig, jv, pv);
  }

  lemma PadsDriveAt(s: NetState, t: NetState, sig: Signal, jv: JointId -> bool, pv: Binding -> bool)
    requires Behaves(t, jv, pv) && forall i :: 0 <= i < |sig.pins| ==> PadBitAt(s, t, sig, i)
    ensures forall i :: 0 <= i < |sig.pins| ==> PadNetDriven(s, t, sig, i, jv)
  {
    forall i | 0 <= i < |sig.pins| ensures PadNetDriven(s, t, sig, i, jv) {
      PadBitDrives(s, t, sig, i, jv, pv);
    }
  }
}
