/** virtex2_show_header and virtex2_show_footer: the design ports, the
    device library, and the tie-off of constant nets.

    Every signal of the root scope that is a port and carries no PAD
    attribute becomes design ports, one per bit, numbered consecutively in
    the order of the signals: a one-bit signal is named by its base name,
    a wider one gets "name[bit]" for each bit. Each port is bound to the
    joint of its bit's nexus. After all elements are mapped, every bit of
    every constant is driven by a fresh GND instance ('0') or VCC
    instance ('1'). */
module Design {
  import opened Wrappers
  import opened Edif
  import opened Circuit
  import opened Decimal

  /** A signal of the root scope: its base name, its port direction (NoPort
      for a signal that is not a port), its PAD attribute, and its pins. */
  datatype Signal = Signal(name: string, port: PortDir, pad: Option<string>, pins: seq<Nexus>)

  /** The signal becomes design ports: it is a port and has no PAD attribute. */
  predicate IsPort(sig: Signal)
  {
    sig.port != NoPort && sig.pad.None?
  }

  /** One design port: its name, its direction and the nexus of its bit. */
  datatype PortEntry = PortEntry(name: string, dir: PortDir, nexus: Nexus)

  /** The name of bit `bit` of a wide signal: sprintf "%s[%u]". */
  function BitName(name: string, bit: nat): string
  {
    name + "[" + NatToString(bit) + "]"
  }

  /** The ports one signal contributes. */
  function SigEntries(sig: Signal): (r: seq<PortEntry>)
    ensures |r| == if IsPort(sig) then |sig.pins| else 0
  {
    if !IsPort(sig) then []
    else if |sig.pins| == 1 then [PortEntry(sig.name, sig.port, sig.pins[0])]
    else seq(|sig.pins|, b requires 0 <= b < |sig.pins| => PortEntry(BitName(sig.name, b), sig.port, sig.pins[b]))
  }

  /** The ports of a list of signals, numbered from 0 in order. */
  function PortEntries(sigs: seq<Signal>): seq<PortEntry>
  {
    if sigs == [] then [] else PortEntries(sigs[..|sigs| - 1]) + SigEntries(sigs[|sigs| - 1])
  }

  /** The number of ports the counting loop arrives at: the widths of the
      signals that become ports, summed. */
  function PortCount(sigs: seq<Signal>): nat
  {
    if sigs == [] then 0
    else
      var last := sigs[|sigs| - 1];
      PortCount(sigs[..|sigs| - 1]) + (if IsPort(last) then |last.pins| else 0)
  }

  /** The port declarations of a list of ports. */
  function PortMap(es: seq<PortEntry>): map<nat, PortDecl>
  {
    map i | 0 <= i < |es| :: PortDecl(es[i].name, es[i].dir)
  }

  /** Port i on the joint of the nexus of its bit. */
  function PortConns(es: seq<PortEntry>): seq<Conn>
  {
    seq(|es|, i requires 0 <= i < |es| => Conn(Cached(es[i].nexus), PortPin(i)))
  }

  const GndDecl := CellDecl("GND", [PortDecl("GROUND", Output)])
  const VccDecl := CellDecl("VCC", [PortDecl("VCC", Output)])

  /** The cells the VIRTEX2 library can make on demand. */
  const CellTable: seq<string> := ["BUFG", "MULT_AND"]

  // ---------------------------------------------------------------------
  // Properties of the port numbering.

  /** The ports counted first are exactly the ports numbered afterwards,
      which is what the assertion pidx == nports checks. */
  lemma {:induction false} PortCountIsEntries(sigs: seq<Signal>)
    ensures PortCount(sigs) == |PortEntries(sigs)|
  {
    if sigs != [] {
      PortCountIsEntries(sigs[..|sigs| - 1]);
    }
  }

  /** The ports of the first i signals come first. */
  lemma {:induction false} EntriesPrefix(sigs: seq<Signal>, i: nat)
    requires i <= |sigs|
    ensures |PortEntries(sigs[..i])| <= |PortEntries(sigs)|
    ensures PortEntries(sigs)[..|PortEntries(sigs[..i])|] == PortEntries(sigs[..i])
    decreases |sigs|
  {
    if i < |sigs| {
      var front := sigs[..|sigs| - 1];
      assert front[..i] == sigs[..i];
      EntriesPrefix(front, i);
      var e := PortEntries(front);
      assert PortEntries(sigs) == e + SigEntries(sigs[|sigs| - 1]);
      assert (e + SigEntries(sigs[|sigs| - 1]))[..|e|] == e;
    } else {
      assert sigs[..i] == sigs;
    }
  }

  /** Bit b of a port signal: its port has the bit's nexus and the signal's
      direction, and is named by the base name (one bit) or "name[b]". */
  lemma SigEntry(sig: Signal, b: nat)
    requires IsPort(sig) && b < |sig.pins|
    ensures SigEntries(sig)[b] ==
            PortEntry(if |sig.pins| == 1 then sig.name else BitName(sig.name, b), sig.port, sig.pins[b])
  {
  }

  /** Bit b of signal number i becomes port |PortEntries(sigs[..i])| + b:
      the ports are numbered after all ports of earlier signals, the bits
      in order. */
  lemma PortOfBit(sigs: seq<Signal>, i: nat, b: nat)
    requires i < |sigs| && IsPort(sigs[i]) && b < |sigs[i].pins|
    ensures var k := |PortEntries(sigs[..i])| + b;
      k < |PortEntries(sigs)| && PortEntries(sigs)[k] == SigEntries(sigs[i])[b]
  {
    PortEntriesSnoc(sigs, i);
    EntriesPrefix(sigs, i + 1);
    PrefixIndex(PortEntries(sigs), PortEntries(sigs[..i]), SigEntries(sigs[i]), b);
  }

  /** The first i + 1 signals contribute the ports of the first i and then
      those of signal i. */
  lemma PortEntriesSnoc(sigs: seq<Signal>, i: nat)
    requires i < |sigs|
    ensures PortEntries(sigs[..i + 1]) == PortEntries(sigs[..i]) + SigEntries(sigs[i])
  {
    var upto := sigs[..i + 1];
    assert upto[..i] == sigs[..i] && upto[i] == sigs[i];
  }

  lemma PrefixIndex(all: seq<PortEntry>, e: seq<PortEntry>, se: seq<PortEntry>, b: nat)
    requires |e| + |se| <= |all| && all[..|e| + |se|] == e + se && b < |se|
    ensures |e| + b < |all| && all[|e| + b] == se[b]
  {
    assert (e + se)[|e| + b] == se[b];
    assert all[|e| + b] == all[..|e| + |se|][|e| + b];
  }

  /** The bit names of a wide signal are distinct. */
  lemma BitNamesDistinct(name: string, a: nat, b: nat)
    requires BitName(name, a) == BitName(name, b)
    ensures a == b
  {
    var sa, sb := NatToString(a), NatToString(b);
    var p := name + "[";
    assert BitName(name, a) == p + (sa + "]") && BitName(name, b) == p + (sb + "]");
    assert (p + (sa + "]"))[|p|..] == sa + "]";
    assert (p + (sb + "]"))[|p|..] == sb + "]";
    assert (sa + "]")[..|sa|] == sa;
    assert |sa| == |sb|;
    assert (sb + "]")[..|sb|] == sb;
    NatToStringInjective(a, b);
  }

  lemma PortMapSnoc(es: seq<PortEntry>, e: PortEntry)
    ensures PortMap(es + [e]) == PortMap(es)[|es| := PortDecl(e.name, e.dir)]
  {
    var l, r := PortMap(es + [e]), PortMap(es)[|es| := PortDecl(e.name, e.dir)];
    assert l.Keys == r.Keys;
    forall i | i in l.Keys ensures l[i] == r[i] {
      if i < |es| { assert (es + [e])[i] == es[i]; }
    }
  }

  lemma PortConnsSnoc(es: seq<PortEntry>, e: PortEntry)
    ensures PortConns(es + [e]) == PortConns(es) + [Conn(Cached(e.nexus), PortPin(|es|))]
  {
    assert (es + [e])[|es|] == e;
    forall i | 0 <= i < |es| ensures PortConns(es + [e])[i] == PortConns(es)[i] {
      assert (es + [e])[i] == es[i];
    }
  }

  /** Configuring entry bit of es after done and es[..bit]. */
  lemma EntriesSnoc(done: seq<PortEntry>, es: seq<PortEntry>, bit: nat)
    requires bit < |es|
    ensures PortMap(done + es[..bit + 1]) ==
            PortMap(done + es[..bit])[|done| + bit := PortDecl(es[bit].name, es[bit].dir)]
    ensures PortConns(done + es[..bit + 1]) ==
            PortConns(done + es[..bit]) + [Conn(Cached(es[bit].nexus), PortPin(|done| + bit))]
  {
    PortMapSnoc(done + es[..bit], es[bit]);
    PortConnsSnoc(done + es[..bit], es[bit]);
    assert done + es[..bit + 1] == done + es[..bit] + [es[bit]];
  }

  // ---------------------------------------------------------------------
  // virtex2_show_header.

  /** The first loop of virtex2_show_header: counts the ports. */
  method CountPorts(sigs: seq<Signal>) returns (nports: nat)
    ensures nports == PortCount(sigs) == |PortEntries(sigs)|
  {
    nports := 0;
    var idx := 0;
    while idx < |sigs|
      invariant 0 <= idx <= |sigs| && nports == PortCount(sigs[..idx])
    {
      assert sigs[..idx + 1][..idx] == sigs[..idx];
      var sig := sigs[idx];
      if sig.port != NoPort && sig.pad.None? {
        nports := nports + |sig.pins|;
      }
      idx := idx + 1;
    }
    assert sigs[..idx] == sigs;
    PortCountIsEntries(sigs);
  }

  /** The port loop for one signal: its ports, numbered from pidx. */
  method ConfigPorts(n: Netlist, sig: Signal, pidx: nat, ghost done: seq<PortEntry>)
    requires n.Valid() && IsPort(sig) && pidx == |done| && pidx + |sig.pins| <= n.nports
    requires n.ports == PortMap(done) && n.conns == PortConns(done)
    modifies n`ports, n`conns
    ensures n.Valid()
    ensures n.ports == PortMap(done + SigEntries(sig)) && n.conns == PortConns(done + SigEntries(sig))
  {
    var es := SigEntries(sig);
    if |sig.pins| == 1 {
      n.PortConfig(pidx, sig.name, sig.port);
      n.PortToJoint(JointOfNexus(sig.pins[0]), pidx);
      PortMapSnoc(done, es[0]);
      PortConnsSnoc(done, es[0]);
      assert done + es == done + [es[0]];
    } else {
      var bit := 0;
      while bit < |sig.pins|
        invariant 0 <= bit <= |sig.pins| && n.Valid()
        invariant n.ports == PortMap(done + es[..bit]) && n.conns == PortConns(done + es[..bit])
      {
        n.PortConfig(pidx + bit, BitName(sig.name, bit), sig.port);
        n.PortToJoint(JointOfNexus(sig.pins[bit]), pidx + bit);
        SigEntry(sig, bit);
        EntriesSnoc(done, es, bit);
        bit := bit + 1;
      }
      assert es[..bit] == es;
    }
  }

  /** The second loop of virtex2_show_header: numbers and binds the ports. */
  method NumberPorts(n: Netlist, sigs: seq<Signal>)
    requires n.Valid() && n.nports == |PortEntries(sigs)| && n.ports == map[] && n.conns == []
    modifies n`ports, n`conns
    ensures n.Valid()
    ensures n.ports == PortMap(PortEntries(sigs)) && n.conns == PortConns(PortEntries(sigs))
  {
    var pidx := 0;
    var idx := 0;
    ghost var done: seq<PortEntry> := [];
    assert PortMap([]) == map[];
    while idx < |sigs|
      invariant 0 <= idx <= |sigs| && done == PortEntries(sigs[..idx]) && pidx == |done|
      invariant n.Valid() && n.ports == PortMap(done) && n.conns == PortConns(done)
    {
      var sig := sigs[idx];
      ghost var next := PortEntries(sigs[..idx + 1]);
      NumberStep(sigs, idx);
      if sig.port != NoPort && sig.pad.None? {
        ConfigPorts(n, sig, pidx, done);
        pidx := pidx + |sig.pins|;
      }
      done := next;
      idx := idx + 1;
    }
    assert sigs[..idx] == sigs;
    assert pidx == n.nports;
  }

  /** One step of the numbering loop: signal i adds its own ports, which fit
      among those of all the signals, and a signal that is no port adds none. */
  lemma NumberStep(sigs: seq<Signal>, i: nat)
    requires i < |sigs|
    ensures var next := PortEntries(sigs[..i + 1]);
      next == PortEntries(sigs[..i]) + SigEntries(sigs[i]) &&
      |next| <= |PortEntries(sigs)| &&
      (!IsPort(sigs[i]) ==> next == PortEntries(sigs[..i]))
  {
    PortEntriesSnoc(sigs, i);
    EntriesPrefix(sigs, i + 1);
    if !IsPort(sigs[i]) {
      assert SigEntries(sigs[i]) == [];
    }
  }

  /** virtex2_show_header: a new netlist named after the root scope with
      one port per bit of every port signal, the VIRTEX2 library with its
      cell table, the PART property when the part flag is set and not
      empty, and the GND and VCC cells. */
  method ShowHeader(design: string, sigs: seq<Signal>, part: Option<string>) returns (n: Netlist)
    ensures fresh(n) && n.Valid() && n.design == design
    ensures n.nports == PortCount(sigs)
    ensures n.ports == PortMap(PortEntries(sigs)) && n.conns == PortConns(PortEntries(sigs))
    ensures n.instances == [] && n.cellProps == [] && n.joints == []
    ensures n.libName == Some("VIRTEX2") && n.celltable == CellTable
    ensures n.props == if part.Some? && part.value != "" then [Property("PART", part.value)] else []
    ensures n.cells == [GndDecl, VccDecl] && !n.ipadMade && !n.opadMade
  {
    var nports := CountPorts(sigs);
    n := new Netlist(design, nports);
    NumberPorts(n, sigs);
    DeclareLibrary(n, part);
  }

  /** The library part of virtex2_show_header. */
  method DeclareLibrary(n: Netlist, part: Option<string>)
    requires n.Valid() && n.props == [] && n.cells == [] && !n.ipadMade && !n.opadMade
    modifies n`libName, n`celltable, n`props, n`cells
    ensures n.Valid()
    ensures n.libName == Some("VIRTEX2") && n.celltable == CellTable
    ensures n.props == if part.Some? && part.value != "" then [Property("PART", part.value)] else []
    ensures n.cells == [GndDecl, VccDecl]
  {
    n.CreateLibrary("VIRTEX2", CellTable);
    if part.Some? && part.value != "" {
      n.SetProperty("PART", part.value);
    }
    n.DeclareCell(GndDecl);
    n.DeclareCell(VccDecl);
  }

  // ---------------------------------------------------------------------
  // virtex2_show_footer.

  /** A constant net of the design: its bits as characters, one per pin. */
  datatype Const = Const(bits: string, pins: seq<Nexus>)

  predicate WellShaped(cs: seq<Const>)
  {
    forall i :: 0 <= i < |cs| ==> |cs[i].bits| == |cs[i].pins|
  }

  const BadBitReason := "a constant bit is neither 0 nor 1"

  /** Tie off the first count pins of constant c. */
  function TieConst(s: NetState, c: Const, count: nat): Step
    requires count <= |c.pins| == |c.bits|
  {
    if count == 0 then Emit(s)
    else
      match TieConst(s, c, count - 1)
      case Emit(t) =>
        var k := count - 1;
        if c.bits[k] == '0' then Emit(WithConn(WithInstance(t, Gnd), JointOfNexus(c.pins[k]), |t.insts|, Port(0)))
        else if c.bits[k] == '1' then Emit(WithConn(WithInstance(t, Vcc), JointOfNexus(c.pins[k]), |t.insts|, Port(0)))
        else Abort(BadBitReason)
      case other => other
  }

  /** Tie off every pin of the first count constants. */
  function TieConsts(s: NetState, cs: seq<Const>, count: nat): Step
    requires count <= |cs| && WellShaped(cs)
  {
    if count == 0 then Emit(s)
    else
      match TieConsts(s, cs, count - 1)
      case Emit(t) => TieConst(t, cs[count - 1], |cs[count - 1].pins|)
      case other => other
  }

  /** The netlist the tie-off of constant c leaves after count pins: every
      pin tied, or the pins before the first bad bit when one stops the
      program. */
  function TieConstLeft(s: NetState, c: Const, count: nat): NetState
    requires count <= |c.pins| == |c.bits|
  {
    if count == 0 then s
    else
      match TieConst(s, c, count - 1)
      case Emit(t) => (match TieConst(s, c, count) case Emit(u) => u case _ => t)
      case _ => TieConstLeft(s, c, count - 1)
  }

  /** The netlist the footer leaves after the first count constants. */
  function TieConstsLeft(s: NetState, cs: seq<Const>, count: nat): NetState
    requires count <= |cs| && WellShaped(cs)
  {
    if count == 0 then s
    else
      match TieConsts(s, cs, count - 1)
      case Emit(t) => TieConstLeft(t, cs[count - 1], |cs[count - 1].pins|)
      case _ => TieConstsLeft(s, cs, count - 1)
  }

  /** Once the tie-off fails it stays failed. */
  lemma {:induction false} TieConstAborts(s: NetState, c: Const, k: nat, count: nat)
    requires k <= count <= |c.pins| == |c.bits| && TieConst(s, c, k).Abort?
    ensures TieConst(s, c, count) == TieConst(s, c, k)
    decreases count
  {
    if count > k {
      TieConstAborts(s, c, k, count - 1);
    }
  }

  lemma {:induction false} TieConstsAborts(s: NetState, cs: seq<Const>, k: nat, count: nat)
    requires k <= count <= |cs| && WellShaped(cs) && TieConsts(s, cs, k).Abort?
    ensures TieConsts(s, cs, count) == TieConsts(s, cs, k)
    decreases count
  {
    if count > k {
      TieConstsAborts(s, cs, k, count - 1);
    }
  }

  /** virtex2_show_footer, before the netlist is printed. */
  method ShowFooter(n: Netlist, cs: seq<Const>) returns (o: Outcome)
    requires n.Valid() && WellShaped(cs)
    modifies n`instances, n`conns
    ensures n.Valid()
    ensures var st := TieConsts(old(n.State()), cs, |cs|);
      o == OutcomeOf(st) && (st.Emit? ==> n.State() == st.after)
    ensures n.State() == TieConstsLeft(old(n.State()), cs, |cs|)
  {
    ghost var s0 := n.State();
    var idx := 0;
    while idx < |cs|
      invariant 0 <= idx <= |cs| && n.Valid()
      invariant TieConsts(s0, cs, idx).Emit? && n.State() == TieConsts(s0, cs, idx).after
    {
      var c := cs[idx];
      ghost var t := n.State();
      var pin := 0;
      while pin < |c.pins|
        invariant 0 <= pin <= |c.pins| && n.Valid()
        invariant TieConst(t, c, pin).Emit? && n.State() == TieConst(t, c, pin).after
      {
        var jnt := JointOfNexus(c.pins[pin]);
        var pad;
        if c.bits[pin] == '0' {
          pad := n.CreateInstance(Gnd);
        } else if c.bits[pin] == '1' {
          pad := n.CreateInstance(Vcc);
        } else {
          TieConstAborts(t, c, pin + 1, |c.pins|);
          assert TieConsts(s0, cs, idx + 1) == TieConst(t, c, |c.pins|);
          TieConstsAborts(s0, cs, idx + 1, |cs|);
          TieConstLeftStays(t, c, pin + 1, |c.pins|);
          TieConstsLeftStays(s0, cs, idx + 1, |cs|);
          return Fatal(BadBitReason);
        }
        n.AddToJoint(jnt, pad, Port(0));
        pin := pin + 1;
      }
      idx := idx + 1;
    }
    TieConstsLeftEmit(s0, cs, |cs|);
    o := Done;
  }

  /** What one constant's tie-off leaves is its emitted netlist when every bit is good. */
  lemma TieConstLeftEmit(s: NetState, c: Const, count: nat)
    requires count <= |c.pins| == |c.bits| && TieConst(s, c, count).Emit?
    ensures TieConstLeft(s, c, count) == TieConst(s, c, count).after
  {
  }

  /** What the footer leaves is its emitted netlist when every bit is good. */
  lemma TieConstsLeftEmit(s: NetState, cs: seq<Const>, count: nat)
    requires count <= |cs| && WellShaped(cs) && TieConsts(s, cs, count).Emit?
    ensures TieConstsLeft(s, cs, count) == TieConsts(s, cs, count).after
  {
    if count > 0 {
      var t := TieConsts(s, cs, count - 1).after;
      TieConstLeftEmit(t, cs[count - 1], |cs[count - 1].pins|);
    }
  }

  /** Once a bad bit stops the program, the netlist stays as it was before that bit. */
  lemma {:induction false} TieConstLeftStays(s: NetState, c: Const, k: nat, count: nat)
    requires k <= count <= |c.pins| == |c.bits| && TieConst(s, c, k).Abort?
    ensures TieConstLeft(s, c, count) == TieConstLeft(s, c, k)
    decreases count
  {
    if count > k {
      TieConstAborts(s, c, k, count - 1);
      TieConstLeftStays(s, c, k, count - 1);
    }
  }

  lemma {:induction false} TieConstsLeftStays(s: NetState, cs: seq<Const>, k: nat, count: nat)
    requires k <= count <= |cs| && WellShaped(cs) && TieConsts(s, cs, k).Abort?
    ensures TieConstsLeft(s, cs, count) == TieConstsLeft(s, cs, k)
    decreases count
  {
    if count > k {
      TieConstsAborts(s, cs, k, count - 1);
      TieConstsLeftStays(s, cs, k, count - 1);
    }
  }

  /** When bit k of constant c is the first bad bit, the tie-off leaves the
      netlist with exactly the bits before it tied. */
  lemma TieConstLeftAtBadBit(s: NetState, c: Const, k: nat, count: nat)
    requires k < count <= |c.pins| == |c.bits| && TieConst(s, c, k).Emit?
    requires c.bits[k] != '0' && c.bits[k] != '1'
    ensures TieConstLeft(s, c, count) == TieConst(s, c, k).after
  {
    TieConstLeftStays(s, c, k + 1, count);
  }

  // ---------------------------------------------------------------------
  // What the tie-off leaves.

  /** The tie-off of constant c fails exactly when one of its bits is
      neither '0' nor '1'. */
  lemma {:induction false} TieConstFails(s: NetState, c: Const, count: nat)
    requires count <= |c.pins| == |c.bits|
    ensures TieConst(s, c, count).Abort? <==> exists i :: 0 <= i < count && c.bits[i] != '0' && c.bits[i] != '1'
    ensures TieConst(s, c, count).Skip? == false
    decreases count
  {
    if count > 0 {
      TieConstFails(s, c, count - 1);
    }
  }

  /** One tied pin: a new constant instance with its port 0 on the pin's joint. */
  lemma TieOne(t: NetState, kind: CellKind, x: Nexus)
    ensures var u := WithConn(WithInstance(t, kind), JointOfNexus(x), |t.insts|, Port(0));
      Extends(t, u) && |u.insts| == |t.insts| + 1 && u.insts[|t.insts|] == kind &&
      Conn(Cached(x), CellPin(|t.insts|, Port(0))) in u.conns
  {
    var m := WithInstance(t, kind);
    ExtendsSteps(t, kind, 0, "", "", Cached(x), Port(0), 0);
    ExtendsSteps(m, kind, |t.insts|, "", "", Cached(x), Port(0), 0);
    ExtendsTrans(t, m, WithConn(m, Cached(x), |t.insts|, Port(0)));
  }

  /** The tie-off of a constant only appends, one instance per pin. */
  lemma {:induction false} TieConstExtends(s: NetState, c: Const, count: nat)
    requires count <= |c.pins| == |c.bits| && TieConst(s, c, count).Emit?
    ensures Extends(s, TieConst(s, c, count).after)
    ensures |TieConst(s, c, count).after.insts| == |s.insts| + count
    decreases count
  {
    if count == 0 {
      assert s.insts[..|s.insts|] == s.insts && s.props[..|s.props|] == s.props && s.conns[..|s.conns|] == s.conns;
    } else {
      var k := count - 1;
      assert TieConst(s, c, k).Emit?;
      var t := TieConst(s, c, k).after;
      var kind := if c.bits[k] == '0' then Gnd else Vcc;
      var u := WithConn(WithInstance(t, kind), JointOfNexus(c.pins[k]), |t.insts|, Port(0));
      assert TieConst(s, c, count).after == u;
      TieConstExtends(s, c, k);
      TieOne(t, kind, c.pins[k]);
      ExtendsTrans(s, t, u);
    }
  }

  /** The pin a fresh GND or VCC instance drives carries 0 or 1. */
  lemma TieOneDrives(t: NetState, kind: CellKind, x: Nexus, jv: JointId -> bool, pv: Binding -> bool)
    requires kind == Gnd || kind == Vcc
    requires Behaves(WithConn(WithInstance(t, kind), JointOfNexus(x), |t.insts|, Port(0)), jv, pv)
    ensures jv(Cached(x)) == (kind == Vcc)
  {
    var u := WithConn(WithInstance(t, kind), JointOfNexus(x), |t.insts|, Port(0));
    assert u.insts[|t.insts|] == kind;
    assert CellHolds(u.insts[|t.insts|], |t.insts|, pv);
    assert Conn(Cached(x), CellPin(|t.insts|, Port(0))) in u.conns;
  }

  /** Every tied pin sits on a fresh GND or VCC instance, by its bit, so it
      carries its bit in every consistent valuation. */
  lemma {:induction false} TieConstDrives(s: NetState, c: Const, count: nat, jv: JointId -> bool, pv: Binding -> bool)
    requires count <= |c.pins| == |c.bits| && TieConst(s, c, count).Emit?
    requires Behaves(TieConst(s, c, count).after, jv, pv)
    ensures forall i :: 0 <= i < count ==> jv(Cached(c.pins[i])) == (c.bits[i] == '1')
    decreases count
  {
    if count > 0 {
      var k := count - 1;
      assert TieConst(s, c, k).Emit?;
      var t := TieConst(s, c, k).after;
      var kind := if c.bits[k] == '0' then Gnd else Vcc;
      var u := WithConn(WithInstance(t, kind), JointOfNexus(c.pins[k]), |t.insts|, Port(0));
      assert TieConst(s, c, count).after == u;
      TieOne(t, kind, c.pins[k]);
      TieOneDrives(t, kind, c.pins[k], jv, pv);
      BehavesPrefix(t, u, jv, pv);
      TieConstDrives(s, c, k, jv, pv);
    }
  }

  /** In every valuation consistent with the netlist the footer leaves,
      each constant pin carries its bit. */
  lemma {:induction false} FooterDrives(s: NetState, cs: seq<Const>, count: nat, jv: JointId -> bool, pv: Binding -> bool)
    requires count <= |cs| && WellShaped(cs) && TieConsts(s, cs, count).Emit?
    requires Behaves(TieConsts(s, cs, count).after, jv, pv)
    ensures forall k, i :: 0 <= k < count && 0 <= i < |cs[k].pins| ==> jv(Cached(cs[k].pins[i])) == (cs[k].bits[i] == '1')
    decreases count
  {
    if count > 0 {
      var t := TieConsts(s, cs, count - 1).after;
      var c := cs[count - 1];
      TieConstDrives(t, c, |c.pins|, jv, pv);
      TieConstExtends(t, c, |c.pins|);
      BehavesPrefix(t, TieConsts(s, cs, count).after, jv, pv);
      FooterDrives(s, cs, count - 1, jv, pv);
    }
  }

  /** The footer fails exactly when some constant has a bit that is neither '0' nor '1'. */
  lemma {:induction false} FooterFails(s: NetState, cs: seq<Const>, count: nat)
    requires count <= |cs| && WellShaped(cs)
    ensures TieConsts(s, cs, count).Abort? <==>
            exists k, i :: 0 <= k < count && 0 <= i < |cs[k].bits| && cs[k].bits[i] != '0' && cs[k].bits[i] != '1'
    ensures !TieConsts(s, cs, count).Skip?
    decreases count
  {
    if count > 0 {
      FooterFails(s, cs, count - 1);
      if TieConsts(s, cs, count - 1).Emit? {
        var t := TieConsts(s, cs, count - 1).after;
        TieConstFails(t, cs[count - 1], |cs[count - 1].pins|);
      }
    }
  }
}
