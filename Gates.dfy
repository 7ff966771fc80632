/** Gate mapping: virtex2_logic, lut_logic and edif_cellref_logic.

    A logic gate has pin 0 as its output and pins 1.. as inputs. A gate that
    carries a `cellref` attribute "CELL:pin,pin,..." becomes one instance of
    the named library cell, with gate pin i bound to the cell port named by
    the i-th name. Otherwise a buffer becomes a BUF, an AND/NOR/OR/XNOR/XOR
    gate with 2 to 4 inputs becomes one LUT2/LUT3/LUT4 with a fixed INIT
    string, and any other gate type is reported as unsupported. */
module Gates {
  import opened Wrappers
  import opened Bits
  import opened TruthTable
  import opened Edif
  import opened Circuit
  import opened Decimal
  import opened Inits

  datatype LogicType = BufGate | BufZ | And | Nor | Or | Xnor | Xor | OtherGate(code: nat)

  /** A gate of the source netlist (ivl_net_logic_t): its type, the nexus of
      each pin, and its `cellref` attribute if it has one. */
  datatype Logic = Logic(kind: LogicType, pins: seq<Nexus>, cellref: Option<string>)

  predicate IsLutGate(k: LogicType)
  {
    k.And? || k.Nor? || k.Or? || k.Xnor? || k.Xor?
  }

  /** The INIT strings for a LUT2, LUT3 and LUT4 of each gate type. */
  function GateInits(k: LogicType): (string, string, string)
    requires IsLutGate(k)
  {
    match k
    case And => ("8", "80", "8000")
    case Nor => ("1", "01", "0001")
    case Or => ("E", "FE", "FFFE")
    case Xnor => ("9", "69", "9669")
    case Xor => ("6", "96", "6996")
  }

  /** The LUT cell for a gate with npins pins (one output, npins - 1 inputs). */
  function LutCell(npins: nat): CellKind
    requires 3 <= npins <= 5
  {
    if npins == 3 then Lut2 else if npins == 4 then Lut3 else Lut4
  }

  function InitFor(inits: (string, string, string), npins: nat): string
    requires 3 <= npins <= 5
  {
    if npins == 3 then inits.0 else if npins == 4 then inits.1 else inits.2
  }

  function LutInput(i: nat): Pin
    requires i < 4
  {
    if i == 0 then LutI0 else if i == 1 then LutI1 else if i == 2 then LutI2 else LutI3
  }

  /** lut_logic: one LUT whose cell and INIT are chosen by the number of
      pins; pins 4, 3, 2 go to I3, I2, I1 as far as they exist (the cases of
      the C switch fall through), then pin 1 to I0 and pin 0 to O. */
  function LutStep(s: NetState, pins: seq<Nexus>, inits: (string, string, string)): NetState
    requires 3 <= |pins| <= 5
  {
    var lut := |s.insts|;
    var s1 := WithProp(WithInstance(s, LutCell(|pins|)), lut, "INIT", InitFor(inits, |pins|));
    var s2 := if |pins| == 5 then WithConn(s1, JointOfNexus(pins[4]), lut, LutI3) else s1;
    var s3 := if |pins| >= 4 then WithConn(s2, JointOfNexus(pins[3]), lut, LutI2) else s2;
    var s4 := WithConn(s3, JointOfNexus(pins[2]), lut, LutI1);
    var s5 := WithConn(s4, JointOfNexus(pins[1]), lut, LutI0);
    WithConn(s5, JointOfNexus(pins[0]), lut, LutO)
  }

  /** A buffer: pin 0 on BUF_O, pin 1 on BUF_I. */
  function BufStep(s: NetState, pins: seq<Nexus>): NetState
    requires |pins| == 2
  {
    var obj := |s.insts|;
    var s1 := WithInstance(s, Buf);
    var s2 := WithConn(s1, JointOfNexus(pins[0]), obj, BufO);
    WithConn(s2, JointOfNexus(pins[1]), obj, BufI)
  }

  const BufPinsReason := "a buffer has exactly 2 pins"
  const LutPinsReason := "a LUT gate has 3 to 5 pins"
  const NoColonReason := "cellref attribute has no ':'"
  const NoCellReason := "cellref names a cell the library lacks"
  const FewNamesReason := "cellref attribute names too few pins"

  /** The first position of ch in s. */
  function Find(s: string, ch: char): (r: Option<nat>)
    ensures r.Some? ==> r.value < |s| && s[r.value] == ch && ch !in s[..r.value]
    ensures r.None? ==> ch !in s
  {
    if s == [] then None
    else if s[0] == ch then Some(0)
    else match Find(s[1..], ch)
      case None => None
      case Some(i) => Some(i + 1)
  }

  /** edif_cell_port_byname: the first port with the given name, or the
      number of ports when there is none. */
  function PortIndex(ports: seq<string>, name: string): (r: nat)
    ensures r <= |ports|
    ensures r < |ports| ==> ports[r] == name
    ensures forall i :: 0 <= i < r ==> ports[i] != name
  {
    if ports == [] then 0
    else if ports[0] == name then 0
    else PortIndex(ports[1..], name) + 1
  }

  /** The pin names edif_cellref_logic takes from the list after the ':'
      for count gate pins, each name ending at the next ','. `None` as the
      list is the exhausted list after a last name with no ','; asking it for
      another name fails. */
  function PinNames(p: Option<string>, count: nat): (r: Option<seq<string>>)
    ensures r.Some? ==> |r.value| == count
    decreases count
  {
    if count == 0 then Some([])
    else
      match p
      case None => None
      case Some(s) =>
        match Find(s, ',')
        case Some(c) =>
          (match PinNames(Some(s[c + 1..]), count - 1)
           case None => None
           case Some(rest) => Some([s[..c]] + rest))
        case None =>
          (match PinNames(None, count - 1)
           case None => None
           case Some(rest) => Some([s] + rest))
  }

  /** The names edif_cellref_logic finds for at most count gate pins: one
      per pin, and fewer when the list runs out first. */
  function NamesGiven(p: Option<string>, count: nat): (r: seq<string>)
    ensures |r| <= count
    decreases count
  {
    if count == 0 then []
    else
      match p
      case None => []
      case Some(s) =>
        match Find(s, ',')
        case Some(c) => [s[..c]] + NamesGiven(Some(s[c + 1..]), count - 1)
        case None => [s] + NamesGiven(None, count - 1)
  }

  /** The bindings of the first count pins of a cellref gate: pin i on the
      port of instance r its name finds. */
  function CellrefBind(s: NetState, pins: seq<Nexus>, names: seq<string>, ports: seq<string>, r: nat, count: nat)
    : NetState
    requires count <= |pins| == |names|
  {
    if count == 0 then s
    else
      var k := count - 1;
      WithConn(CellrefBind(s, pins, names, ports, r, k), JointOfNexus(pins[k]), r, Port(PortIndex(ports, names[k])))
  }

  /** edif_cellref_logic; catalog gives the port names of each cell the
      library can locate by name. */
  function CellrefStep(s: NetState, pins: seq<Nexus>, def: string, catalog: map<string, seq<string>>): Step
  {
    match Find(def, ':')
    case None => Abort(NoColonReason)
    case Some(c) =>
      var cell := def[..c];
      if cell !in catalog then Abort(NoCellReason)
      else
        match PinNames(Some(def[c + 1..]), |pins|)
        case None => Abort(FewNamesReason)
        case Some(names) =>
          var r := |s.insts|;
          Emit(CellrefBind(WithInstance(s, Named(cell, |catalog[cell]|)), pins, names, catalog[cell], r, |pins|))
  }

  /** The netlist edif_cellref_logic leaves: unchanged when the ':' or the
      cell is missing (both checked before anything is created); otherwise
      the new instance with pin i bound for every pin that got a name, which
      is all of them unless the list ran out and the program stopped. */
  function CellrefState(s: NetState, pins: seq<Nexus>, def: string, catalog: map<string, seq<string>>): NetState
  {
    match Find(def, ':')
    case None => s
    case Some(c) =>
      var cell := def[..c];
      if cell !in catalog then s
      else
        var names := NamesGiven(Some(def[c + 1..]), |pins|);
        CellrefBind(WithInstance(s, Named(cell, |catalog[cell]|)), pins[..|names|], names, catalog[cell], |s.insts|, |names|)
  }

  /** virtex2_logic applied to gate g. */
  function LogicStep(s: NetState, g: Logic, catalog: map<string, seq<string>>): Step
  {
    match g.cellref
    case Some(def) => CellrefStep(s, g.pins, def, catalog)
    case None =>
      if g.kind.BufGate? || g.kind.BufZ? then
        if |g.pins| != 2 then Abort(BufPinsReason) else Emit(BufStep(s, g.pins))
      else if g.kind.OtherGate? then Skip("UNSUPPORTED LOGIC TYPE: " + NatToString(g.kind.code))
      else if 3 <= |g.pins| <= 5 then Emit(LutStep(s, g.pins, GateInits(g.kind)))
      else Abort(LutPinsReason)
  }

  // ---------------------------------------------------------------------
  // What the LUT of each gate type computes.

  /** The function of a gate of the given type over its inputs. */
  function GateFn(k: LogicType, ins: seq<bool>): bool
    requires IsLutGate(k)
  {
    match k
    case And => AllOf(ins)
    case Or => AnyOf(ins)
    case Nor => !AnyOf(ins)
    case Xor => Parity(ins)
    case Xnor => !Parity(ins)
  }

  predicate AllOf(xs: seq<bool>)
  {
    forall i :: 0 <= i < |xs| ==> xs[i]
  }

  predicate AnyOf(xs: seq<bool>)
  {
    exists i :: 0 <= i < |xs| && xs[i]
  }

  /** Whether an odd number of the xs are true. */
  function Parity(xs: seq<bool>): bool
  {
    if xs == [] then false else xs[0] != Parity(xs[1..])
  }

  /** The gate functions on two inputs. */
  lemma Formulas2(a: bool, b: bool)
    ensures AllOf([a, b]) == (a && b) && AnyOf([a, b]) == (a || b) && Parity([a, b]) == (a != b)
  {
    var x := [a, b];
    assert x[0] == a && x[1] == b;
    assert x[1..] == [b] && [b][1..] == [];
    assert Parity([b]) == b;
    if a { assert x[0]; }
    if b { assert x[1]; }
  }

  /** The gate functions on three inputs. */
  lemma Formulas3(a: bool, b: bool, c: bool)
    ensures AllOf([a, b, c]) == (a && b && c) && AnyOf([a, b, c]) == (a || b || c)
    ensures Parity([a, b, c]) == (a != (b != c))
  {
    var x := [a, b, c];
    assert x[0] == a && x[1] == b && x[2] == c;
    assert x[1..] == [b, c];
    Formulas2(b, c);
    if a { assert x[0]; }
    if AnyOf([b, c]) { var i :| 0 <= i < 2 && [b, c][i]; assert x[i + 1]; }
  }

  /** The gate functions on four inputs. */
  lemma Formulas4(a: bool, b: bool, c: bool, d: bool)
    ensures AllOf([a, b, c, d]) == (a && b && c && d) && AnyOf([a, b, c, d]) == (a || b || c || d)
    ensures Parity([a, b, c, d]) == (a != (b != (c != d)))
  {
    var x := [a, b, c, d];
    assert x[0] == a && x[1] == b && x[2] == c && x[3] == d;
    assert x[1..] == [b, c, d];
    Formulas3(b, c, d);
    if a { assert x[0]; }
    if AnyOf([b, c, d]) { var i :| 0 <= i < 3 && [b, c, d][i]; assert x[i + 1]; }
  }

  /** INIT "8" is the 2-input AND. */
  lemma And2Init(a: bool, b: bool)
    ensures LutOut("8", [a, b]) == (a && b)
  {
    Table8();
    LutAt2("8", a, b);
  }

  /** INIT "1" is the 2-input NOR. */
  lemma Nor2Init(a: bool, b: bool)
    ensures LutOut("1", [a, b]) == !(a || b)
  {
    Table1();
    LutAt2("1", a, b);
  }

  /** INIT "E" is the 2-input OR. */
  lemma Or2Init(a: bool, b: bool)
    ensures LutOut("E", [a, b]) == (a || b)
  {
    TableE();
    LutAt2("E", a, b);
  }

  /** INIT "9" is the 2-input XNOR. */
  lemma Xnor2Init(a: bool, b: bool)
    ensures LutOut("9", [a, b]) == !(a != b)
  {
    Table9();
    LutAt2("9", a, b);
  }

  /** INIT "6" is the 2-input XOR. */
  lemma Xor2Init(a: bool, b: bool)
    ensures LutOut("6", [a, b]) == (a != b)
  {
    Table6();
    LutAt2("6", a, b);
  }

  /** The INIT lut_logic gives a gate with 2 inputs computes the gate. */
  lemma Lut2Gate(k: LogicType, a: bool, b: bool)
    requires IsLutGate(k)
    ensures LutOut(GateInits(k).0, [a, b]) == GateFn(k, [a, b])
  {
    Formulas2(a, b);
    match k
    case And => And2Init(a, b);
    case Nor => Nor2Init(a, b);
    case Or => Or2Init(a, b);
    case Xnor => Xnor2Init(a, b);
    case Xor => Xor2Init(a, b);
  }

  /** INIT "80" is the 3-input AND. */
  lemma And3Init(a: bool, b: bool, c: bool)
    ensures LutOut("80", [a, b, c]) == (a && b && c)
  {
    Table80();
    LutAt3("80", a, b, c);
  }

  /** INIT "01" is the 3-input NOR. */
  lemma Nor3Init(a: bool, b: bool, c: bool)
    ensures LutOut("01", [a, b, c]) == !(a || b || c)
  {
    Table01();
    LutAt3("01", a, b, c);
  }

  /** INIT "FE" is the 3-input OR. */
  lemma Or3Init(a: bool, b: bool, c: bool)
    ensures LutOut("FE", [a, b, c]) == (a || b || c)
  {
    TableFE();
    LutAt3("FE", a, b, c);
  }

  /** INIT "69" is the 3-input XNOR. */
  lemma Xnor3Init(a: bool, b: bool, c: bool)
    ensures LutOut("69", [a, b, c]) == !(a != (b != c))
  {
    Table69();
    LutAt3("69", a, b, c);
  }

  /** INIT "96" is the 3-input XOR. */
  lemma Xor3Init(a: bool, b: bool, c: bool)
    ensures LutOut("96", [a, b, c]) == (a != (b != c))
  {
    Table96();
    LutAt3("96", a, b, c);
  }

  /** The INIT lut_logic gives a gate with 3 inputs computes the gate. */
  lemma Lut3Gate(k: LogicType, a: bool, b: bool, c: bool)
    requires IsLutGate(k)
    ensures LutOut(GateInits(k).1, [a, b, c]) == GateFn(k, [a, b, c])
  {
    Formulas3(a, b, c);
    match k
    case And => And3Init(a, b, c);
    case Nor => Nor3Init(a, b, c);
    case Or => Or3Init(a, b, c);
    case Xnor => Xnor3Init(a, b, c);
    case Xor => Xor3Init(a, b, c);
  }

  /** INIT "8000" is the 4-input AND. */
  lemma And4Init(a: bool, b: bool, c: bool, d: bool)
    ensures LutOut("8000", [a, b, c, d]) == (a && b && c && d)
  {
    Table8000();
    LutAt4("8000", a, b, c, d);
  }

  /** INIT "0001" is the 4-input NOR. */
  lemma Nor4Init(a: bool, b: bool, c: bool, d: bool)
    ensures LutOut("0001", [a, b, c, d]) == !(a || b || c || d)
  {
    Table0001();
    LutAt4("0001", a, b, c, d);
  }

  /** INIT "FFFE" is the 4-input OR. */
  lemma Or4Init(a: bool, b: bool, c: bool, d: bool)
    ensures LutOut("FFFE", [a, b, c, d]) == (a || b || c || d)
  {
    TableFFFE();
    LutAt4("FFFE", a, b, c, d);
  }

  /** INIT "9669" is the 4-input XNOR. */
  lemma Xnor4Init(a: bool, b: bool, c: bool, d: bool)
    ensures LutOut("9669", [a, b, c, d]) == !(a != (b != (c != d)))
  {
    Table9669();
    LutAt4("9669", a, b, c, d);
  }

  /** INIT "6996" is the 4-input XOR. */
  lemma Xor4Init(a: bool, b: bool, c: bool, d: bool)
    ensures LutOut("6996", [a, b, c, d]) == (a != (b != (c != d)))
  {
    Table6996();
    LutAt4("6996", a, b, c, d);
  }

  /** The INIT lut_logic gives a gate with 4 inputs computes the gate. */
  lemma Lut4Gate(k: LogicType, a: bool, b: bool, c: bool, d: bool)
    requires IsLutGate(k)
    ensures LutOut(GateInits(k).2, [a, b, c, d]) == GateFn(k, [a, b, c, d])
  {
    Formulas4(a, b, c, d);
    match k
    case And => And4Init(a, b, c, d);
    case Nor => Nor4Init(a, b, c, d);
    case Or => Or4Init(a, b, c, d);
    case Xnor => Xnor4Init(a, b, c, d);
    case Xor => Xor4Init(a, b, c, d);
  }

  // ---------------------------------------------------------------------
  // The mapping hooks.

  /** lut_logic. */
  method LutLogic(n: Netlist, pins: seq<Nexus>, init3: string, init4: string, init5: string)
    requires n.Valid() && 3 <= |pins| <= 5
    modifies n`instances, n`cellProps, n`conns
    ensures n.Valid()
    ensures n.State() == LutStep(old(n.State()), pins, (init3, init4, init5))
  {
    var cell, init;
    if |pins| == 3 {
      cell, init := Lut2, init3;
    } else if |pins| == 4 {
      cell, init := Lut3, init4;
    } else {
      cell, init := Lut4, init5;
    }
    var lut := n.CreateInstance(cell);
    n.CellrefProperty(lut, "INIT", init);
    if |pins| == 5 {
      n.AddToJoint(JointOfNexus(pins[4]), lut, LutI3);
    }
    if |pins| >= 4 {
      n.AddToJoint(JointOfNexus(pins[3]), lut, LutI2);
    }
    n.AddToJoint(JointOfNexus(pins[2]), lut, LutI1);
    n.AddToJoint(JointOfNexus(pins[1]), lut, LutI0);
    n.AddToJoint(JointOfNexus(pins[0]), lut, LutO);
  }

  /** edif_cellref_logic. */
  method CellrefLogic(n: Netlist, pins: seq<Nexus>, def: string, catalog: map<string, seq<string>>)
    returns (o: Outcome)
    requires n.Valid()
    modifies n`instances, n`cellProps, n`conns
    ensures n.Valid()
    ensures o == OutcomeOf(CellrefStep(old(n.State()), pins, def, catalog))
    ensures n.State() == CellrefState(old(n.State()), pins, def, catalog)
  {
    var colon := Find(def, ':');
    if colon.None? {
      return Fatal(NoColonReason);
    }
    var cell := def[..colon.value];
    if cell !in catalog {
      return Fatal(NoCellReason);
    }
    var names := NamesGiven(Some(def[colon.value + 1..]), |pins|);
    NamesGivenAgree(Some(def[colon.value + 1..]), |pins|);
    var ports := catalog[cell];
    var r := n.CreateInstance(Named(cell, |ports|));
    BindCellref(n, pins[..|names|], names, ports, r);
    if |names| < |pins| {
      return Fatal(FewNamesReason);
    }
    o := Done;
  }

  /** The loop of edif_cellref_logic over the gate pins. */
  method BindCellref(n: Netlist, pins: seq<Nexus>, names: seq<string>, ports: seq<string>, r: nat)
    requires n.Valid() && r < |n.instances| && |names| == |pins|
    modifies n`conns
    ensures n.Valid()
    ensures n.State() == CellrefBind(old(n.State()), pins, names, ports, r, |pins|)
  {
    var idx := 0;
    while idx < |pins|
      invariant 0 <= idx <= |pins| && n.Valid() && n.instances == old(n.instances)
      invariant n.State() == CellrefBind(old(n.State()), pins, names, ports, r, idx)
    {
      var port := PortIndex(ports, names[idx]);
      n.AddToJoint(JointOfNexus(pins[idx]), r, Port(port));
      idx := idx + 1;
    }
  }

  /** virtex2_logic: maps gate g into n. */
  method MapLogic(n: Netlist, g: Logic, catalog: map<string, seq<string>>) returns (o: Outcome)
    requires n.Valid()
    modifies n`instances, n`cellProps, n`conns
    ensures n.Valid()
    ensures var st := LogicStep(old(n.State()), g, catalog);
      o == OutcomeOf(st) && (st.Emit? || st.Skip? ==> n.State() == After(st, old(n.State())))
    ensures g.cellref.Some? ==> n.State() == CellrefState(old(n.State()), g.pins, g.cellref.value, catalog)
    ensures g.cellref.None? ==> n.State() == After(LogicStep(old(n.State()), g, catalog), old(n.State()))
  {
    if g.cellref.Some? {
      CellrefStateAfter(n.State(), g.pins, g.cellref.value, catalog);
      o := CellrefLogic(n, g.pins, g.cellref.value, catalog);
      return;
    }
    if g.kind.BufGate? || g.kind.BufZ? {
      if |g.pins| != 2 {
        return Fatal(BufPinsReason);
      }
      var obj := n.CreateInstance(Buf);
      n.AddToJoint(JointOfNexus(g.pins[0]), obj, BufO);
      n.AddToJoint(JointOfNexus(g.pins[1]), obj, BufI);
      o := Done;
    } else if g.kind.OtherGate? {
      o := Unsupported("UNSUPPORTED LOGIC TYPE: " + NatToString(g.kind.code));
    } else {
      if !(3 <= |g.pins| <= 5) {
        return Fatal(LutPinsReason);
      }
      var inits := GateInits(g.kind);
      LutLogic(n, g.pins, inits.0, inits.1, inits.2);
      o := Done;
    }
  }

  // ---------------------------------------------------------------------
  // What the mapped gates compute.

  /** lut_logic adds one LUT of the size the pin count asks for with its
      INIT, and binds every pin: pin 0 on the output, pin i + 1 on input I(i). */
  lemma LutStepShape(s: NetState, pins: seq<Nexus>, inits: (string, string, string))
    requires 3 <= |pins| <= 5
    ensures var t := LutStep(s, pins, inits);
      t.insts == s.insts + [LutCell(|pins|)] && t.joints == s.joints &&
      t.props == s.props + [CellProp(|s.insts|, "INIT", InitFor(inits, |pins|))] &&
      |t.conns| == |s.conns| + |pins| && t.conns[..|s.conns|] == s.conns &&
      Conn(Cached(pins[0]), CellPin(|s.insts|, LutO)) in t.conns &&
      forall i :: 0 <= i < |pins| - 1 ==> Conn(Cached(pins[1..][i]), CellPin(|s.insts|, LutInput(i))) in t.conns
  {
    var t := LutStep(s, pins, inits);
    var lut := |s.insts|;
    var tail := t.conns[|s.conns|..];
    assert t.conns == s.conns + tail;
    assert tail[|pins| - 1] == Conn(Cached(pins[0]), CellPin(lut, LutO));
    forall i | 0 <= i < |pins| - 1
      ensures Conn(Cached(pins[1..][i]), CellPin(lut, LutInput(i))) in t.conns
    {
      assert tail[|pins| - 2 - i] == Conn(Cached(pins[i + 1]), CellPin(lut, LutInput(i)));
    }
  }

  /** In a consistent valuation the LUT lut_logic adds drives pin 0 with
      its INIT table at the values of pins 1, 2, ... */
  lemma LutComputes(s: NetState, pins: seq<Nexus>, inits: (string, string, string), jv: JointId -> bool,
                    pv: Binding -> bool)
    requires 3 <= |pins| <= 5 && Behaves(LutStep(s, pins, inits), jv, pv)
    ensures jv(Cached(pins[0])) == LutOut(InitFor(inits, |pins|), Read(jv, pins[1..]))
  {
    var t := LutStep(s, pins, inits);
    var lut := |s.insts|;
    LutStepShape(s, pins, inits);
    assert t.insts[lut] == LutCell(|pins|);
    assert CellProp(lut, "INIT", InitFor(inits, |pins|)) in t.props;
    var ins := Read(jv, pins[1..]);
    assert pv(CellPin(lut, LutO)) == jv(Cached(pins[0]));
    var got := LutInputs(LutCell(|pins|), lut, pv);
    assert |got| == |ins|;
    forall i | 0 <= i < |ins|
      ensures got[i] == ins[i]
    {
      assert Conn(Cached(pins[1..][i]), CellPin(lut, LutInput(i))) in t.conns;
    }
    assert got == ins;
  }

  /** In every valuation consistent with the netlist virtex2_logic leaves,
      the output of an AND, NOR, OR, XNOR or XOR gate is the gate function
      of its inputs. */
  lemma GateComputes(s: NetState, g: Logic, catalog: map<string, seq<string>>, jv: JointId -> bool,
                     pv: Binding -> bool)
    requires g.cellref.None? && IsLutGate(g.kind) && LogicStep(s, g, catalog).Emit?
    requires Behaves(LogicStep(s, g, catalog).after, jv, pv)
    ensures jv(Cached(g.pins[0])) == GateFn(g.kind, Read(jv, g.pins[1..]))
  {
    var pins := g.pins;
    assert 3 <= |pins| <= 5 && LogicStep(s, g, catalog).after == LutStep(s, pins, GateInits(g.kind));
    LutComputes(s, pins, GateInits(g.kind), jv, pv);
    LutGate(g.kind, Read(jv, pins[1..]));
  }

  /** The INIT lut_logic gives a gate of type k with |ins| inputs computes the gate. */
  lemma LutGate(k: LogicType, ins: seq<bool>)
    requires IsLutGate(k) && 2 <= |ins| <= 4
    ensures LutOut(InitFor(GateInits(k), |ins| + 1), ins) == GateFn(k, ins)
  {
    if |ins| == 2 {
      assert ins == [ins[0], ins[1]];
      Lut2Gate(k, ins[0], ins[1]);
    } else if |ins| == 3 {
      assert ins == [ins[0], ins[1], ins[2]];
      Lut3Gate(k, ins[0], ins[1], ins[2]);
    } else {
      assert ins == [ins[0], ins[1], ins[2], ins[3]];
      Lut4Gate(k, ins[0], ins[1], ins[2], ins[3]);
    }
  }

  /** A buffer's output follows its input in every consistent valuation. */
  lemma BufComputes(s: NetState, g: Logic, catalog: map<string, seq<string>>, jv: JointId -> bool, pv: Binding -> bool)
    requires g.cellref.None? && (g.kind.BufGate? || g.kind.BufZ?) && LogicStep(s, g, catalog).Emit?
    requires Behaves(LogicStep(s, g, catalog).after, jv, pv)
    ensures |g.pins| == 2 && jv(Cached(g.pins[0])) == jv(Cached(g.pins[1]))
  {
    var t := BufStep(s, g.pins);
    var obj := |s.insts|;
    assert t.insts[obj] == Buf;
    assert Conn(Cached(g.pins[0]), CellPin(obj, BufO)) in t.conns;
    assert Conn(Cached(g.pins[1]), CellPin(obj, BufI)) in t.conns;
  }

  // ---------------------------------------------------------------------
  // The cellref attribute.

  /** A pin list written out: the names separated by commas. */
  function Join(names: seq<string>): string
    requires |names| >= 1
  {
    if |names| == 1 then names[0] else names[0] + "," + Join(names[1..])
  }

  predicate NoComma(names: seq<string>)
  {
    forall i :: 0 <= i < |names| ==> ',' !in names[i]
  }

  lemma {:induction false} FindAfter(a: string, b: string, ch: char)
    requires ch !in a
    ensures Find(a + [ch] + b, ch) == Some(|a|)
  {
    if a != [] {
      assert (a + [ch] + b)[1..] == a[1..] + [ch] + b;
      FindAfter(a[1..], b, ch);
    }
  }

  /** The last name of a list, which has no comma after it. */
  lemma PinNamesLast(name: string, count: nat)
    requires ',' !in name
    ensures PinNames(Some(name), count) == if count == 0 then Some([]) else if count == 1 then Some([name]) else None
  {
    assert Find(name, ',') == None;
    if count == 1 {
      assert PinNames(None, 0) == Some([]);
      assert [name] + [] == [name];
    } else if count > 1 {
      assert PinNames(None, count - 1) == None;
    }
  }

  /** A name followed by a comma and the rest of the list. */
  lemma PinNamesCons(name: string, rest: string, count: nat)
    requires ',' !in name && count > 0
    ensures var more := PinNames(Some(rest), count - 1);
      PinNames(Some(name + "," + rest), count) == if more.Some? then Some([name] + more.value) else None
  {
    var s := name + "," + rest;
    FindAfter(name, rest, ',');
    assert s[..|name|] == name && s[|name| + 1..] == rest;
  }

  lemma NoCommaTail(names: seq<string>)
    requires |names| >= 1 && NoComma(names)
    ensures ',' !in names[0] && NoComma(names[1..])
  {
    forall i | 0 <= i < |names| - 1 ensures ',' !in names[1..][i] {
      assert names[1..][i] == names[i + 1];
    }
  }

  /** Reading from a written-out list of two or more names: its first
      name, then what is read from the rest. */
  lemma PinNamesStep(names: seq<string>, count: nat)
    requires |names| >= 2 && NoComma(names) && count > 0
    ensures var more := PinNames(Some(Join(names[1..])), count - 1);
      PinNames(Some(Join(names)), count) == if more.Some? then Some([names[0]] + more.value) else None
  {
    NoCommaTail(names);
    assert Join(names) == names[0] + "," + Join(names[1..]);
    PinNamesCons(names[0], Join(names[1..]), count);
  }

  /** The inductive step of PinNamesJoin. */
  lemma PinNamesPrefix(names: seq<string>, count: nat)
    requires |names| >= 2 && NoComma(names) && 0 < count <= |names|
    requires PinNames(Some(Join(names[1..])), count - 1) == Some(names[1..][..count - 1])
    ensures PinNames(Some(Join(names)), count) == Some(names[..count])
  {
    PinNamesStep(names, count);
    assert names[..count] == [names[0]] + names[1..][..count - 1];
  }

  /** Reading count names from a written-out list of at least count names
      yields its first count names. */
  lemma {:induction false} PinNamesJoin(names: seq<string>, count: nat)
    requires |names| >= 1 && NoComma(names) && count <= |names|
    ensures PinNames(Some(Join(names)), count) == Some(names[..count])
  {
    if count == 0 || |names| == 1 {
      PinNamesJoinOne(names, count);
    } else {
      NoCommaTail(names);
      PinNamesJoin(names[1..], count - 1);
      PinNamesPrefix(names, count);
    }
  }

  /** The base cases of PinNamesJoin: no pins, or a single name. */
  lemma PinNamesJoinOne(names: seq<string>, count: nat)
    requires |names| >= 1 && NoComma(names) && count <= |names| && (count == 0 || |names| == 1)
    ensures PinNames(Some(Join(names)), count) == Some(names[..count])
  {
    if count == 0 {
      assert names[..0] == [];
    } else {
      assert Join(names) == names[0];
      PinNamesLast(names[0], count);
      assert names[..1] == [names[0]];
    }
  }

  /** Asking a written-out list for more names than it has fails. */
  lemma {:induction false} PinNamesShort(names: seq<string>, count: nat)
    requires |names| >= 1 && NoComma(names) && count > |names|
    ensures PinNames(Some(Join(names)), count) == None
  {
    if |names| == 1 {
      assert Join(names) == names[0];
      PinNamesLast(names[0], count);
    } else {
      NoCommaTail(names);
      PinNamesShort(names[1..], count - 1);
      PinNamesShortStep(names, count);
    }
  }

  /** The inductive step of PinNamesShort. */
  lemma PinNamesShortStep(names: seq<string>, count: nat)
    requires |names| >= 2 && NoComma(names) && count > 0
    requires PinNames(Some(Join(names[1..])), count - 1) == None
    ensures PinNames(Some(Join(names)), count) == None
  {
    PinNamesStep(names, count);
  }

  /** PinNames succeeds exactly when the list gives every pin a name, and
      then its names are the ones edif_cellref_logic finds. */
  lemma {:induction false} NamesGivenAgree(p: Option<string>, count: nat)
    ensures var got := NamesGiven(p, count);
      PinNames(p, count) == if |got| == count then Some(got) else None
    decreases count
  {
    if count > 0 && p.Some? {
      var s := p.value;
      match Find(s, ',')
      case Some(c) => NamesGivenAgree(Some(s[c + 1..]), count - 1);
      case None => NamesGivenAgree(None, count - 1);
    }
  }

  /** The netlist the cellref path leaves is the emitted one when it maps,
      and the one it started from when the ':' or the cell is missing. */
  lemma CellrefStateAfter(s: NetState, pins: seq<Nexus>, def: string, catalog: map<string, seq<string>>)
    ensures var st := CellrefStep(s, pins, def, catalog); var t := CellrefState(s, pins, def, catalog);
      !st.Skip? &&
      (st.Emit? ==> t == st.after) &&
      (st.Abort? && st.reason != FewNamesReason ==> t == s)
  {
    match Find(def, ':')
    case None =>
    case Some(c) =>
      var cell := def[..c];
      if cell in catalog {
        NamesGivenAgree(Some(def[c + 1..]), |pins|);
        assert pins[..|pins|] == pins;
      }
  }

  /** The bindings CellrefBind adds: pin i on the port its name finds, in order. */
  lemma {:induction false} CellrefBindConns(s: NetState, pins: seq<Nexus>, names: seq<string>, ports: seq<string>,
                                            r: nat, count: nat)
    requires count <= |pins| == |names|
    ensures var t := CellrefBind(s, pins, names, ports, r, count);
      t.insts == s.insts && t.props == s.props && t.joints == s.joints &&
      |t.conns| == |s.conns| + count && t.conns[..|s.conns|] == s.conns &&
      forall i :: 0 <= i < count ==>
        t.conns[|s.conns| + i] == Conn(Cached(pins[i]), CellPin(r, Port(PortIndex(ports, names[i]))))
  {
    if count > 0 {
      CellrefBindConns(s, pins, names, ports, r, count - 1);
    }
  }

  /** edif_cellref_logic on the attribute "cell:names": it fails when the
      library lacks the cell or the list names fewer pins than the gate has;
      otherwise it adds one instance of the cell and binds gate pin i to the
      port named by the i-th name. */
  lemma CellrefMaps(s: NetState, pins: seq<Nexus>, cell: string, names: seq<string>,
                    catalog: map<string, seq<string>>)
    requires ':' !in cell && |names| >= 1 && NoComma(names)
    ensures var st := CellrefStep(s, pins, cell + ":" + Join(names), catalog);
      (cell !in catalog ==> st == Abort(NoCellReason)) &&
      (cell in catalog && |pins| > |names| ==> st == Abort(FewNamesReason)) &&
      (st.Emit? <==> cell in catalog && |pins| <= |names|) &&
      (st.Emit? ==>
        st.after.insts == s.insts + [Named(cell, |catalog[cell]|)] &&
        forall i :: 0 <= i < |pins| ==>
          Conn(Cached(pins[i]), CellPin(|s.insts|, Port(PortIndex(catalog[cell], names[i])))) in st.after.conns)
  {
    var def := cell + ":" + Join(names);
    FindAfter(cell, Join(names), ':');
    assert def[..|cell|] == cell && def[|cell| + 1..] == Join(names);
    if |pins| <= |names| {
      PinNamesJoin(names, |pins|);
    } else {
      PinNamesShort(names, |pins|);
    }
    if cell in catalog && |pins| <= |names| {
      var s1 := WithInstance(s, Named(cell, |catalog[cell]|));
      var got := names[..|pins|];
      CellrefBindConns(s1, pins, got, catalog[cell], |s.insts|, |pins|);
      var t := CellrefBind(s1, pins, got, catalog[cell], |s.insts|, |pins|);
      forall i | 0 <= i < |pins|
        ensures Conn(Cached(pins[i]), CellPin(|s.insts|, Port(PortIndex(catalog[cell], names[i])))) in t.conns
      {
        assert got[i] == names[i];
        assert t.conns[|s1.conns| + i] == Conn(Cached(pins[i]), CellPin(|s.insts|, Port(PortIndex(catalog[cell], got[i]))));
      }
    }
  }

  /** When the pin list runs out before every gate pin has a name, the
      program stops after creating the instance and binding, in order, each
      pin that got a name to the port of that name. */
  lemma CellrefStopsShort(s: NetState, pins: seq<Nexus>, def: string, catalog: map<string, seq<string>>, c: nat)
    requires Find(def, ':') == Some(c) && def[..c] in catalog
    requires |NamesGiven(Some(def[c + 1..]), |pins|)| < |pins|
    ensures CellrefStep(s, pins, def, catalog) == Abort(FewNamesReason)
    ensures var t := CellrefState(s, pins, def, catalog); var names := NamesGiven(Some(def[c + 1..]), |pins|);
      var ports := catalog[def[..c]];
      t.insts == s.insts + [Named(def[..c], |ports|)] &&
      t.props == s.props && t.joints == s.joints &&
      |t.conns| == |s.conns| + |names| && t.conns[..|s.conns|] == s.conns &&
      forall i :: 0 <= i < |names| ==>
        t.conns[|s.conns| + i] == Conn(Cached(pins[i]), CellPin(|s.insts|, Port(PortIndex(ports, names[i]))))
  {
    var names := NamesGiven(Some(def[c + 1..]), |pins|);
    NamesGivenAgree(Some(def[c + 1..]), |pins|);
    var ports := catalog[def[..c]];
    var s1 := WithInstance(s, Named(def[..c], |ports|));
    var front := pins[..|names|];
    CellrefBindConns(s1, front, names, ports, |s.insts|, |names|);
    forall i | 0 <= i < |names| ensures front[i] == pins[i] { }
  }
}
