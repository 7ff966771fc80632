/** The Virtex-II device record: the table of hooks the code generator calls
    for the design header and footer and for each element it maps, and the
    dispatch of an element to the hook its kind selects. Two slots of the
    table are empty, greater-than comparators and right shifters: the device
    does not support them, and an element of those kinds is reported but
    creates nothing. */
module Device {
  import opened Wrappers
  import opened Bits
  import opened Edif
  import opened Circuit
  import Design
  import Pads
  import Gates
  import FlipFlops
  import EqCompare
  import GeCompare
  import Adder
  import Shifter

  /** The slots of a device record, in their declaration order. */
  datatype Slot =
    | ShowHeader | ShowFooter | ShowPad | ShowLogic | ShowDff
    | ShowCmpEq | ShowCmpNe | ShowCmpGe | ShowCmpGt
    | ShowAdd | ShowSub | ShowShiftl | ShowShiftr

  /** The functions of this device that can fill a slot. */
  datatype Hook =
    | HeaderHook | FooterHook | PadHook | LogicHook | GenericDff
    | VirtexEq | CmpGeHook | AddHook | ShiftlHook

  /** The Virtex-II record: None is an empty slot. */
  function Virtex2(slot: Slot): Option<Hook>
  {
    match slot
    case ShowHeader => Some(HeaderHook)
    case ShowFooter => Some(FooterHook)
    case ShowPad => Some(PadHook)
    case ShowLogic => Some(LogicHook)
    case ShowDff => Some(GenericDff)
    case ShowCmpEq => Some(VirtexEq)
    case ShowCmpNe => Some(VirtexEq)
    case ShowCmpGe => Some(CmpGeHook)
    case ShowCmpGt => None
    case ShowAdd => Some(AddHook)
    case ShowSub => Some(AddHook)
    case ShowShiftl => Some(ShiftlHook)
    case ShowShiftr => None
  }

  /** The elements handed to the device one at a time: a pad-bound signal
      with its PAD attribute, a logic gate, a flip-flop LPM, and the
      comparator, adder and shifter LPMs. An equality comparator carries
      whether it is CMP_EQ or CMP_NE, an adder whether it is ADD or SUB. */
  datatype Element =
    | PadElem(sig: Design.Signal, attr: string)
    | LogicElem(g: Gates.Logic)
    | DffElem(d: FlipFlops.Dff)
    | EqElem(e: EqCompare.EqCmp)
    | GeElem(ge: GeCompare.GeCmp)
    | GtElem(gt: GeCompare.GeCmp)
    | ArithElem(ar: Adder.Arith)
    | ShiftlElem(sh: Shifter.Shift)
    | ShiftrElem(shr: Shifter.Shift)

  /** The slot an element's kind selects. */
  function SlotOf(el: Element): Slot
  {
    match el
    case PadElem(_, _) => ShowPad
    case LogicElem(_) => ShowLogic
    case DffElem(_) => ShowDff
    case EqElem(e) => if e.op == EqCompare.Eq then ShowCmpEq else ShowCmpNe
    case GeElem(_) => ShowCmpGe
    case GtElem(_) => ShowCmpGt
    case ArithElem(ar) => if ar.op == Adder.Add then ShowAdd else ShowSub
    case ShiftlElem(_) => ShowShiftl
    case ShiftrElem(_) => ShowShiftr
  }

  /** The operand widths agree as each kind of element guarantees. */
  predicate WellShaped(el: Element)
  {
    match el
    case DffElem(d) => FlipFlops.WellShaped(d)
    case EqElem(e) => EqCompare.WellShaped(e)
    case GeElem(g) => GeCompare.WellShaped(g)
    case ArithElem(ar) => Adder.WellShaped(ar)
    case ShiftlElem(sh) => Shifter.WellShaped(sh)
    case _ => true
  }

  /** The hook h runs on elements of the kinds whose slots it fills. */
  predicate Serves(h: Hook, el: Element)
  {
    match h
    case PadHook => el.PadElem?
    case LogicHook => el.LogicElem?
    case GenericDff => el.DffElem?
    case VirtexEq => el.EqElem?
    case CmpGeHook => el.GeElem?
    case AddHook => el.ArithElem?
    case ShiftlHook => el.ShiftlElem?
    case _ => false
  }

  /** Every filled element slot of the record holds a hook for that kind. */
  lemma RecordServes(el: Element)
    ensures Virtex2(SlotOf(el)).Some? ==> Serves(Virtex2(SlotOf(el)).value, el)
    ensures Virtex2(SlotOf(el)).None? <==> el.GtElem? || el.ShiftrElem?
  {
  }

  /** The message reported for an element of a kind the device lacks. */
  function NoHookMessage(slot: Slot): string
  {
    if slot == ShowCmpGt then "UNSUPPORTED LPM: greater-than comparator"
    else "UNSUPPORTED LPM: right shifter"
  }

  /** What running hook h on el does to the netlist state s. */
  function RunHook(h: Hook, s: NetState, el: Element, catalog: map<string, seq<string>>): Step
    requires Serves(h, el) && WellShaped(el)
  {
    match el
    case PadElem(sig, attr) => Pads.PadStep(s, sig, attr)
    case LogicElem(g) => Gates.LogicStep(s, g, catalog)
    case DffElem(d) => FlipFlops.DffStep(s, d)
    case EqElem(e) => EqCompare.EqStep(s, e)
    case GeElem(g) => GeCompare.GeStep(s, g)
    case ArithElem(ar) => Adder.AddStep(s, ar)
    case ShiftlElem(sh) => Shifter.ShiftStep(s, sh)
  }

  /** Mapping one element: the hook in its slot, or a report for an empty slot. */
  function ElementStep(s: NetState, el: Element, catalog: map<string, seq<string>>): Step
    requires WellShaped(el)
  {
    RecordServes(el);
    match Virtex2(SlotOf(el))
    case None => Skip(NoHookMessage(SlotOf(el)))
    case Some(h) => RunHook(h, s, el, catalog)
  }

  /** The netlist mapping one element leaves, whatever its outcome: the hook's
      partial netlist where a failing assertion stops it after it has
      created cells, and the netlist it was given where it stops before. */
  function ElementLeft(s: NetState, el: Element, catalog: map<string, seq<string>>): NetState
    requires WellShaped(el)
  {
    if Virtex2(SlotOf(el)).None? then s
    else
      match el
      case PadElem(sig, attr) => After(Pads.PadStep(s, sig, attr), s)
      case LogicElem(g) =>
        if g.cellref.Some? then Gates.CellrefState(s, g.pins, g.cellref.value, catalog)
        else After(Gates.LogicStep(s, g, catalog), s)
      case DffElem(d) => FlipFlops.DffStepLeft(s, d)
      case EqElem(e) => After(EqCompare.EqStep(s, e), s)
      case GeElem(g) => After(GeCompare.GeStep(s, g), s)
      case ArithElem(ar) => After(Adder.AddStep(s, ar), s)
      case ShiftlElem(sh) => After(Shifter.ShiftStep(s, sh), s)
  }

  /** When an element is mapped or reported, what it leaves is the step's own
      netlist: the partial netlists differ from it only on a fatal stop. */
  lemma ElementLeftAfter(s: NetState, el: Element, catalog: map<string, seq<string>>)
    requires WellShaped(el)
    requires ElementStep(s, el, catalog).Emit? || ElementStep(s, el, catalog).Skip?
    ensures ElementLeft(s, el, catalog) == After(ElementStep(s, el, catalog), s)
  {
    RecordServes(el);
    if Virtex2(SlotOf(el)).Some? {
      match el
      case LogicElem(g) =>
        if g.cellref.Some? {
          Gates.CellrefStateAfter(s, g.pins, g.cellref.value, catalog);
        }
      case DffElem(d) =>
        if !(d.aset.Some? && d.setBits.None?) {
          DffBitsNeverSkip(s, d, |d.q|);
          FlipFlops.DffLeftEmit(s, d, |d.q|);
        }
      case _ =>
    }
  }

  /** The elements the device maps to arithmetic cells. */
  predicate Arithmetic(el: Element)
  {
    el.EqElem? || el.GeElem? || el.ArithElem? || el.ShiftlElem?
  }

  /** What an arithmetic element's outputs are to be, in terms of the
      values of its inputs: the comparison result, the sum or difference
      modulo 2^width, the data shifted left by the select value. */
  predicate Computes(el: Element, jv: JointId -> bool)
    requires WellShaped(el)
  {
    match el
    case EqElem(e) =>
      jv(Cached(e.q)) == ((Val(Read(jv, e.a)) == Val(Read(jv, e.b))) == (e.op == EqCompare.Eq))
    case GeElem(g) => jv(Cached(g.q)) == (Val(Read(jv, g.a)) >= Val(Read(jv, g.b)))
    case ArithElem(ar) =>
      Val(Read(jv, ar.q)) == Adder.ArithValue(ar.op, Val(Read(jv, ar.a)), Val(Read(jv, ar.b)), |ar.q|)
    case ShiftlElem(sh) =>
      Read(jv, sh.q) == Shifter.ShiftLeft(Read(jv, sh.data), Val(Read(jv, sh.sel)))
    case _ => true
  }

  /** Every arithmetic element the device accepts is mapped to a netlist
      whose every consistent valuation gives its outputs the right values. */
  lemma ElementComputes(s: NetState, el: Element, catalog: map<string, seq<string>>,
                        jv: JointId -> bool, pv: Binding -> bool)
    requires WellShaped(el) && Arithmetic(el)
    requires ElementStep(s, el, catalog).Emit? && Behaves(ElementStep(s, el, catalog).after, jv, pv)
    ensures Computes(el, jv)
  {
    match el
    case EqElem(e) => EqCompare.EqComputes(s, e, jv, pv);
    case GeElem(g) => GeCompare.GeComputes(s, g, jv, pv);
    case ArithElem(ar) => Adder.AddComputes(s, ar, jv, pv);
    case ShiftlElem(sh) => Shifter.ShiftComputes(s, sh, jv, pv);
  }

  /** An element of a kind the device lacks is reported and creates nothing. */
  lemma MissingSlotsSkip(s: NetState, el: Element, catalog: map<string, seq<string>>)
    requires WellShaped(el) && (el.GtElem? || el.ShiftrElem?)
    ensures var st := ElementStep(s, el, catalog); st == Skip(NoHookMessage(SlotOf(el))) && After(st, s) == s
  {
    assert Virtex2(SlotOf(el)) == None;
  }

  /** The pad hook's bit loop stops only on an error, never with a report. */
  lemma {:induction false} PadBitsNeverSkip(s: NetState, sig: Design.Signal, count: nat)
    requires count <= |sig.pins|
    ensures !Pads.PadBits(s, sig, count).Skip?
  {
    if count > 0 {
      PadBitsNeverSkip(s, sig, count - 1);
    }
  }

  /** Nor does the flip-flop hook's bit loop. */
  lemma {:induction false} DffBitsNeverSkip(s: NetState, d: FlipFlops.Dff, count: nat)
    requires FlipFlops.WellShaped(d) && count <= |d.q|
    ensures !FlipFlops.DffBits(s, d, count).Skip?
  {
    if count > 0 {
      DffBitsNeverSkip(s, d, count - 1);
    }
  }

  /** An element is reported as unsupported exactly when its slot is empty
      or it is a logic gate of a type the device has no LUT for. */
  lemma SkipsExactly(s: NetState, el: Element, catalog: map<string, seq<string>>)
    requires WellShaped(el)
    ensures ElementStep(s, el, catalog).Skip? <==>
      (el.GtElem? || el.ShiftrElem? ||
       (el.LogicElem? && el.g.cellref.None? && el.g.kind.OtherGate?))
  {
    RecordServes(el);
    if el.GtElem? || el.ShiftrElem? {
      assert Virtex2(SlotOf(el)) == None;
    } else {
      var h := Virtex2(SlotOf(el)).value;
      assert ElementStep(s, el, catalog) == RunHook(h, s, el, catalog);
      match el
      case LogicElem(g) =>
      case PadElem(sig, attr) => if Pads.ParsePins(attr, |sig.pins|).Some? { PadBitsNeverSkip(s, sig, |sig.pins|); }
      case DffElem(d) => if !(d.aset.Some? && d.setBits.None?) { DffBitsNeverSkip(s, d, |d.q|); }
      case _ =>
    }
  }

  /** The dispatch: run the hook in the element's slot, or report an empty slot. */
  method MapElement(n: Netlist, el: Element, catalog: map<string, seq<string>>) returns (o: Outcome)
    requires n.Valid() && WellShaped(el)
    modifies n`cells, n`ipadMade, n`opadMade, n`instances, n`cellProps, n`joints, n`conns
    ensures n.Valid()
    ensures var st := ElementStep(old(n.State()), el, catalog);
      o == OutcomeOf(st) && (st.Emit? || st.Skip? ==> n.State() == After(st, old(n.State())))
    ensures n.State() == ElementLeft(old(n.State()), el, catalog)
    ensures !el.PadElem? ==> n.cells == old(n.cells) && n.ipadMade == old(n.ipadMade) && n.opadMade == old(n.opadMade)
  {
    RecordServes(el);
    SkipsExactly(n.State(), el, catalog);
    var slot := SlotOf(el);
    var hook := Virtex2(slot);
    if hook.None? {
      return Unsupported(NoHookMessage(slot));
    }
    match el
    case PadElem(sig, attr) =>
      o := Pads.MapPad(n, sig, attr);
    case LogicElem(g) =>
      o := Gates.MapLogic(n, g, catalog);
    case DffElem(d) =>
      o := FlipFlops.MapDff(n, d);
    case EqElem(e) =>
      o := EqCompare.MapEq(n, e);
    case GeElem(g) =>
      o := GeCompare.MapGe(n, g);
    case ArithElem(ar) =>
      o := Adder.MapAdd(n, ar);
    case ShiftlElem(sh) =>
      o := Shifter.MapShiftl(n, sh);
  }
}
