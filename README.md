# Virtex-II technology mapper (icarus `tgt-fpga/d-virtex2.c`), modelled in Dafny

The icarus Verilog FPGA code generator hands a synthesised design to a
device driver one element at a time. The Virtex-II driver turns each element
into Xilinx library cells (LUT2/3/4 with hex INIT strings, MUXCY, MUXCY_L,
XORCY, FDCE/FDCPE flip-flops, IBUF/OBUF/BUF, IPAD/OPAD, GND, VCC) wired by
joints of an EDIF netlist:

- **design header**: design ports, the VIRTEX2 library, the PART property, GND and VCC;
- **design footer**: constant drivers;
- **PAD-bound signals**: IPAD+IBUF or OPAD+OBUF per bit, from a
  comma-separated pin list;
- **logic gates**: a LUT per AND/NOR/OR/XNOR/XOR, a BUF per buffer, or the
  library cell a `cellref` attribute names;
- **flip-flops**: FDCE, or FDCPE for preset bits;
- **equality comparators**: CMP_EQ and CMP_NE, built as one LUT or a MUXCY
  chain;
- **magnitude comparators**: CMP_GE;
- **ADD and SUB**: a carry chain;
- **left shifters**: SHIFTL, a LUT3/LUT4 matrix.

The device record gives every element kind its hook. Its greater-than and
right-shift slots are empty.

## The model

- **The netlist** (`Netlist.dfy`, module `Edif`):
  - It is a class, `Edif.Netlist`, with the fields the driver updates: the
    declared library cells, the pad-cell flags, the instances, the instance
    properties, the fresh joints and the bindings (joint, pin).
  - Each `edif_*` call the driver makes is a method whose contract gives the
    new state as a pure transformer of `NetState`, for example
    `State() == WithInstance(old(State()), kind)`.
  - The joint of a nexus is `Cached(nexus)`. A fresh joint is
    `Internal(k)`.
- **One module per hook**: `Design` (header and footer), `Pads`, `Gates`,
  `FlipFlops`, `EqCompare`, `GeCompare`, `Adder` and `Shifter`.
  - Each hook is an imperative method over the netlist, with the hook's own
    loops and invariants. It is proved against a pure step function:
    `o == OutcomeOf(st) && n.State() == After(st, old(n.State()))` for a hook
    that stops only with an emitted or skipped step or before creating
    anything. A hook that can stop part-way (a gate with a cellref, a
    flip-flop, the footer) also states the partial netlist it leaves, as a
    pure "left" function: `Gates.CellrefState`, `FlipFlops.DffStepLeft`,
    `Design.TieConstsLeft`, and `Device.ElementLeft` for the dispatch.
  - A step is `Emit(state)`, `Skip(message)` for an unsupported element, or
    `Abort(reason)` for a failing `assert` of the driver.
- **`Device`**: the device record and the dispatch of an element to its hook.
- **What a netlist computes** (`Circuit.dfy`):
  - A valuation gives every joint and every bound pin a value.
    `Behaves(t, jv, pv)` says it is consistent with the bindings and with
    every cell: a LUT outputs its INIT table, MUXCY and XORCY follow the
    Virtex-II library, and GND and VCC drive 0 and 1.
  - The main theorems say that under EVERY consistent valuation of the
    netlist a hook leaves, the element's outputs are right:
    - a comparator outputs `Val(a) == Val(b)` (or `!=`) or `Val(a) >= Val(b)`;
    - an adder outputs the sum or difference modulo 2^width;
    - a shifter outputs its data shifted left by the select value;
    - a gate outputs its Boolean function;
    - a constant driver outputs its bit.
- **Truth tables** (`TruthTable.dfy`, `Inits.dfy`): the hex INIT format, and
  the table of every INIT string the driver writes.
- **Helpers**: `Bits.dfy` (`Val`, `Pow2`, the carry ripple) and
  `Decimal.dfy` (`%u` rendering and `strtoul`).

Two points about the code the model follows:

- The code creates a fresh GND or VCC instance for every constant it needs
  (d-virtex2.c:163, 166, 526, 699, 703, 857, 905, 1039-1040). The model
  does the same.
- The one-bit subtracter and the one-bit `>=` comparator are modelled both
  as written and corrected (see Findings). The hooks use the corrected
  forms, as "## Left out" records under the hooks' names.

## Model

| member | source | states |
|---|---|---|
| Edif.Netlist.constructor | tgt-fpga/d-virtex2.c:89 | a new netlist has the design name and port count, and no ports, properties, library, cells, instances, joints or bindings |
| Edif.Netlist.PortConfig | tgt-fpga/d-virtex2.c:103-104 | port p gets the name and direction; other ports keep theirs |
| Edif.Netlist.SetProperty | tgt-fpga/d-virtex2.c:136 | the design property is appended |
| Edif.Netlist.CreateLibrary | tgt-fpga/d-virtex2.c:131-132 | the library gets its name and its cell table |
| Edif.Netlist.DeclareCell | tgt-fpga/d-virtex2.c:139-143 | the cell declaration is appended |
| Edif.Netlist.DeclareIpad | tgt-fpga/d-virtex2.c:185-188 | IPAD is declared once and its flag set |
| Edif.Netlist.DeclareOpad | tgt-fpga/d-virtex2.c:190-193 | OPAD is declared once and its flag set |
| Edif.Netlist.CreateInstance | tgt-fpga/d-virtex2.c:553 | a new instance is numbered after all existing ones; nothing else changes |
| Edif.Netlist.CellrefProperty | tgt-fpga/d-virtex2.c:556 | the (instance, key, value) property is appended |
| Edif.Netlist.CreateJoint | tgt-fpga/d-virtex2.c:527 | a fresh unnamed joint is numbered after the existing ones |
| Edif.Netlist.RenameJoint | tgt-fpga/d-virtex2.c:234 | only the named fresh joint gets the new name |
| Edif.Netlist.AddToJoint | tgt-fpga/d-virtex2.c:554 | the binding (joint, instance pin) is appended; every binding still names existing things |
| Edif.Netlist.Bind | tgt-fpga/d-virtex2.c:595-600 | a run of bindings is appended in order |
| Edif.Netlist.PortToJoint | tgt-fpga/d-virtex2.c:108 | the binding (joint, design port) is appended |
| Edif.Grow | tgt-fpga/d-virtex2.c:586-602 | a step appends instances, properties, fresh joints and bindings, and keeps the old ones as prefixes |
| Edif.OutcomeOf | tgt-fpga/d-virtex2.c:412-415 | an emitted element is done; an aborted one (an `assert` that fails) is fatal; a skipped one is unsupported, as the UNSUPPORTED report of the gate switch's default branch |
| Edif.After | tgt-fpga/d-virtex2.c:412-415 | an element that is not emitted leaves the netlist unchanged |
| Design.SigEntries | tgt-fpga/d-virtex2.c:102-124 | a non-PAD port signal has one design port per bit; other signals have none |
| Design.PortCountIsEntries | tgt-fpga/d-virtex2.c:77-87 | the counted ports are exactly the ports that are later numbered |
| Design.PortOfBit | tgt-fpga/d-virtex2.c:115-126 | bit b of signal i is port pidx+b, where pidx counts the ports of the earlier signals |
| Design.SigEntry | tgt-fpga/d-virtex2.c:102-123 | a one-bit signal keeps its name; bit b of a wider one is named name[b] |
| Design.BitNamesDistinct | tgt-fpga/d-virtex2.c:117 | different bits of a vector port get different names |
| Design.CountPorts | tgt-fpga/d-virtex2.c:77-87 | the loop counts the bits of the port signals without PAD |
| Design.ConfigPorts | tgt-fpga/d-virtex2.c:102-124 | one signal's ports are configured and bound to the bits' joints |
| Design.NumberPorts | tgt-fpga/d-virtex2.c:91-129 | every port is configured and bound in signal order; the port count matches the first loop's |
| Design.DeclareLibrary | tgt-fpga/d-virtex2.c:131-143 | the VIRTEX2 library holds BUFG and MULT_AND; PART is set only when the flag is non-empty; GND and VCC are declared |
| Design.ShowHeader | tgt-fpga/d-virtex2.c:68-145 | the header leaves exactly the port map, port bindings, library, optional PART and GND/VCC cells, with no instances |
| Design.ShowFooter | tgt-fpga/d-virtex2.c:147-176 | the footer's loop gives the outcome and state of tying every constant bit, and on a bad bit leaves the drivers of the bits before it, as TieConstsLeft says |
| Design.TieConstLeftEmit | tgt-fpga/d-virtex2.c:156-174 | when every bit of a constant is good, what its tie-off leaves is the emitted netlist |
| Design.TieConstsLeftEmit | tgt-fpga/d-virtex2.c:150-174 | when every constant bit is good, what the footer leaves is the emitted netlist |
| Design.TieConstLeftStays | tgt-fpga/d-virtex2.c:156-174 | once a bad bit stops the program, the later bits of the constant add nothing |
| Design.TieConstsLeftStays | tgt-fpga/d-virtex2.c:150-174 | once a bad bit stops the program, the later constants add nothing |
| Design.TieConstLeftAtBadBit | tgt-fpga/d-virtex2.c:159-171 | when bit k is the first bad bit of a constant, its tie-off leaves exactly the drivers of bits 0 to k-1 |
| Design.TieConstFails | tgt-fpga/d-virtex2.c:161-171 | a constant aborts exactly when one of its bits is neither 0 nor 1; it is never skipped |
| Design.FooterFails | tgt-fpga/d-virtex2.c:151-175 | the footer aborts exactly when some bit of some constant is neither 0 nor 1 |
| Design.TieConstExtends | tgt-fpga/d-virtex2.c:156-174 | tying a constant only appends, one driver per bit |
| Design.TieOne | tgt-fpga/d-virtex2.c:160-173 | a bit's driver is a new instance bound on port 0 to the bit's joint |
| Design.TieConstDrives | tgt-fpga/d-virtex2.c:156-174 | in every consistent valuation, each pin of a constant carries its bit |
| Design.FooterDrives | tgt-fpga/d-virtex2.c:151-175 | every pin of every constant carries its bit |
| Decimal.NatToString | tgt-fpga/d-virtex2.c:117 | a number is rendered as one or more decimal digits, and as one digit exactly when it is below 10 |
| Decimal.NatToStringValue | tgt-fpga/d-virtex2.c:117 | the rendered digits read back as the number |
| Decimal.NatToStringInjective | tgt-fpga/d-virtex2.c:224 | distinct numbers render differently |
| Decimal.Strtoul | tgt-fpga/d-virtex2.c:201 | strtoul returns a value no larger than ULONG_MAX and an end position within the string |
| Decimal.StrtoulRendered | tgt-fpga/d-virtex2.c:201 | strtoul reads a rendered number back whole |
| Pads.ParsePins | tgt-fpga/d-virtex2.c:198-213 | the pin list parses into exactly one 32-bit value per bit, or fails on a bad separator |
| Pads.ParsePinList | tgt-fpga/d-virtex2.c:199-213 | the imperative loop succeeds exactly when ParsePins does, with the same pins |
| Pads.ParseRound | tgt-fpga/d-virtex2.c:201-212 | one round reads a number, fails on a separator other than ',' or the end, and continues after the comma |
| Pads.ParseJoined | tgt-fpga/d-virtex2.c:198-213 | a comma-joined list of 32-bit numbers parses back as those numbers, with zeros past its end |
| Pads.ParseAtEnd | tgt-fpga/d-virtex2.c:201-212 | once the string is used up, every remaining pin reads 0 |
| Pads.ParseBadSeparator | tgt-fpga/d-virtex2.c:208-209 | a number followed by a character other than ',' fails the parse |
| Pads.DeclarePads | tgt-fpga/d-virtex2.c:185-193 | IPAD and OPAD are each declared exactly once over all calls |
| Pads.PlacePad | tgt-fpga/d-virtex2.c:217-257 | one bit places a pad and a buffer as PadBit says |
| Pads.PlacePads | tgt-fpga/d-virtex2.c:217-259 | the bit loop follows PadBits; a signal of a direction other than input or output stops it at bit 0, so a fatal stop leaves the netlist unchanged |
| Pads.MapPad | tgt-fpga/d-virtex2.c:180-262 | the hook declares the pad cells and follows PadStep; a bad pin list or direction stops it before any instance is created, with the netlist unchanged |
| Pads.PadBitsOutcome | tgt-fpga/d-virtex2.c:228-257 | a signal with pins is placed exactly when it is an input or an output; otherwise it aborts |
| Pads.PadBitShape | tgt-fpga/d-virtex2.c:228-257 | each bit adds two instances, one named joint and three bindings |
| Pads.PadBitsLayout | tgt-fpga/d-virtex2.c:217-259 | after the loop every bit's pad, buffer and bindings are in place |
| Pads.PadBitDrives | tgt-fpga/d-virtex2.c:233-252 | the named pad joint of bit i carries the value of the signal's pin i |
| Pads.PadsDrive | tgt-fpga/d-virtex2.c:217-259 | in every consistent valuation, every bit's pad net carries the signal's bit |
| Gates.Find | tgt-fpga/d-virtex2.c:277 | strchr: the first position of the character, or none when it is absent |
| Gates.PortIndex | tgt-fpga/d-virtex2.c:297 | a port found by name has that name and comes before every other port of that name |
| Gates.PinNames | tgt-fpga/d-virtex2.c:287-302 | the pin list splits into exactly one name per pin, or fails when it runs out |
| Gates.PinNamesJoin | tgt-fpga/d-virtex2.c:287-302 | a comma-joined list of at least count comma-free names splits back into its first count names |
| Gates.PinNamesShort | tgt-fpga/d-virtex2.c:290 | a list with fewer names than pins fails |
| Gates.FindAfter | tgt-fpga/d-virtex2.c:277-279 | the cell name ends at the first ':' |
| Gates.CellrefBindConns | tgt-fpga/d-virtex2.c:287-302 | pin i is bound to the port its name selects, in pin order, and nothing else changes |
| Gates.CellrefMaps | tgt-fpga/d-virtex2.c:268-305 | a cellref aborts on an unknown cell or too few names; otherwise it creates that cell with every pin on its named port |
| Gates.NamesGivenAgree | tgt-fpga/d-virtex2.c:287-302 | PinNames succeeds exactly when every pin gets a name, and then gives the names NamesGiven finds |
| Gates.CellrefStateAfter | tgt-fpga/d-virtex2.c:276-285 | an element never skips on the cellref path; CellrefState is the emitted netlist when it maps, and the netlist unchanged when the ':' or the cell is missing |
| Gates.CellrefStopsShort | tgt-fpga/d-virtex2.c:285-299 | when the list runs out before every pin has a name, the step is fatal and the netlist holds the new instance with each named pin bound, in order, to the port of its name |
| Gates.LutLogic | tgt-fpga/d-virtex2.c:307-353 | the LUT of a 3 to 5 pin gate follows LutStep |
| Gates.CellrefLogic | tgt-fpga/d-virtex2.c:268-305 | the outcome is CellrefStep's; the netlist is CellrefState: unchanged without a ':' or a known cell, otherwise the new instance with every named pin bound, including the pins bound before a too-short list stops the program |
| Gates.BindCellref | tgt-fpga/d-virtex2.c:287-302 | the pin loop follows CellrefBind |
| Gates.MapLogic | tgt-fpga/d-virtex2.c:355-417 | the outcome is LogicStep's; an emitted or skipped gate leaves LogicStep's netlist (unchanged for an unsupported gate); a cellref gate leaves CellrefState; a fatal buffer or LUT pin count leaves the netlist unchanged, since those asserts come before any cell is created |
| Gates.LutStepShape | tgt-fpga/d-virtex2.c:314-352 | a gate with p pins makes one LUT(p-1) with the gate's INIT, output on pin 0 and input i on I(i) |
| Gates.Lut2Gate | tgt-fpga/d-virtex2.c:385-409 | INITs 8, 1, E, 9 and 6 compute 2-input AND, NOR, OR, XNOR and XOR |
| Gates.Lut3Gate | tgt-fpga/d-virtex2.c:385-409 | INITs 80, 01, FE, 69 and 96 compute the 3-input gates |
| Gates.Lut4Gate | tgt-fpga/d-virtex2.c:385-409 | INITs 8000, 0001, FFFE, 9669 and 6996 compute the 4-input gates |
| Gates.LutGate | tgt-fpga/d-virtex2.c:317-332 | the INIT chosen for the pin count computes the gate |
| Gates.LutComputes | tgt-fpga/d-virtex2.c:307-353 | the gate's output pin carries the LUT's table at its inputs |
| Gates.GateComputes | tgt-fpga/d-virtex2.c:382-410 | every placed AND/NOR/OR/XNOR/XOR gate outputs its Boolean function of its inputs |
| Gates.BufComputes | tgt-fpga/d-virtex2.c:369-380 | a placed buffer has two pins, and its output equals its input |
| FlipFlops.PlaceFfBase | tgt-fpga/d-virtex2.c:442-465 | one bit's FDCE/FDCPE with Q, D, C, and optional CE and CLR, as FfBase says |
| FlipFlops.PlaceFf | tgt-fpga/d-virtex2.c:442-476 | one bit of the loop follows DffBit, including the two-clears assertion, after which the bit's FDCE/FDCPE with Q, D, C, CE and CLR is left in place |
| FlipFlops.MapDff | tgt-fpga/d-virtex2.c:419-478 | the hook follows DffStep, and leaves the netlist DffStepLeft gives: unchanged when no set value is given, the earlier bits and the failing bit's cell on two clears |
| FlipFlops.DffLeftEmit | tgt-fpga/d-virtex2.c:435-477 | when no bit conflicts, what the loop leaves is its emitted netlist |
| FlipFlops.DffLeftStays | tgt-fpga/d-virtex2.c:435-477 | once a bit stops the program, the later bits add nothing |
| FlipFlops.DffLeftAtConflict | tgt-fpga/d-virtex2.c:442-475 | when bit k is the first to have two clears, the loop leaves the flip-flops of bits 0 to k-1 and bit k's cell with its bindings, as FfBase says |
| FlipFlops.DffBitOutcome | tgt-fpga/d-virtex2.c:467-475 | a bit aborts exactly when it is a clear-by-set bit and there is also an asynchronous clear |
| FlipFlops.DffBitsOutcome | tgt-fpga/d-virtex2.c:435-477 | the loop succeeds exactly when no bit conflicts, with one flip-flop per bit |
| FlipFlops.DffBitsLayout | tgt-fpga/d-virtex2.c:435-477 | every bit appends its register cell and its bindings |
| FlipFlops.FfWiresNets | tgt-fpga/d-virtex2.c:448-475 | Q, D and C are bound; CE exactly when there is an enable; PRE exactly for a preset bit; CLR exactly from aclr or from aset on a 0 bit |
| FlipFlops.FfWiresPins | tgt-fpga/d-virtex2.c:448-475 | each binding is on a pin of the bit's cell, and no pin is bound twice |
| EqCompare.Pairs | tgt-fpga/d-virtex2.c:863-866 | the wide comparator has ceil(width/2) slices |
| EqCompare.PlaceOneBit | tgt-fpga/d-virtex2.c:821-833 | a one-bit comparator, as OneBitStep says |
| EqCompare.PlaceTwoBit | tgt-fpga/d-virtex2.c:835-853 | a two-bit comparator, as TwoBitStep says |
| EqCompare.PlaceHead | tgt-fpga/d-virtex2.c:856-909 | the DI constant and the first slice with its CI constant |
| EqCompare.PlacePair | tgt-fpga/d-virtex2.c:863-912 | one slice of the chain, as PairStep says |
| EqCompare.PlacePairs | tgt-fpga/d-virtex2.c:863-912 | the slice loop |
| EqCompare.PlaceWide | tgt-fpga/d-virtex2.c:855-916 | the wide comparator, output from the last MUXCY |
| EqCompare.MapEq | tgt-fpga/d-virtex2.c:805-918 | the hook follows EqStep; width 0 is fatal |
| EqCompare.PairsSize | tgt-fpga/d-virtex2.c:863-912 | the chain's instance, joint and property counts, and that it only appends |
| EqCompare.PairsLayout | tgt-fpga/d-virtex2.c:863-912 | every slice's cells and bindings are in the finished chain |
| EqCompare.Eq1Init | tgt-fpga/d-virtex2.c:823 | INIT 9 is a == b and INIT 6 is a != b |
| EqCompare.Eq2Init | tgt-fpga/d-virtex2.c:837 | INIT 9009 is true exactly when both bit pairs are equal |
| EqCompare.Ne2Init | tgt-fpga/d-virtex2.c:837 | INIT 6FF6 is true exactly when some bit pair differs |
| EqCompare.ChainCompares | tgt-fpga/d-virtex2.c:863-912 | the MUXCY of slice k outputs whether the low bits up to that slice are equal, or differ for NE |
| EqCompare.WideCompares | tgt-fpga/d-virtex2.c:855-916 | the wide comparator's output is (a == b) for EQ and (a != b) for NE |
| EqCompare.OneBitCompares | tgt-fpga/d-virtex2.c:821-833 | the same result for one bit |
| EqCompare.TwoBitCompares | tgt-fpga/d-virtex2.c:835-853 | the same result for two bits |
| EqCompare.EqComputes | tgt-fpga/d-virtex2.c:805-918 | for every width, Q is Val(A) == Val(B) for CMP_EQ and its negation for CMP_NE |
| GeCompare.PlaceOneBit | tgt-fpga/d-virtex2.c:932-958 | the one-bit LUT2 "D", with B on I0 as the truth table and comment say |
| GeCompare.PlaceLow | tgt-fpga/d-virtex2.c:982-998 | the LUT4 "F731" on A1 A0 B1 B0 |
| GeCompare.PlaceHead | tgt-fpga/d-virtex2.c:1034-1049 | the first MUXCY_L with the LUT4 on S, GND on DI and VCC on CI |
| GeCompare.PlaceSlice | tgt-fpga/d-virtex2.c:1051-1072 | one slice: LUT2 "9" on S, the previous mux on CI, and A on DI and I0 |
| GeCompare.PlaceSlices | tgt-fpga/d-virtex2.c:1051-1072 | the slice loop follows GeChain |
| GeCompare.PlaceChain | tgt-fpga/d-virtex2.c:1034-1072 | the whole chain, two instances per bit |
| GeCompare.MapGe | tgt-fpga/d-virtex2.c:925-1078 | the hook follows GeStep; width 0 is fatal |
| GeCompare.ChainSize | tgt-fpga/d-virtex2.c:1034-1072 | the chain's instance and joint counts, and that it only appends |
| GeCompare.SlicesLayout | tgt-fpga/d-virtex2.c:1051-1072 | every slice's cells and bindings are in the finished chain |
| GeCompare.GeInit | tgt-fpga/d-virtex2.c:960-985 | LUT4 "F731" with inputs B0 B1 A0 A1 outputs A[1:0] >= B[1:0] |
| GeCompare.GeInit1 | tgt-fpga/d-virtex2.c:934-947 | LUT2 "D" with B on I0 and A on I1 outputs A or not B |
| GeCompare.GeSnoc | tgt-fpga/d-virtex2.c:1006-1025 | the slice recurrence: A >= B on i+1 bits is the lower result when the top bits agree, and otherwise the top bit of A |
| GeCompare.ChainGe | tgt-fpga/d-virtex2.c:1027-1072 | the mux of slice k outputs A[k:0] >= B[k:0] |
| GeCompare.WideComputes | tgt-fpga/d-virtex2.c:1034-1077 | a comparator of three or more bits outputs Val(A) >= Val(B) |
| GeCompare.TwoBitComputes | tgt-fpga/d-virtex2.c:982-1004 | a two-bit comparator outputs Val(A) >= Val(B) |
| GeCompare.OneBitComputes | tgt-fpga/d-virtex2.c:932-958 | the corrected one-bit comparator outputs A >= B |
| GeCompare.GeComputes | tgt-fpga/d-virtex2.c:925-1078 | for every width, Q is Val(A) >= Val(B) |
| GeCompare.OneBitAsWrittenWrong | tgt-fpga/d-virtex2.c:955-956 | as written, with A = B = 0 there is a consistent valuation whose output is 0 |
| Adder.PlaceHalf | tgt-fpga/d-virtex2.c:671-686 | the one-bit device: a LUT2 with A on I0, B on I1 and the XOR INIT |
| Adder.PlaceHead | tgt-fpga/d-virtex2.c:690-728 | slice 0 with its carry constant, as AddHead says |
| Adder.PlaceSlice | tgt-fpga/d-virtex2.c:731-763 | slice idx, with a MUXCY_L except in the top slice |
| Adder.PlaceChain | tgt-fpga/d-virtex2.c:690-764 | the whole chain follows AddSlices |
| Adder.MapAdd | tgt-fpga/d-virtex2.c:649-766 | the hook follows AddStep; width 0 is fatal |
| Adder.AddSlicesSize | tgt-fpga/d-virtex2.c:730-764 | the chain has 3 instances, 1 property and 2 fresh joints per bit, and only appends |
| Adder.AddSlicesLayout | tgt-fpga/d-virtex2.c:730-764 | every slice's cells and bindings are in the finished chain |
| Adder.PropagateInit | tgt-fpga/d-virtex2.c:657-666 | the slice LUT computes a XOR b for ADD and a XOR NOT b for SUB |
| Adder.HeadPins | tgt-fpga/d-virtex2.c:710-728 | slice 0's pins carry A[0], B[0], Q[0], the carry constant and the propagate signal |
| Adder.SliceRipple | tgt-fpga/d-virtex2.c:745-763 | each slice is a full adder: Q[i] = p XOR c[i], and the carry out is c[i] when p holds and A[i] otherwise |
| Adder.ChainRipples | tgt-fpga/d-virtex2.c:695-764 | the chain ripples A plus B (or plus NOT B), with carry-in 0 for ADD and 1 for SUB |
| Adder.RippleArith | tgt-fpga/d-virtex2.c:644-647 | a ripple of A and NOT B with carry-in 1 is A - B modulo 2^w, and one of A and B with carry-in 0 is A + B |
| Adder.ArithValueMod | tgt-fpga/d-virtex2.c:644-647 | the reference value is (A + B) mod 2^w or (A - B) mod 2^w |
| Adder.ChainComputes | tgt-fpga/d-virtex2.c:690-764 | a chain of two or more bits outputs (A ± B) mod 2^w |
| Adder.HalfComputes | tgt-fpga/d-virtex2.c:671-686 | the one-bit device outputs its INIT's table at A, B |
| Adder.AddComputes | tgt-fpga/d-virtex2.c:649-766 | for every width, Q is (A + B) mod 2^w for ADD and (A - B) mod 2^w for SUB |
| Adder.HalfSubAsWritten | tgt-fpga/d-virtex2.c:662 | the one-bit SUB as written outputs 1 - ((A - B) mod 2) |
| Adder.HalfSubAsWrittenEqual | tgt-fpga/d-virtex2.c:671-684 | as written, with A = B the difference is 0 but Q is 1 |
| Shifter.ColumnCount | tgt-fpga/d-virtex2.c:504-511 | the select loop's count equals Columns |
| Shifter.ColumnsLeast | tgt-fpga/d-virtex2.c:498-511 | it is 0 exactly without selects, at most the selects, and the least count whose shift 2^n reaches the width (or all selects) |
| Shifter.PlacePad | tgt-fpga/d-virtex2.c:526-528 | the zero pad: a GND and a fresh joint on its port |
| Shifter.PlaceLut | tgt-fpga/d-virtex2.c:553-556 | one matrix LUT with select sdx on I2 and the column's INIT |
| Shifter.PlaceColumn | tgt-fpga/d-virtex2.c:552-557 | one column of width LUTs |
| Shifter.PlaceMatrix | tgt-fpga/d-virtex2.c:537-558 | nsel columns; all but a last gated column are LUT3 "CA", and that one is LUT4 "00CA" |
| Shifter.RecordColumn | tgt-fpga/d-virtex2.c:521-522 | row sdx of the cell table holds that column's instances; other rows are unchanged |
| Shifter.FillTable | tgt-fpga/d-virtex2.c:518-522 | table[sdx][q] is the instance of column sdx, row q |
| Shifter.CellBelow | tgt-fpga/d-virtex2.c:518-522 | every table entry names an instance of the matrix |
| Shifter.PlaceFirst | tgt-fpga/d-virtex2.c:563-580 | column 0 gets D[q] on I0, and D[q-1] (the pad for q = 0) on I1 |
| Shifter.PlaceLink | tgt-fpga/d-virtex2.c:589-600 | one inner LUT: the previous column's row q on I0, and its row q-2^sdx (or the pad) on I1 |
| Shifter.PlaceInnerColumn | tgt-fpga/d-virtex2.c:588-601 | one inner column |
| Shifter.PlaceInner | tgt-fpga/d-virtex2.c:586-602 | all inner columns |
| Shifter.PlaceOutputs | tgt-fpga/d-virtex2.c:606-611 | Q[q] is bound to the last column's output |
| Shifter.PlaceEnables | tgt-fpga/d-virtex2.c:621-623 | the one excess select goes to I3 of every last-column LUT |
| Shifter.MapShiftl | tgt-fpga/d-virtex2.c:485-628 | the hook follows ShiftStep |
| Shifter.ShiftAccepts | tgt-fpga/d-virtex2.c:513-619 | a shifter is mapped exactly when it has a select and at most one select beyond what the width needs; otherwise it is fatal |
| Shifter.MatrixGrows | tgt-fpga/d-virtex2.c:537-558 | the matrix only appends as columns are added |
| Shifter.MatrixLayout | tgt-fpga/d-virtex2.c:537-558 | every LUT of the matrix, with its select and INIT, is in the finished netlist |
| Shifter.FirstLayout | tgt-fpga/d-virtex2.c:563-580 | every column-0 binding is in the finished netlist |
| Shifter.InnerLayout | tgt-fpga/d-virtex2.c:586-602 | every inner link is in the finished netlist |
| Shifter.OutputsLayout | tgt-fpga/d-virtex2.c:606-611 | every output binding is in the finished netlist |
| Shifter.EnablesLayout | tgt-fpga/d-virtex2.c:615-624 | every enable binding is in the finished netlist |
| Shifter.BuiltLayout | tgt-fpga/d-virtex2.c:524-624 | the whole structure is present in the netlist the hook leaves |
| Shifter.ShiftLeft | tgt-fpga/d-virtex2.c:480-484 | shifting keeps the width |
| Shifter.MuxInit | tgt-fpga/d-virtex2.c:549 | LUT3 "CA" is a mux: I1 when I2 holds, else I0 |
| Shifter.GatedInit | tgt-fpga/d-virtex2.c:546 | LUT4 "00CA" is that mux gated by not I3 |
| Shifter.LutEqn | tgt-fpga/d-virtex2.c:544-556 | each matrix LUT has its select on I2, and outputs the mux (gated in the last column) |
| Shifter.PadEqn | tgt-fpga/d-virtex2.c:524-528 | the pad joint is 0 |
| Shifter.Column0 | tgt-fpga/d-virtex2.c:563-580 | column 0 computes D shifted by sel[0] |
| Shifter.ColumnPins | tgt-fpga/d-virtex2.c:586-602 | an inner LUT selects its row q, or row q - 2^sdx (0 off the end), of the previous column |
| Shifter.ColumnShifts | tgt-fpga/d-virtex2.c:537-602 | column sdx outputs D shifted left by the value of sel[0..sdx] |
| Shifter.LastRow | tgt-fpga/d-virtex2.c:606-624 | Q[i] is the shifted data, including when the excess select gates the last column |
| Shifter.ShiftComputes | tgt-fpga/d-virtex2.c:485-628 | Q is D shifted left by Val(SEL), with zeros shifted in |
| Device.RecordServes | tgt-fpga/d-virtex2.c:1080-1094 | every filled slot holds a hook for its element kind; a slot is empty exactly for greater-than and right shift |
| Device.MapElement | tgt-fpga/d-virtex2.c:1080-1094 | the dispatch method follows ElementStep, leaves the netlist ElementLeft gives on every outcome, and only a pad element touches the library cells |
| Device.ElementLeftAfter | tgt-fpga/d-virtex2.c:1080-1094 | for a mapped or reported element, the netlist left is the step's own |
| Device.MissingSlotsSkip | tgt-fpga/d-virtex2.c:1088 | a greater-than comparator or right shifter is reported and creates nothing |
| Device.SkipsExactly | tgt-fpga/d-virtex2.c:412-415 | an element is reported exactly when its slot is empty or it is a gate of a type without a LUT |
| Device.PadBitsNeverSkip | tgt-fpga/d-virtex2.c:217-259 | the pad loop ends placed or fatal, never unsupported |
| Device.DffBitsNeverSkip | tgt-fpga/d-virtex2.c:435-477 | the flip-flop loop ends placed or fatal, never unsupported |
| Device.ElementComputes | tgt-fpga/d-virtex2.c:1085-1091 | every comparator, adder or left shifter the device accepts gets outputs right under every consistent valuation |
| TruthTable.DecodeInit | tgt-fpga/d-virtex2.c:334 | an INIT string decodes exactly when it is hex, with four table entries per digit |
| TruthTable.EncodeInit | tgt-fpga/d-virtex2.c:334 | the encoding is upper-case hex, one digit per four table entries |
| TruthTable.EncodeDecode | tgt-fpga/d-virtex2.c:334 | decoding an encoded table gives the table back |
| TruthTable.DecodeEncode | tgt-fpga/d-virtex2.c:334 | an upper-case hex INIT encodes back to itself |
| TruthTable.DecodeValue | tgt-fpga/d-virtex2.c:334 | decoding agrees with reading the INIT as a hex number |
| TruthTable.LutOutIsInitBit | tgt-fpga/d-virtex2.c:334 | a LUT outputs bit (I0 + 2 I1 + 4 I2 + 8 I3) of its INIT |
| Inits.Table6996 | tgt-fpga/d-virtex2.c:409 | the full table of INIT 6996 |
| Inits.Table9009 | tgt-fpga/d-virtex2.c:837 | the full table of INIT 9009 |
| Inits.Table6FF6 | tgt-fpga/d-virtex2.c:837 | the full table of INIT 6FF6 |
| Inits.TableF731 | tgt-fpga/d-virtex2.c:985 | the full table of INIT F731 |
| Inits.Table00CA | tgt-fpga/d-virtex2.c:546 | the full table of INIT 00CA |
| Circuit.BehavesPrefix | tgt-fpga/d-virtex2.c:285-299 | a lemma about the model: the hooks only add instances and bindings, as `edif_cellref_create` and `edif_add_to_joint` do here, so a valuation consistent with a netlist is consistent with every earlier state and later elements cannot break earlier ones |

## Left out

- Output and I/O: `edif_print` (177) and writing the netlist are not
  modelled. The footer's result is the netlist state. The
  `UNSUPPORTED LOGIC TYPE` line goes to standard error in the code; in the
  model it is the message of the `Unsupported` outcome.
- The ivl design API (`ivl_*` accessors) is not modelled. Each element
  arrives as a datatype with its pins.
- The EDIF library (`edif.c`) and the Xilinx cell library (`xilinx.c`) are
  not part of this model:
  - Their calls are the `Edif.Netlist` methods.
  - `edif_joint_of_nexus` is the pure `JointOfNexus`, with one joint per nexus.
  - The cell finder and `edif_cell_port_byname` are a catalog map from cell
    names to port lists, plus `Gates.PortIndex`.
  - `Gates.PortIndex`: for a name the cell lacks it returns the number of
    ports. That is a guess, because `edif_cell_port_byname` is not part of this
    model.
- C memory: `calloc`, `strdup` and `free` are not modelled. The 128-byte
  `sprintf` buffers for bit names are unbounded strings. The shifter's
  pointer table is a Dafny `array2`, filled after the matrix is created.
- The driver loop that calls the device record's hooks is part of the code
  generator, not this file. It is not part of this model. The message for an
  empty slot is the model's own wording.
- `Shifter.MapShiftl`: `1 << nsel` and `1 << sdx` are unbounded powers of
  two, not 32-bit shifts. These differ only for 32 or more selects.
- `Shifter.MapShiftl`: the one-excess-select assertion (619) is checked up
  front, before any cell is created. The code checks it after creating the
  cells. The program stops either way.
- `Adder.MapAdd`, `Adder.PlaceHalf`: for a one-bit SUB they emit the LUT2 with
  INIT "6" (A XOR B). The code writes INIT "9" (d-virtex2.c:662, 684). The
  circuit as written is `Adder.AddStepAsWritten`; see Findings.
- `GeCompare.MapGe`, `GeCompare.PlaceOneBit`: for a one-bit `>=` they bind
  B[0] to LUT_I0. The code binds it to LUT_I2 (d-virtex2.c:956), a pin a LUT2
  lacks. The circuit as written is `GeCompare.GeStepAsWritten`; see Findings.
- `Device.MapElement`, `Device.ElementComputes`: they use the corrected one-bit
  subtracter and comparator of the two lines above.
- `Device.ElementComputes` covers the arithmetic elements. Gates, buffers,
  pads and constants have their own theorems (`Gates.GateComputes`,
  `Gates.BufComputes`, `Pads.PadsDrive`, `Design.FooterDrives`).
- Flip-flops have no behavioural theorem, because the circuit semantics is
  combinational. Their bindings are stated pin by pin in
  `FlipFlops.FfWiresNets`.
- `Edif.Netlist.Bind` appends a run of bindings at once. The code makes
  the same bindings one `edif_add_to_joint` call at a time, in the same order.

## Findings

| source | as written | input that shows it | evidently intended | confidence | as-written member | corrected member |
|---|---|---|---|---|---|---|
| tgt-fpga/d-virtex2.c:661-684 | a one-bit SUB gets `ha_init` "9" (XNOR), so Q = NOT (A XOR B) | one-bit SUB with A = 0, B = 0: A - B = 0, but the LUT outputs 1 | one-bit A - B mod 2 is A XOR B, so INIT "6", as for ADD | medium (the comment at 668-670 describes the XNOR as deliberate); not executed | Adder.HalfSubAsWrittenEqual | Adder.AddComputes |
| tgt-fpga/d-virtex2.c:955-956 | B[0] of a one-bit `>=` goes to LUT_I2, a pin a LUT2 does not have, so I0 is left unbound | one-bit compare with A = 0, B = 0: a consistent valuation with I0 = 1 outputs 0 although A >= B | B[0] on LUT_I0, as the comment at 944 and the truth table say | high; not executed | GeCompare.OneBitAsWrittenWrong | GeCompare.GeComputes |
