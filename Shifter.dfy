/** virtex2_show_shiftl: SHIFTL, Q = DATA << SEL, as a matrix of LUTs.

    The matrix has nsel columns of W LUTs, where nsel is the number of
    selects needed to shift the whole width out (at most the number of
    selects). The LUT of column k, row i is a 2-to-1 multiplexer ("CA":
    I2 ? I1 : I0) with SEL[k] on I2, the row's value from the column before
    on I0 and the value of row i - 2^k on I1, or 0 from a shared GND where
    that row does not exist. Column 0 takes DATA. When there is one select
    more than the matrix needs, the last column is made of LUT4s "00CA"
    whose I3 takes that select and forces the output to 0. The last column
    drives Q. */
module Shifter {
  import opened Wrappers
  import opened Bits
  import opened TruthTable
  import opened Inits
  import opened Edif
  import opened Circuit

  const NoSelectReason := "a shifter has at least one select"
  const ExcessReason := "a shifter has at most one select more than it needs"

  /** A SHIFTL LPM: the outputs Q, the inputs DATA and the selects SEL. */
  datatype Shift = Shift(q: seq<Nexus>, data: seq<Nexus>, sel: seq<Nexus>)

  predicate WellShaped(sh: Shift)
  {
    |sh.q| == |sh.data|
  }

  // ---------------------------------------------------------------------
  // How many columns.

  /** The column count the select loop reaches from n, when it has not
      stopped before: it stops when it has used every select, or as soon
      as 2^n covers the width. */
  function ColumnsFrom(w: nat, selects: nat, n: nat): nat
    decreases selects - n
  {
    if n >= selects then n
    else if Pow2(n + 1) >= w then n + 1
    else ColumnsFrom(w, selects, n + 1)
  }

  /** nsel: the number of matrix columns for width w and selects selects. */
  function Columns(w: nat, selects: nat): nat
  {
    ColumnsFrom(w, selects, 0)
  }

  /** The select loop of virtex2_show_shiftl. */
  method ColumnCount(w: nat, selects: nat) returns (nsel: nat)
    ensures nsel == Columns(w, selects)
  {
    nsel := 0;
    while nsel < selects
      invariant nsel <= selects && ColumnsFrom(w, selects, nsel) == Columns(w, selects)
    {
      nsel := nsel + 1;
      var swid := Pow2(nsel);
      if swid >= w {
        break;
      }
    }
  }

  /** Columns is the least n >= 1 with 2^n >= w, but at most selects; it
      is 0 only without selects. */
  lemma ColumnsLeast(w: nat, selects: nat)
    ensures var n := Columns(w, selects);
      (selects == 0 <==> n == 0) && n <= selects && (n == selects || Pow2(n) >= w) &&
      forall m :: 1 <= m < n ==> Pow2(m) < w
  {
    ColumnsFromLeast(w, selects, 0);
  }

  lemma {:induction false} ColumnsFromLeast(w: nat, selects: nat, n: nat)
    requires n <= selects && forall m :: 1 <= m <= n ==> Pow2(m) < w
    ensures var c := ColumnsFrom(w, selects, n);
      n <= c <= selects && (selects > 0 ==> c >= 1) && (c == selects || Pow2(c) >= w) &&
      forall m :: 1 <= m < c ==> Pow2(m) < w
    decreases selects - n
  {
    if n < selects && Pow2(n + 1) < w {
      ColumnsFromLeast(w, selects, n + 1);
    }
  }

  // ---------------------------------------------------------------------
  // What the hook appends.

  /** The instance number of the LUT of column sdx, row q, when the matrix
      starts at instance base and is w rows high. */
  function Cell(base: nat, w: nat, sdx: nat, q: nat): nat
  {
    ColumnBase(base, w, sdx) + q
  }

  /** The instance number of the LUT of column sdx, row 0: base + sdx * w. */
  function ColumnBase(base: nat, w: nat, sdx: nat): (r: nat)
    ensures r >= base
  {
    if sdx == 0 then base else ColumnBase(base, w, sdx - 1) + w
  }

  /** Column sdx is of LUT4s "00CA" when it is the last and a select is left
      over, of LUT3s "CA" otherwise. */
  predicate Gated(sh: Shift, nsel: nat, sdx: nat)
  {
    sdx + 1 == nsel && nsel < |sh.sel|
  }

  function ColKind(sh: Shift, nsel: nat, sdx: nat): CellKind
  {
    if Gated(sh, nsel, sdx) then Lut4 else Lut3
  }

  function ColInit(sh: Shift, nsel: nat, sdx: nat): string
  {
    if Gated(sh, nsel, sdx) then "00CA" else "CA"
  }

  /** The GND cell and its joint, shared by every shift-in from beyond DATA. */
  function PadStep(s: NetState): NetState
  {
    WithConn(WithJoint(WithInstance(s, Gnd)), Internal(|s.joints|), |s.insts|, Port(0))
  }

  /** One LUT of column sdx, with SEL[sdx] on I2 and its INIT. */
  function LutStep(s: NetState, sh: Shift, nsel: nat, sdx: nat): NetState
    requires sdx < |sh.sel|
  {
    var c := |s.insts|;
    WithProp(WithConn(WithInstance(s, ColKind(sh, nsel, sdx)), Cached(sh.sel[sdx]), c, LutI2), c, "INIT",
             ColInit(sh, nsel, sdx))
  }

  /** The first count LUTs of column sdx. */
  function ColumnLuts(s: NetState, sh: Shift, nsel: nat, sdx: nat, count: nat): (r: NetState)
    requires sdx < |sh.sel|
    ensures |r.insts| == |s.insts| + count && |r.joints| == |s.joints|
  {
    if count == 0 then s else LutStep(ColumnLuts(s, sh, nsel, sdx, count - 1), sh, nsel, sdx)
  }

  /** The LUTs of the first cols columns. */
  function Matrix(s: NetState, sh: Shift, nsel: nat, cols: nat): (r: NetState)
    requires cols <= |sh.sel|
    ensures |r.insts| == Cell(|s.insts|, |sh.data|, cols, 0) && |r.joints| == |s.joints|
  {
    if cols == 0 then s
    else CellNext(|s.insts|, |sh.data|, cols - 1); ColumnLuts(Matrix(s, sh, nsel, cols - 1), sh, nsel, cols - 1, |sh.data|)
  }

  /** Row q of column 0 takes DATA[q] on I0 and DATA[q - 1], or the pad
      joint for row 0, on I1. */
  function FirstStep(s: NetState, sh: Shift, base: nat, pad: JointId, q: nat): NetState
    requires q < |sh.data|
  {
    var c := Cell(base, |sh.data|, 0, q);
    WithConn(WithConn(s, Cached(sh.data[q]), c, LutI0), if q > 0 then Cached(sh.data[q - 1]) else pad, c, LutI1)
  }

  function FirstColumn(s: NetState, sh: Shift, base: nat, pad: JointId, count: nat): NetState
    requires count <= |sh.data|
  {
    if count == 0 then s else FirstStep(FirstColumn(s, sh, base, pad, count - 1), sh, base, pad, count - 1)
  }

  /** Row q of column sdx >= 1 takes a fresh joint j from the LUT of row q
      of column sdx - 1 to I0, and a fresh joint j + 1 from the LUT of row
      q - 2^sdx to I1, or the pad joint where that row does not exist. */
  function LinkWires(sh: Shift, base: nat, pad: JointId, sdx: nat, q: nat, j: nat): seq<Conn>
    requires 1 <= sdx
  {
    var w, shift := |sh.data|, Pow2(sdx);
    var c, p := Cell(base, w, sdx, q), Cell(base, w, sdx - 1, q);
    if q >= shift then
      [Conn(Internal(j), CellPin(c, LutI0)), Conn(Internal(j + 1), CellPin(c, LutI1)),
       Conn(Internal(j), CellPin(p, LutO)), Conn(Internal(j + 1), CellPin(Cell(base, w, sdx - 1, q - shift), LutO))]
    else
      [Conn(Internal(j), CellPin(c, LutI0)), Conn(pad, CellPin(c, LutI1)), Conn(Internal(j), CellPin(p, LutO))]
  }

  function LinkJoints(sdx: nat, q: nat): nat
  {
    if q >= Pow2(sdx) then 2 else 1
  }

  function InnerStep(s: NetState, sh: Shift, base: nat, pad: JointId, sdx: nat, q: nat): NetState
    requires 1 <= sdx && q < |sh.data|
  {
    Grow(s, [], [], LinkJoints(sdx, q), LinkWires(sh, base, pad, sdx, q, |s.joints|))
  }

  function InnerColumn(s: NetState, sh: Shift, base: nat, pad: JointId, sdx: nat, count: nat): NetState
    requires 1 <= sdx && count <= |sh.data|
  {
    if count == 0 then s else InnerStep(InnerColumn(s, sh, base, pad, sdx, count - 1), sh, base, pad, sdx, count - 1)
  }

  /** The connections of columns 1 .. cols - 1. */
  function Inner(s: NetState, sh: Shift, base: nat, pad: JointId, cols: nat): NetState
  {
    if cols <= 1 then s else InnerColumn(Inner(s, sh, base, pad, cols - 1), sh, base, pad, cols - 1, |sh.data|)
  }

  /** Q[0 .. count - 1] on the outputs of the last column. */
  function Outputs(s: NetState, sh: Shift, base: nat, nsel: nat, count: nat): NetState
    requires WellShaped(sh) && 1 <= nsel && count <= |sh.data|
  {
    if count == 0 then s
    else WithConn(Outputs(s, sh, base, nsel, count - 1), Cached(sh.q[count - 1]), Cell(base, |sh.data|, nsel - 1, count - 1), LutO)
  }

  /** The left-over select SEL[nsel] on I3 of the first count LUTs of the last column. */
  function Enables(s: NetState, sh: Shift, base: nat, nsel: nat, count: nat): NetState
    requires 1 <= nsel < |sh.sel| && count <= |sh.data|
  {
    if count == 0 then s
    else WithConn(Enables(s, sh, base, nsel, count - 1), Cached(sh.sel[nsel]), Cell(base, |sh.data|, nsel - 1, count - 1), LutI3)
  }

  /** The device made with nsel columns on s, for a shifter with no more
      than one select left over. */
  function ShiftBuilt(s: NetState, sh: Shift, nsel: nat): NetState
    requires WellShaped(sh) && 1 <= nsel <= |sh.sel|
  {
    var w, base, pad := |sh.data|, |s.insts| + 1, Internal(|s.joints|);
    var s1 := Matrix(PadStep(s), sh, nsel, nsel);
    var s2 := Inner(FirstColumn(s1, sh, base, pad, w), sh, base, pad, nsel);
    var s3 := Outputs(s2, sh, base, nsel, w);
    if nsel < |sh.sel| then Enables(s3, sh, base, nsel, w) else s3
  }

  /** virtex2_show_shiftl. Both assertions fail the run; the one on the
      number of selects left over is made after the matrix in the C code,
      here before anything is appended. */
  function ShiftStep(s: NetState, sh: Shift): Step
    requires WellShaped(sh)
  {
    var nsel := Columns(|sh.data|, |sh.sel|);
    if nsel == 0 then Abort(NoSelectReason)
    else if |sh.sel| > nsel + 1 then Abort(ExcessReason)
    else ColumnsLeast(|sh.data|, |sh.sel|); Emit(ShiftBuilt(s, sh, nsel))
  }

  // ---------------------------------------------------------------------
  // The hook, step by step.

  /** table[sdx, q] is the LUT of column sdx, row q. */
  predicate TableOf(table: array2<nat>, base: nat, w: nat, nsel: nat)
    reads table
  {
    table.Length0 == nsel && table.Length1 == w &&
    forall sdx, q :: 0 <= sdx < nsel && 0 <= q < w ==> table[sdx, q] == Cell(base, w, sdx, q)
  }

  /** Every LUT of the matrix is an instance already made. */
  lemma CellBelow(base: nat, w: nat, sdx: nat, q: nat, nsel: nat)
    requires sdx < nsel && q < w
    ensures Cell(base, w, sdx, q) < Cell(base, w, nsel, 0)
    decreases nsel
  {
    if sdx + 1 < nsel {
      CellBelow(base, w, sdx, q, nsel - 1);
    }
  }

  /** The LUTs of column sdx + 1 follow those of column sdx. */
  lemma CellNext(base: nat, w: nat, sdx: nat)
    ensures Cell(base, w, sdx + 1, 0) == Cell(base, w, sdx, 0) + w
    ensures forall q :: Cell(base, w, sdx, q) == Cell(base, w, sdx, 0) + q
  {
  }

  method PlacePad(n: Netlist) returns (pad: JointId)
    requires n.Valid()
    modifies n`instances, n`cellProps, n`joints, n`conns
    ensures n.Valid() && pad == Internal(|old(n.joints)|) && n.State() == PadStep(old(n.State()))
    ensures |n.instances| == |old(n.instances)| + 1 && |n.joints| == |old(n.joints)| + 1
  {
    var pad0 := n.CreateInstance(Gnd);
    pad := n.CreateJoint();
    n.AddToJoint(pad, pad0, Port(0));
  }

  method PlaceLut(n: Netlist, sh: Shift, nsel: nat, sdx: nat, lut: CellKind, init: string) returns (c: nat)
    requires n.Valid() && sdx < |sh.sel| && lut == ColKind(sh, nsel, sdx) && init == ColInit(sh, nsel, sdx)
    modifies n`instances, n`cellProps, n`joints, n`conns
    ensures n.Valid() && c == |old(n.instances)| && n.State() == LutStep(old(n.State()), sh, nsel, sdx)
    ensures |n.instances| == c + 1 && |n.joints| == |old(n.joints)|
  {
    c := n.CreateInstance(lut);
    n.AddToJoint(JointOfNexus(sh.sel[sdx]), c, LutI2);
    n.CellrefProperty(c, "INIT", init);
  }

  /** Allocates the LUTs of column sdx. */
  method PlaceColumn(n: Netlist, sh: Shift, nsel: nat, sdx: nat, lut: CellKind, init: string)
    requires n.Valid() && sdx < nsel <= |sh.sel| && lut == ColKind(sh, nsel, sdx) && init == ColInit(sh, nsel, sdx)
    modifies n`instances, n`cellProps, n`joints, n`conns
    ensures n.Valid() && n.State() == ColumnLuts(old(n.State()), sh, nsel, sdx, |sh.data|)
    ensures |n.instances| == |old(n.instances)| + |sh.data| && |n.joints| == |old(n.joints)|
  {
    ghost var s0 := n.State();
    var qdx := 0;
    while qdx < |sh.data|
      invariant 0 <= qdx <= |sh.data| && n.Valid()
      invariant n.State() == ColumnLuts(s0, sh, nsel, sdx, qdx)
      invariant |n.instances| == |s0.insts| + qdx && |n.joints| == |s0.joints|
    {
      ghost var p := n.State();
      var c := PlaceLut(n, sh, nsel, sdx, lut, init);
      assert n.State() == LutStep(p, sh, nsel, sdx);
      qdx := qdx + 1;
    }
  }

  /** Records that the LUTs of column sdx are the instances first, first + 1, .... */
  method RecordColumn(table: array2<nat>, sdx: nat, first: nat)
    requires sdx < table.Length0
    modifies table
    ensures forall s, q :: 0 <= s < table.Length0 && s != sdx && 0 <= q < table.Length1 ==> table[s, q] == old(table[s, q])
    ensures forall q :: 0 <= q < table.Length1 ==> table[sdx, q] == first + q
  {
    var qdx := 0;
    while qdx < table.Length1
      invariant 0 <= qdx <= table.Length1
      invariant forall s, q :: 0 <= s < table.Length0 && s != sdx && 0 <= q < table.Length1 ==> table[s, q] == old(table[s, q])
      invariant forall q :: 0 <= q < qdx ==> table[sdx, q] == first + q
    {
      table[sdx, qdx] := first + qdx;
      qdx := qdx + 1;
    }
  }

  /** Records that the LUTs of the matrix are the instances base, base + 1, ...,
      column after column. */
  method FillTable(table: array2<nat>, base: nat)
    modifies table
    ensures TableOf(table, base, table.Length1, table.Length0)
  {
    var sdx := 0;
    while sdx < table.Length0
      invariant 0 <= sdx <= table.Length0
      invariant forall s, q :: 0 <= s < sdx && 0 <= q < table.Length1 ==> table[s, q] == Cell(base, table.Length1, s, q)
    {
      RecordColumn(table, sdx, Cell(base, table.Length1, sdx, 0));
      CellNext(base, table.Length1, sdx);
      sdx := sdx + 1;
    }
  }

  /** Allocates the LUTs column by column. */
  method PlaceMatrix(n: Netlist, sh: Shift, nsel: nat)
    requires n.Valid() && 1 <= nsel <= |sh.sel|
    modifies n`instances, n`cellProps, n`joints, n`conns
    ensures n.Valid() && n.State() == Matrix(old(n.State()), sh, nsel, nsel)
    ensures |n.instances| == Cell(|old(n.instances)|, |sh.data|, nsel, 0) && |n.joints| == |old(n.joints)|
  {
    ghost var s0 := n.State();
    var sdx := 0;
    while sdx < nsel
      invariant 0 <= sdx <= nsel && n.Valid()
      invariant n.State() == Matrix(s0, sh, nsel, sdx)
      invariant |n.instances| == Cell(|s0.insts|, |sh.data|, sdx, 0) && |n.joints| == |s0.joints|
    {
      var lut, init := Lut3, "CA";
      if sdx + 1 == nsel && nsel < |sh.sel| {
        lut, init := Lut4, "00CA";
      }
      ghost var p := n.State();
      PlaceColumn(n, sh, nsel, sdx, lut, init);
      assert n.State() == ColumnLuts(p, sh, nsel, sdx, |sh.data|);
      CellNext(|s0.insts|, |sh.data|, sdx);
      sdx := sdx + 1;
    }
  }

  /** DATA into column 0. */
  method PlaceFirst(n: Netlist, sh: Shift, table: array2<nat>, base: nat, pad: JointId, nsel: nat)
    requires n.Valid() && 1 <= nsel && TableOf(table, base, |sh.data|, nsel) && n.Exists(pad)
    requires |n.instances| == Cell(base, |sh.data|, nsel, 0)
    modifies n`instances, n`cellProps, n`joints, n`conns
    ensures n.Valid() && n.State() == FirstColumn(old(n.State()), sh, base, pad, |sh.data|)
    ensures |n.instances| == |old(n.instances)| && |n.joints| == |old(n.joints)|
  {
    ghost var s0 := n.State();
    var qdx := 0;
    while qdx < |sh.data|
      invariant 0 <= qdx <= |sh.data| && n.Valid() && n.Exists(pad)
      invariant n.State() == FirstColumn(s0, sh, base, pad, qdx)
      invariant |n.instances| == |s0.insts| && |n.joints| == |s0.joints|
    {
      var jnt0 := JointOfNexus(sh.data[qdx]);
      var jnt1 := if qdx > 0 then JointOfNexus(sh.data[qdx - 1]) else pad;
      CellBelow(base, |sh.data|, 0, qdx, nsel);
      n.AddToJoint(jnt0, table[0, qdx], LutI0);
      n.AddToJoint(jnt1, table[0, qdx], LutI1);
      qdx := qdx + 1;
    }
  }

  /** The two inputs of the LUT of column sdx, row qdx, from column sdx - 1. */
  method PlaceLink(n: Netlist, sh: Shift, table: array2<nat>, base: nat, pad: JointId, nsel: nat, sdx: nat, qdx: nat)
    requires n.Valid() && 1 <= sdx < nsel && qdx < |sh.data| && TableOf(table, base, |sh.data|, nsel) && n.Exists(pad)
    requires |n.instances| == Cell(base, |sh.data|, nsel, 0)
    modifies n`instances, n`cellProps, n`joints, n`conns
    ensures n.Valid() && n.State() == InnerStep(old(n.State()), sh, base, pad, sdx, qdx)
    ensures |n.instances| == |old(n.instances)| && |n.joints| >= |old(n.joints)|
  {
    var shift := Pow2(sdx);
    CellBelow(base, |sh.data|, sdx, qdx, nsel);
    CellBelow(base, |sh.data|, sdx - 1, qdx, nsel);
    var c, p := table[sdx, qdx], table[sdx - 1, qdx];
    ghost var s := n.State();
    var jnt0 := n.CreateJoint();
    if qdx >= shift {
      var jnt1 := n.CreateJoint();
      CellBelow(base, |sh.data|, sdx - 1, qdx - shift, nsel);
      n.Bind([Conn(jnt0, CellPin(c, LutI0)), Conn(jnt1, CellPin(c, LutI1)),
              Conn(jnt0, CellPin(p, LutO)), Conn(jnt1, CellPin(table[sdx - 1, qdx - shift], LutO))]);
      assert s.joints + [None] + [None] == s.joints + seq(2, i => None);
    } else {
      n.Bind([Conn(jnt0, CellPin(c, LutI0)), Conn(pad, CellPin(c, LutI1)), Conn(jnt0, CellPin(p, LutO))]);
      assert s.joints + [None] == s.joints + seq(1, i => None);
    }
  }

  /** The links into column sdx. */
  method PlaceInnerColumn(n: Netlist, sh: Shift, table: array2<nat>, base: nat, pad: JointId, nsel: nat, sdx: nat)
    requires n.Valid() && 1 <= sdx < nsel && TableOf(table, base, |sh.data|, nsel) && n.Exists(pad)
    requires |n.instances| == Cell(base, |sh.data|, nsel, 0)
    modifies n`instances, n`cellProps, n`joints, n`conns
    ensures n.Valid() && n.State() == InnerColumn(old(n.State()), sh, base, pad, sdx, |sh.data|)
    ensures |n.instances| == |old(n.instances)| && |n.joints| >= |old(n.joints)|
  {
    ghost var s0 := n.State();
    var qdx := 0;
    while qdx < |sh.data|
      invariant 0 <= qdx <= |sh.data| && n.Valid() && n.Exists(pad)
      invariant n.State() == InnerColumn(s0, sh, base, pad, sdx, qdx)
      invariant |n.instances| == |s0.insts| && |n.joints| >= |s0.joints|
    {
      ghost var p := n.State();
      PlaceLink(n, sh, table, base, pad, nsel, sdx, qdx);
      assert n.State() == InnerStep(p, sh, base, pad, sdx, qdx);
      qdx := qdx + 1;
    }
  }

  /** The links between columns. */
  method PlaceInner(n: Netlist, sh: Shift, table: array2<nat>, base: nat, pad: JointId, nsel: nat)
    requires n.Valid() && 1 <= nsel && TableOf(table, base, |sh.data|, nsel) && n.Exists(pad)
    requires |n.instances| == Cell(base, |sh.data|, nsel, 0)
    modifies n`instances, n`cellProps, n`joints, n`conns
    ensures n.Valid() && n.State() == Inner(old(n.State()), sh, base, pad, nsel)
    ensures |n.instances| == |old(n.instances)|
  {
    ghost var s0 := n.State();
    var sdx := 1;
    while sdx < nsel
      invariant 1 <= sdx <= nsel && n.Valid() && n.Exists(pad)
      invariant n.State() == Inner(s0, sh, base, pad, sdx)
      invariant |n.instances| == |s0.insts|
    {
      ghost var p := n.State();
      PlaceInnerColumn(n, sh, table, base, pad, nsel, sdx);
      assert n.State() == InnerColumn(p, sh, base, pad, sdx, |sh.data|);
      sdx := sdx + 1;
    }
  }

  /** The last column drives Q. */
  method PlaceOutputs(n: Netlist, sh: Shift, table: array2<nat>, base: nat, nsel: nat)
    requires n.Valid() && WellShaped(sh) && 1 <= nsel && TableOf(table, base, |sh.data|, nsel)
    requires |n.instances| == Cell(base, |sh.data|, nsel, 0)
    modifies n`instances, n`cellProps, n`joints, n`conns
    ensures n.Valid() && n.State() == Outputs(old(n.State()), sh, base, nsel, |sh.data|)
    ensures |n.instances| == |old(n.instances)|
  {
    ghost var s0 := n.State();
    var qdx := 0;
    while qdx < |sh.data|
      invariant 0 <= qdx <= |sh.data| && n.Valid()
      invariant n.State() == Outputs(s0, sh, base, nsel, qdx)
      invariant |n.instances| == |s0.insts|
    {
      CellBelow(base, |sh.data|, nsel - 1, qdx, nsel);
      n.AddToJoint(JointOfNexus(sh.q[qdx]), table[nsel - 1, qdx], LutO);
      qdx := qdx + 1;
    }
  }

  /** The left-over select on I3 of the last column. */
  method PlaceEnables(n: Netlist, sh: Shift, table: array2<nat>, base: nat, nsel: nat)
    requires n.Valid() && 1 <= nsel < |sh.sel| && TableOf(table, base, |sh.data|, nsel)
    requires |n.instances| == Cell(base, |sh.data|, nsel, 0)
    modifies n`instances, n`cellProps, n`joints, n`conns
    ensures n.Valid() && n.State() == Enables(old(n.State()), sh, base, nsel, |sh.data|)
  {
    ghost var s0 := n.State();
    var jnt := JointOfNexus(sh.sel[nsel]);
    var qdx := 0;
    while qdx < |sh.data|
      invariant 0 <= qdx <= |sh.data| && n.Valid()
      invariant n.State() == Enables(s0, sh, base, nsel, qdx)
      invariant |n.instances| == |s0.insts|
    {
      CellBelow(base, |sh.data|, nsel - 1, qdx, nsel);
      n.AddToJoint(jnt, table[nsel - 1, qdx], LutI3);
      qdx := qdx + 1;
    }
  }

  /** virtex2_show_shiftl. */
  method MapShiftl(n: Netlist, sh: Shift) returns (o: Outcome)
    requires n.Valid() && WellShaped(sh)
    modifies n`instances, n`cellProps, n`joints, n`conns
    ensures n.Valid()
    ensures var st := ShiftStep(old(n.State()), sh); o == OutcomeOf(st) && n.State() == After(st, old(n.State()))
  {
    var nsel := ColumnCount(|sh.data|, |sh.sel|);
    if nsel == 0 {
      return Fatal(NoSelectReason);
    }
    if |sh.sel| > nsel + 1 {
      return Fatal(ExcessReason);
    }
    ColumnsLeast(|sh.data|, |sh.sel|);
    ghost var s := n.State();
    var pad := PlacePad(n);
    var base := |n.instances|;
    PlaceMatrix(n, sh, nsel);
    var table := new nat[nsel, |sh.data|];
    FillTable(table, base);
    PlaceFirst(n, sh, table, base, pad, nsel);
    PlaceInner(n, sh, table, base, pad, nsel);
    PlaceOutputs(n, sh, table, base, nsel);
    if nsel < |sh.sel| {
      PlaceEnables(n, sh, table, base, nsel);
    }
    assert n.State() == ShiftBuilt(s, sh, nsel);
    o := Done;
  }

  // ---------------------------------------------------------------------
  // Where everything is: each step appends, each recursion only grows.

  lemma PadStepExtends(s: NetState)
    ensures Extends(s, PadStep(s))
  {
    ExtendsBy(s, PadStep(s), [Gnd], [], [Conn(Internal(|s.joints|), CellPin(|s.insts|, Port(0)))], [None]);
  }

  lemma LutStepExtends(s: NetState, sh: Shift, nsel: nat, sdx: nat)
    requires sdx < |sh.sel|
    ensures Extends(s, LutStep(s, sh, nsel, sdx))
  {
    var c := |s.insts|;
    ExtendsBy(s, LutStep(s, sh, nsel, sdx), [ColKind(sh, nsel, sdx)], [CellProp(c, "INIT", ColInit(sh, nsel, sdx))],
              [Conn(Cached(sh.sel[sdx]), CellPin(c, LutI2))], []);
  }

  lemma FirstStepExtends(s: NetState, sh: Shift, base: nat, pad: JointId, q: nat)
    requires q < |sh.data|
    ensures Extends(s, FirstStep(s, sh, base, pad, q))
  {
    var c := Cell(base, |sh.data|, 0, q);
    ExtendsBy(s, FirstStep(s, sh, base, pad, q), [], [],
              [Conn(Cached(sh.data[q]), CellPin(c, LutI0)),
               Conn(if q > 0 then Cached(sh.data[q - 1]) else pad, CellPin(c, LutI1))], []);
  }

  lemma InnerStepExtends(s: NetState, sh: Shift, base: nat, pad: JointId, sdx: nat, q: nat)
    requires 1 <= sdx && q < |sh.data|
    ensures Extends(s, InnerStep(s, sh, base, pad, sdx, q))
  {
    GrowExtends(s, [], [], LinkJoints(sdx, q), LinkWires(sh, base, pad, sdx, q, |s.joints|));
  }

  lemma OutputExtends(s: NetState, sh: Shift, base: nat, nsel: nat, count: nat)
    requires WellShaped(sh) && 1 <= nsel && 1 <= count <= |sh.data|
    ensures Extends(Outputs(s, sh, base, nsel, count - 1), Outputs(s, sh, base, nsel, count))
  {
    var u := Outputs(s, sh, base, nsel, count - 1);
    ExtendsConn(u, Cached(sh.q[count - 1]), Cell(base, |sh.data|, nsel - 1, count - 1), LutO);
  }

  lemma EnableExtends(s: NetState, sh: Shift, base: nat, nsel: nat, count: nat)
    requires 1 <= nsel < |sh.sel| && 1 <= count <= |sh.data|
    ensures Extends(Enables(s, sh, base, nsel, count - 1), Enables(s, sh, base, nsel, count))
  {
    var u := Enables(s, sh, base, nsel, count - 1);
    ExtendsConn(u, Cached(sh.sel[nsel]), Cell(base, |sh.data|, nsel - 1, count - 1), LutI3);
  }

  lemma {:induction false} ColumnLutsGrows(x: NetState, sh: Shift, nsel: nat, sdx: nat, k: nat, m: nat)
    requires sdx < |sh.sel| && k <= m
    ensures Extends(ColumnLuts(x, sh, nsel, sdx, k), ColumnLuts(x, sh, nsel, sdx, m))
    decreases m
  {
    if k == m {
      ExtendsRefl(ColumnLuts(x, sh, nsel, sdx, k));
    } else {
      ColumnLutsGrows(x, sh, nsel, sdx, k, m - 1);
      LutStepExtends(ColumnLuts(x, sh, nsel, sdx, m - 1), sh, nsel, sdx);
      ExtendsTrans(ColumnLuts(x, sh, nsel, sdx, k), ColumnLuts(x, sh, nsel, sdx, m - 1), ColumnLuts(x, sh, nsel, sdx, m));
    }
  }

  lemma {:induction false} MatrixGrows(x: NetState, sh: Shift, nsel: nat, a: nat, b: nat)
    requires a <= b <= |sh.sel|
    ensures Extends(Matrix(x, sh, nsel, a), Matrix(x, sh, nsel, b))
    decreases b
  {
    if a == b {
      ExtendsRefl(Matrix(x, sh, nsel, a));
    } else {
      MatrixGrows(x, sh, nsel, a, b - 1);
      var y := Matrix(x, sh, nsel, b - 1);
      ColumnLutsGrows(y, sh, nsel, b - 1, 0, |sh.data|);
      ExtendsTrans(Matrix(x, sh, nsel, a), y, Matrix(x, sh, nsel, b));
    }
  }

  lemma {:induction false} FirstGrows(x: NetState, sh: Shift, base: nat, pad: JointId, k: nat, m: nat)
    requires k <= m <= |sh.data|
    ensures Extends(FirstColumn(x, sh, base, pad, k), FirstColumn(x, sh, base, pad, m))
    decreases m
  {
    if k == m {
      ExtendsRefl(FirstColumn(x, sh, base, pad, k));
    } else {
      FirstGrows(x, sh, base, pad, k, m - 1);
      FirstStepExtends(FirstColumn(x, sh, base, pad, m - 1), sh, base, pad, m - 1);
      ExtendsTrans(FirstColumn(x, sh, base, pad, k), FirstColumn(x, sh, base, pad, m - 1), FirstColumn(x, sh, base, pad, m));
    }
  }

  lemma {:induction false} InnerColumnGrows(x: NetState, sh: Shift, base: nat, pad: JointId, sdx: nat, k: nat, m: nat)
    requires 1 <= sdx && k <= m <= |sh.data|
    ensures Extends(InnerColumn(x, sh, base, pad, sdx, k), InnerColumn(x, sh, base, pad, sdx, m))
    decreases m
  {
    if k == m {
      ExtendsRefl(InnerColumn(x, sh, base, pad, sdx, k));
    } else {
      var u := InnerColumn(x, sh, base, pad, sdx, m - 1);
      InnerColumnGrows(x, sh, base, pad, sdx, k, m - 1);
      InnerStepExtends(u, sh, base, pad, sdx, m - 1);
      ExtendsTrans(InnerColumn(x, sh, base, pad, sdx, k), u, InnerStep(u, sh, base, pad, sdx, m - 1));
    }
  }

  lemma {:induction false} InnerGrows(x: NetState, sh: Shift, base: nat, pad: JointId, a: nat, b: nat)
    requires 1 <= a <= b
    ensures Extends(Inner(x, sh, base, pad, a), Inner(x, sh, base, pad, b))
    decreases b
  {
    if a == b {
      ExtendsRefl(Inner(x, sh, base, pad, a));
    } else {
      InnerGrows(x, sh, base, pad, a, b - 1);
      var y := Inner(x, sh, base, pad, b - 1);
      InnerColumnGrows(y, sh, base, pad, b - 1, 0, |sh.data|);
      ExtendsTrans(Inner(x, sh, base, pad, a), y, Inner(x, sh, base, pad, b));
    }
  }

  lemma {:induction false} OutputsGrow(x: NetState, sh: Shift, base: nat, nsel: nat, k: nat, m: nat)
    requires WellShaped(sh) && 1 <= nsel && k <= m <= |sh.data|
    ensures Extends(Outputs(x, sh, base, nsel, k), Outputs(x, sh, base, nsel, m))
    decreases m
  {
    if k == m {
      ExtendsRefl(Outputs(x, sh, base, nsel, k));
    } else {
      OutputsGrow(x, sh, base, nsel, k, m - 1);
      OutputExtends(x, sh, base, nsel, m);
      ExtendsTrans(Outputs(x, sh, base, nsel, k), Outputs(x, sh, base, nsel, m - 1), Outputs(x, sh, base, nsel, m));
    }
  }

  lemma {:induction false} EnablesGrow(x: NetState, sh: Shift, base: nat, nsel: nat, k: nat, m: nat)
    requires 1 <= nsel < |sh.sel| && k <= m <= |sh.data|
    ensures Extends(Enables(x, sh, base, nsel, k), Enables(x, sh, base, nsel, m))
    decreases m
  {
    if k == m {
      ExtendsRefl(Enables(x, sh, base, nsel, k));
    } else {
      EnablesGrow(x, sh, base, nsel, k, m - 1);
      EnableExtends(x, sh, base, nsel, m);
      ExtendsTrans(Enables(x, sh, base, nsel, k), Enables(x, sh, base, nsel, m - 1), Enables(x, sh, base, nsel, m));
    }
  }

  // ---------------------------------------------------------------------
  // What the finished netlist holds.

  /** The GND cell drives the pad joint. */
  predicate PadAt(t: NetState, base: nat, pad: JointId)
  {
    1 <= base <= |t.insts| && t.insts[base - 1] == Gnd && Conn(pad, CellPin(base - 1, Port(0))) in t.conns
  }

  /** The LUT of column sdx, row q: its kind, its INIT and SEL[sdx] on I2. */
  predicate LutAt(t: NetState, sh: Shift, base: nat, nsel: nat, sdx: nat, q: nat)
    requires sdx < |sh.sel|
  {
    var c := Cell(base, |sh.data|, sdx, q);
    c < |t.insts| && t.insts[c] == ColKind(sh, nsel, sdx) && CellProp(c, "INIT", ColInit(sh, nsel, sdx)) in t.props &&
    Conn(Cached(sh.sel[sdx]), CellPin(c, LutI2)) in t.conns
  }

  /** DATA[q] and DATA[q - 1], or the pad, on the inputs of row q of column 0. */
  predicate FirstAt(t: NetState, sh: Shift, base: nat, pad: JointId, q: nat)
    requires q < |sh.data|
  {
    var c := Cell(base, |sh.data|, 0, q);
    Conn(Cached(sh.data[q]), CellPin(c, LutI0)) in t.conns &&
    Conn(if q > 0 then Cached(sh.data[q - 1]) else pad, CellPin(c, LutI1)) in t.conns
  }

  /** Some joint binds both pins. */
  ghost predicate Linked(t: NetState, a: Binding, b: Binding)
  {
    exists j :: Conn(j, a) in t.conns && Conn(j, b) in t.conns
  }

  /** Row q of column sdx >= 1 reads row q and row q - 2^sdx (or the pad) of column sdx - 1. */
  ghost predicate LinkAt(t: NetState, sh: Shift, base: nat, pad: JointId, sdx: nat, q: nat)
    requires 1 <= sdx
  {
    var w, shift := |sh.data|, Pow2(sdx);
    var c := Cell(base, w, sdx, q);
    Linked(t, CellPin(c, LutI0), CellPin(Cell(base, w, sdx - 1, q), LutO)) &&
    if q >= shift then Linked(t, CellPin(c, LutI1), CellPin(Cell(base, w, sdx - 1, q - shift), LutO))
    else Conn(pad, CellPin(c, LutI1)) in t.conns
  }

  /** The LUT of row i of the last column drives Q[i]. */
  predicate OutAt(t: NetState, sh: Shift, base: nat, nsel: nat, i: nat)
    requires WellShaped(sh) && 1 <= nsel && i < |sh.q|
  {
    Conn(Cached(sh.q[i]), CellPin(Cell(base, |sh.data|, nsel - 1, i), LutO)) in t.conns
  }

  /** The left-over select reaches I3 of the LUT of row i of the last column. */
  predicate EnAt(t: NetState, sh: Shift, base: nat, nsel: nat, i: nat)
    requires 1 <= nsel < |sh.sel|
  {
    Conn(Cached(sh.sel[nsel]), CellPin(Cell(base, |sh.data|, nsel - 1, i), LutI3)) in t.conns
  }

  lemma LutPlaced(x: NetState, sh: Shift, nsel: nat, sdx: nat, q: nat)
    requires sdx < nsel <= |sh.sel| && q < |sh.data|
    ensures LutAt(ColumnLuts(Matrix(x, sh, nsel, sdx), sh, nsel, sdx, q + 1), sh, |x.insts|, nsel, sdx, q)
  {
    CellNext(|x.insts|, |sh.data|, sdx);
  }

  /** The state just after the LUT of column sdx, row q grows into t. */
  lemma MatrixTail(x: NetState, sh: Shift, nsel: nat, t: NetState, sdx: nat, q: nat)
    requires sdx < nsel <= |sh.sel| && q < |sh.data| && Extends(Matrix(x, sh, nsel, nsel), t)
    ensures Extends(ColumnLuts(Matrix(x, sh, nsel, sdx), sh, nsel, sdx, q + 1), t)
  {
    var y := Matrix(x, sh, nsel, sdx);
    var u := ColumnLuts(y, sh, nsel, sdx, q + 1);
    var z := Matrix(x, sh, nsel, sdx + 1);
    assert z == ColumnLuts(y, sh, nsel, sdx, |sh.data|);
    ColumnLutsGrows(y, sh, nsel, sdx, q + 1, |sh.data|);
    MatrixGrows(x, sh, nsel, sdx + 1, nsel);
    ExtendsTrans(u, z, Matrix(x, sh, nsel, nsel));
    ExtendsTrans(u, Matrix(x, sh, nsel, nsel), t);
  }

  lemma LutIn(x: NetState, sh: Shift, nsel: nat, t: NetState, sdx: nat, q: nat)
    requires sdx < nsel <= |sh.sel| && q < |sh.data| && Extends(Matrix(x, sh, nsel, nsel), t)
    ensures LutAt(t, sh, |x.insts|, nsel, sdx, q)
  {
    var u := ColumnLuts(Matrix(x, sh, nsel, sdx), sh, nsel, sdx, q + 1);
    LutPlaced(x, sh, nsel, sdx, q);
    MatrixTail(x, sh, nsel, t, sdx, q);
    LutAtExtends(u, t, sh, |x.insts|, nsel, sdx, q);
  }

  /** Every LUT of the matrix is in every state grown from it. */
  lemma MatrixLayout(x: NetState, sh: Shift, nsel: nat, t: NetState)
    requires 1 <= nsel <= |sh.sel| && Extends(Matrix(x, sh, nsel, nsel), t)
    ensures forall sdx, q :: 0 <= sdx < nsel && 0 <= q < |sh.data| ==> LutAt(t, sh, |x.insts|, nsel, sdx, q)
  {
    forall sdx, q | 0 <= sdx < nsel && 0 <= q < |sh.data| ensures LutAt(t, sh, |x.insts|, nsel, sdx, q) {
      LutIn(x, sh, nsel, t, sdx, q);
    }
  }

  lemma LutAtExtends(u: NetState, t: NetState, sh: Shift, base: nat, nsel: nat, sdx: nat, q: nat)
    requires sdx < |sh.sel| && Extends(u, t) && LutAt(u, sh, base, nsel, sdx, q)
    ensures LutAt(t, sh, base, nsel, sdx, q)
  {
    var c := Cell(base, |sh.data|, sdx, q);
    assert t.insts[c] == u.insts[c];
    PropExtends(u, t, CellProp(c, "INIT", ColInit(sh, nsel, sdx)));
    ConnExtends(u, t, Conn(Cached(sh.sel[sdx]), CellPin(c, LutI2)));
  }

  lemma FirstLayout(x: NetState, sh: Shift, base: nat, pad: JointId, t: NetState)
    requires Extends(FirstColumn(x, sh, base, pad, |sh.data|), t)
    ensures forall q :: 0 <= q < |sh.data| ==> FirstAt(t, sh, base, pad, q)
  {
    forall q | 0 <= q < |sh.data| ensures FirstAt(t, sh, base, pad, q) {
      var u := FirstColumn(x, sh, base, pad, q + 1);
      var c := Cell(base, |sh.data|, 0, q);
      FirstGrows(x, sh, base, pad, q + 1, |sh.data|);
      ExtendsTrans(u, FirstColumn(x, sh, base, pad, |sh.data|), t);
      ConnExtends(u, t, Conn(Cached(sh.data[q]), CellPin(c, LutI0)));
      ConnExtends(u, t, Conn(if q > 0 then Cached(sh.data[q - 1]) else pad, CellPin(c, LutI1)));
    }
  }

  lemma LinkPlaced(y: NetState, sh: Shift, base: nat, pad: JointId, sdx: nat, q: nat)
    requires 1 <= sdx && q < |sh.data|
    ensures LinkAt(InnerColumn(y, sh, base, pad, sdx, q + 1), sh, base, pad, sdx, q)
  {
    var v := InnerColumn(y, sh, base, pad, sdx, q);
    var u := InnerStep(v, sh, base, pad, sdx, q);
    var ws := LinkWires(sh, base, pad, sdx, q, |v.joints|);
    assert forall k :: 0 <= k < |ws| ==> ws[k] in u.conns;
    var w, shift := |sh.data|, Pow2(sdx);
    var c := Cell(base, w, sdx, q);
    assert ws[0] == Conn(Internal(|v.joints|), CellPin(c, LutI0));
    assert ws[2] == Conn(Internal(|v.joints|), CellPin(Cell(base, w, sdx - 1, q), LutO));
    if q >= shift {
      assert ws[1] == Conn(Internal(|v.joints| + 1), CellPin(c, LutI1));
      assert ws[3] == Conn(Internal(|v.joints| + 1), CellPin(Cell(base, w, sdx - 1, q - shift), LutO));
    } else {
      assert ws[1] == Conn(pad, CellPin(c, LutI1));
    }
  }

  lemma LinkAtExtends(u: NetState, t: NetState, sh: Shift, base: nat, pad: JointId, sdx: nat, q: nat)
    requires 1 <= sdx && Extends(u, t) && LinkAt(u, sh, base, pad, sdx, q)
    ensures LinkAt(t, sh, base, pad, sdx, q)
  {
    var w, shift := |sh.data|, Pow2(sdx);
    var c := Cell(base, w, sdx, q);
    var j0 :| Conn(j0, CellPin(c, LutI0)) in u.conns && Conn(j0, CellPin(Cell(base, w, sdx - 1, q), LutO)) in u.conns;
    ConnExtends(u, t, Conn(j0, CellPin(c, LutI0)));
    ConnExtends(u, t, Conn(j0, CellPin(Cell(base, w, sdx - 1, q), LutO)));
    if q >= shift {
      var j1 :| Conn(j1, CellPin(c, LutI1)) in u.conns && Conn(j1, CellPin(Cell(base, w, sdx - 1, q - shift), LutO)) in u.conns;
      ConnExtends(u, t, Conn(j1, CellPin(c, LutI1)));
      ConnExtends(u, t, Conn(j1, CellPin(Cell(base, w, sdx - 1, q - shift), LutO)));
    } else {
      ConnExtends(u, t, Conn(pad, CellPin(c, LutI1)));
    }
  }

  /** The state just after the link of column sdx, row q grows into t. */
  lemma InnerTail(x: NetState, sh: Shift, base: nat, pad: JointId, nsel: nat, t: NetState, sdx: nat, q: nat)
    requires 1 <= sdx < nsel && q < |sh.data| && Extends(Inner(x, sh, base, pad, nsel), t)
    ensures Extends(InnerColumn(Inner(x, sh, base, pad, sdx), sh, base, pad, sdx, q + 1), t)
  {
    var y := Inner(x, sh, base, pad, sdx);
    var u := InnerColumn(y, sh, base, pad, sdx, q + 1);
    var z := Inner(x, sh, base, pad, sdx + 1);
    assert z == InnerColumn(y, sh, base, pad, sdx, |sh.data|);
    InnerColumnGrows(y, sh, base, pad, sdx, q + 1, |sh.data|);
    InnerGrows(x, sh, base, pad, sdx + 1, nsel);
    ExtendsTrans(u, z, Inner(x, sh, base, pad, nsel));
    ExtendsTrans(u, Inner(x, sh, base, pad, nsel), t);
  }

  lemma LinkIn(x: NetState, sh: Shift, base: nat, pad: JointId, nsel: nat, t: NetState, sdx: nat, q: nat)
    requires 1 <= sdx < nsel && q < |sh.data| && Extends(Inner(x, sh, base, pad, nsel), t)
    ensures LinkAt(t, sh, base, pad, sdx, q)
  {
    var u := InnerColumn(Inner(x, sh, base, pad, sdx), sh, base, pad, sdx, q + 1);
    LinkPlaced(Inner(x, sh, base, pad, sdx), sh, base, pad, sdx, q);
    InnerTail(x, sh, base, pad, nsel, t, sdx, q);
    LinkAtExtends(u, t, sh, base, pad, sdx, q);
  }

  lemma InnerLayout(x: NetState, sh: Shift, base: nat, pad: JointId, nsel: nat, t: NetState)
    requires 1 <= nsel && Extends(Inner(x, sh, base, pad, nsel), t)
    ensures forall sdx, q :: 1 <= sdx < nsel && 0 <= q < |sh.data| ==> LinkAt(t, sh, base, pad, sdx, q)
  {
    forall sdx, q | 1 <= sdx < nsel && 0 <= q < |sh.data| ensures LinkAt(t, sh, base, pad, sdx, q) {
      LinkIn(x, sh, base, pad, nsel, t, sdx, q);
    }
  }

  lemma OutputsLayout(x: NetState, sh: Shift, base: nat, nsel: nat, t: NetState)
    requires WellShaped(sh) && 1 <= nsel && Extends(Outputs(x, sh, base, nsel, |sh.data|), t)
    ensures forall i :: 0 <= i < |sh.q| ==> OutAt(t, sh, base, nsel, i)
  {
    forall i | 0 <= i < |sh.q| ensures OutAt(t, sh, base, nsel, i) {
      var u := Outputs(x, sh, base, nsel, i + 1);
      OutputsGrow(x, sh, base, nsel, i + 1, |sh.data|);
      ExtendsTrans(u, Outputs(x, sh, base, nsel, |sh.data|), t);
      ConnExtends(u, t, Conn(Cached(sh.q[i]), CellPin(Cell(base, |sh.data|, nsel - 1, i), LutO)));
    }
  }

  lemma EnablesLayout(x: NetState, sh: Shift, base: nat, nsel: nat, t: NetState)
    requires 1 <= nsel < |sh.sel| && Extends(Enables(x, sh, base, nsel, |sh.data|), t)
    ensures forall i :: 0 <= i < |sh.data| ==> EnAt(t, sh, base, nsel, i)
  {
    forall i | 0 <= i < |sh.data| ensures EnAt(t, sh, base, nsel, i) {
      var u := Enables(x, sh, base, nsel, i + 1);
      EnablesGrow(x, sh, base, nsel, i + 1, |sh.data|);
      ExtendsTrans(u, Enables(x, sh, base, nsel, |sh.data|), t);
      ConnExtends(u, t, Conn(Cached(sh.sel[nsel]), CellPin(Cell(base, |sh.data|, nsel - 1, i), LutI3)));
    }
  }

  /** Everything the hook placed, in the finished netlist t. */
  ghost predicate Layout(t: NetState, sh: Shift, base: nat, pad: JointId, nsel: nat)
    requires WellShaped(sh) && 1 <= nsel <= |sh.sel|
  {
    PadAt(t, base, pad) &&
    (forall sdx, q :: 0 <= sdx < nsel && 0 <= q < |sh.data| ==> LutAt(t, sh, base, nsel, sdx, q)) &&
    (forall q :: 0 <= q < |sh.data| ==> FirstAt(t, sh, base, pad, q)) &&
    (forall sdx, q :: 1 <= sdx < nsel && 0 <= q < |sh.data| ==> LinkAt(t, sh, base, pad, sdx, q)) &&
    (forall i :: 0 <= i < |sh.q| ==> OutAt(t, sh, base, nsel, i)) &&
    (nsel < |sh.sel| ==> forall i :: 0 <= i < |sh.data| ==> EnAt(t, sh, base, nsel, i))
  }

  /** Each phase of the hook grows into the finished netlist. */
  lemma BuiltChain(s: NetState, sh: Shift, nsel: nat)
    requires WellShaped(sh) && 1 <= nsel <= |sh.sel|
    ensures var w, base, pad, t := |sh.data|, |s.insts| + 1, Internal(|s.joints|), ShiftBuilt(s, sh, nsel);
      var s1 := Matrix(PadStep(s), sh, nsel, nsel);
      var f := FirstColumn(s1, sh, base, pad, w);
      var s2 := Inner(f, sh, base, pad, nsel);
      var s3 := Outputs(s2, sh, base, nsel, w);
      Extends(PadStep(s), t) && Extends(s1, t) && Extends(f, t) && Extends(s2, t) && Extends(s3, t)
  {
    var w, base, pad, t := |sh.data|, |s.insts| + 1, Internal(|s.joints|), ShiftBuilt(s, sh, nsel);
    var s0 := PadStep(s);
    var s1 := Matrix(s0, sh, nsel, nsel);
    var f := FirstColumn(s1, sh, base, pad, w);
    var s2 := Inner(f, sh, base, pad, nsel);
    var s3 := Outputs(s2, sh, base, nsel, w);
    if nsel < |sh.sel| {
      EnablesGrow(s3, sh, base, nsel, 0, w);
    } else {
      ExtendsRefl(s3);
    }
    OutputsGrow(s2, sh, base, nsel, 0, w);
    ExtendsTrans(s2, s3, t);
    InnerGrows(f, sh, base, pad, 1, nsel);
    ExtendsTrans(f, s2, t);
    FirstGrows(s1, sh, base, pad, 0, w);
    ExtendsTrans(s1, f, t);
    MatrixGrows(s0, sh, nsel, 0, nsel);
    ExtendsTrans(s0, s1, t);
  }

  /** A netlist grown from every phase holds the whole matrix. */
  lemma LayoutFrom(s: NetState, sh: Shift, nsel: nat, t: NetState)
    requires WellShaped(sh) && 1 <= nsel <= |sh.sel|
    requires var w, base, pad := |sh.data|, |s.insts| + 1, Internal(|s.joints|);
      var s1 := Matrix(PadStep(s), sh, nsel, nsel);
      var f := FirstColumn(s1, sh, base, pad, w);
      var s2 := Inner(f, sh, base, pad, nsel);
      var s3 := Outputs(s2, sh, base, nsel, w);
      Extends(PadStep(s), t) && Extends(s1, t) && Extends(f, t) && Extends(s2, t) && Extends(s3, t) &&
      (nsel < |sh.sel| ==> Extends(Enables(s3, sh, base, nsel, w), t))
    ensures Layout(t, sh, |s.insts| + 1, Internal(|s.joints|), nsel)
  {
    var w, base, pad := |sh.data|, |s.insts| + 1, Internal(|s.joints|);
    var s0 := PadStep(s);
    var s1 := Matrix(s0, sh, nsel, nsel);
    var f := FirstColumn(s1, sh, base, pad, w);
    var s2 := Inner(f, sh, base, pad, nsel);
    var s3 := Outputs(s2, sh, base, nsel, w);
    assert PadAt(s0, base, pad);
    assert t.insts[base - 1] == s0.insts[base - 1];
    ConnExtends(s0, t, Conn(pad, CellPin(base - 1, Port(0))));
    MatrixLayout(s0, sh, nsel, t);
    FirstLayout(s1, sh, base, pad, t);
    InnerLayout(f, sh, base, pad, nsel, t);
    OutputsLayout(s2, sh, base, nsel, t);
    if nsel < |sh.sel| {
      EnablesLayout(s3, sh, base, nsel, t);
    }
  }

  /** The finished netlist holds the whole matrix as the hook describes it. */
  lemma BuiltLayout(s: NetState, sh: Shift, nsel: nat)
    requires WellShaped(sh) && 1 <= nsel <= |sh.sel|
    ensures Layout(ShiftBuilt(s, sh, nsel), sh, |s.insts| + 1, Internal(|s.joints|), nsel)
  {
    var t := ShiftBuilt(s, sh, nsel);
    BuiltChain(s, sh, nsel);
    if nsel < |sh.sel| {
      ExtendsRefl(t);
    }
    LayoutFrom(s, sh, nsel, t);
  }

  // ---------------------------------------------------------------------
  // What the matrix computes.

  /** x shifted k places towards its high end, with zeros shifted in. */
  function ShiftLeft(x: seq<bool>, k: nat): (r: seq<bool>)
    ensures |r| == |x|
  {
    seq(|x|, i requires 0 <= i < |x| => i >= k && x[i - k])
  }

  /** "CA" on a LUT3: O = I2 ? I1 : I0. */
  lemma MuxInit(a: bool, b: bool, c: bool)
    ensures LutOut("CA", [a, b, c]) == if c then b else a
  {
    TableCA();
    LutAt3("CA", a, b, c);
  }

  /** "00CA" on a LUT4: O = !I3 && (I2 ? I1 : I0). */
  lemma GatedInit(a: bool, b: bool, c: bool, d: bool)
    ensures LutOut("00CA", [a, b, c, d]) == (!d && if c then b else a)
  {
    Table00CA();
    LutAt4("00CA", a, b, c, d);
    var t := DecodeInit("00CA").value;
    if d {
      assert t[B2N(a) + 2 * B2N(b) + 4 * B2N(c) + 8] == false;
    } else if c {
      assert t[B2N(a) + 2 * B2N(b) + 4] == b;
    } else {
      assert t[B2N(a) + 2 * B2N(b)] == a;
    }
  }

  /** The multiplexer a matrix LUT c forms from its pins. */
  function MuxV(pv: Binding -> bool, c: nat): bool
  {
    if pv(CellPin(c, LutI2)) then pv(CellPin(c, LutI1)) else pv(CellPin(c, LutI0))
  }

  /** A LUT of the matrix under a consistent valuation: SEL[sdx] on I2, and
      the output is the multiplexer, gated by I3 in a gated column. */
  lemma LutEqn(t: NetState, sh: Shift, base: nat, nsel: nat, sdx: nat, q: nat, jv: JointId -> bool, pv: Binding -> bool)
    requires sdx < |sh.sel| && LutAt(t, sh, base, nsel, sdx, q) && Behaves(t, jv, pv)
    ensures var c := Cell(base, |sh.data|, sdx, q);
      pv(CellPin(c, LutI2)) == jv(Cached(sh.sel[sdx])) &&
      pv(CellPin(c, LutO)) == if Gated(sh, nsel, sdx) then !pv(CellPin(c, LutI3)) && MuxV(pv, c) else MuxV(pv, c)
  {
    var c := Cell(base, |sh.data|, sdx, q);
    var init := ColInit(sh, nsel, sdx);
    assert CellProp(c, "INIT", init).inst == c;
    assert LutHolds(t.insts[c], c, init, pv);
    var i0, i1, i2, i3 := pv(CellPin(c, LutI0)), pv(CellPin(c, LutI1)), pv(CellPin(c, LutI2)), pv(CellPin(c, LutI3));
    if Gated(sh, nsel, sdx) {
      GatedInit(i0, i1, i2, i3);
    } else {
      MuxInit(i0, i1, i2);
    }
  }

  /** Two pins a joint binds carry the same value. */
  lemma LinkedEqn(t: NetState, a: Binding, b: Binding, jv: JointId -> bool, pv: Binding -> bool)
    requires Linked(t, a, b) && Wired(t.conns, jv, pv)
    ensures pv(a) == pv(b)
  {
    var j :| Conn(j, a) in t.conns && Conn(j, b) in t.conns;
    assert pv(Conn(j, a).end) == jv(Conn(j, a).joint);
  }

  /** A pin bound to the pad joint carries its value. */
  lemma PinOnPad(t: NetState, pad: JointId, b: Binding, jv: JointId -> bool, pv: Binding -> bool)
    requires Conn(pad, b) in t.conns && Wired(t.conns, jv, pv)
    ensures pv(b) == jv(pad)
  {
    assert pv(Conn(pad, b).end) == jv(Conn(pad, b).joint);
  }

  /** The pad joint is 0. */
  lemma PadEqn(t: NetState, base: nat, pad: JointId, jv: JointId -> bool, pv: Binding -> bool)
    requires PadAt(t, base, pad) && Behaves(t, jv, pv)
    ensures !jv(pad)
  {
    assert CellHolds(t.insts[base - 1], base - 1, pv);
    assert Conn(pad, CellPin(base - 1, Port(0))) in t.conns;
  }

  /** Column 0 shifts DATA by SEL[0]. */
  lemma Column0(t: NetState, sh: Shift, base: nat, pad: JointId, nsel: nat, jv: JointId -> bool, pv: Binding -> bool, q: nat)
    requires 1 <= nsel <= |sh.sel| && q < |sh.data| && Behaves(t, jv, pv)
    requires PadAt(t, base, pad) && LutAt(t, sh, base, nsel, 0, q) && FirstAt(t, sh, base, pad, q)
    ensures MuxV(pv, Cell(base, |sh.data|, 0, q)) == ShiftLeft(Read(jv, sh.data), Val(Read(jv, sh.sel)[..1]))[q]
  {
    var c, d, sv := Cell(base, |sh.data|, 0, q), Read(jv, sh.data), Read(jv, sh.sel);
    LutEqn(t, sh, base, nsel, 0, q, jv, pv);
    PadEqn(t, base, pad, jv, pv);
    Val1(sv[..1]);
    assert Conn(Cached(sh.data[q]), CellPin(c, LutI0)) in t.conns;
    assert Conn(if q > 0 then Cached(sh.data[q - 1]) else pad, CellPin(c, LutI1)) in t.conns;
  }

  /** I0 of row q of column sdx >= 1 carries the multiplexer of row q of column sdx - 1. */
  lemma PinI0(t: NetState, sh: Shift, base: nat, pad: JointId, nsel: nat, jv: JointId -> bool, pv: Binding -> bool,
              sdx: nat, q: nat)
    requires 1 <= sdx < nsel <= |sh.sel| && Behaves(t, jv, pv)
    requires LinkAt(t, sh, base, pad, sdx, q) && LutAt(t, sh, base, nsel, sdx - 1, q)
    ensures pv(CellPin(Cell(base, |sh.data|, sdx, q), LutI0)) == MuxV(pv, Cell(base, |sh.data|, sdx - 1, q))
  {
    var w := |sh.data|;
    LutEqn(t, sh, base, nsel, sdx - 1, q, jv, pv);
    LinkedEqn(t, CellPin(Cell(base, w, sdx, q), LutI0), CellPin(Cell(base, w, sdx - 1, q), LutO), jv, pv);
  }

  /** I1 of row q of column sdx >= 1 carries the multiplexer of row q - 2^sdx
      of column sdx - 1, or 0 where that row does not exist. */
  lemma PinI1(t: NetState, sh: Shift, base: nat, pad: JointId, nsel: nat, jv: JointId -> bool, pv: Binding -> bool,
              sdx: nat, q: nat)
    requires 1 <= sdx < nsel <= |sh.sel| && Behaves(t, jv, pv) && PadAt(t, base, pad) && LinkAt(t, sh, base, pad, sdx, q)
    requires q >= Pow2(sdx) ==> LutAt(t, sh, base, nsel, sdx - 1, q - Pow2(sdx))
    ensures var w, shift := |sh.data|, Pow2(sdx);
      pv(CellPin(Cell(base, w, sdx, q), LutI1)) == (q >= shift && MuxV(pv, Cell(base, w, sdx - 1, q - shift)))
  {
    var w, shift := |sh.data|, Pow2(sdx);
    var c := Cell(base, w, sdx, q);
    if q >= shift {
      PinI1Shifted(t, sh, base, nsel, jv, pv, sdx, q - shift, c);
    } else {
      PadEqn(t, base, pad, jv, pv);
      PinOnPad(t, pad, CellPin(c, LutI1), jv, pv);
    }
  }

  /** I1 of LUT c linked to the output of row r of column sdx - 1 carries that multiplexer. */
  lemma PinI1Shifted(t: NetState, sh: Shift, base: nat, nsel: nat, jv: JointId -> bool, pv: Binding -> bool,
                     sdx: nat, r: nat, c: nat)
    requires 1 <= sdx < nsel <= |sh.sel| && Behaves(t, jv, pv) && LutAt(t, sh, base, nsel, sdx - 1, r)
    requires Linked(t, CellPin(c, LutI1), CellPin(Cell(base, |sh.data|, sdx - 1, r), LutO))
    ensures pv(CellPin(c, LutI1)) == MuxV(pv, Cell(base, |sh.data|, sdx - 1, r))
  {
    assert !Gated(sh, nsel, sdx - 1);
    LutEqn(t, sh, base, nsel, sdx - 1, r, jv, pv);
    LinkedEqn(t, CellPin(c, LutI1), CellPin(Cell(base, |sh.data|, sdx - 1, r), LutO), jv, pv);
  }

  /** The pins of row q of column sdx >= 1: the multiplexer picks row
      q - 2^sdx of column sdx - 1 (0 beyond DATA) when SEL[sdx] is set, row q otherwise. */
  lemma ColumnPins(t: NetState, sh: Shift, base: nat, pad: JointId, nsel: nat, jv: JointId -> bool, pv: Binding -> bool,
                   sdx: nat, q: nat)
    requires 1 <= sdx < nsel <= |sh.sel| && q < |sh.data| && Behaves(t, jv, pv) && RowAt(t, sh, base, pad, nsel, sdx, q)
    ensures var w, shift := |sh.data|, Pow2(sdx);
      MuxV(pv, Cell(base, w, sdx, q)) ==
      if jv(Cached(sh.sel[sdx])) then q >= shift && MuxV(pv, Cell(base, w, sdx - 1, q - shift))
      else MuxV(pv, Cell(base, w, sdx - 1, q))
  {
    LutEqn(t, sh, base, nsel, sdx, q, jv, pv);
    PinI0(t, sh, base, pad, nsel, jv, pv, sdx, q);
    PinI1(t, sh, base, pad, nsel, jv, pv, sdx, q);
  }

  /** One more multiplexer stage adds shift to the shift amount when b is set. */
  lemma ShiftMore(x: seq<bool>, k: nat, shift: nat, b: bool, q: nat, m0: bool, m1: bool)
    requires q < |x| && m0 == ShiftLeft(x, k)[q] && (q >= shift ==> m1 == ShiftLeft(x, k)[q - shift])
    ensures (if b then q >= shift && m1 else m0) == ShiftLeft(x, k + if b then shift else 0)[q]
  {
  }

  /** What Layout says about row q of column sdx >= 1. */
  lemma ColumnAtoms(t: NetState, sh: Shift, base: nat, pad: JointId, nsel: nat, sdx: nat, q: nat)
    requires WellShaped(sh) && 1 <= sdx < nsel <= |sh.sel| && q < |sh.data| && Layout(t, sh, base, pad, nsel)
    ensures RowAt(t, sh, base, pad, nsel, sdx, q)
  {
  }

  /** The layout facts about row q of column sdx >= 1 and the rows it reads. */
  ghost predicate RowAt(t: NetState, sh: Shift, base: nat, pad: JointId, nsel: nat, sdx: nat, q: nat)
    requires 1 <= sdx < |sh.sel|
  {
    PadAt(t, base, pad) && LutAt(t, sh, base, nsel, sdx, q) && LinkAt(t, sh, base, pad, sdx, q) &&
    LutAt(t, sh, base, nsel, sdx - 1, q) &&
    (q >= Pow2(sdx) ==> LutAt(t, sh, base, nsel, sdx - 1, q - Pow2(sdx)))
  }

  /** Column sdx >= 1 shifts the output of column sdx - 1 by 2^sdx when its select b is set. */
  lemma ColumnNext(pv: Binding -> bool, base: nat, w: nat, sdx: nat, q: nat, b: bool, x: seq<bool>, k: nat)
    requires 1 <= sdx && q < w == |x|
    requires MuxV(pv, Cell(base, w, sdx, q)) ==
      if b then q >= Pow2(sdx) && MuxV(pv, Cell(base, w, sdx - 1, q - Pow2(sdx))) else MuxV(pv, Cell(base, w, sdx - 1, q))
    requires MuxV(pv, Cell(base, w, sdx - 1, q)) == ShiftLeft(x, k)[q]
    requires q >= Pow2(sdx) ==> MuxV(pv, Cell(base, w, sdx - 1, q - Pow2(sdx))) == ShiftLeft(x, k)[q - Pow2(sdx)]
    ensures MuxV(pv, Cell(base, w, sdx, q)) == ShiftLeft(x, k + if b then Pow2(sdx) else 0)[q]
  {
    var shift := Pow2(sdx);
    var m0 := MuxV(pv, Cell(base, w, sdx - 1, q));
    var m1 := if q >= shift then MuxV(pv, Cell(base, w, sdx - 1, q - shift)) else false;
    ShiftMore(x, k, shift, b, q, m0, m1);
  }

  /** The multiplexers of column sdx. */
  function ColVal(pv: Binding -> bool, base: nat, w: nat, sdx: nat): (r: seq<bool>)
    ensures |r| == w
  {
    seq(w, q requires 0 <= q < w => MuxV(pv, Cell(base, w, sdx, q)))
  }

  lemma ColumnFirst(t: NetState, sh: Shift, base: nat, pad: JointId, nsel: nat, jv: JointId -> bool, pv: Binding -> bool)
    requires WellShaped(sh) && 1 <= nsel <= |sh.sel| && Layout(t, sh, base, pad, nsel) && Behaves(t, jv, pv)
    ensures ColVal(pv, base, |sh.data|, 0) == ShiftLeft(Read(jv, sh.data), Val(Read(jv, sh.sel)[..1]))
  {
    forall q | 0 <= q < |sh.data|
      ensures ColVal(pv, base, |sh.data|, 0)[q] == ShiftLeft(Read(jv, sh.data), Val(Read(jv, sh.sel)[..1]))[q]
    {
      assert PadAt(t, base, pad) && LutAt(t, sh, base, nsel, 0, q) && FirstAt(t, sh, base, pad, q);
      Column0(t, sh, base, pad, nsel, jv, pv, q);
    }
  }

  lemma ColumnStep(t: NetState, sh: Shift, base: nat, pad: JointId, nsel: nat, jv: JointId -> bool, pv: Binding -> bool,
                   sdx: nat, k: nat)
    requires WellShaped(sh) && 1 <= sdx < nsel <= |sh.sel| && Layout(t, sh, base, pad, nsel) && Behaves(t, jv, pv)
    requires ColVal(pv, base, |sh.data|, sdx - 1) == ShiftLeft(Read(jv, sh.data), k)
    ensures ColVal(pv, base, |sh.data|, sdx) == ShiftLeft(Read(jv, sh.data), k + if Read(jv, sh.sel)[sdx] then Pow2(sdx) else 0)
  {
    var w, x, prev := |sh.data|, Read(jv, sh.data), ColVal(pv, base, |sh.data|, sdx - 1);
    var b := Read(jv, sh.sel)[sdx];
    assert b == jv(Cached(sh.sel[sdx]));
    forall q | 0 <= q < w
      ensures ColVal(pv, base, w, sdx)[q] == ShiftLeft(x, k + if b then Pow2(sdx) else 0)[q]
    {
      assert prev[q] == MuxV(pv, Cell(base, w, sdx - 1, q));
      if q >= Pow2(sdx) {
        assert prev[q - Pow2(sdx)] == MuxV(pv, Cell(base, w, sdx - 1, q - Pow2(sdx)));
      }
      ColumnAtoms(t, sh, base, pad, nsel, sdx, q);
      ColumnPins(t, sh, base, pad, nsel, jv, pv, sdx, q);
      ColumnNext(pv, base, w, sdx, q, b, x, k);
    }
  }

  /** Column sdx shifts DATA by the value of SEL[0 .. sdx]. */
  lemma {:induction false} ColumnShifts(t: NetState, sh: Shift, base: nat, pad: JointId, nsel: nat,
                                         jv: JointId -> bool, pv: Binding -> bool, sdx: nat)
    requires WellShaped(sh) && 1 <= nsel <= |sh.sel| && sdx < nsel
    requires Layout(t, sh, base, pad, nsel) && Behaves(t, jv, pv)
    ensures ColVal(pv, base, |sh.data|, sdx) == ShiftLeft(Read(jv, sh.data), Val(Read(jv, sh.sel)[..sdx + 1]))
  {
    var sv := Read(jv, sh.sel);
    if sdx == 0 {
      ColumnFirst(t, sh, base, pad, nsel, jv, pv);
    } else {
      ColumnShifts(t, sh, base, pad, nsel, jv, pv, sdx - 1);
      ColumnStep(t, sh, base, pad, nsel, jv, pv, sdx, Val(sv[..sdx]));
      assert sv[..sdx + 1] == sv[..sdx] + [sv[sdx]];
      ValSnoc(sv[..sdx], sv[sdx]);
    }
  }

  /** Row i of the last column drives Q[i] with DATA shifted by all of SEL:
      a set left-over select shifts by 2^nsel >= W and gives 0. */
  lemma LastRow(t: NetState, sh: Shift, base: nat, pad: JointId, nsel: nat, jv: JointId -> bool, pv: Binding -> bool,
                i: nat)
    requires WellShaped(sh) && 1 <= nsel <= |sh.sel| <= nsel + 1 && (nsel < |sh.sel| ==> Pow2(nsel) >= |sh.data|)
    requires i < |sh.data| && Layout(t, sh, base, pad, nsel) && Behaves(t, jv, pv)
    requires MuxV(pv, Cell(base, |sh.data|, nsel - 1, i)) == ShiftLeft(Read(jv, sh.data), Val(Read(jv, sh.sel)[..nsel]))[i]
    ensures jv(Cached(sh.q[i])) == ShiftLeft(Read(jv, sh.data), Val(Read(jv, sh.sel)))[i]
  {
    var sv, c := Read(jv, sh.sel), Cell(base, |sh.data|, nsel - 1, i);
    LastRowPins(t, sh, base, pad, nsel, jv, pv, i);
    if nsel < |sh.sel| {
      assert sv == sv[..nsel] + [sv[nsel]];
      ValSnoc(sv[..nsel], sv[nsel]);
    } else {
      assert sv[..nsel] == sv;
    }
  }

  /** The pins of the LUT of row i of the last column: its output is Q[i],
      it computes the multiplexer (gated by I3 when a select is left over)
      and the left-over select is on I3. */
  lemma LastRowPins(t: NetState, sh: Shift, base: nat, pad: JointId, nsel: nat, jv: JointId -> bool, pv: Binding -> bool,
                    i: nat)
    requires WellShaped(sh) && 1 <= nsel <= |sh.sel| <= nsel + 1
    requires i < |sh.data| && Layout(t, sh, base, pad, nsel) && Behaves(t, jv, pv)
    ensures var c := Cell(base, |sh.data|, nsel - 1, i);
      jv(Cached(sh.q[i])) == pv(CellPin(c, LutO)) &&
      pv(CellPin(c, LutO)) == (if nsel < |sh.sel| then !pv(CellPin(c, LutI3)) && MuxV(pv, c) else MuxV(pv, c)) &&
      (nsel < |sh.sel| ==> pv(CellPin(c, LutI3)) == jv(Cached(sh.sel[nsel])))
  {
    var c := Cell(base, |sh.data|, nsel - 1, i);
    assert OutAt(t, sh, base, nsel, i) && LutAt(t, sh, base, nsel, nsel - 1, i);
    assert Conn(Cached(sh.q[i]), CellPin(c, LutO)) in t.conns;
    LutEqn(t, sh, base, nsel, nsel - 1, i, jv, pv);
    if nsel < |sh.sel| {
      assert EnAt(t, sh, base, nsel, i);
      assert Conn(Cached(sh.sel[nsel]), CellPin(c, LutI3)) in t.conns;
    }
  }

  /** A netlist holding the matrix computes the shift on every consistent valuation. */
  lemma LayoutShifts(t: NetState, sh: Shift, base: nat, pad: JointId, nsel: nat, jv: JointId -> bool, pv: Binding -> bool)
    requires WellShaped(sh) && 1 <= nsel <= |sh.sel| <= nsel + 1 && (nsel < |sh.sel| ==> Pow2(nsel) >= |sh.data|)
    requires Layout(t, sh, base, pad, nsel) && Behaves(t, jv, pv)
    ensures Read(jv, sh.q) == ShiftLeft(Read(jv, sh.data), Val(Read(jv, sh.sel)))
  {
    ColumnShifts(t, sh, base, pad, nsel, jv, pv, nsel - 1);
    var want := ShiftLeft(Read(jv, sh.data), Val(Read(jv, sh.sel)));
    forall i | 0 <= i < |sh.q| ensures Read(jv, sh.q)[i] == want[i] {
      assert ColVal(pv, base, |sh.data|, nsel - 1)[i] == MuxV(pv, Cell(base, |sh.data|, nsel - 1, i));
      LastRow(t, sh, base, pad, nsel, jv, pv, i);
    }
  }

  /** virtex2_show_shiftl is correct: whenever it emits a device, every
      valuation consistent with the netlist gives Q = DATA << SEL, with
      zeros shifted in and bits shifted past the top lost. */
  lemma ShiftComputes(s: NetState, sh: Shift, jv: JointId -> bool, pv: Binding -> bool)
    requires WellShaped(sh) && ShiftStep(s, sh).Emit? && Behaves(ShiftStep(s, sh).after, jv, pv)
    ensures Read(jv, sh.q) == ShiftLeft(Read(jv, sh.data), Val(Read(jv, sh.sel)))
  {
    var nsel := Columns(|sh.data|, |sh.sel|);
    ColumnsLeast(|sh.data|, |sh.sel|);
    var t := ShiftBuilt(s, sh, nsel);
    assert ShiftStep(s, sh).after == t;
    BuiltLayout(s, sh, nsel);
    LayoutShifts(t, sh, |s.insts| + 1, Internal(|s.joints|), nsel, jv, pv);
  }

  /** The hook emits a device exactly when there is a select and at most one
      more than the least n >= 1 with 2^n >= W. */
  lemma ShiftAccepts(s: NetState, sh: Shift)
    requires WellShaped(sh)
    ensures ShiftStep(s, sh).Emit? <==>
      1 <= |sh.sel| && (|sh.sel| <= 2 || Pow2(|sh.sel| - 2) < |sh.data|)
    ensures ShiftStep(s, sh).Abort? <==> !ShiftStep(s, sh).Emit?
  {
    var w, m := |sh.data|, |sh.sel|;
    var n := Columns(w, m);
    ColumnsLeast(w, m);
    if 1 <= m && 2 < m && Pow2(m - 2) < w && n < m {
      if m - 2 >= n {
        Pow2Monotone(n, m - 2);
      }
    }
  }

  lemma {:induction false} Pow2Monotone(a: nat, b: nat)
    requires a <= b
    ensures Pow2(a) <= Pow2(b)
    decreases b
  {
    if a < b {
      Pow2Monotone(a, b - 1);
    }
  }
}
