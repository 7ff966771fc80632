/** The structural EDIF netlist the technology mapper appends to.

    A netlist holds cell instances and joints. A joint is a net of the EDIF
    output; it collects the (instance, pin) pairs and the design ports bound to
    it. A joint is either the cached joint of a source nexus (edif_joint_of_nexus
    creates it on first use and returns the same joint afterwards, so the
    joint is identified by its nexus), or a fresh internal joint
    (edif_joint_create), numbered in creation order.

    The bindings of every joint are kept in one list, `conns`, in the order the
    mapper added them; the bindings of a joint are the entries naming it. */
module Edif {
  import opened Wrappers

  /** A net of the source design (an ivl_nexus_t), by identity. */
  type Nexus = nat

  /** The pin constants of the Xilinx primitives (LUT_I0, MUXCY_CI, ...) as
      distinct names; `Port(k)` is the k-th declared port of a cell whose
      ports are numbered explicitly (GND, VCC, IPAD, OPAD, a cell found by name). */
  datatype Pin =
    | Port(k: nat)
    | LutO | LutI0 | LutI1 | LutI2 | LutI3
    | BufI | BufO
    | FdceQ | FdceD | FdceC | FdceCE | FdceCLR | FdcePRE
    | MuxS | MuxDI | MuxCI | MuxO
    | XorLI | XorCI | XorO

  /** The cell an instance refers to. `Named` is a cell located in the
      library by name, with its number of ports. */
  datatype CellKind =
    | Gnd | Vcc | Ipad | Opad
    | Ibuf | Obuf | Buf
    | Lut2 | Lut3 | Lut4
    | Fdce | Fdcpe
    | Muxcy | MuxcyL | Xorcy
    | Named(name: string, nports: nat)

  /** The pins a cell has. */
  function PinsOf(kind: CellKind): (r: set<Pin>)
    ensures kind.Lut2? || kind.Lut3? || kind.Lut4? ==> LutO in r && LutI0 in r && LutI1 in r
  {
    match kind
    case Gnd | Vcc | Ipad | Opad => {Port(0)}
    case Ibuf | Obuf | Buf => {BufI, BufO}
    case Lut2 => {LutO, LutI0, LutI1}
    case Lut3 => {LutO, LutI0, LutI1, LutI2}
    case Lut4 => {LutO, LutI0, LutI1, LutI2, LutI3}
    case Fdce => {FdceQ, FdceD, FdceC, FdceCE, FdceCLR}
    case Fdcpe => {FdceQ, FdceD, FdceC, FdceCE, FdceCLR, FdcePRE}
    case Muxcy | MuxcyL => {MuxS, MuxDI, MuxCI, MuxO}
    case Xorcy => {XorLI, XorCI, XorO}
    case Named(_, np) => set k | 0 <= k < np :: Port(k)
  }

  /** A property of a cell instance (edif_cellref_pstring), such as a LUT's INIT. */
  datatype CellProp = CellProp(inst: nat, key: string, value: string)

  datatype JointId = Cached(nexus: Nexus) | Internal(index: nat)

  /** What a joint can hold: a pin of an instance (instances are numbered in
      creation order) or a port of the design. */
  datatype Binding = CellPin(inst: nat, pin: Pin) | PortPin(port: nat)

  datatype Conn = Conn(joint: JointId, end: Binding)

  datatype PortDir = NoPort | Input | Output | Inout

  datatype PortDecl = PortDecl(name: string, dir: PortDir)

  /** A cell declared in the device library, with its named ports. */
  datatype CellDecl = CellDecl(name: string, ports: seq<PortDecl>)

  datatype Property = Property(key: string, value: string)

  /** How many library cells carry the given name. */
  function DeclCount(cells: seq<CellDecl>, name: string): (r: nat)
    ensures r <= |cells|
  {
    if cells == [] then 0
    else DeclCount(cells[..|cells| - 1], name) + (if cells[|cells| - 1].name == name then 1 else 0)
  }

  lemma DeclCountSnoc(cells: seq<CellDecl>, d: CellDecl, name: string)
    ensures DeclCount(cells + [d], name) == DeclCount(cells, name) + (if d.name == name then 1 else 0)
  {
    assert (cells + [d])[..|cells|] == cells;
  }

  /** The bindings of one joint, in the order they were added. */
  function BindingsOf(conns: seq<Conn>, j: JointId): (r: seq<Binding>)
    ensures |r| <= |conns|
    ensures forall b :: b in r <==> Conn(j, b) in conns
  {
    if conns == [] then []
    else
      var front := BindingsOf(conns[..|conns| - 1], j);
      var last := conns[|conns| - 1];
      assert conns == conns[..|conns| - 1] + [last];
      if last.joint == j then front + [last.end] else front
  }

  /** Every binding names an existing fresh joint, instance and port. */
  predicate ConnOk(c: Conn, njoints: nat, ninsts: nat, nports: nat)
  {
    (c.joint.Internal? ==> c.joint.index < njoints) &&
    (match c.end
     case CellPin(i, _) => i < ninsts
     case PortPin(p) => p < nports)
  }

  /** Every binding of ws ties a pin of an instance below ninsts to a
      cached joint or to a fresh joint below njoints. */
  predicate PinsWithin(ws: seq<Conn>, njoints: nat, ninsts: nat)
  {
    forall c :: c in ws ==> c.end.CellPin? && c.end.inst < ninsts && (c.joint.Internal? ==> c.joint.index < njoints)
  }

  predicate ConnsWithin(conns: seq<Conn>, njoints: nat, ninsts: nat, nports: nat)
  {
    forall c :: c in conns ==> ConnOk(c, njoints, ninsts, nports)
  }

  /** The part of a netlist the mapping hooks extend: the cell of each
      instance (edif_cellref_t) in creation order, the instance properties in
      the order they were set, the fresh joints with the name a rename gave
      them, and every binding. */
  datatype NetState = NetState(insts: seq<CellKind>, props: seq<CellProp>, joints: seq<Option<string>>,
                               conns: seq<Conn>)

  /** Every binding names an existing fresh joint, instance and port, and
      every property an existing instance. */
  predicate WellFormed(s: NetState, nports: nat)
  {
    ConnsWithin(s.conns, |s.joints|, |s.insts|, nports) && (forall q :: q in s.props ==> q.inst < |s.insts|)
  }

  /** edif_cellref_create: the new instance is numbered |s.insts|. */
  function WithInstance(s: NetState, kind: CellKind): (t: NetState)
    ensures t.insts == s.insts + [kind] && t.props == s.props && t.joints == s.joints && t.conns == s.conns
  {
    s.(insts := s.insts + [kind])
  }

  /** edif_cellref_pstring: property key = value of instance r. */
  function WithProp(s: NetState, r: nat, key: string, value: string): (t: NetState)
    ensures t.insts == s.insts && t.props == s.props + [CellProp(r, key, value)] && t.joints == s.joints
    ensures t.conns == s.conns
  {
    s.(props := s.props + [CellProp(r, key, value)])
  }

  /** edif_joint_create: the new joint is Internal(|s.joints|). */
  function WithJoint(s: NetState): (t: NetState)
    ensures t.insts == s.insts && t.props == s.props && t.joints == s.joints + [None] && t.conns == s.conns
  {
    s.(joints := s.joints + [None])
  }

  /** edif_joint_rename of fresh joint number k. */
  function WithName(s: NetState, k: nat, name: string): (t: NetState)
    requires k < |s.joints|
    ensures t.insts == s.insts && t.props == s.props && t.conns == s.conns
    ensures |t.joints| == |s.joints| && t.joints[k] == Some(name)
    ensures forall i :: 0 <= i < |s.joints| && i != k ==> t.joints[i] == s.joints[i]
  {
    s.(joints := s.joints[k := Some(name)])
  }

  /** edif_add_to_joint: binds pin p of instance r to joint j. */
  function WithConn(s: NetState, j: JointId, r: nat, p: Pin): (t: NetState)
    ensures t.insts == s.insts && t.props == s.props && t.joints == s.joints
    ensures t.conns == s.conns + [Conn(j, CellPin(r, p))]
  {
    s.(conns := s.conns + [Conn(j, CellPin(r, p))])
  }

  /** edif_port_to_joint: binds design port p to joint j. */
  function WithPortConn(s: NetState, j: JointId, p: nat): (t: NetState)
    ensures t.insts == s.insts && t.props == s.props && t.joints == s.joints
    ensures t.conns == s.conns + [Conn(j, PortPin(p))]
  {
    s.(conns := s.conns + [Conn(j, PortPin(p))])
  }

  /** A run of edif_add_to_joint calls: appends the bindings ws. */
  function WithConns(s: NetState, ws: seq<Conn>): (t: NetState)
    ensures t.insts == s.insts && t.props == s.props && t.joints == s.joints && t.conns == s.conns + ws
  {
    s.(conns := s.conns + ws)
  }

  /** Appends instances, properties, fresh unnamed joints and bindings in
      one step: what a run of the calls above leaves. */
  function Grow(s: NetState, cells: seq<CellKind>, props: seq<CellProp>, count: nat, wires: seq<Conn>): (t: NetState)
    ensures t.insts == s.insts + cells && t.props == s.props + props && t.conns == s.conns + wires
    ensures |t.joints| == |s.joints| + count && t.joints[..|s.joints|] == s.joints
  {
    NetState(s.insts + cells, s.props + props, s.joints + seq(count, i => None), s.conns + wires)
  }

  /** The pad cells, declared on first use; both give their one port the
      direction output. */
  const IpadDecl := CellDecl("IPAD", [PortDecl("IPAD", Output)])
  const OpadDecl := CellDecl("OPAD", [PortDecl("OPAD", Output)])

  /** edif_joint_of_nexus: the cached joint of x. The C function creates it
      on first use and returns the same joint afterwards, so it is
      identified by its nexus. */
  function JointOfNexus(x: Nexus): JointId
  {
    Cached(x)
  }


  class Netlist {
    /** The design name and the number of design ports (edif_create). */
    const design: string
    const nports: nat
    var ports: map<nat, PortDecl>
    var props: seq<Property>
    /** The device library (edif_xlibrary_create) and its declared cells. */
    var libName: Option<string>
    var celltable: seq<string>
    var cells: seq<CellDecl>
    /** Whether the IPAD and OPAD library cells have been declared. */
    var ipadMade: bool
    var opadMade: bool
    /** The cell of each instance, in creation order. */
    var instances: seq<CellKind>
    /** The instance properties, in the order they were set. */
    var cellProps: seq<CellProp>
    /** The fresh joints, with the name a rename gave them. */
    var joints: seq<Option<string>>
    var conns: seq<Conn>

    function State(): NetState
      reads this
    {
      NetState(instances, cellProps, joints, conns)
    }

    /** Every binding names an existing joint, instance and port, every
        property an existing instance; the pad cells are declared at most
        once and exactly when their flag is set. */
    predicate Valid()
      reads this
    {
      WellFormed(State(), nports) &&
      DeclCount(cells, "IPAD") == (if ipadMade then 1 else 0) &&
      DeclCount(cells, "OPAD") == (if opadMade then 1 else 0)
    }

    /** The bindings of joint j (the pins a net connects). */
    function Bindings(j: JointId): (r: seq<Binding>)
      reads this
      ensures forall b :: b in r <==> Conn(j, b) in conns
    {
      BindingsOf(conns, j)
    }

    /** edif_create: an empty netlist with nports numbered ports. */
    constructor (design: string, nports: nat)
      ensures this.design == design && this.nports == nports
      ensures ports == map[] && props == [] && libName == None && celltable == [] && cells == []
      ensures !ipadMade && !opadMade
      ensures State() == NetState([], [], [], [])
      ensures Valid()
    {
      this.design := design;
      this.nports := nports;
      ports := map[];
      props := [];
      libName := None;
      celltable := [];
      cells := [];
      ipadMade := false;
      opadMade := false;
      instances := [];
      cellProps := [];
      joints := [];
      conns := [];
    }

    /** edif_portconfig: name and direction of port p. */
    method PortConfig(p: nat, name: string, dir: PortDir)
      requires Valid() && p < nports
      modifies this`ports
      ensures ports == old(ports)[p := PortDecl(name, dir)]
      ensures Valid()
    {
      ports := ports[p := PortDecl(name, dir)];
    }

    /** edif_pstring: a property of the whole design. */
    method SetProperty(key: string, value: string)
      modifies this`props
      ensures props == old(props) + [Property(key, value)]
    {
      props := props + [Property(key, value)];
    }

    /** edif_xlibrary_create and edif_xlibrary_set_celltable. */
    method CreateLibrary(name: string, table: seq<string>)
      modifies this`libName, this`celltable
      ensures libName == Some(name) && celltable == table
    {
      libName := Some(name);
      celltable := table;
    }

    /** edif_xcell_create followed by edif_cell_portconfig of each port. */
    method DeclareCell(d: CellDecl)
      requires Valid() && d.name != "IPAD" && d.name != "OPAD"
      modifies this`cells
      ensures cells == old(cells) + [d]
      ensures Valid()
    {
      DeclCountSnoc(cells, d, "IPAD");
      DeclCountSnoc(cells, d, "OPAD");
      cells := cells + [d];
    }

    /** Declares the IPAD cell, which must not exist yet. */
    method DeclareIpad()
      requires Valid() && !ipadMade
      modifies this`cells, this`ipadMade
      ensures cells == old(cells) + [IpadDecl] && ipadMade
      ensures Valid()
    {
      var d := IpadDecl;
      DeclCountSnoc(cells, d, "IPAD");
      DeclCountSnoc(cells, d, "OPAD");
      cells := cells + [d];
      ipadMade := true;
    }

    /** Declares the OPAD cell, which must not exist yet. */
    method DeclareOpad()
      requires Valid() && !opadMade
      modifies this`cells, this`opadMade
      ensures cells == old(cells) + [OpadDecl] && opadMade
      ensures Valid()
    {
      var d := OpadDecl;
      DeclCountSnoc(cells, d, "IPAD");
      DeclCountSnoc(cells, d, "OPAD");
      cells := cells + [d];
      opadMade := true;
    }

    /** edif_cellref_create: a new instance, numbered after all earlier ones. */
    method CreateInstance(kind: CellKind) returns (r: nat)
      requires Valid()
      modifies this`instances
      ensures r == |old(instances)| && State() == WithInstance(old(State()), kind)
      ensures Valid()
    {
      r := |instances|;
      instances := instances + [kind];
    }

    /** edif_cellref_pstring: property key of instance r. */
    method CellrefProperty(r: nat, key: string, value: string)
      requires Valid() && r < |instances|
      modifies this`cellProps
      ensures State() == WithProp(old(State()), r, key, value)
      ensures Valid()
    {
      cellProps := cellProps + [CellProp(r, key, value)];
    }

    /** edif_joint_create: a fresh internal joint. */
    method CreateJoint() returns (j: JointId)
      requires Valid()
      modifies this`joints
      ensures j == Internal(|old(joints)|) && State() == WithJoint(old(State()))
      ensures Valid()
    {
      j := Internal(|joints|);
      joints := joints + [None];
    }

    /** edif_joint_rename of a fresh joint. */
    method RenameJoint(j: JointId, name: string)
      requires Valid() && j.Internal? && j.index < |joints|
      modifies this`joints
      ensures State() == WithName(old(State()), j.index, name)
      ensures Valid()
    {
      joints := joints[j.index := Some(name)];
    }

    /** edif_add_to_joint: binds pin p of instance r to joint j. */
    method AddToJoint(j: JointId, r: nat, p: Pin)
      requires Valid() && Exists(j) && r < |instances|
      modifies this`conns
      ensures State() == WithConn(old(State()), j, r, p)
      ensures Valid()
    {
      conns := conns + [Conn(j, CellPin(r, p))];
    }

    /** edif_add_to_joint of each binding of ws in turn; every one ties an
        instance pin to a joint. */
    method Bind(ws: seq<Conn>)
      requires Valid() && PinsWithin(ws, |joints|, |instances|)
      modifies this`conns
      ensures State() == WithConns(old(State()), ws)
      ensures Valid()
    {
      var i := 0;
      while i < |ws|
        invariant 0 <= i <= |ws| && Valid()
        invariant State() == WithConns(old(State()), ws[..i])
      {
        var c := ws[i];
        assert c in ws;
        AddToJoint(c.joint, c.end.inst, c.end.pin);
        assert ws[..i + 1] == ws[..i] + [c];
        i := i + 1;
      }
      assert ws[..i] == ws;
    }

    /** edif_port_to_joint: binds design port p to joint j. */
    method PortToJoint(j: JointId, p: nat)
      requires Valid() && Exists(j) && p < nports
      modifies this`conns
      ensures State() == WithPortConn(old(State()), j, p)
      ensures Valid()
    {
      conns := conns + [Conn(j, PortPin(p))];
    }

    predicate Exists(j: JointId)
      reads this
    {
      j.Internal? ==> j.index < |joints|
    }
  }

  /** The result of mapping one element: the netlist state it leaves, an
      unsupported element (reported, nothing created), or a fatal error (an
      assertion of the mapper fails and the program stops). */
  datatype Step = Emit(after: NetState) | Skip(msg: string) | Abort(reason: string)

  function OutcomeOf(s: Step): (o: Outcome)
    ensures o.Done? <==> s.Emit?
    ensures o.Fatal? <==> s.Abort?
  {
    match s
    case Emit(_) => Done
    case Skip(m) => Unsupported(m)
    case Abort(r) => Fatal(r)
  }

  /** The state a step leaves behind: the emitted one, or the old one unchanged. */
  function After(s: Step, prev: NetState): (t: NetState)
    ensures !s.Emit? ==> t == prev
  {
    if s.Emit? then s.after else prev
  }
}
