/** What a netlist fragment computes.

    A valuation gives every joint a logic value (jv) and every bound pin a
    logic value (pv). It is consistent with a netlist when every binding
    carries its joint's value to its pin and every instance relates its pins
    as its cell does: a LUT's output is its INIT table at the index of its
    inputs, MUXCY and XORCY behave as in the Virtex-II library, GND and VCC
    drive 0 and 1, a buffer copies its input. Pins no binding reaches are
    unconstrained. A mapped element is correct when its outputs are right
    under every valuation consistent with the netlist it leaves. */
module Circuit {
  import opened Wrappers
  import opened TruthTable
  import opened Edif

  predicate Wired(conns: seq<Conn>, jv: JointId -> bool, pv: Binding -> bool)
  {
    forall c :: c in conns ==> pv(c.end) == jv(c.joint)
  }

  /** Instance number k, a cell of the given kind, relates its pins as the cell does. */
  predicate CellHolds(kind: CellKind, k: nat, pv: Binding -> bool)
  {
    match kind
    case Gnd => !pv(CellPin(k, Port(0)))
    case Vcc => pv(CellPin(k, Port(0)))
    case Ibuf | Obuf | Buf => pv(CellPin(k, BufO)) == pv(CellPin(k, BufI))
    case Muxcy | MuxcyL =>
      pv(CellPin(k, MuxO)) == MuxOut(pv(CellPin(k, MuxS)), pv(CellPin(k, MuxDI)), pv(CellPin(k, MuxCI)))
    case Xorcy => pv(CellPin(k, XorO)) == XorOut(pv(CellPin(k, XorLI)), pv(CellPin(k, XorCI)))
    case _ => true
  }

  /** The inputs I0, I1, ... of instance k of a LUT kind. */
  function LutInputs(kind: CellKind, k: nat, pv: Binding -> bool): seq<bool>
  {
    match kind
    case Lut2 => [pv(CellPin(k, LutI0)), pv(CellPin(k, LutI1))]
    case Lut3 => [pv(CellPin(k, LutI0)), pv(CellPin(k, LutI1)), pv(CellPin(k, LutI2))]
    case Lut4 => [pv(CellPin(k, LutI0)), pv(CellPin(k, LutI1)), pv(CellPin(k, LutI2)), pv(CellPin(k, LutI3))]
    case _ => []
  }

  predicate IsLut(kind: CellKind)
  {
    kind.Lut2? || kind.Lut3? || kind.Lut4?
  }

  /** Instance k configured with INIT init outputs its table at its inputs. */
  predicate LutHolds(kind: CellKind, k: nat, init: string, pv: Binding -> bool)
  {
    IsLut(kind) ==> pv(CellPin(k, LutO)) == LutOut(init, LutInputs(kind, k, pv))
  }

  /** A LUT2 whose inputs carry x and y outputs its table at [x, y]. */
  lemma Lut2Pins(k: nat, init: string, x: bool, y: bool, pv: Binding -> bool)
    requires LutHolds(Lut2, k, init, pv) && pv(CellPin(k, LutI0)) == x && pv(CellPin(k, LutI1)) == y
    ensures pv(CellPin(k, LutO)) == LutOut(init, [x, y])
  {
  }

  /** A LUT4 whose inputs carry a, b, c and d outputs its table at [a, b, c, d]. */
  lemma Lut4Pins(k: nat, init: string, a: bool, b: bool, c: bool, d: bool, pv: Binding -> bool)
    requires LutHolds(Lut4, k, init, pv)
    requires pv(CellPin(k, LutI0)) == a && pv(CellPin(k, LutI1)) == b
    requires pv(CellPin(k, LutI2)) == c && pv(CellPin(k, LutI3)) == d
    ensures pv(CellPin(k, LutO)) == LutOut(init, [a, b, c, d])
  {
  }

  /** Every instance behaves as its cell, and every INIT property
      configures the LUT it names. */
  predicate CellsHold(insts: seq<CellKind>, props: seq<CellProp>, pv: Binding -> bool)
  {
    (forall k :: 0 <= k < |insts| ==> CellHolds(insts[k], k, pv)) &&
    (forall q :: q in props && q.key == "INIT" && q.inst < |insts| ==> LutHolds(insts[q.inst], q.inst, q.value, pv))
  }

  /** The valuation is consistent with the whole netlist state s. */
  predicate Behaves(s: NetState, jv: JointId -> bool, pv: Binding -> bool)
  {
    Wired(s.conns, jv, pv) && CellsHold(s.insts, s.props, pv)
  }

  /** The values a valuation gives the cached joints of a list of nexuses. */
  function Read(jv: JointId -> bool, xs: seq<Nexus>): (r: seq<bool>)
    ensures |r| == |xs| && forall i :: 0 <= i < |xs| ==> r[i] == jv(Cached(xs[i]))
  {
    seq(|xs|, i requires 0 <= i < |xs| => jv(Cached(xs[i])))
  }

  /** t grew from s by appending: instances, properties and bindings of s
      are a prefix of those of t, and t has at least the fresh joints of s. */
  predicate Extends(s: NetState, t: NetState)
  {
    |s.insts| <= |t.insts| && s.insts == t.insts[..|s.insts|] &&
    |s.props| <= |t.props| && s.props == t.props[..|s.props|] &&
    |s.conns| <= |t.conns| && s.conns == t.conns[..|s.conns|] &&
    |s.joints| <= |t.joints| && s.joints == t.joints[..|s.joints|]
  }

  lemma ExtendsTrans(a: NetState, b: NetState, c: NetState)
    requires Extends(a, b) && Extends(b, c)
    ensures Extends(a, c)
  {
    assert c.insts[..|b.insts|][..|a.insts|] == c.insts[..|a.insts|];
    assert c.props[..|b.props|][..|a.props|] == c.props[..|a.props|];
    assert c.conns[..|b.conns|][..|a.conns|] == c.conns[..|a.conns|];
    assert c.joints[..|b.joints|][..|a.joints|] == c.joints[..|a.joints|];
  }

  /** Every step of the netlist interface only appends; a joint is renamed
      only right after it is created. */
  lemma ExtendsSteps(s: NetState, kind: CellKind, r: nat, key: string, value: string, j: JointId, p: Pin, port: nat)
    ensures Extends(s, WithInstance(s, kind)) && Extends(s, WithProp(s, r, key, value))
    ensures Extends(s, WithJoint(s)) && Extends(s, WithConn(s, j, r, p)) && Extends(s, WithPortConn(s, j, port))
    ensures Extends(s, WithName(WithJoint(s), |s.joints|, value))
  {
    assert (s.joints + [None])[|s.joints| := Some(value)][..|s.joints|] == s.joints;
    assert s.insts[..|s.insts|] == s.insts && s.props[..|s.props|] == s.props && s.conns[..|s.conns|] == s.conns;
    assert (s.joints + [None])[..|s.joints|] == s.joints;
    assert (s.insts + [kind])[..|s.insts|] == s.insts;
    assert (s.props + [CellProp(r, key, value)])[..|s.props|] == s.props;
    assert (s.conns + [Conn(j, CellPin(r, p))])[..|s.conns|] == s.conns;
    assert (s.conns + [Conn(j, PortPin(port))])[..|s.conns|] == s.conns;
  }

  lemma ExtendsInstance(s: NetState, kind: CellKind)
    ensures Extends(s, WithInstance(s, kind))
  {
    assert (s.insts + [kind])[..|s.insts|] == s.insts;
    assert s.props[..|s.props|] == s.props && s.conns[..|s.conns|] == s.conns && s.joints[..|s.joints|] == s.joints;
  }

  lemma ExtendsConn(s: NetState, j: JointId, r: nat, p: Pin)
    ensures Extends(s, WithConn(s, j, r, p))
  {
    assert (s.conns + [Conn(j, CellPin(r, p))])[..|s.conns|] == s.conns;
    assert s.props[..|s.props|] == s.props && s.insts[..|s.insts|] == s.insts && s.joints[..|s.joints|] == s.joints;
  }

  lemma ExtendsNamedJoint(s: NetState, name: string)
    ensures Extends(s, WithName(WithJoint(s), |s.joints|, name))
  {
    assert (s.joints + [None])[|s.joints| := Some(name)][..|s.joints|] == s.joints;
    assert s.insts[..|s.insts|] == s.insts && s.props[..|s.props|] == s.props && s.conns[..|s.conns|] == s.conns;
  }

  /** Appending in one step only appends. */
  lemma GrowExtends(s: NetState, cells: seq<CellKind>, props: seq<CellProp>, count: nat, wires: seq<Conn>)
    ensures Extends(s, Grow(s, cells, props, count, wires))
  {
    var t := Grow(s, cells, props, count, wires);
    assert t.insts[..|s.insts|] == s.insts && t.props[..|s.props|] == s.props && t.conns[..|s.conns|] == s.conns;
  }

  /** Every binding of ws is one of conns. */
  predicate Present(ws: seq<Conn>, conns: seq<Conn>)
  {
    forall w :: w in ws ==> w in conns
  }

  /** Bindings and properties present stay present as the netlist grows. */
  lemma ConnsExtend(t: NetState, u: NetState, ws: seq<Conn>)
    requires Extends(t, u) && forall w :: w in ws ==> w in t.conns
    ensures forall w :: w in ws ==> w in u.conns
  {
    forall w | w in ws ensures w in u.conns {
      var i :| 0 <= i < |t.conns| && t.conns[i] == w;
      assert u.conns[i] == t.conns[i];
    }
  }

  /** A state extends itself. */
  lemma ExtendsRefl(t: NetState)
    ensures Extends(t, t)
  {
    assert t.insts[..|t.insts|] == t.insts && t.props[..|t.props|] == t.props;
    assert t.conns[..|t.conns|] == t.conns && t.joints[..|t.joints|] == t.joints;
  }

  /** A state that appended to every part of s extends s. */
  lemma ExtendsBy(s: NetState, t: NetState, cells: seq<CellKind>, props: seq<CellProp>, wires: seq<Conn>,
                  added: seq<Option<string>>)
    requires t.insts == s.insts + cells && t.props == s.props + props
    requires t.conns == s.conns + wires && t.joints == s.joints + added
    ensures Extends(s, t)
  {
    assert t.insts[..|s.insts|] == s.insts && t.props[..|s.props|] == s.props;
    assert t.conns[..|s.conns|] == s.conns && t.joints[..|s.joints|] == s.joints;
  }

  /** A valuation consistent with a netlist that ends in one more binding
      is consistent with the netlist before it and carries that binding. */
  lemma BehavesWithConn(s: NetState, j: JointId, r: nat, p: Pin, jv: JointId -> bool, pv: Binding -> bool)
    requires Behaves(WithConn(s, j, r, p), jv, pv)
    ensures Behaves(s, jv, pv) && pv(CellPin(r, p)) == jv(j)
  {
    var t := WithConn(s, j, r, p);
    ExtendsConn(s, j, r, p);
    BehavesPrefix(s, t, jv, pv);
    assert t.conns[|s.conns|] == Conn(j, CellPin(r, p));
  }

  lemma ConnExtends(t: NetState, u: NetState, c: Conn)
    requires Extends(t, u) && c in t.conns
    ensures c in u.conns
  {
    var i :| 0 <= i < |t.conns| && t.conns[i] == c;
    assert u.conns[i] == t.conns[i];
  }

  lemma PropExtends(t: NetState, u: NetState, q: CellProp)
    requires Extends(t, u) && q in t.props
    ensures q in u.props
  {
    var i :| 0 <= i < |t.props| && t.props[i] == q;
    assert u.props[i] == t.props[i];
  }

  /** The bindings ws of a netlist carry their joints' values to their pins
      under every valuation consistent with it. */
  lemma WiredPart(t: NetState, ws: seq<Conn>, jv: JointId -> bool, pv: Binding -> bool)
    requires (forall w :: w in ws ==> w in t.conns) && Wired(t.conns, jv, pv)
    ensures Wired(ws, jv, pv)
  {
  }

  /** A valuation consistent with a netlist is consistent with every state
      it grew from. */
  lemma BehavesPrefix(s: NetState, t: NetState, jv: JointId -> bool, pv: Binding -> bool)
    requires Extends(s, t) && Behaves(t, jv, pv)
    ensures Behaves(s, jv, pv)
  {
    forall c | c in s.conns ensures pv(c.end) == jv(c.joint) {
      assert c in t.conns;
    }
    forall k | 0 <= k < |s.insts| ensures CellHolds(s.insts[k], k, pv) {
      assert s.insts[k] == t.insts[k];
    }
    forall q | q in s.props && q.key == "INIT" && q.inst < |s.insts|
      ensures LutHolds(s.insts[q.inst], q.inst, q.value, pv)
    {
      assert q in t.props;
      assert s.insts[q.inst] == t.insts[q.inst];
    }
  }
}
