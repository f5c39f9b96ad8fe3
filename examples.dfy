/** Worked cases of the lowering: what `ToQiskit` promises for small
    circuits, derived from its contract alone. */
module Examples {
  import opened Params
  import opened Circuits
  import opened Trans

  /** A gate without parameter on `objs`, controlled by `ctrls`. */
  function Fixed(kind: GateKind, objs: seq<nat>, ctrls: seq<nat>, dagger: bool): SourceGate
  {
    SourceGate(kind, objs, ctrls, dagger, false, ParameterResolver(map[], 0.0))
  }

  /** A rotation by the parameter `name` (coefficient 1). */
  function Symbolic(kind: GateKind, name: string, objs: seq<nat>, ctrls: seq<nat>): (g: SourceGate)
    ensures name in g.coeff.coeffs
  {
    SourceGate(kind, objs, ctrls, false, true, ParameterResolver(map[name := 1.0], 0.0))
  }

  /** `{"a": 2.0, "b": -1.0}` with constant 0.5, at a = b = 1, is worth 1.5. */
  lemma ExpressionValue(table: map<string, Parameter>, bind: Parameter -> real)
    requires "a" in table && "b" in table
    requires bind(table["a"]) == 1.0 && bind(table["b"]) == 1.0
    ensures Value(ParameterResolver(map["a" := 2.0, "b" := -1.0], 0.5), table, bind) == 1.5
  {
    var m := map["a" := 2.0, "b" := -1.0];
    assert m.Keys == {"a", "b"};
    WeightedPick({"a", "b"}, m, table, bind, "a");
    assert {"a", "b"} - {"a"} == {"b"};
    WeightedPick({"b"}, m, table, bind, "b");
    assert {"b"} - {"b"} == {};
  }

  /** `XX('a')` on object qubits [o0, o1] with controls [c0, c1]: one RXX
      gate under a 2-control wrapper, on [c0, c1, o0, o1], whose only
      Parameter is the table's Parameter for "a". */
  method ControlledXX(o0: nat, o1: nat, c0: nat, c1: nat)
  {
    var g := Symbolic(XX, "a", [o0, o1], [c0, c1]);
    var r, table := ToQiskit(SourceCircuit(4, [g]));
    FirstRejectedIsFirst([g], 0);
    assert r.Success?;
    var instr := r.value.data[0];
    assert instr.qubits == [c0, c1, o0, o1];
    assert instr.gate.Controlled? && NumCtrls(instr.gate) == 2;
    assert BaseGate(instr.gate).kind == RXXGate;
    SingleNameHandles(g, instr, table, "a");
    assert Handles(BaseGate(instr.gate).arg.e) == {table["a"]};
  }

  /** `RX('a')` is worth whatever the binding gives the table's Parameter
      for "a". */
  method RotationValue(q: nat, bind: Parameter -> real)
  {
    var g := Symbolic(RX, "a", [q], []);
    var r, table := ToQiskit(SourceCircuit(1, [g]));
    FirstRejectedIsFirst([g], 0);
    assert r.Success?;
    assert LoweredValue(g, r.value.data[0], table, bind);
    assert g.coeff.coeffs.Keys == {"a"};
    WeightedPick({"a"}, g.coeff.coeffs, table, bind, "a");
    assert {"a"} - {"a"} == {};
    assert Eval(BaseGate(r.value.data[0].gate).arg.e, bind) == bind(table["a"]);
  }

  /** Two gates on the same parameter name share one Parameter object. */
  method SharedParameter(q0: nat, q1: nat)
  {
    var g0 := Symbolic(RX, "a", [q0], []);
    var g1 := Symbolic(RY, "a", [q1], []);
    var r, table := ToQiskit(SourceCircuit(2, [g0, g1]));
    FirstRejectedIsFirst([g0, g1], 0);
    assert r.Success?;
    SingleNameHandles(g0, r.value.data[0], table, "a");
    SingleNameHandles(g1, r.value.data[1], table, "a");
    assert Handles(BaseGate(r.value.data[0].gate).arg.e) == Handles(BaseGate(r.value.data[1].gate).arg.e);
  }

  /** Two gates on different parameter names get different Parameter
      objects. */
  method DistinctParameters(q0: nat, q1: nat)
  {
    var gs := [Symbolic(RX, "a", [q0], []), Symbolic(RY, "b", [q1], [])];
    var r, table := ToQiskit(SourceCircuit(2, gs));
    FirstRejectedIsFirst(gs, 0);
    assert r.Success?;
    TwoNames(q0, q1, gs, r.value.data, table);
  }

  /** The lowerings of RX('a')(q0) and RY('b')(q1) in a named table mention
      one Parameter each, and not the same one. */
  lemma TwoNames(q0: nat, q1: nat, gs: seq<SourceGate>, data: seq<Instruction>, table: map<string, Parameter>)
    requires gs == [Symbolic(RX, "a", [q0], []), Symbolic(RY, "b", [q1], [])]
    requires |data| == |gs| && Named(table)
    requires forall j | 0 <= j < |gs| :: Lowered(gs[j], data[j], table)
    ensures BaseGate(data[0].gate).arg.Expr? && BaseGate(data[1].gate).arg.Expr?
    ensures Handles(BaseGate(data[0].gate).arg.e) !! Handles(BaseGate(data[1].gate).arg.e)
  {
    SingleNameHandles(gs[0], data[0], table, "a");
    SingleNameHandles(gs[1], data[1], table, "b");
    NamedIsInjective(table, "a", "b");
  }

  /** The circuit [X(q0), RX('a')(q1), H(q2)] keeps its order; an
      uncontrolled gate is not wrapped. */
  method OrderKept(q0: nat, q1: nat, q2: nat)
  {
    var gs := [Fixed(X, [q0], [], false), Symbolic(RX, "a", [q1], []), Fixed(H, [q2], [], false)];
    var r, table := ToQiskit(SourceCircuit(3, gs));
    FirstRejectedIsFirst(gs, 0);
    assert r.Success?;
    assert r.value.numQubits == 3;
    LoweredThree(q0, q1, q2, gs, r.value.data, table);
  }

  /** The lowerings of X(q0), RX('a')(q1) and H(q2), position by position. */
  lemma LoweredThree(q0: nat, q1: nat, q2: nat, gs: seq<SourceGate>, data: seq<Instruction>, table: map<string, Parameter>)
    requires gs == [Fixed(X, [q0], [], false), Symbolic(RX, "a", [q1], []), Fixed(H, [q2], [], false)]
    requires |data| == |gs|
    requires forall j | 0 <= j < |gs| :: Lowered(gs[j], data[j], table)
    ensures data[0] == Instruction(Plain(XGate, NoArg), [q0])
    ensures data[1].gate.Plain? && data[1].gate.kind == RXGate && data[1].qubits == [q1]
    ensures data[2] == Instruction(Plain(HGate, NoArg), [q2])
  {
    assert Lowered(gs[0], data[0], table) && Lowered(gs[1], data[1], table) && Lowered(gs[2], data[2], table);
  }

  /** `RX(1.2)` takes the plain number and creates no Parameter. */
  method ConstantRotation()
  {
    var g := SourceGate(RX, [0], [], false, false, ParameterResolver(map[], 1.2));
    var r, table := ToQiskit(SourceCircuit(1, [g]));
    FirstRejectedIsFirst([g], 0);
    assert r.Success?;
    assert r.value.data[0].gate == Plain(RXGate, Num(1.2));
    assert ParamNames([g]) == {};
    assert table == map[];
  }

  /** A daggered S gate comes out as Tdg, exactly as a daggered T gate. */
  method SLoweredAsT()
  {
    var g := Fixed(S, [0], [1], true);
    var r, table := ToQiskit(SourceCircuit(2, [g]));
    FirstRejectedIsFirst([g], 0);
    assert r.Success?;
    assert r.value.data[0].gate == Controlled(1, Plain(TdgGate, NoArg));
  }

  /** The loop stops at ISWAP, so a parameterized rotation without terms
      after it is never reached: the call fails with the ISWAP gate. */
  method RejectedBeforeEmptyRotation()
  {
    var g := Fixed(ISWAP, [0, 1], [], false);
    var empty := SourceGate(RX, [0], [], false, true, ParameterResolver(map[], 0.0));
    var gs := [g, empty];
    var r, table := ToQiskit(SourceCircuit(2, gs));
    assert r.Failure? && r.error == ValueError(g);
  }

  /** ISWAP fails the whole translation, though the fixed-gate table has it;
      the error names the ISWAP gate. */
  method ISwapFails()
  {
    var g := Fixed(ISWAP, [0, 1], [], false);
    var r, table := ToQiskit(SourceCircuit(2, [Fixed(X, [0], [], false), g]));
    var gs := [Fixed(X, [0], [], false), g];
    FirstRejectedIsFirst(gs, 0);
    assert r.Failure?;
    assert r.error == ValueError(g);
    assert "ISWAP" in SelfHermMap;
  }
}
