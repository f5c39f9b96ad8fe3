/** The MindQuantum-to-Qiskit lowering of mqtrans/qiskit/trans.py.

    `ToQiskit` walks the source gates in order, picks a lowering routine by
    gate class (`Dispatch`) and lets the routine append one instruction to a
    fresh QuantumCircuit.  Each routine maps the gate to a Qiskit gate kind,
    wraps it with `.control(len(ctrls))` when there are control qubits, and
    applies it to `ctrls + objs`.  Rotation and phase gates carry a parameter
    expression, rebuilt by `ParamsTrans` against one table per call. */
module Trans {
  import opened Params
  import opened Circuits

  datatype ConversionError = ValueError(gate: SourceGate)

  datatype Result<R> = Success(value: R) | Failure(error: ConversionError)

  /** `qgate_map` of `self_herm_non_params`, keyed by gate name. */
  const SelfHermMap: map<string, TargetKind> := map[
    "X" := XGate, "Y" := YGate, "Z" := ZGate, "H" := HGate,
    "SWAP" := SwapGate, "ISWAP" := ISwapGate]

  /** `qgate_map` of `oppo_params_gate_trans`, keyed by gate name. */
  const ParamGateMap: map<string, TargetKind> := map[
    "RX" := RXGate, "RY" := RYGate, "RZ" := RZGate,
    "ZZ" := RZZGate, "YY" := RYYGate, "XX" := RXXGate,
    "PS" := PhaseGate]

  /** The lowering routines `to_qiskit` calls (`s_gate_trans` is not among
      them). */
  datatype Routine = SelfHermRoutine | TRoutine | ParamsRoutine

  /** The gate classes `to_qiskit` refuses: ISWAP, and every class its
      `isinstance` chain does not list. */
  predicate Rejected(k: GateKind)
  {
    k == ISWAP || k.Other?
  }

  /** The `isinstance` chain of `to_qiskit`.  S gates are sent to the T
      routine, like T gates; ISWAP and every class not
      listed are rejected.  A routine is only chosen for a gate whose name
      its table holds, so the table lookups never fail. */
  function Dispatch(k: GateKind): (r: Option<Routine>)
    ensures r.None? <==> Rejected(k)
    ensures r == Some(SelfHermRoutine) ==> Name(k) in SelfHermMap
    ensures r == Some(ParamsRoutine) ==> Name(k) in ParamGateMap
    ensures k == S || k == T <==> r == Some(TRoutine)
  {
    match k
    case X | Y | Z | H | SWAP => Some(SelfHermRoutine)
    case T => Some(TRoutine)
    case S => Some(TRoutine)
    case RX | RY | RZ | ZZ | YY | XX | PhaseShift => Some(ParamsRoutine)
    case _ => None
  }

  /** The Qiskit gate class the code pairs with each MindQuantum gate class,
      written out class by class (the rotation-angle conventions of the two
      libraries are not modelled). */
  function Counterpart(k: GateKind): Option<TargetKind>
  {
    match k
    case X => Some(XGate)
    case Y => Some(YGate)
    case Z => Some(ZGate)
    case H => Some(HGate)
    case SWAP => Some(SwapGate)
    case ISWAP => Some(ISwapGate)
    case RX => Some(RXGate)
    case RY => Some(RYGate)
    case RZ => Some(RZGate)
    case XX => Some(RXXGate)
    case YY => Some(RYYGate)
    case ZZ => Some(RZZGate)
    case PhaseShift => Some(PhaseGate)
    case S | T | Other(_) => None
  }

  /** The Qiskit kind `to_qiskit` emits for a gate, stated class by class
      rather than through the name tables: none for a rejected class; T, or
      Tdg when `hermitianed`, for S and T gates alike; the counterpart of the
      class for every other gate. */
  function LoweredKind(g: SourceGate): Option<TargetKind>
  {
    if Rejected(g.kind) then None
    else if g.kind == S || g.kind == T then Some(if g.hermitianed then TdgGate else TGate)
    else Counterpart(g.kind)
  }

  /** The name-keyed tables the routines consult agree, for every class that
      Dispatch sends to them, with the class-keyed Counterpart; the
      phase-shift gate, in particular, is found under its short name "PS". */
  lemma {:induction false} TablesMatchCounterparts(k: GateKind)
    ensures Dispatch(k) == Some(SelfHermRoutine) ==> Some(SelfHermMap[Name(k)]) == Counterpart(k)
    ensures Dispatch(k) == Some(ParamsRoutine) ==> Some(ParamGateMap[Name(k)]) == Counterpart(k)
  {
    match k
    case X => case Y => case Z => case H => case SWAP => case ISWAP =>
    case S => case T =>
    case RX => case RY => case RZ => case XX => case YY => case ZZ =>
    case PhaseShift =>
    case Other(_) =>
  }

  /** An S gate is lowered exactly as the T gate with the same flags, so it
      never becomes Qiskit's S or Sdg. */
  lemma AdjointPairLowering(g: SourceGate)
    requires g.kind == S
    ensures LoweredKind(g) == LoweredKind(g.(kind := T))
    ensures LoweredKind(g) != Some(SGate) && LoweredKind(g) != Some(SdgGate)
  {
  }

  /** ISWAP is in the fixed-gate table but is still rejected. */
  lemma ISwapRejected(g: SourceGate)
    requires g.kind == ISWAP
    ensures Name(g.kind) in SelfHermMap && Dispatch(g.kind).None? && LoweredKind(g).None?
  {
  }

  /** The shape of the argument an instruction for `g` carries, given the
      parameter table: none for fixed and S/T gates; for rotation and phase
      gates the plain constant when `g` is not parameterized, and otherwise an
      expression whose Parameters are exactly the table's Parameters for the
      names `g` uses. */
  predicate ArgLowered(g: SourceGate, arg: Arg, table: map<string, Parameter>)
  {
    if Dispatch(g.kind) == Some(ParamsRoutine) then
      if g.parameterized then
        arg.Expr? && g.coeff.coeffs.Keys <= table.Keys &&
        Handles(arg.e) == HandlesOf(g.coeff.coeffs.Keys, table)
      else
        arg == Num(g.coeff.constant)
    else
      arg == NoArg
  }

  /** Under the binding `bind`, an expression argument is worth
      `const + sum_k v_k * value(table[k])` over the terms of `g`. */
  ghost predicate ArgValue(g: SourceGate, arg: Arg, table: map<string, Parameter>, bind: Parameter -> real)
  {
    arg.Expr? && g.coeff.coeffs.Keys <= table.Keys ==>
      Eval(arg.e, bind) == Value(g.coeff, table, bind)
  }

  /** `instr` is a lowering of `g` against `table`: it is applied to
      `ctrls + objs`; it is its base gate wrapped once, with `len(ctrls)`
      controls, when there are controls and not wrapped otherwise; its base
      gate has the kind the routine emits and carries the argument ArgLowered
      describes. */
  predicate Lowered(g: SourceGate, instr: Instruction, table: map<string, Parameter>)
  {
    instr.qubits == g.ctrlQubits + g.objQubits &&
    instr.gate == WithControls(BaseGate(instr.gate), g.ctrlQubits) &&
    LoweredKind(g) == Some(BaseGate(instr.gate).kind) &&
    ArgLowered(g, BaseGate(instr.gate).arg, table)
  }

  /** The value of the lowering of `g` under `bind`. */
  ghost predicate LoweredValue(g: SourceGate, instr: Instruction, table: map<string, Parameter>, bind: Parameter -> real)
  {
    ArgValue(g, BaseGate(instr.gate).arg, table, bind)
  }

  /** A lowering stays a lowering, with the same value, when the table only
      grows. */
  lemma {:induction false} LoweredExtends(g: SourceGate, instr: Instruction, t1: map<string, Parameter>, t2: map<string, Parameter>, bind: Parameter -> real)
    requires Lowered(g, instr, t1) && LoweredValue(g, instr, t1, bind)
    requires Extends(t1, t2)
    ensures Lowered(g, instr, t2) && LoweredValue(g, instr, t2, bind)
  {
    if Dispatch(g.kind) == Some(ParamsRoutine) && g.parameterized {
      HandlesOfExtends(g.coeff.coeffs.Keys, t1, t2);
      ValueExtends(g.coeff, t1, t2, bind);
    }
  }

  /** The instruction a fixed-gate, T or S routine appends is a lowering of
      its gate whenever the routine emits the kind `to_qiskit` expects. */
  lemma FixedLowered(g: SourceGate, kind: TargetKind, table: map<string, Parameter>)
    requires LoweredKind(g) == Some(kind) && Dispatch(g.kind) != Some(ParamsRoutine)
    ensures var instr := Instruction(WithControls(Plain(kind, NoArg), g.ctrlQubits), g.ctrlQubits + g.objQubits);
      Lowered(g, instr, table) && forall bind: Parameter -> real :: LoweredValue(g, instr, table, bind)
  {
  }

  /** Conversely, a lowering of a gate without argument is exactly the
      instruction the routine builds: the emitted kind, wrapped when there are
      controls, on `ctrls + objs`. */
  lemma FixedInstruction(g: SourceGate, instr: Instruction, table: map<string, Parameter>)
    requires Lowered(g, instr, table) && Dispatch(g.kind) != Some(ParamsRoutine)
    ensures LoweredKind(g).Some?
    ensures instr == Instruction(WithControls(Plain(LoweredKind(g).value, NoArg), g.ctrlQubits), g.ctrlQubits + g.objQubits)
  {
  }

  /** The instruction the rotation routine appends is a lowering of its gate
      when its argument has the shape and value ArgLowered and ArgValue ask. */
  lemma ParamLowered(g: SourceGate, arg: Arg, table: map<string, Parameter>)
    requires Dispatch(g.kind) == Some(ParamsRoutine)
    requires ArgLowered(g, arg, table)
    requires forall bind: Parameter -> real :: ArgValue(g, arg, table, bind)
    ensures var instr := Instruction(WithControls(Plain(ParamGateMap[Name(g.kind)], arg), g.ctrlQubits), g.ctrlQubits + g.objQubits);
      Lowered(g, instr, table) && forall bind: Parameter -> real :: LoweredValue(g, instr, table, bind)
  {
    TablesMatchCounterparts(g.kind);
  }

  /** A lowered rotation by a single parameter name mentions exactly the
      table's Parameter for that name. */
  lemma SingleNameHandles(g: SourceGate, instr: Instruction, table: map<string, Parameter>, k: string)
    requires Lowered(g, instr, table)
    requires Dispatch(g.kind) == Some(ParamsRoutine) && g.parameterized && g.coeff.coeffs.Keys == {k}
    ensures BaseGate(instr.gate).arg.Expr? && k in table
    ensures Handles(BaseGate(instr.gate).arg.e) == {table[k]}
  {
    assert HandlesOf({k}, table) == {table[k]} by {
      assert table[k] in HandlesOf({k}, table);
    }
  }

  /** The value of a lowered expression depends only on the Parameters the
      table gives the gate's own names, not on the rest of the shared table. */
  lemma LoweredReadsOwnNames(g: SourceGate, instr: Instruction, table: map<string, Parameter>,
                             b1: Parameter -> real, b2: Parameter -> real)
    requires Lowered(g, instr, table) && BaseGate(instr.gate).arg.Expr?
    requires forall k | k in g.coeff.coeffs && k in table :: b1(table[k]) == b2(table[k])
    ensures Eval(BaseGate(instr.gate).arg.e, b1) == Eval(BaseGate(instr.gate).arg.e, b2)
  {
    var e := BaseGate(instr.gate).arg.e;
    forall p | p in Handles(e)
      ensures b1(p) == b2(p)
    {
      var k :| k in g.coeff.coeffs.Keys && table[k] == p;
    }
    EvalOnlyReadsHandles(e, b1, b2);
  }

  /** Each instruction of `data` is a lowering of the gate of `gs` at the
      same position (stated for the last position and, recursively, for the
      rest). */
  predicate AllLowered(gs: seq<SourceGate>, data: seq<Instruction>, table: map<string, Parameter>)
    decreases |gs|
  {
    |gs| == |data| &&
    (gs != [] ==>
      AllLowered(gs[..|gs| - 1], data[..|gs| - 1], table) &&
      Lowered(gs[|gs| - 1], data[|gs| - 1], table))
  }

  /** Under `bind`, each instruction of `data` has the value of the gate of
      `gs` at the same position. */
  ghost predicate AllValued(gs: seq<SourceGate>, data: seq<Instruction>, table: map<string, Parameter>, bind: Parameter -> real)
    decreases |gs|
  {
    |gs| == |data| &&
    (gs != [] ==>
      AllValued(gs[..|gs| - 1], data[..|gs| - 1], table, bind) &&
      LoweredValue(gs[|gs| - 1], data[|gs| - 1], table, bind))
  }

  /** AllLowered, read at one position. */
  lemma {:induction false} AllLoweredAt(gs: seq<SourceGate>, data: seq<Instruction>, table: map<string, Parameter>, j: nat)
    requires AllLowered(gs, data, table) && j < |gs|
    ensures Lowered(gs[j], data[j], table)
    decreases |gs|
  {
    if j < |gs| - 1 {
      AllLoweredAt(gs[..|gs| - 1], data[..|gs| - 1], table, j);
    }
  }

  /** AllValued, read at one position. */
  lemma {:induction false} AllValuedAt(gs: seq<SourceGate>, data: seq<Instruction>, table: map<string, Parameter>, bind: Parameter -> real, j: nat)
    requires AllValued(gs, data, table, bind) && j < |gs|
    ensures LoweredValue(gs[j], data[j], table, bind)
    decreases |gs|
  {
    if j < |gs| - 1 {
      AllValuedAt(gs[..|gs| - 1], data[..|gs| - 1], table, bind, j);
    }
  }

  /** All lowerings made so far stay lowerings, with the same values, when
      the table only grows. */
  lemma {:induction false} AllLoweredExtends(gs: seq<SourceGate>, data: seq<Instruction>, t1: map<string, Parameter>, t2: map<string, Parameter>, bind: Parameter -> real)
    requires AllLowered(gs, data, t1) && AllValued(gs, data, t1, bind)
    requires Extends(t1, t2)
    ensures AllLowered(gs, data, t2) && AllValued(gs, data, t2, bind)
    decreases |gs|
  {
    if gs != [] {
      AllLoweredExtends(gs[..|gs| - 1], data[..|gs| - 1], t1, t2, bind);
      LoweredExtends(gs[|gs| - 1], data[|gs| - 1], t1, t2, bind);
    }
  }

  /** AllLowered, read at every position. */
  lemma AllLoweredEach(gs: seq<SourceGate>, data: seq<Instruction>, table: map<string, Parameter>)
    requires AllLowered(gs, data, table)
    ensures |gs| == |data|
    ensures forall j | 0 <= j < |gs| :: Lowered(gs[j], data[j], table)
  {
    forall j | 0 <= j < |gs|
      ensures Lowered(gs[j], data[j], table)
    {
      AllLoweredAt(gs, data, table, j);
    }
  }

  /** One step of `to_qiskit`: the lowerings made so far survive the growth
      of the table, and the new instruction joins them at the end. */
  lemma {:induction false} StepLowered(gs: seq<SourceGate>, data: seq<Instruction>, g: SourceGate, instr: Instruction,
                                       t1: map<string, Parameter>, t2: map<string, Parameter>)
    requires AllLowered(gs, data, t1) && forall bind: Parameter -> real :: AllValued(gs, data, t1, bind)
    requires Extends(t1, t2)
    requires Lowered(g, instr, t2) && forall bind: Parameter -> real :: LoweredValue(g, instr, t2, bind)
    ensures AllLowered(gs + [g], data + [instr], t2)
    ensures forall bind: Parameter -> real :: AllValued(gs + [g], data + [instr], t2, bind)
  {
    assert (gs + [g])[..|gs|] == gs;
    assert (data + [instr])[..|gs|] == data;
    forall bind: Parameter -> real
      ensures AllValued(gs + [g], data + [instr], t2, bind)
    {
      AllLoweredExtends(gs, data, t1, t2, bind);
    }
    AllLoweredExtends(gs, data, t1, t2, _ => 0.0);
  }

  /** The names a gate interns into the parameter table. */
  function Interned(g: SourceGate): set<string>
  {
    if Dispatch(g.kind) == Some(ParamsRoutine) && g.parameterized then g.coeff.coeffs.Keys else {}
  }

  /** The names the gates of `gs` intern. */
  function ParamNames(gs: seq<SourceGate>): set<string>
  {
    if gs == [] then {} else ParamNames(gs[..|gs| - 1]) + Interned(gs[|gs| - 1])
  }

  /** The position of the first gate of a rejected class at or after
      `from`, if any. */
  function FirstRejected(gs: seq<SourceGate>, from: nat): (r: Option<nat>)
    requires from <= |gs|
    decreases |gs| - from
    ensures r.Some? ==> from <= r.value < |gs|
  {
    if from == |gs| then None
    else if Rejected(gs[from].kind) then Some(from)
    else FirstRejected(gs, from + 1)
  }

  /** The loop of `to_qiskit` reaches gate `i`: no gate before it is of a
      rejected class. */
  predicate Reached(gs: seq<SourceGate>, i: nat)
    requires i < |gs|
  {
    FirstRejected(gs, 0).None? || i <= FirstRejected(gs, 0).value
  }

  /** FirstRejected finds a rejected gate exactly when there is one, and the
      gate it finds is the first. */
  lemma {:induction false} FirstRejectedIsFirst(gs: seq<SourceGate>, from: nat)
    requires from <= |gs|
    decreases |gs| - from
    ensures FirstRejected(gs, from).None? <==> forall i | from <= i < |gs| :: !Rejected(gs[i].kind)
    ensures FirstRejected(gs, from).Some? ==>
      && from <= FirstRejected(gs, from).value < |gs|
      && Rejected(gs[FirstRejected(gs, from).value].kind)
      && forall j | from <= j < FirstRejected(gs, from).value :: !Rejected(gs[j].kind)
  {
    if from < |gs| && !Rejected(gs[from].kind) {
      FirstRejectedIsFirst(gs, from + 1);
    }
  }

  /** What the source needs of a gate: a parameterized rotation or phase gate
      has at least one symbolic term (otherwise `params_trans` fails). */
  predicate ParamsReady(g: SourceGate)
  {
    Dispatch(g.kind) == Some(ParamsRoutine) && g.parameterized ==> g.coeff.coeffs != map[]
  }

  /** `self_herm_non_params`: look the name up in the fixed-gate table. */
  method SelfHermNonParams(gate: SourceGate, circ: QuantumCircuit)
    requires Name(gate.kind) in SelfHermMap
    modifies circ
    ensures circ.data == old(circ.data) + [Instruction(
      WithControls(Plain(SelfHermMap[Name(gate.kind)], NoArg), gate.ctrlQubits),
      gate.ctrlQubits + gate.objQubits)]
  {
    var ctrls := gate.ctrlQubits;
    var objs := gate.objQubits;
    var g := Plain(SelfHermMap[Name(gate.kind)], NoArg);
    if ctrls != [] {
      g := Controlled(|ctrls|, g);
    }
    circ.Append(g, ctrls + objs);
  }

  /** `t_gate_trans`: Tdg when `hermitianed`, T otherwise; the gate's own
      class is not consulted. */
  method TGateTrans(gate: SourceGate, circ: QuantumCircuit)
    modifies circ
    ensures circ.data == old(circ.data) + [Instruction(
      WithControls(Plain(if gate.hermitianed then TdgGate else TGate, NoArg), gate.ctrlQubits),
      gate.ctrlQubits + gate.objQubits)]
  {
    var ctrls := gate.ctrlQubits;
    var objs := gate.objQubits;
    var g: QGate;
    if gate.hermitianed {
      g := Plain(TdgGate, NoArg);
    } else {
      g := Plain(TGate, NoArg);
    }
    if ctrls != [] {
      g := Controlled(|ctrls|, g);
    }
    circ.Append(g, ctrls + objs);
  }

  /** `s_gate_trans`: Sdg when `hermitianed`, S otherwise.  No routine of
      Dispatch leads here, so `ToQiskit` never calls it. */
  method SGateTrans(gate: SourceGate, circ: QuantumCircuit)
    modifies circ
    ensures circ.data == old(circ.data) + [Instruction(
      WithControls(Plain(if gate.hermitianed then SdgGate else SGate, NoArg), gate.ctrlQubits),
      gate.ctrlQubits + gate.objQubits)]
  {
    var ctrls := gate.ctrlQubits;
    var objs := gate.objQubits;
    var g: QGate;
    if gate.hermitianed {
      g := Plain(SdgGate, NoArg);
    } else {
      g := Plain(SGate, NoArg);
    }
    if ctrls != [] {
      g := Controlled(|ctrls|, g);
    }
    circ.Append(g, ctrls + objs);
  }

  /** `oppo_params_gate_trans`: look the name up in the rotation table; the
      argument is the rebuilt expression when the gate is parameterized and
      the plain constant otherwise, in which case the table is untouched.
      `arg` names the argument the appended gate was built with. */
  method OppoParamsGateTrans(gate: SourceGate, circ: QuantumCircuit, prTable: ParamTable) returns (ghost arg: Arg)
    requires Name(gate.kind) in ParamGateMap
    requires gate.parameterized ==> gate.coeff.coeffs != map[]
    modifies circ, prTable
    ensures circ.data == old(circ.data) + [Instruction(
      WithControls(Plain(ParamGateMap[Name(gate.kind)], arg), gate.ctrlQubits),
      gate.ctrlQubits + gate.objQubits)]
    ensures !gate.parameterized ==> arg == Num(gate.coeff.constant) && prTable.table == old(prTable.table)
    ensures gate.parameterized ==>
      && arg.Expr?
      && Extends(old(prTable.table), prTable.table)
      && prTable.table.Keys == old(prTable.table).Keys + gate.coeff.coeffs.Keys
      && (forall k | k in prTable.table && k !in old(prTable.table) :: fresh(prTable.table[k]) && prTable.table[k].name == k)
      && Handles(arg.e) == HandlesOf(gate.coeff.coeffs.Keys, prTable.table)
      && forall bind: Parameter -> real :: Eval(arg.e, bind) == Value(gate.coeff, prTable.table, bind)
  {
    var ctrls := gate.ctrlQubits;
    var objs := gate.objQubits;
    var a: Arg;
    if gate.parameterized {
      var e := ParamsTrans(gate.coeff, prTable);
      a := Expr(e);
    } else {
      a := Num(gate.coeff.constant);
    }
    arg := a;
    var g := Plain(ParamGateMap[Name(gate.kind)], a);
    if ctrls != [] {
      g := Controlled(|ctrls|, g);
    }
    circ.Append(g, ctrls + objs);
  }

  /** One pass of the `for` loop of `to_qiskit`: choose the routine for `g`
      and let it append one instruction, `instr`.  Returns false, appending
      nothing, when `g` is of a rejected class. */
  method LowerGate(g: SourceGate, circ: QuantumCircuit, prTable: ParamTable) returns (ok: bool, ghost instr: Instruction)
    requires ParamsReady(g)
    modifies circ, prTable
    ensures ok <==> Dispatch(g.kind).Some?
    ensures !ok ==> circ.data == old(circ.data) && prTable.table == old(prTable.table)
    ensures ok ==> circ.data == old(circ.data) + [instr] && GrownBy(old(prTable.table), prTable.table, Interned(g))
    ensures ok ==> forall k | k in prTable.table && k !in old(prTable.table) :: fresh(prTable.table[k])
    ensures ok ==> Lowered(g, instr, prTable.table) && forall bind: Parameter -> real :: LoweredValue(g, instr, prTable.table, bind)
  {
    ok := true;
    match Dispatch(g.kind) {
      case Some(SelfHermRoutine) =>
        SelfHermNonParams(g, circ);
        TablesMatchCounterparts(g.kind);
        FixedLowered(g, SelfHermMap[Name(g.kind)], prTable.table);
        instr := circ.data[|circ.data| - 1];
      case Some(TRoutine) =>
        TGateTrans(g, circ);
        FixedLowered(g, if g.hermitianed then TdgGate else TGate, prTable.table);
        instr := circ.data[|circ.data| - 1];
      case Some(ParamsRoutine) =>
        ghost var arg := OppoParamsGateTrans(g, circ, prTable);
        ParamLowered(g, arg, prTable.table);
        instr := circ.data[|circ.data| - 1];
      case None =>
        ok := false;
        instr := Instruction(Plain(XGate, NoArg), []);
    }
  }

  /** The table after one more gate: still named, and holding the names of
      the longer prefix. */
  lemma TableStep(gs: seq<SourceGate>, g: SourceGate, t1: map<string, Parameter>, t2: map<string, Parameter>)
    requires Named(t1) && t1.Keys == ParamNames(gs)
    requires GrownBy(t1, t2, Interned(g))
    ensures Named(t2) && t2.Keys == ParamNames(gs + [g])
  {
    assert (gs + [g])[..|gs|] == gs;
  }

  /** One pass of the loop of `to_qiskit`, after the gates `done`: lower
      `g` and carry the facts about the lowered prefix over to `done + [g]`.
      Returns false, changing nothing, on a rejected class. */
  method LowerNext(done: seq<SourceGate>, g: SourceGate, circ: QuantumCircuit, prTable: ParamTable) returns (ok: bool)
    requires ParamsReady(g)
    requires Named(prTable.table) && prTable.table.Keys == ParamNames(done)
    requires AllLowered(done, circ.data, prTable.table)
    requires forall bind: Parameter -> real :: AllValued(done, circ.data, prTable.table, bind)
    modifies circ, prTable
    ensures ok <==> !Rejected(g.kind)
    ensures !ok ==> circ.data == old(circ.data) && prTable.table == old(prTable.table)
    ensures ok ==> |circ.data| == |old(circ.data)| + 1 && circ.data[..|old(circ.data)|] == old(circ.data)
    ensures ok ==>
      && Extends(old(prTable.table), prTable.table)
      && (forall k | k in prTable.table && k !in old(prTable.table) :: fresh(prTable.table[k]))
      && Named(prTable.table) && prTable.table.Keys == ParamNames(done + [g])
      && AllLowered(done + [g], circ.data, prTable.table)
      && forall bind: Parameter -> real :: AllValued(done + [g], circ.data, prTable.table, bind)
  {
    ghost var before := prTable.table;
    ghost var data := circ.data;
    ghost var instr;
    ok, instr := LowerGate(g, circ, prTable);
    if ok {
      StepLowered(done, data, g, instr, before, prTable.table);
      TableStep(done, g, before, prTable.table);
    }
  }

  /** The prefix of `s` one longer than `s[..i]`. */
  lemma PrefixStep<T>(s: seq<T>, i: nat)
    requires i < |s|
    ensures s[..i + 1] == s[..i] + [s[i]]
  {
  }

  /** The `for` loop of `to_qiskit`, run on a circuit and a table that
      start empty: lower the gates in order, stopping at the first gate of a
      rejected class, whose position is returned.  When no gate is rejected,
      the circuit holds one lowering of each gate, position by position,
      against the final table, which binds exactly the names the gates use,
      each to a Parameter of that name created by this call.  (AllLowered
      and AllValued are bound with `var` here so that each is checked as one
      fact rather than unfolded into one check per conjunct.) */
  method LowerAll(gates: seq<SourceGate>, qcircuit: QuantumCircuit, prTable: ParamTable) returns (stop: Option<nat>)
    requires forall i | 0 <= i < |gates| && Reached(gates, i) :: ParamsReady(gates[i])
    requires qcircuit.data == [] && prTable.table == map[]
    modifies qcircuit, prTable
    ensures stop == FirstRejected(gates, 0)
    ensures stop.None? ==>
      && Named(prTable.table)
      && prTable.table.Keys == ParamNames(gates)
      && (forall k | k in prTable.table :: fresh(prTable.table[k]))
      && (var lowered := AllLowered(gates, qcircuit.data, prTable.table); lowered)
      && forall bind: Parameter -> real :: var valued := AllValued(gates, qcircuit.data, prTable.table, bind); valued
  {
    var i := 0;
    while i < |gates|
      invariant 0 <= i <= |gates|
      invariant FirstRejected(gates, 0) == FirstRejected(gates, i)
      invariant Named(prTable.table)
      invariant prTable.table.Keys == ParamNames(gates[..i])
      invariant forall k | k in prTable.table :: fresh(prTable.table[k])
      invariant var lowered := AllLowered(gates[..i], qcircuit.data, prTable.table); lowered
      invariant forall bind: Parameter -> real :: var valued := AllValued(gates[..i], qcircuit.data, prTable.table, bind); valued
    {
      var ok := LowerNext(gates[..i], gates[i], qcircuit, prTable);
      if !ok {
        return Some(i);
      }
      PrefixStep(gates, i);
      i := i + 1;
    }
    assert gates[..i] == gates;
    stop := None;
  }

  /** `to_qiskit(circuit)`.  On success: a new circuit on `circuit.nQubits`
      qubits holding, position by position, one lowering of each source gate,
      worth that gate's resolver under every binding of the Parameters,
      against the final parameter table `paramTable`, which started empty,
      holds exactly the names the parameterized gates use, binds each name to
      a Parameter of that name and holds only Parameters created by this call.
      The call fails, with the first offending gate, exactly when some gate
      is of a rejected class. */
  method ToQiskit(circuit: SourceCircuit) returns (r: Result<QuantumCircuit>, ghost paramTable: map<string, Parameter>)
    requires forall i | 0 <= i < |circuit.gates| && Reached(circuit.gates, i) :: ParamsReady(circuit.gates[i])
    ensures r.Failure? <==> FirstRejected(circuit.gates, 0).Some?
    ensures r.Failure? ==> r.error == ValueError(circuit.gates[FirstRejected(circuit.gates, 0).value])
    ensures r.Success? ==>
      && fresh(r.value)
      && r.value.numQubits == circuit.nQubits
      && Named(paramTable)
      && paramTable.Keys == ParamNames(circuit.gates)
      && (forall k | k in paramTable :: fresh(paramTable[k]))
      && |r.value.data| == |circuit.gates|
      && (forall j | 0 <= j < |circuit.gates| :: Lowered(circuit.gates[j], r.value.data[j], paramTable))
      && forall j | 0 <= j < |circuit.gates| ::
           forall bind: Parameter -> real :: LoweredValue(circuit.gates[j], r.value.data[j], paramTable, bind)
  {
    var qcircuit := new QuantumCircuit(circuit.nQubits);
    var prTable := new ParamTable();
    var stop := LowerAll(circuit.gates, qcircuit, prTable);
    paramTable := prTable.table;
    if stop.Some? {
      r := Failure(ValueError(circuit.gates[stop.value]));
    } else {
      AllLoweredEach(circuit.gates, qcircuit.data, paramTable);
      forall j, bind: Parameter -> real | 0 <= j < |circuit.gates|
        ensures LoweredValue(circuit.gates[j], qcircuit.data[j], paramTable, bind)
      {
        AllValuedAt(circuit.gates, qcircuit.data, paramTable, bind, j);
      }
      r := Success(qcircuit);
    }
  }
}
