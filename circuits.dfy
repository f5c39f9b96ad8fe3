/** The two circuit representations the lowering connects.

    Source side (MindQuantum): a circuit is a qubit count and an ordered list
    of gates; a gate has a class, object qubits, control qubits, an adjoint
    flag, and for rotation and phase gates a ParameterResolver.

    Target side (Qiskit): a circuit is a qubit count and an ordered list of
    instructions; an instruction is a gate applied to a tuple of qubits, and
    a gate is a base gate of some kind, possibly with one argument, possibly
    wrapped by `.control(n)`. */
module Circuits {
  import opened Params

  /** The MindQuantum gate classes the lowering tells apart; `Other` stands
      for every other gate class (measurements, U3, CNOT-like classes, ...). */
  datatype GateKind =
    | X | Y | Z | H | SWAP | ISWAP
    | S | T
    | RX | RY | RZ | XX | YY | ZZ | PhaseShift
    | Other(className: string)

  /** The `name` attribute a MindQuantum gate of this class carries.  The
      phase-shift gate is named by its short form "PS". */
  function Name(k: GateKind): string
  {
    match k
    case X => "X"
    case Y => "Y"
    case Z => "Z"
    case H => "H"
    case SWAP => "SWAP"
    case ISWAP => "ISWAP"
    case S => "S"
    case T => "T"
    case RX => "RX"
    case RY => "RY"
    case RZ => "RZ"
    case XX => "XX"
    case YY => "YY"
    case ZZ => "ZZ"
    case PhaseShift => "PS"
    case Other(n) => n
  }

  /** One MindQuantum gate application.  `hermitianed` only matters for S
      and T, `parameterized` and `coeff` only for rotation and phase gates. */
  datatype SourceGate = SourceGate(
    kind: GateKind,
    objQubits: seq<nat>,
    ctrlQubits: seq<nat>,
    hermitianed: bool,
    parameterized: bool,
    coeff: ParameterResolver)

  datatype SourceCircuit = SourceCircuit(nQubits: nat, gates: seq<SourceGate>)

  /** The Qiskit gate classes the lowering constructs. */
  datatype TargetKind =
    | XGate | YGate | ZGate | HGate | SwapGate | ISwapGate
    | SGate | SdgGate | TGate | TdgGate
    | RXGate | RYGate | RZGate | RXXGate | RYYGate | RZZGate | PhaseGate

  /** The constructor argument of a Qiskit gate: none, a plain number, or a
      parameter expression. */
  datatype Arg = NoArg | Num(value: real) | Expr(e: QExpr)

  /** A Qiskit gate: a base gate, or `base.control(numCtrlQubits)`. */
  datatype QGate =
    | Plain(kind: TargetKind, arg: Arg)
    | Controlled(numCtrlQubits: nat, base: QGate)

  /** The gate inside all control wrappers. */
  function BaseGate(g: QGate): (r: QGate)
    ensures r.Plain?
  {
    match g
    case Plain(_, _) => g
    case Controlled(_, b) => BaseGate(b)
  }

  /** The number of control qubits of a gate, counting every wrapper. */
  function NumCtrls(g: QGate): nat
  {
    match g
    case Plain(_, _) => 0
    case Controlled(n, b) => n + NumCtrls(b)
  }

  /** `if ctrls: g = g.control(len(ctrls))`: the wrapping every lowering
      routine applies to its base gate. */
  function WithControls(g: QGate, ctrls: seq<nat>): (r: QGate)
    requires g.Plain?
    ensures BaseGate(r) == g
    ensures NumCtrls(r) == |ctrls|
    ensures r.Controlled? <==> ctrls != []
  {
    if ctrls != [] then Controlled(|ctrls|, g) else g
  }

  /** A gate applied to a tuple of qubits (Qiskit's CircuitInstruction). */
  datatype Instruction = Instruction(gate: QGate, qubits: seq<nat>)

  /** Qiskit's QuantumCircuit, as far as the lowering uses it. */
  class QuantumCircuit {
    const numQubits: nat
    var data: seq<Instruction>

    /** `QuantumCircuit(n)`: an empty circuit on `n` qubits. */
    constructor (n: nat)
      ensures numQubits == n && data == []
    {
      numQubits := n;
      data := [];
    }

    /** `circ.append(g, qargs, [])`. */
    method Append(g: QGate, qargs: seq<nat>)
      modifies this
      ensures data == old(data) + [Instruction(g, qargs)]
    {
      data := data + [Instruction(g, qargs)];
    }
  }
}
