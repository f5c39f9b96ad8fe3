# MindQuantum to Qiskit circuit lowering, in Dafny

This project models `mqtrans/qiskit/trans.py`, which lowers a MindQuantum
circuit to a Qiskit `QuantumCircuit`. The model covers these parts:

- `to_qiskit` creates a `QuantumCircuit` with `circuit.n_qubits` qubits and an
  empty parameter table `pr_table`. It then walks the gates in order and picks
  a lowering routine by gate class. It raises `ValueError` on the first gate of
  a class it does not handle.
- Each routine maps the gate to a Qiskit gate kind through a fixed name table
  or through the `hermitianed` flag. When the gate has control qubits, the
  routine wraps the Qiskit gate with `.control(len(ctrls))`. It then appends the
  gate on `ctrls + objs`.
- For parameterized rotation and phase gates, `params_trans` rebuilds the
  resolver `const + sum v_k * k` as a Qiskit expression. It interns each name
  in `pr_table`, so every use of a name gets the same `Parameter` object.

Files:

- `params.dfy` (module `Params`) holds the parameter side. `Parameter` is a
  class, so "the same Parameter" means the same object. The file also holds
  the expression datatype `QExpr` with its value `Eval` and its Parameters
  `Handles`, and the order-free sum `Weighted` that gives a resolver its
  meaning. The class `ParamTable` stands for `pr_table`, and the method
  `ParamsTrans` stands for `params_trans`.
- `circuits.dfy` (module `Circuits`) holds the source gate and circuit
  datatypes, the Qiskit gate datatype, and the `QuantumCircuit` class. The
  Qiskit gate is a base gate, or `.control(n)` applied to a gate.
- `trans.dfy` (module `Trans`) holds the two name tables, the dispatch
  function, the four routines, the loop of `to_qiskit` (`LowerGate` for one
  pass, `LowerNext` and `LowerAll` for the loop) and `ToQiskit`. The
  predicate `Lowered` states what "instruction `j` lowers gate `j`" means,
  against `LoweredKind`, which gives the Qiskit kind of a gate class by class
  and without the name tables. The predicate `LoweredValue` states the value
  of an instruction's expression under any binding of the Parameters.
  `FirstRejected` gives the position of the first gate `to_qiskit` refuses.
- `examples.dfy` (module `Examples`) works through small circuits using only
  `ToQiskit`'s contract: a controlled `XX('a')`, the value of `RX('a')`, two
  gates sharing `'a'`, two gates on different names, the order of three
  gates, `RX(1.2)`, a daggered controlled S, ISWAP after an X gate, and ISWAP
  before a rotation the loop never reaches. In `ControlledXX`,
  `RotationValue`, `SharedParameter`, `DistinctParameters` and `OrderKept`
  the qubit indices (and, in `RotationValue`, the binding) are parameters, so
  each of these holds for every choice of them. The other examples use fixed
  qubits.

The model keeps the following behaviour exactly as the code has it. It does
not follow what the name `s_gate_trans` or the `'ISWAP'` entry in the
fixed-gate table might suggest:

- **S gates emit T gates.** `to_qiskit` sends `SGate` to `t_gate_trans`. An S
  gate therefore becomes T, or Tdg when `hermitianed` is set. `s_gate_trans` is
  modelled (`SGateTrans`), but nothing calls it.
- **ISWAP is rejected.** The fixed-gate table has an `'ISWAP'` entry, but the
  `isinstance` tuple leaves the class out, so `to_qiskit` raises `ValueError`.
- **The phase gate is looked up under `'PS'`.** That is the name MindQuantum
  gives `PhaseShift`.

One behaviour of the code is not kept but excluded. When `params_trans` gets
a resolver with no symbolic term, it adds the constant to `None` and fails.
It does not return the constant. The model makes "at least one term" a
precondition of `ParamsTrans`. `ToQiskit` requires it of every parameterized
rotation or phase gate that the loop reaches, that is, one with no rejected
gate before it (see "## Left out").

## Model

| member | source | states |
|---|---|---|
| `Trans.ToQiskit` | mqtrans/qiskit/trans.py:91-108 | Fails exactly when some gate is ISWAP or of an unlisted class, with `ValueError` carrying the first such gate. On success it returns a new circuit with `circuit.n_qubits` qubits and exactly one instruction per source gate. Instruction `j` lowers gate `j` (`Lowered`) and, under every binding, is worth gate `j`'s resolver (`LoweredValue`). The final table holds exactly the names of the parameterized gates. Each name is bound to a Parameter of that name, created by this call. |
| `Trans.LowerAll` | mqtrans/qiskit/trans.py:94-107 | The loop, from an empty circuit and an empty table, stops exactly at the first rejected gate. Otherwise the circuit holds the lowerings of all gates in order, and the table binds exactly the gates' names to fresh, matching Parameters. |
| `Trans.LowerNext` | mqtrans/qiskit/trans.py:95-107 | One pass keeps the loop invariant. A rejected gate changes nothing and reports failure. Any other gate appends exactly one instruction and leaves the earlier instructions as they were; the lowered prefix, one gate longer, still holds against the grown table. The table grows only by fresh, matching Parameters and never rebinds a name. |
| `Trans.LowerGate` | mqtrans/qiskit/trans.py:96-107 | Reports failure, appending nothing, exactly for a rejected class. Otherwise it appends one instruction lowering the gate and keeps the earlier instructions. The table gains only the gate's own names, each bound to a fresh Parameter of that name. |
| `Trans.SelfHermMap` | mqtrans/qiskit/trans.py:22-29 | The fixed-gate table: `'X'`, `'Y'`, `'Z'`, `'H'`, `'SWAP'` and `'ISWAP'` map to XGate, YGate, ZGate, HGate, SwapGate and iSwapGate. |
| `Trans.ParamGateMap` | mqtrans/qiskit/trans.py:69-77 | The rotation table: `'RX'`, `'RY'`, `'RZ'`, `'ZZ'`, `'YY'`, `'XX'` and `'PS'` map to RXGate, RYGate, RZGate, RZZGate, RYYGate, RXXGate and PhaseGate. |
| `Trans.Dispatch` | mqtrans/qiskit/trans.py:95-107 | A gate is rejected exactly when it is ISWAP or of an unlisted class. S and T, and only they, go to the T routine. The fixed-gate and rotation routines are only chosen for names their tables hold, so the table lookups never fail. |
| `Trans.SelfHermNonParams` | mqtrans/qiskit/trans.py:20-36 | Appends exactly one instruction: the table's kind for the gate name on `ctrls + objs`, wrapped with `len(ctrls)` controls when there are controls. |
| `Trans.TGateTrans` | mqtrans/qiskit/trans.py:39-50 | Appends exactly one instruction on `ctrls + objs`: Tdg when `hermitianed`, T otherwise, whatever the gate's class. It is wrapped with controls when there are any. |
| `Trans.SGateTrans` | mqtrans/qiskit/trans.py:53-64 | Appends exactly one instruction on `ctrls + objs`: Sdg when `hermitianed`, S otherwise, wrapped with controls when there are any. No dispatch route reaches it. |
| `Trans.OppoParamsGateTrans` | mqtrans/qiskit/trans.py:67-88 | Appends exactly one rotation instruction of the table's kind. Without `parameterized`, the argument is the plain `coeff.const` and the table is unchanged. With it, the argument is an expression whose Parameters are exactly the table's Parameters for the gate's names. It is worth `const + sum v_k * value(table[k])`, and the table only gains the gate's new names. |
| `Trans.TablesMatchCounterparts` | mqtrans/qiskit/trans.py:22-77 | For every class dispatched to the fixed-gate or rotation routine, the name-keyed table gives the Qiskit class the code pairs with that MindQuantum class, as written out class by class in `Counterpart`. This includes `PhaseShift`, found under `'PS'`. |
| `Trans.AdjointPairLowering` | mqtrans/qiskit/trans.py:99-102 | An S gate lowers exactly as a T gate with the same flags, so it never becomes Qiskit's S or Sdg. |
| `Trans.ISwapRejected` | mqtrans/qiskit/trans.py:96-97 | ISWAP is a key of the fixed-gate table, yet it is rejected and has no lowering. |
| `Trans.FixedLowered` | mqtrans/qiskit/trans.py:31-36 | The instruction a fixed-gate or T routine builds lowers its gate, under any table and binding, whenever the routine emits the expected kind. |
| `Trans.FixedInstruction` | mqtrans/qiskit/trans.py:31-50 | Conversely, a lowering of a gate without argument is exactly the instruction the routine builds: the expected kind on `ctrls + objs`, wrapped only when there are controls. |
| `Trans.ParamLowered` | mqtrans/qiskit/trans.py:79-88 | The instruction the rotation routine builds lowers its gate when its argument has the required shape and value. |
| `Trans.LoweredExtends` | mqtrans/qiskit/trans.py:94-105 | A lowering against one table stays a lowering, with the same value, against any table that only adds names. |
| `Trans.AllLoweredExtends` | mqtrans/qiskit/trans.py:94-105 | The same holds for every instruction of a prefix at once. The table is shared by all gates of one call, so earlier instructions stay correct. |
| `Trans.StepLowered` | mqtrans/qiskit/trans.py:95-108 | The lowered prefix survives the growth of the table, and the new instruction joins it at the end. |
| `Trans.TableStep` | mqtrans/qiskit/trans.py:94-105 | After one more gate the table still binds each name to a Parameter of that name. Its names are those of the longer prefix. |
| `Trans.SingleNameHandles` | mqtrans/qiskit/trans.py:81-83 | A lowered rotation whose resolver has the single name `k` mentions exactly the table's Parameter for `k`. |
| `Trans.LoweredReadsOwnNames` | mqtrans/qiskit/trans.py:79-83 | The value of a lowered expression depends only on the Parameters the table gives the gate's own names. Other names in the shared table do not affect it. |
| `Trans.FirstRejectedIsFirst` | mqtrans/qiskit/trans.py:95-107 | `FirstRejected` finds a gate exactly when some gate is rejected. The gate it finds is rejected, and no earlier gate is. |
| `Params.ParamsTrans` | mqtrans/qiskit/trans.py:5-17 | The table only grows and never rebinds a name. Its names become the old names plus the resolver's names, and each new name is bound to a fresh Parameter of that name. The expression mentions exactly the table's Parameters for the resolver's names. Under every binding it is worth `const + sum v_k * value(table[k])`, whatever order the terms were visited in. |
| `Params.ParamTable.Intern` | mqtrans/qiskit/trans.py:10-11 | A known name returns its Parameter and leaves the table as it was. An unknown name binds a fresh Parameter of that name and returns it. |
| `Params.ParamTable.constructor` | mqtrans/qiskit/trans.py:94 | The table of a call starts empty. |
| `Params.Parameter.constructor` | mqtrans/qiskit/trans.py:11 | A new Parameter carries the name it was made for. |
| `Params.AccumulateStep` | mqtrans/qiskit/trans.py:9-15 | Adding the term `pr_table[k] * v` to an expression worth the terms seen so far gives one worth those terms plus `k`, mentioning one more Parameter. |
| `Params.FirstTerm` | mqtrans/qiskit/trans.py:12-13 | The first term alone is worth the sum over its own name and mentions only its Parameter. |
| `Params.WeightedPick` | mqtrans/qiskit/trans.py:9-16 | Any term can be taken out of the sum first, so the meaning of a resolver does not depend on the iteration order of `pr.items()`. |
| `Params.WeightedAgree` | mqtrans/qiskit/trans.py:10-11 | The sum reads the table only at the names it sums over, so tables that agree there give the same value. |
| `Params.HandlesOfExtends` | mqtrans/qiskit/trans.py:10-11 | Growing the table does not change the Parameters of names it already had. |
| `Params.ValueExtends` | mqtrans/qiskit/trans.py:10-11 | Growing the table does not change the value of a resolver whose names it already had. |
| `Params.EvalOnlyReadsHandles` | mqtrans/qiskit/trans.py:13-16 | The value of a built expression depends only on the Parameters it mentions. |
| `Params.NamedIsInjective` | mqtrans/qiskit/trans.py:10-11 | In a table where each name is bound to a Parameter of that name, two names share a Parameter exactly when they are the same name. |
| `Circuits.WithControls` | mqtrans/qiskit/trans.py:34-35 | The wrapped gate keeps its base gate and has `len(ctrls)` controls. It is a controlled gate exactly when `ctrls` is non-empty. |
| `Circuits.QuantumCircuit.constructor` | mqtrans/qiskit/trans.py:93 | The target circuit starts empty with `n_qubits` qubits. |
| `Circuits.QuantumCircuit.Append` | mqtrans/qiskit/trans.py:36 | `append` adds exactly one instruction at the end. |
| `Examples.LoweredThree` | mqtrans/qiskit/trans.py:95-108 | The lowerings of `[X(q0), RX('a')(q1), H(q2)]` are, in this order, X on `[q0]`, an RX gate on `[q1]` and H on `[q2]`, none of them control-wrapped. |
| `Examples.TwoNames` | mqtrans/qiskit/trans.py:10-11 | In the lowering of `[RX('a'), RY('b')]` against a table binding each name to a Parameter of that name, the two expressions share no Parameter. |
| `Examples.ExpressionValue` | mqtrans/qiskit/trans.py:9-16 | `{a: 2.0, b: -1.0}` with constant 0.5 is worth 1.5 at a = b = 1. |

## Left out

- The `to_qiskit=False` direction: every helper does nothing in that direction, so there is nothing to model.
- Qiskit and MindQuantum internals: gate matrices, what `.control(n)` builds, and the full `ParameterExpression` algebra. They appear only as the constructors `Controlled`, `Scaled`, `Add` and `Const`.
- Validation inside `QuantumCircuit.append`, such as qubit indices in range or no repeated qubit. It is foreign code. The translator itself checks neither, and neither does the model.
- `circuit.n_qubits` is a field of the source circuit. How MindQuantum computes it is not modelled.
- Gate classes appear as a closed set of kinds plus `Other`. Python subclassing, under which `isinstance` would also accept subclasses of the listed classes, is not modelled.
- `gate.name.upper()`: the names of the accepted classes are already upper case, so the model looks names up directly.
- Rotation-angle conventions: the model pairs gate classes as the code does and does not state whether MindQuantum's and Qiskit's paired gates use the same angle convention (for example θ against θ/2 for the two-qubit Ising rotations).
- Floating point: coefficients and constants are `real`, and the demonstration's `np.pi` is not represented.
- The `__main__` demonstration block and its printing are plumbing.
- Params.ParamsTrans: the order of `pr.items()` is modelled as an arbitrary choice of the next name. This is weaker than Python's insertion order, and the contract states nothing that depends on the order.
- Trans.ToQiskit: when a gate is rejected, the partly filled circuit and table are dropped, as in the source. The contract says nothing about them.
- Trans.ToQiskit: a parameterized rotation or phase gate with no symbolic term, reached by the loop, makes the source fail with a `TypeError`. The model makes this a precondition, limited to the gates up to the first rejected one, instead of an error result. A MindQuantum gate marked `parameterized` always has a symbolic term, so no real circuit violates it.
