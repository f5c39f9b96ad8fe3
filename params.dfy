/** Symbolic gate parameters on both sides of the lowering.

    On the MindQuantum side a parameter is a ParameterResolver: a map from
    parameter name to a real coefficient plus a constant term, denoting
    `constant + sum of coeff * p`.  On the Qiskit side a parameter is a
    Parameter object whose identity matters (two Parameter objects with the
    same name are different parameters), and an expression is built from
    parameters with scalar multiplication and addition.  ParamsTrans rebuilds
    a resolver as a Qiskit expression, interning every name in a per-call
    table so that a name always resolves to the same Parameter object. */
module Params {

  datatype Option<T> = None | Some(value: T)

  /** MindQuantum's ParameterResolver: `constant + sum_k coeffs[k] * k`. */
  datatype ParameterResolver = ParameterResolver(coeffs: map<string, real>, constant: real)

  /** Qiskit's Parameter.  Only its name is visible; two objects are the same
      parameter exactly when they are the same object. */
  class Parameter {
    const name: string

    constructor (name: string)
      ensures this.name == name
    {
      this.name := name;
    }
  }

  /** The part of Qiskit's ParameterExpression algebra the lowering uses. */
  datatype QExpr =
    | Const(c: real)                    // a plain number
    | Scaled(p: Parameter, v: real)     // `p * v`
    | Add(left: QExpr, right: QExpr)    // `left + right`

  /** The value of an expression once every Parameter is bound by `bind`. */
  function Eval(e: QExpr, bind: Parameter -> real): real
  {
    match e
    case Const(c) => c
    case Scaled(p, v) => bind(p) * v
    case Add(l, r) => Eval(l, bind) + Eval(r, bind)
  }

  /** The Parameter objects an expression mentions. */
  function Handles(e: QExpr): set<Parameter>
  {
    match e
    case Const(_) => {}
    case Scaled(p, _) => {p}
    case Add(l, r) => Handles(l) + Handles(r)
  }

  /** An expression's value depends only on the Parameters it mentions. */
  lemma {:induction false} EvalOnlyReadsHandles(e: QExpr, b1: Parameter -> real, b2: Parameter -> real)
    requires forall p | p in Handles(e) :: b1(p) == b2(p)
    ensures Eval(e, b1) == Eval(e, b2)
  {
    match e
    case Const(_) =>
    case Scaled(p, _) =>
    case Add(l, r) =>
      EvalOnlyReadsHandles(l, b1, b2);
      EvalOnlyReadsHandles(r, b1, b2);
  }

  /** `sum_{k in names} table[k] * coeffs[k]` once every Parameter is bound
      by `bind`, summed in no particular order (WeightedPick shows that every
      order gives the same sum). */
  ghost function Weighted(names: set<string>, coeffs: map<string, real>, table: map<string, Parameter>, bind: Parameter -> real): real
    requires names <= coeffs.Keys && names <= table.Keys
    decreases names
  {
    if names == {} then 0.0
    else
      var k :| k in names;
      bind(table[k]) * coeffs[k] + Weighted(names - {k}, coeffs, table, bind)
  }

  /** The value of the resolver `pr` when each name `k` stands for the
      Parameter `table[k]` and every Parameter is bound by `bind`. */
  ghost function Value(pr: ParameterResolver, table: map<string, Parameter>, bind: Parameter -> real): real
    requires pr.coeffs.Keys <= table.Keys
  {
    pr.constant + Weighted(pr.coeffs.Keys, pr.coeffs, table, bind)
  }

  /** Any term can be taken out of the sum first: the value does not depend
      on the order in which the terms are visited. */
  lemma {:induction false} WeightedPick(names: set<string>, coeffs: map<string, real>, table: map<string, Parameter>, bind: Parameter -> real, k: string)
    requires names <= coeffs.Keys && names <= table.Keys
    requires k in names
    ensures Weighted(names, coeffs, table, bind) == bind(table[k]) * coeffs[k] + Weighted(names - {k}, coeffs, table, bind)
    decreases names
  {
    var j :| j in names && Weighted(names, coeffs, table, bind) == bind(table[j]) * coeffs[j] + Weighted(names - {j}, coeffs, table, bind);
    if j != k {
      WeightedPick(names - {j}, coeffs, table, bind, k);
      WeightedPick(names - {k}, coeffs, table, bind, j);
      assert names - {j} - {k} == names - {k} - {j};
    }
  }

  /** The sum only reads the table at the names it sums over. */
  lemma {:induction false} WeightedAgree(names: set<string>, coeffs: map<string, real>, t1: map<string, Parameter>, t2: map<string, Parameter>, bind: Parameter -> real)
    requires names <= coeffs.Keys && names <= t1.Keys && names <= t2.Keys
    requires forall k | k in names :: t1[k] == t2[k]
    ensures Weighted(names, coeffs, t1, bind) == Weighted(names, coeffs, t2, bind)
    decreases names
  {
    if names != {} {
      var k :| k in names;
      WeightedPick(names, coeffs, t1, bind, k);
      WeightedPick(names, coeffs, t2, bind, k);
      WeightedAgree(names - {k}, coeffs, t1, t2, bind);
    }
  }

  /** The Parameters that `table` gives to `names`. */
  function HandlesOf(names: set<string>, table: map<string, Parameter>): set<Parameter>
    requires names <= table.Keys
  {
    set k | k in names :: table[k]
  }

  /** `a` is `b` with possibly more entries: nothing is removed or rebound. */
  predicate Extends(b: map<string, Parameter>, a: map<string, Parameter>)
  {
    forall k | k in b :: k in a && a[k] == b[k]
  }

  /** A table in which every name is bound to a Parameter of that name; two
      names are then never bound to the same Parameter. */
  predicate Named(table: map<string, Parameter>)
  {
    forall k | k in table :: table[k].name == k
  }

  /** `a` is `b` plus bindings for `names`, each new name bound to a
      Parameter of that name. */
  predicate GrownBy(b: map<string, Parameter>, a: map<string, Parameter>, names: set<string>)
  {
    Extends(b, a) && a.Keys == b.Keys + names &&
    forall k | k in a && k !in b :: a[k].name == k
  }

  lemma NamedIsInjective(table: map<string, Parameter>, k1: string, k2: string)
    requires Named(table) && k1 in table && k2 in table
    ensures table[k1] == table[k2] <==> k1 == k2
  {
  }

  /** Growing the table does not change the Parameters of names it had. */
  lemma HandlesOfExtends(names: set<string>, t1: map<string, Parameter>, t2: map<string, Parameter>)
    requires names <= t1.Keys && Extends(t1, t2)
    ensures names <= t2.Keys && HandlesOf(names, t1) == HandlesOf(names, t2)
  {
    forall p | p in HandlesOf(names, t1) ensures p in HandlesOf(names, t2) {
      var k :| k in names && t1[k] == p;
      assert t2[k] == p;
    }
  }

  /** The value of a resolver survives the growth of the table. */
  lemma ValueExtends(pr: ParameterResolver, t1: map<string, Parameter>, t2: map<string, Parameter>, bind: Parameter -> real)
    requires pr.coeffs.Keys <= t1.Keys && Extends(t1, t2)
    ensures pr.coeffs.Keys <= t2.Keys && Value(pr, t1, bind) == Value(pr, t2, bind)
  {
    WeightedAgree(pr.coeffs.Keys, pr.coeffs, t1, t2, bind);
  }

  /** One pass of the loop of `params_trans`: adding the term of `k` to an
      expression worth the terms of `done` gives one worth the terms of
      `done + {k}`, and mentioning one more Parameter. */
  lemma {:induction false} AccumulateStep(e: QExpr, done: set<string>, k: string, coeffs: map<string, real>,
                                          t1: map<string, Parameter>, t2: map<string, Parameter>)
    requires done <= coeffs.Keys && done <= t1.Keys && k in coeffs && k !in done && k in t2 && Extends(t1, t2)
    requires Handles(e) == HandlesOf(done, t1)
    requires forall bind: Parameter -> real :: Eval(e, bind) == Weighted(done, coeffs, t1, bind)
    ensures Handles(Add(e, Scaled(t2[k], coeffs[k]))) == HandlesOf(done + {k}, t2)
    ensures forall bind: Parameter -> real :: Eval(Add(e, Scaled(t2[k], coeffs[k])), bind) == Weighted(done + {k}, coeffs, t2, bind)
  {
    HandlesOfExtends(done, t1, t2);
    assert HandlesOf(done + {k}, t2) == HandlesOf(done, t2) + {t2[k]};
    forall bind: Parameter -> real
      ensures Eval(Add(e, Scaled(t2[k], coeffs[k])), bind) == Weighted(done + {k}, coeffs, t2, bind)
    {
      WeightedAgree(done, coeffs, t1, t2, bind);
      WeightedPick(done + {k}, coeffs, t2, bind, k);
      assert (done + {k}) - {k} == done;
    }
  }

  /** The first pass of the loop of `params_trans`: the term of `k` alone is
      worth the terms of `{k}`. */
  lemma FirstTerm(k: string, coeffs: map<string, real>, table: map<string, Parameter>)
    requires k in coeffs && k in table
    ensures Handles(Scaled(table[k], coeffs[k])) == HandlesOf({k}, table)
    ensures forall bind: Parameter -> real :: Eval(Scaled(table[k], coeffs[k]), bind) == Weighted({k}, coeffs, table, bind)
  {
    forall bind: Parameter -> real
      ensures Eval(Scaled(table[k], coeffs[k]), bind) == Weighted({k}, coeffs, table, bind)
    {
      WeightedPick({k}, coeffs, table, bind, k);
      assert {k} - {k} == {};
    }
  }

  /** The `pr_table` dictionary of one `to_qiskit` call: parameter name to
      the Parameter object every use of that name shares. */
  class ParamTable {
    var table: map<string, Parameter>

    constructor ()
      ensures table == map[]
    {
      table := map[];
    }

    /** `if k not in pr_table: pr_table[k] = Parameter(k)`, then `pr_table[k]`. */
    method Intern(k: string) returns (p: Parameter)
      modifies this
      ensures k in old(table) ==> table == old(table) && p == old(table)[k]
      ensures k !in old(table) ==> table == old(table)[k := p] && fresh(p) && p.name == k
    {
      if k !in table {
        var q := new Parameter(k);
        table := table[k := q];
      }
      p := table[k];
    }
  }

  /** `params_trans(pr, pr_table)` in the MindQuantum-to-Qiskit direction:
      visit the terms of `pr` in some order, intern each name, and build
      `pr_table[k] * v + ... + pr.const`.  With no term at all the source
      adds a number to `None` and fails, hence the precondition. */
  method ParamsTrans(pr: ParameterResolver, prTable: ParamTable) returns (out: QExpr)
    requires pr.coeffs != map[]
    modifies prTable
    ensures Extends(old(prTable.table), prTable.table)
    ensures prTable.table.Keys == old(prTable.table).Keys + pr.coeffs.Keys
    ensures forall k | k in prTable.table && k !in old(prTable.table) :: fresh(prTable.table[k]) && prTable.table[k].name == k
    ensures Handles(out) == HandlesOf(pr.coeffs.Keys, prTable.table)
    ensures forall bind: Parameter -> real :: Eval(out, bind) == Value(pr, prTable.table, bind)
  {
    var todo := pr.coeffs.Keys;
    var acc: Option<QExpr> := None;
    while todo != {}
      invariant todo <= pr.coeffs.Keys
      invariant Extends(old(prTable.table), prTable.table)
      invariant prTable.table.Keys == old(prTable.table).Keys + (pr.coeffs.Keys - todo)
      invariant forall k | k in prTable.table && k !in old(prTable.table) :: fresh(prTable.table[k]) && prTable.table[k].name == k
      invariant acc.None? <==> todo == pr.coeffs.Keys
      invariant acc.Some? ==> Handles(acc.value) == HandlesOf(pr.coeffs.Keys - todo, prTable.table)
      invariant acc.Some? ==> forall bind: Parameter -> real :: Eval(acc.value, bind) == Weighted(pr.coeffs.Keys - todo, pr.coeffs, prTable.table, bind)
      decreases todo
    {
      var k :| k in todo;
      ghost var before := prTable.table;
      ghost var done := pr.coeffs.Keys - todo;
      var p := prTable.Intern(k);
      var term := Scaled(p, pr.coeffs[k]);
      if acc.None? {
        FirstTerm(k, pr.coeffs, prTable.table);
        assert done + {k} == {k};
        acc := Some(term);
      } else {
        AccumulateStep(acc.value, done, k, pr.coeffs, before, prTable.table);
        acc := Some(Add(acc.value, term));
      }
      assert done + {k} == pr.coeffs.Keys - (todo - {k});
      todo := todo - {k};
    }
    assert pr.coeffs.Keys - todo == pr.coeffs.Keys;
    out := Add(acc.value, Const(pr.constant));
  }
}
