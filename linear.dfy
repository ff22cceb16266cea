/**
  The symbolic side of the script: the linear expressions that gurobipy
  builds from variables with `*`, `+` and `sum`, the constraints that
  `addConstr` receives, and the model object they are added to. `Eval`
  gives an expression its value under a plan.
 */
module Linear {
  import opened Network
  import opened Plans

  /** `coeff * v`. */
  datatype Term = Term(coeff: int, v: Var)

  /** `terms[0] + terms[1] + ... + constant`. */
  datatype LinExpr = LinExpr(terms: seq<Term>, constant: int)

  /** The relation of a constraint: `==`, `<=` or `>=`. */
  datatype Sense = Eq | Le | Ge

  /** `addConstr(lhs <sense> rhs, name)`. */
  datatype Constr = Constr(lhs: LinExpr, sense: Sense, rhs: LinExpr, name: string)

  function EvalTerms(ts: seq<Term>, p: Plan): int
  {
    if ts == [] then 0 else ts[0].coeff * Value(p, ts[0].v) + EvalTerms(ts[1..], p)
  }

  function Eval(e: LinExpr, p: Plan): int
  {
    EvalTerms(e.terms, p) + e.constant
  }

  predicate Holds(c: Constr, p: Plan)
  {
    var l, r := Eval(c.lhs, p), Eval(c.rhs, p);
    match c.sense
    case Eq => l == r
    case Le => l <= r
    case Ge => l >= r
  }

  predicate AllHold(cs: seq<Constr>, p: Plan)
  {
    forall i :: 0 <= i < |cs| ==> Holds(cs[i], p)
  }

  /** The total coefficient of one variable in a list of terms. */
  function CoeffOf(ts: seq<Term>, v: Var): int
  {
    if ts == [] then 0 else (if ts[0].v == v then ts[0].coeff else 0) + CoeffOf(ts[1..], v)
  }

  lemma {:induction false} EvalTermsAppend(a: seq<Term>, b: seq<Term>, p: Plan)
    ensures EvalTerms(a + b, p) == EvalTerms(a, p) + EvalTerms(b, p)
  {
    if a == [] {
      assert a + b == b;
    } else {
      assert (a + b)[1..] == a[1..] + b;
      EvalTermsAppend(a[1..], b, p);
    }
  }

  lemma {:induction false} CoeffOfAppend(a: seq<Term>, b: seq<Term>, v: Var)
    ensures CoeffOf(a + b, v) == CoeffOf(a, v) + CoeffOf(b, v)
  {
    if a == [] {
      assert a + b == b;
    } else {
      assert (a + b)[1..] == a[1..] + b;
      CoeffOfAppend(a[1..], b, v);
    }
  }

  /**
    Linearity: raising one variable by `d` changes an expression's value by
    `d` times that variable's coefficient, for a variable the plan holds.
   */
  lemma {:induction false} EvalRaise(ts: seq<Term>, p: Plan, v: Var, d: int)
    requires v.edge in FlowsOf(p, v.family)
    ensures EvalTerms(ts, Raise(p, v, d)) == EvalTerms(ts, p) + d * CoeffOf(ts, v)
  {
    if ts != [] {
      EvalRaise(ts[1..], p, v, d);
      var t := ts[0];
      ValueRaise(p, v, d, t.v);
      var own := if t.v == v then t.coeff else 0;
      Distribute(t.coeff, Value(p, t.v), if t.v == v then d else 0);
      Distribute(d, own, CoeffOf(ts[1..], v));
    }
  }

  lemma Distribute(a: int, b: int, c: int)
    ensures a * (b + c) == a * b + a * c
  {
  }

  /**
    The parts of a gurobipy `Model` that the script touches: its name, its
    objective (always minimised here) and the constraints added so far.
   */
  class Model {
    var name: string
    var objective: LinExpr
    var constrs: seq<Constr>

    /** `Model(name)`. */
    constructor (name: string)
      ensures this.name == name && objective == LinExpr([], 0) && constrs == []
    {
      this.name := name;
      objective := LinExpr([], 0);
      constrs := [];
    }

    /** `setObjective(e, GRB.MINIMIZE)`. */
    method SetObjective(e: LinExpr)
      modifies this
      ensures objective == e
      ensures name == old(name) && constrs == old(constrs)
    {
      objective := e;
    }

    /** `addConstr(c)`. */
    method AddConstr(c: Constr)
      modifies this
      ensures constrs == old(constrs) + [c]
      ensures name == old(name) && objective == old(objective)
    {
      constrs := constrs + [c];
    }
  }
}
