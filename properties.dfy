/**
  What the integer program promises about its plans: the marginal cost of
  every variable, the sign and monotonicity of the cost, the exact effect
  of one variable on each constraint, and how the feasible set reacts to
  surplus shipments and to relaxed capacities and demands.
 */
module Properties {
  import opened Network
  import opened Plans
  import opened Linear
  import opened Builder

  // ---------------------------------------------------------------------
  // Coefficients of one variable in the built expressions

  lemma {:induction false} ShipInCoeff(t: Table, v: Var)
    requires DistinctKeys(t)
    ensures CoeffOf(ShipInTerms(t), v) == if v.family == X && v.edge in KeySet(t) then TableValue(t, v.edge) else 0
  {
    if t != [] {
      KeySetCons(t);
      ShipInCoeff(t[1..], v);
      CoeffOfAppend([Term(t[0].1, Var(X, t[0].0))], ShipInTerms(t[1..]), v);
    }
  }

  lemma {:induction false} HandlingCoeff(t: Table, ftw: map<Node, int>, app: map<Node, int>, v: Var)
    requires DistinctKeys(t)
    requires forall i :: 0 <= i < |t| ==> t[i].0.0 in ftw && t[i].0.0 in app
    ensures v.edge in KeySet(t) ==> v.edge.0 in ftw && v.edge.0 in app
    ensures CoeffOf(HandlingTerms(t, ftw, app), v) ==
            if v.edge !in KeySet(t) || v.family == X then 0
            else if v.family == YLight then ftw[v.edge.0] else app[v.edge.0]
  {
    if t != [] {
      var k, r := t[0].0, t[0].0.0;
      KeySetCons(t);
      HandlingCoeff(t[1..], ftw, app, v);
      CoeffOfAppend([Term(ftw[r], Var(YLight, k)), Term(app[r], Var(YDark, k))], HandlingTerms(t[1..], ftw, app), v);
    }
  }

  lemma {:induction false} ShipOutCoeff(t: Table, v: Var)
    requires DistinctKeys(t)
    ensures CoeffOf(ShipOutTerms(t), v) == if v.family != X && v.edge in KeySet(t) then TableValue(t, v.edge) else 0
  {
    if t != [] {
      KeySetCons(t);
      ShipOutCoeff(t[1..], v);
      CoeffOfAppend([Term(t[0].1, Var(YLight, t[0].0)), Term(t[0].1, Var(YDark, t[0].0))], ShipOutTerms(t[1..]), v);
    }
  }

  lemma {:induction false} SelectCoeff(t: Table, f: Family, end: End, n: Node, v: Var)
    requires DistinctKeys(t)
    ensures CoeffOf(Select(t, f, end, n), v) ==
            if v.family == f && v.edge in KeySet(t) && EndOf(v.edge, end) == n then 1 else 0
  {
    if t != [] {
      KeySetCons(t);
      SelectCoeff(t[1..], f, end, n, v);
      CoeffOfAppend(if EndOf(t[0].0, end) == n then [Term(1, Var(f, t[0].0))] else [], Select(t[1..], f, end, n), v);
    }
  }

  lemma {:induction false} PairSelectCoeff(t: Table, r: Node, v: Var)
    requires DistinctKeys(t)
    ensures CoeffOf(PairSelect(t, r), v) == if v.family != X && v.edge in KeySet(t) && v.edge.0 == r then 1 else 0
  {
    if t != [] {
      KeySetCons(t);
      PairSelectCoeff(t[1..], r, v);
      CoeffOfAppend(if t[0].0.0 == r then [Term(1, Var(YLight, t[0].0)), Term(1, Var(YDark, t[0].0))] else [],
                    PairSelect(t[1..], r), v);
    }
  }

  // ---------------------------------------------------------------------
  // Cost

  /** A variable of the plan: its key is a key of its family's table. */
  predicate IsVariable(inst: Instance, v: Var)
  {
    v.edge in KeySet(TableOf(inst, v.family))
  }

  /**
    What one unit on a variable costs: the supplier-to-DC shipping cost for
    `x`; for `y_light` and `y_dark`, the DC's handling cost of that commodity
    plus the DC-to-store shipping cost.
   */
  function UnitCost(inst: Instance, v: Var): int
    requires HandlingKnown(inst) && IsVariable(inst, v)
  {
    var t2 := inst.shippingCostFromDCToStore;
    match v.family
    case X => TableValue(inst.shippingCostFromSupplierToDC, v.edge)
    case YLight =>
      assert v.edge.0 in inst.inventoryCostFtw by { var i :| 0 <= i < |t2| && t2[i].0 == v.edge; }
      inst.inventoryCostFtw[v.edge.0] + TableValue(t2, v.edge)
    case YDark =>
      assert v.edge.0 in inst.inventoryCostApparel by { var i :| 0 <= i < |t2| && t2[i].0 == v.edge; }
      inst.inventoryCostApparel[v.edge.0] + TableValue(t2, v.edge)
  }

  lemma RaiseFits(inst: Instance, p: Plan, v: Var, d: int)
    requires Fits(inst, p) && IsVariable(inst, v)
    ensures Fits(inst, Raise(p, v, d))
    ensures v.edge in FlowsOf(p, v.family)
  {
  }

  /** Raising a variable by a natural amount keeps every variable at or above 0. */
  lemma RaiseNonNegative(p: Plan, v: Var, d: nat)
    requires NonNegative(p)
    ensures NonNegative(Raise(p, v, d))
  {
  }

  /** The objective's coefficient of every variable is its unit cost. */
  lemma ObjectiveCoeff(inst: Instance, v: Var)
    requires HandlingKnown(inst) && IsVariable(inst, v)
    requires TablesAreDicts(inst)
    ensures CoeffOf(ObjectiveExpr(inst).terms, v) == UnitCost(inst, v)
  {
    var t1, t2 := inst.shippingCostFromSupplierToDC, inst.shippingCostFromDCToStore;
    var ftw, app := inst.inventoryCostFtw, inst.inventoryCostApparel;
    ShipInCoeff(t1, v);
    HandlingCoeff(t2, ftw, app, v);
    ShipOutCoeff(t2, v);
    CoeffOfAppend(ShipInTerms(t1), HandlingTerms(t2, ftw, app), v);
    CoeffOfAppend(ShipInTerms(t1) + HandlingTerms(t2, ftw, app), ShipOutTerms(t2), v);
  }

  /** Raising one variable by `d` changes the cost by exactly `d` times its unit cost. */
  lemma CostRaise(inst: Instance, p: Plan, v: Var, d: int)
    requires Fits(inst, p) && HandlingKnown(inst) && IsVariable(inst, v)
    requires TablesAreDicts(inst)
    ensures Fits(inst, Raise(p, v, d))
    ensures Cost(inst, Raise(p, v, d)) == Cost(inst, p) + d * UnitCost(inst, v)
  {
    RaiseFits(inst, p, v, d);
    ObjectiveMeaning(inst, p);
    ObjectiveMeaning(inst, Raise(p, v, d));
    EvalRaise(ObjectiveExpr(inst).terms, p, v, d);
    ObjectiveCoeff(inst, v);
  }

  /** With non-negative cost tables, every unit cost is non-negative. */
  lemma UnitCostNonNegative(inst: Instance, v: Var)
    requires HandlingKnown(inst) && IsVariable(inst, v) && NonNegativeCosts(inst)
    ensures UnitCost(inst, v) >= 0
  {
    var t := TableOf(inst, v.family);
    var i :| 0 <= i < |t| && (v.edge, TableValue(t, v.edge)) == t[i];
  }

  /** With non-negative cost tables, shipping more on any single variable never lowers the cost. */
  lemma CostMonotone(inst: Instance, p: Plan, v: Var, d: nat)
    requires Fits(inst, p) && HandlingKnown(inst) && IsVariable(inst, v) && NonNegativeCosts(inst)
    requires TablesAreDicts(inst)
    ensures Fits(inst, Raise(p, v, d))
    ensures Cost(inst, Raise(p, v, d)) >= Cost(inst, p)
  {
    CostRaise(inst, p, v, d);
    UnitCostNonNegative(inst, v);
    ProductNonNegative(d, UnitCost(inst, v));
  }

  lemma ProductNonNegative(a: int, b: int)
    requires a >= 0 && b >= 0
    ensures a * b >= 0
  {
  }

  lemma {:induction false} ShippingInCostNonNegative(t: Table, x: map<Edge, int>)
    requires KeysIn(t, x)
    requires forall i :: 0 <= i < |t| ==> t[i].1 >= 0 && x[t[i].0] >= 0
    ensures ShippingInCost(t, x) >= 0
  {
    if t != [] {
      ShippingInCostNonNegative(t[1..], x);
    }
  }

  lemma {:induction false} HandlingCostNonNegative(t: Table, ftw: map<Node, int>, app: map<Node, int>,
                                                   yl: map<Edge, int>, yd: map<Edge, int>)
    requires KeysIn(t, yl) && KeysIn(t, yd)
    requires forall i :: 0 <= i < |t| ==> t[i].0.0 in ftw && t[i].0.0 in app
    requires forall i :: 0 <= i < |t| ==>
      ftw[t[i].0.0] >= 0 && app[t[i].0.0] >= 0 && yl[t[i].0] >= 0 && yd[t[i].0] >= 0
    ensures HandlingCost(t, ftw, app, yl, yd) >= 0
  {
    if t != [] {
      HandlingCostNonNegative(t[1..], ftw, app, yl, yd);
    }
  }

  lemma {:induction false} ShippingOutCostNonNegative(t: Table, yl: map<Edge, int>, yd: map<Edge, int>)
    requires KeysIn(t, yl) && KeysIn(t, yd)
    requires forall i :: 0 <= i < |t| ==> t[i].1 >= 0 && yl[t[i].0] >= 0 && yd[t[i].0] >= 0
    ensures ShippingOutCost(t, yl, yd) >= 0
  {
    if t != [] {
      ShippingOutCostNonNegative(t[1..], yl, yd);
    }
  }

  /** With non-negative cost tables, every plan within the variables' bounds costs at least 0. */
  lemma CostNonNegative(inst: Instance, p: Plan)
    requires Fits(inst, p) && HandlingKnown(inst) && NonNegativeCosts(inst) && NonNegative(p)
    ensures Cost(inst, p) >= 0
  {
    var t1, t2 := inst.shippingCostFromSupplierToDC, inst.shippingCostFromDCToStore;
    FitsKeys(inst, p);
    ShippingInCostNonNegative(t1, p.x);
    HandlingCostNonNegative(t2, inst.inventoryCostFtw, inst.inventoryCostApparel, p.yLight, p.yDark);
    ShippingOutCostNonNegative(t2, p.yLight, p.yDark);
  }

  // ---------------------------------------------------------------------
  // Constraints

  /** `y_light[j] + y_dark[j]` summed over a DC's outgoing edges is footwear out plus apparel out. */
  lemma {:induction false} PairFlowSplit(t: Table, yl: map<Edge, int>, yd: map<Edge, int>, r: Node)
    requires KeysIn(t, yl) && KeysIn(t, yd)
    ensures PairFlowFrom(t, yl, yd, r) == FlowAt(t, yl, Origin, r) + FlowAt(t, yd, Origin, r)
  {
    if t != [] {
      PairFlowSplit(t[1..], yl, yd, r);
    }
  }

  /**
    Under the `flow_` constraints every DC that receives from a supplier
    passes on exactly what it receives, footwear and apparel together.
   */
  lemma ConservationSplit(inst: Instance, p: Plan, r: Node)
    requires Fits(inst, p) && Conservation(inst, p)
    requires r in Roasteries(inst)
    ensures Inbound(inst, p, r) ==
            FlowAt(inst.shippingCostFromDCToStore, p.yLight, Origin, r)
            + FlowAt(inst.shippingCostFromDCToStore, p.yDark, Origin, r)
  {
    FitsKeys(inst, p);
    PairFlowSplit(inst.shippingCostFromDCToStore, p.yLight, p.yDark, r);
  }

  /**
    Raising one variable by `d` moves every per-node sum of the constraints
    by `d` exactly where that variable appears, and nowhere else.
   */
  lemma FlowsRaise(inst: Instance, p: Plan, v: Var, d: int, n: Node)
    requires Fits(inst, p) && IsVariable(inst, v)
    requires TablesAreDicts(inst)
    ensures Fits(inst, Raise(p, v, d))
    ensures Inbound(inst, Raise(p, v, d), n) == Inbound(inst, p, n) + if v.family == X && v.edge.1 == n then d else 0
    ensures Shipped(inst, Raise(p, v, d), n) == Shipped(inst, p, n) + if v.family == X && v.edge.0 == n then d else 0
    ensures Outbound(inst, Raise(p, v, d), n) == Outbound(inst, p, n) + if v.family != X && v.edge.0 == n then d else 0
    ensures Received(inst, Raise(p, v, d), YLight, n) ==
            Received(inst, p, YLight, n) + if v.family == YLight && v.edge.1 == n then d else 0
    ensures Received(inst, Raise(p, v, d), YDark, n) ==
            Received(inst, p, YDark, n) + if v.family == YDark && v.edge.1 == n then d else 0
  {
    var t1, t2 := inst.shippingCostFromSupplierToDC, inst.shippingCostFromDCToStore;
    var q := Raise(p, v, d);
    RaiseFits(inst, p, v, d);
    FitsKeys(inst, p);
    FitsKeys(inst, q);
    KeySetTables(inst, v);
    // Inbound
    EvalSelect(t1, X, Destination, n, p);
    EvalSelect(t1, X, Destination, n, q);
    EvalRaise(Select(t1, X, Destination, n), p, v, d);
    SelectCoeff(t1, X, Destination, n, v);
    // Shipped
    EvalSelect(t1, X, Origin, n, p);
    EvalSelect(t1, X, Origin, n, q);
    EvalRaise(Select(t1, X, Origin, n), p, v, d);
    SelectCoeff(t1, X, Origin, n, v);
    // Outbound
    EvalPairSelect(t2, n, p);
    EvalPairSelect(t2, n, q);
    EvalRaise(PairSelect(t2, n), p, v, d);
    PairSelectCoeff(t2, n, v);
    // Received
    EvalSelect(t2, YLight, Destination, n, p);
    EvalSelect(t2, YLight, Destination, n, q);
    EvalRaise(Select(t2, YLight, Destination, n), p, v, d);
    SelectCoeff(t2, YLight, Destination, n, v);
    EvalSelect(t2, YDark, Destination, n, p);
    EvalSelect(t2, YDark, Destination, n, q);
    EvalRaise(Select(t2, YDark, Destination, n), p, v, d);
    SelectCoeff(t2, YDark, Destination, n, v);
  }

  /** A variable sits on a key of its own family's table. */
  lemma KeySetTables(inst: Instance, v: Var)
    requires IsVariable(inst, v)
    ensures v.family == X ==> v.edge in KeySet(inst.shippingCostFromSupplierToDC)
    ensures v.family != X ==> v.edge in KeySet(inst.shippingCostFromDCToStore)
  {
  }

  // ---------------------------------------------------------------------
  // The feasible set

  /**
    Demand is a floor, not an exact match: a feasible plan stays feasible
    when one more batch of `d` units of one commodity goes from supplier
    `s` through DC `r` to store `c`, as long as `s` has the spare capacity.
    The store then receives `d` units more than before.
   */
  lemma SurplusStaysFeasible(inst: Instance, p: Plan, s: Node, r: Node, c: Node, f: Family, d: nat)
    requires Fits(inst, p) && CapacitiesKnown(inst) && NeedsKnown(inst) && Feasible(inst, p)
    requires TablesAreDicts(inst)
    requires (s, r) in KeySet(inst.shippingCostFromSupplierToDC) && (r, c) in KeySet(inst.shippingCostFromDCToStore)
    requires f != X && s in inst.capacityInSupplier
    requires Shipped(inst, p, s) + d <= inst.capacityInSupplier[s]
    ensures var q := Raise(Raise(p, Var(X, (s, r)), d), Var(f, (r, c)), d);
            Fits(inst, q) && Feasible(inst, q) && Received(inst, q, f, c) == Received(inst, p, f, c) + d
  {
    var q := Raise(Raise(p, Var(X, (s, r)), d), Var(f, (r, c)), d);
    RaiseNonNegative(p, Var(X, (s, r)), d);
    RaiseNonNegative(Raise(p, Var(X, (s, r)), d), Var(f, (r, c)), d);
    SurplusAt(inst, p, s, r, c, f, d, c);
    SurplusConserves(inst, p, s, r, c, f, d);
    SurplusWithinCapacity(inst, p, s, r, c, f, d);
    SurplusMeetsDemand(inst, p, s, r, c, f, d);
  }

  lemma SurplusConserves(inst: Instance, p: Plan, s: Node, r: Node, c: Node, f: Family, d: nat)
    requires Fits(inst, p) && Conservation(inst, p)
    requires TablesAreDicts(inst)
    requires (s, r) in KeySet(inst.shippingCostFromSupplierToDC) && (r, c) in KeySet(inst.shippingCostFromDCToStore)
    requires f != X
    ensures var q := Raise(Raise(p, Var(X, (s, r)), d), Var(f, (r, c)), d);
            Fits(inst, q) && Conservation(inst, q)
  {
    var q := Raise(Raise(p, Var(X, (s, r)), d), Var(f, (r, c)), d);
    SurplusAt(inst, p, s, r, c, f, d, r);
    forall r' | r' in Roasteries(inst) ensures Inbound(inst, q, r') == Outbound(inst, q, r') {
      SurplusAt(inst, p, s, r, c, f, d, r');
    }
  }

  lemma SurplusWithinCapacity(inst: Instance, p: Plan, s: Node, r: Node, c: Node, f: Family, d: nat)
    requires Fits(inst, p) && CapacitiesKnown(inst) && SupplyRespected(inst, p)
    requires TablesAreDicts(inst)
    requires (s, r) in KeySet(inst.shippingCostFromSupplierToDC) && (r, c) in KeySet(inst.shippingCostFromDCToStore)
    requires f != X && s in inst.capacityInSupplier
    requires Shipped(inst, p, s) + d <= inst.capacityInSupplier[s]
    ensures var q := Raise(Raise(p, Var(X, (s, r)), d), Var(f, (r, c)), d);
            Fits(inst, q) && SupplyRespected(inst, q)
  {
    var q := Raise(Raise(p, Var(X, (s, r)), d), Var(f, (r, c)), d);
    SurplusAt(inst, p, s, r, c, f, d, s);
    forall s' | s' in Suppliers(inst) ensures Shipped(inst, q, s') <= inst.capacityInSupplier[s'] {
      SurplusAt(inst, p, s, r, c, f, d, s');
    }
  }

  lemma SurplusMeetsDemand(inst: Instance, p: Plan, s: Node, r: Node, c: Node, f: Family, d: nat)
    requires Fits(inst, p) && NeedsKnown(inst) && DemandMet(inst, p)
    requires TablesAreDicts(inst)
    requires (s, r) in KeySet(inst.shippingCostFromSupplierToDC) && (r, c) in KeySet(inst.shippingCostFromDCToStore)
    requires f != X
    ensures var q := Raise(Raise(p, Var(X, (s, r)), d), Var(f, (r, c)), d);
            Fits(inst, q) && DemandMet(inst, q)
  {
    var q := Raise(Raise(p, Var(X, (s, r)), d), Var(f, (r, c)), d);
    SurplusAt(inst, p, s, r, c, f, d, c);
    forall c' | c' in Cafes(inst)
      ensures Received(inst, q, YLight, c') >= inst.ftwNeededForStores[c']
      ensures Received(inst, q, YDark, c') >= inst.appNeededForStores[c']
    {
      SurplusAt(inst, p, s, r, c, f, d, c');
    }
  }

  /** How the surplus shipment changes the flows at one node `n`. */
  lemma SurplusAt(inst: Instance, p: Plan, s: Node, r: Node, c: Node, f: Family, d: nat, n: Node)
    requires Fits(inst, p)
    requires TablesAreDicts(inst)
    requires (s, r) in KeySet(inst.shippingCostFromSupplierToDC) && (r, c) in KeySet(inst.shippingCostFromDCToStore)
    requires f != X
    ensures var q := Raise(Raise(p, Var(X, (s, r)), d), Var(f, (r, c)), d);
            && Fits(inst, q)
            && Inbound(inst, q, n) - Outbound(inst, q, n) == Inbound(inst, p, n) - Outbound(inst, p, n)
            && Shipped(inst, q, n) == Shipped(inst, p, n) + (if n == s then d else 0)
            && Received(inst, q, YLight, n) >= Received(inst, p, YLight, n)
            && Received(inst, q, YDark, n) >= Received(inst, p, YDark, n)
            && (n == c ==> Received(inst, q, f, n) == Received(inst, p, f, n) + d)
  {
    var vx, vy := Var(X, (s, r)), Var(f, (r, c));
    var p1 := Raise(p, vx, d);
    RaiseFits(inst, p, vx, d);
    RaiseFits(inst, p1, vy, d);
    FlowsRaise(inst, p, vx, d, n);
    FlowsRaise(inst, p1, vy, d, n);
  }

  /**
    The `<=` of the supply constraints and the `>=` of the demand
    constraints make the feasible set grow when capacities rise or needs
    fall, over the same network.
   */
  lemma RelaxStaysFeasible(inst: Instance, relaxed: Instance, p: Plan)
    requires Fits(inst, p) && CapacitiesKnown(inst) && NeedsKnown(inst) && Feasible(inst, p)
    requires relaxed.shippingCostFromSupplierToDC == inst.shippingCostFromSupplierToDC
    requires relaxed.shippingCostFromDCToStore == inst.shippingCostFromDCToStore
    requires CapacitiesKnown(relaxed) && NeedsKnown(relaxed)
    requires forall s :: s in Suppliers(inst) ==> inst.capacityInSupplier[s] <= relaxed.capacityInSupplier[s]
    requires forall c :: c in Cafes(inst) ==>
      && relaxed.ftwNeededForStores[c] <= inst.ftwNeededForStores[c]
      && relaxed.appNeededForStores[c] <= inst.appNeededForStores[c]
    ensures Fits(relaxed, p) && Feasible(relaxed, p)
  {
    forall r | r in Roasteries(relaxed) ensures Inbound(relaxed, p, r) == Outbound(relaxed, p, r) {
      assert Inbound(relaxed, p, r) == Inbound(inst, p, r) && Outbound(relaxed, p, r) == Outbound(inst, p, r);
    }
    forall s | s in Suppliers(relaxed) ensures Shipped(relaxed, p, s) <= relaxed.capacityInSupplier[s] {
      assert Shipped(relaxed, p, s) == Shipped(inst, p, s);
    }
    forall c | c in Cafes(relaxed)
      ensures Received(relaxed, p, YLight, c) >= relaxed.ftwNeededForStores[c]
      ensures Received(relaxed, p, YDark, c) >= relaxed.appNeededForStores[c]
    {
      assert Received(relaxed, p, YLight, c) == Received(inst, p, YLight, c);
      assert Received(relaxed, p, YDark, c) == Received(inst, p, YDark, c);
    }
  }
}
