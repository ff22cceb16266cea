/**
  A plan assigns a value to every decision variable of the fashion model:
  `x` per supplier-to-DC edge, `y_light` (footwear) and `y_dark` (apparel)
  per DC-to-store edge. This module gives the objective and the three
  constraint families their meaning over a plan.
 */
module Plans {
  import opened Network

  datatype Plan = Plan(x: map<Edge, int>, yLight: map<Edge, int>, yDark: map<Edge, int>)

  /** The three variable families created by `model.addVars`. */
  datatype Family = X | YLight | YDark

  /** One decision variable, e.g. `y_light['CDC', 'Paris-CS']`. */
  datatype Var = Var(family: Family, edge: Edge)

  function FlowsOf(p: Plan, f: Family): map<Edge, int>
  {
    match f
    case X => p.x
    case YLight => p.yLight
    case YDark => p.yDark
  }

  /** The table whose keys index a family's variables. */
  function TableOf(inst: Instance, f: Family): Table
  {
    if f == X then inst.shippingCostFromSupplierToDC else inst.shippingCostFromDCToStore
  }

  /** The value of a variable; every variable of a fitting plan has one. */
  function Value(p: Plan, v: Var): int
  {
    var m := FlowsOf(p, v.family);
    if v.edge in m then m[v.edge] else 0
  }

  /** A plan has exactly the variables `addVars` creates over the two tables' keys. */
  predicate Fits(inst: Instance, p: Plan)
  {
    && p.x.Keys == KeySet(inst.shippingCostFromSupplierToDC)
    && p.yLight.Keys == KeySet(inst.shippingCostFromDCToStore)
    && p.yDark.Keys == KeySet(inst.shippingCostFromDCToStore)
  }

  /** The default lower bound 0 that gurobipy gives every variable. */
  predicate NonNegative(p: Plan)
  {
    && (forall e :: e in p.x ==> p.x[e] >= 0)
    && (forall e :: e in p.yLight ==> p.yLight[e] >= 0)
    && (forall e :: e in p.yDark ==> p.yDark[e] >= 0)
  }

  predicate KeysIn(t: Table, y: map<Edge, int>)
  {
    forall i :: 0 <= i < |t| ==> t[i].0 in y
  }

  lemma FitsKeys(inst: Instance, p: Plan)
    requires Fits(inst, p)
    ensures KeysIn(inst.shippingCostFromSupplierToDC, p.x)
    ensures KeysIn(inst.shippingCostFromDCToStore, p.yLight)
    ensures KeysIn(inst.shippingCostFromDCToStore, p.yDark)
  {
    var t1, t2 := inst.shippingCostFromSupplierToDC, inst.shippingCostFromDCToStore;
    forall i | 0 <= i < |t1| ensures t1[i].0 in p.x { assert t1[i].0 in KeySet(t1); }
    forall i | 0 <= i < |t2| ensures t2[i].0 in p.yLight && t2[i].0 in p.yDark {
      assert t2[i].0 in KeySet(t2);
    }
  }

  /** `sum(y[i] for i in t.keys() if i[end] == n)`. */
  function FlowAt(t: Table, y: map<Edge, int>, end: End, n: Node): int
    requires KeysIn(t, y)
  {
    if t == [] then 0
    else (if EndOf(t[0].0, end) == n then y[t[0].0] else 0) + FlowAt(t[1..], y, end, n)
  }

  /** `sum(y_light[j] + y_dark[j] for j in t.keys() if j[0] == r)`. */
  function PairFlowFrom(t: Table, yl: map<Edge, int>, yd: map<Edge, int>, r: Node): int
    requires KeysIn(t, yl) && KeysIn(t, yd)
  {
    if t == [] then 0
    else (if t[0].0.0 == r then yl[t[0].0] + yd[t[0].0] else 0) + PairFlowFrom(t[1..], yl, yd, r)
  }

  /** `sum(x[i] * shipping_cost_from_supplier_to_DC[i] for i in ...)`. */
  function ShippingInCost(t: Table, x: map<Edge, int>): int
    requires KeysIn(t, x)
  {
    if t == [] then 0 else x[t[0].0] * t[0].1 + ShippingInCost(t[1..], x)
  }

  /** `sum(inventory_cost_ftw[r] * y_light[r, c] + inventory_cost_apparel[r] * y_dark[r, c] for r, c in ...)`. */
  function HandlingCost(t: Table, ftw: map<Node, int>, app: map<Node, int>,
                        yl: map<Edge, int>, yd: map<Edge, int>): int
    requires KeysIn(t, yl) && KeysIn(t, yd)
    requires forall i :: 0 <= i < |t| ==> t[i].0.0 in ftw && t[i].0.0 in app
  {
    if t == [] then 0
    else
      var r := t[0].0.0;
      ftw[r] * yl[t[0].0] + app[r] * yd[t[0].0] + HandlingCost(t[1..], ftw, app, yl, yd)
  }

  /** `sum((y_light[j] + y_dark[j]) * shipping_cost_from_DC_to_store[j] for j in ...)`. */
  function ShippingOutCost(t: Table, yl: map<Edge, int>, yd: map<Edge, int>): int
    requires KeysIn(t, yl) && KeysIn(t, yd)
  {
    if t == [] then 0 else (yl[t[0].0] + yd[t[0].0]) * t[0].1 + ShippingOutCost(t[1..], yl, yd)
  }

  /** The objective the script minimises. */
  function Cost(inst: Instance, p: Plan): int
    requires Fits(inst, p) && HandlingKnown(inst)
  {
    FitsKeys(inst, p);
    ShippingInCost(inst.shippingCostFromSupplierToDC, p.x)
    + HandlingCost(inst.shippingCostFromDCToStore, inst.inventoryCostFtw, inst.inventoryCostApparel, p.yLight, p.yDark)
    + ShippingOutCost(inst.shippingCostFromDCToStore, p.yLight, p.yDark)
  }

  /** What a DC receives from its suppliers. */
  function Inbound(inst: Instance, p: Plan, r: Node): int
    requires Fits(inst, p)
  {
    FitsKeys(inst, p);
    FlowAt(inst.shippingCostFromSupplierToDC, p.x, Destination, r)
  }

  /** What a DC sends to its stores, both commodities together. */
  function Outbound(inst: Instance, p: Plan, r: Node): int
    requires Fits(inst, p)
  {
    FitsKeys(inst, p);
    PairFlowFrom(inst.shippingCostFromDCToStore, p.yLight, p.yDark, r)
  }

  /** What a supplier ships in total. */
  function Shipped(inst: Instance, p: Plan, s: Node): int
    requires Fits(inst, p)
  {
    FitsKeys(inst, p);
    FlowAt(inst.shippingCostFromSupplierToDC, p.x, Origin, s)
  }

  /** What a store receives of one commodity. */
  function Received(inst: Instance, p: Plan, f: Family, c: Node): int
    requires Fits(inst, p) && f != X
  {
    FitsKeys(inst, p);
    FlowAt(inst.shippingCostFromDCToStore, FlowsOf(p, f), Destination, c)
  }

  /** `flow_{r}` for every DC that is the destination of a supplier edge. */
  predicate Conservation(inst: Instance, p: Plan)
    requires Fits(inst, p)
  {
    forall r :: r in Roasteries(inst) ==> Inbound(inst, p, r) == Outbound(inst, p, r)
  }

  /** `supply_{s}` for every supplier of a supplier edge. */
  predicate SupplyRespected(inst: Instance, p: Plan)
    requires Fits(inst, p) && CapacitiesKnown(inst)
  {
    forall s :: s in Suppliers(inst) ==> Shipped(inst, p, s) <= inst.capacityInSupplier[s]
  }

  /** `light_demand_{c}` and `dark_demand_{c}` for every store. */
  predicate DemandMet(inst: Instance, p: Plan)
    requires Fits(inst, p) && NeedsKnown(inst)
  {
    forall c :: c in Cafes(inst) ==>
      && Received(inst, p, YLight, c) >= inst.ftwNeededForStores[c]
      && Received(inst, p, YDark, c) >= inst.appNeededForStores[c]
  }

  /** The feasible set of the integer program: variable bounds and the three families. */
  predicate Feasible(inst: Instance, p: Plan)
    requires Fits(inst, p) && CapacitiesKnown(inst) && NeedsKnown(inst)
  {
    NonNegative(p) && Conservation(inst, p) && SupplyRespected(inst, p) && DemandMet(inst, p)
  }

  /** The plan with one variable raised by `d` and every other variable unchanged. */
  function Raise(p: Plan, v: Var, d: int): Plan
  {
    var m := FlowsOf(p, v.family);
    var m' := if v.edge in m then m[v.edge := m[v.edge] + d] else m;
    match v.family
    case X => p.(x := m')
    case YLight => p.(yLight := m')
    case YDark => p.(yDark := m')
  }

  /** Raising one variable changes that variable by `d` and no other. */
  lemma ValueRaise(p: Plan, v: Var, d: int, w: Var)
    requires v.edge in FlowsOf(p, v.family)
    ensures Value(Raise(p, v, d), w) == Value(p, w) + if w == v then d else 0
  {
  }

  /** The per-node sums of a fitting plan, unfolded to the table sums over its maps. */
  lemma FittingSums(inst: Instance, p: Plan, n: Node)
    requires Fits(inst, p)
    ensures KeysIn(inst.shippingCostFromSupplierToDC, p.x)
    ensures KeysIn(inst.shippingCostFromDCToStore, p.yLight) && KeysIn(inst.shippingCostFromDCToStore, p.yDark)
    ensures Inbound(inst, p, n) == FlowAt(inst.shippingCostFromSupplierToDC, p.x, Destination, n)
    ensures Outbound(inst, p, n) == PairFlowFrom(inst.shippingCostFromDCToStore, p.yLight, p.yDark, n)
    ensures Shipped(inst, p, n) == FlowAt(inst.shippingCostFromSupplierToDC, p.x, Origin, n)
    ensures Received(inst, p, YLight, n) == FlowAt(inst.shippingCostFromDCToStore, p.yLight, Destination, n)
    ensures Received(inst, p, YDark, n) == FlowAt(inst.shippingCostFromDCToStore, p.yDark, Destination, n)
  {
    FitsKeys(inst, p);
  }
}
