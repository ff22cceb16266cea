/**
  The script's construction of the integer program: the objective
  expression, one constraint per DC, supplier and store, and the sequence
  of calls that builds the model. The lemmas say what the built
  expressions mean: the objective evaluates to `Cost`, and a plan satisfies
  the built constraints exactly when it meets the three families of
  `Plans`.
 */
module Builder {
  import opened Network
  import opened Plans
  import opened Linear

  // ---------------------------------------------------------------------
  // Objective

  /** The terms of `sum(x[i] * shipping_cost_from_supplier_to_DC[i] for i in ...)`. */
  function ShipInTerms(t: Table): seq<Term>
  {
    if t == [] then [] else [Term(t[0].1, Var(X, t[0].0))] + ShipInTerms(t[1..])
  }

  /** The terms of the handling-cost sum: footwear at `inventory_cost_ftw`, apparel at `inventory_cost_apparel`. */
  function HandlingTerms(t: Table, ftw: map<Node, int>, app: map<Node, int>): seq<Term>
    requires forall i :: 0 <= i < |t| ==> t[i].0.0 in ftw && t[i].0.0 in app
  {
    if t == [] then []
    else
      var r := t[0].0.0;
      [Term(ftw[r], Var(YLight, t[0].0)), Term(app[r], Var(YDark, t[0].0))] + HandlingTerms(t[1..], ftw, app)
  }

  /** The terms of `sum((y_light[j] + y_dark[j]) * shipping_cost_from_DC_to_store[j] for j in ...)`. */
  function ShipOutTerms(t: Table): seq<Term>
  {
    if t == [] then []
    else [Term(t[0].1, Var(YLight, t[0].0)), Term(t[0].1, Var(YDark, t[0].0))] + ShipOutTerms(t[1..])
  }

  /** The expression passed to `setObjective`. */
  function ObjectiveExpr(inst: Instance): LinExpr
    requires HandlingKnown(inst)
  {
    LinExpr(ShipInTerms(inst.shippingCostFromSupplierToDC)
            + HandlingTerms(inst.shippingCostFromDCToStore, inst.inventoryCostFtw, inst.inventoryCostApparel)
            + ShipOutTerms(inst.shippingCostFromDCToStore), 0)
  }

  lemma {:induction false} EvalShipIn(t: Table, p: Plan)
    requires KeysIn(t, p.x)
    ensures EvalTerms(ShipInTerms(t), p) == ShippingInCost(t, p.x)
  {
    if t != [] {
      EvalShipIn(t[1..], p);
      EvalTermsAppend([Term(t[0].1, Var(X, t[0].0))], ShipInTerms(t[1..]), p);
    }
  }

  lemma {:induction false} EvalHandling(t: Table, ftw: map<Node, int>, app: map<Node, int>, p: Plan)
    requires KeysIn(t, p.yLight) && KeysIn(t, p.yDark)
    requires forall i :: 0 <= i < |t| ==> t[i].0.0 in ftw && t[i].0.0 in app
    ensures EvalTerms(HandlingTerms(t, ftw, app), p) == HandlingCost(t, ftw, app, p.yLight, p.yDark)
  {
    if t != [] {
      var r := t[0].0.0;
      EvalHandling(t[1..], ftw, app, p);
      EvalTermsAppend([Term(ftw[r], Var(YLight, t[0].0)), Term(app[r], Var(YDark, t[0].0))],
                      HandlingTerms(t[1..], ftw, app), p);
    }
  }

  lemma {:induction false} EvalShipOut(t: Table, p: Plan)
    requires KeysIn(t, p.yLight) && KeysIn(t, p.yDark)
    ensures EvalTerms(ShipOutTerms(t), p) == ShippingOutCost(t, p.yLight, p.yDark)
  {
    if t != [] {
      var k, c := t[0].0, t[0].1;
      EvalShipOut(t[1..], p);
      EvalTermsAppend([Term(c, Var(YLight, k)), Term(c, Var(YDark, k))], ShipOutTerms(t[1..]), p);
      assert (p.yLight[k] + p.yDark[k]) * c == c * p.yLight[k] + c * p.yDark[k];
    }
  }

  /** The objective expression the script builds evaluates, under any plan, to `Cost`. */
  lemma ObjectiveMeaning(inst: Instance, p: Plan)
    requires Fits(inst, p) && HandlingKnown(inst)
    ensures Eval(ObjectiveExpr(inst), p) == Cost(inst, p)
  {
    var t1, t2 := inst.shippingCostFromSupplierToDC, inst.shippingCostFromDCToStore;
    var ftw, app := inst.inventoryCostFtw, inst.inventoryCostApparel;
    FitsKeys(inst, p);
    EvalShipIn(t1, p);
    EvalHandling(t2, ftw, app, p);
    EvalShipOut(t2, p);
    EvalTermsAppend(ShipInTerms(t1), HandlingTerms(t2, ftw, app), p);
    EvalTermsAppend(ShipInTerms(t1) + HandlingTerms(t2, ftw, app), ShipOutTerms(t2), p);
  }

  // ---------------------------------------------------------------------
  // Constraints

  /** The terms of `sum(v[i] for i in t.keys() if i[end] == n)` over one variable family. */
  function Select(t: Table, f: Family, end: End, n: Node): seq<Term>
  {
    if t == [] then []
    else (if EndOf(t[0].0, end) == n then [Term(1, Var(f, t[0].0))] else []) + Select(t[1..], f, end, n)
  }

  /** The terms of `sum(y_light[j] + y_dark[j] for j in t.keys() if j[0] == r)`. */
  function PairSelect(t: Table, r: Node): seq<Term>
  {
    if t == [] then []
    else (if t[0].0.0 == r then [Term(1, Var(YLight, t[0].0)), Term(1, Var(YDark, t[0].0))] else [])
         + PairSelect(t[1..], r)
  }

  lemma {:induction false} EvalSelect(t: Table, f: Family, end: End, n: Node, p: Plan)
    requires KeysIn(t, FlowsOf(p, f))
    ensures EvalTerms(Select(t, f, end, n), p) == FlowAt(t, FlowsOf(p, f), end, n)
  {
    if t != [] {
      EvalSelect(t[1..], f, end, n, p);
      EvalTermsAppend(if EndOf(t[0].0, end) == n then [Term(1, Var(f, t[0].0))] else [],
                      Select(t[1..], f, end, n), p);
    }
  }

  lemma {:induction false} EvalPairSelect(t: Table, r: Node, p: Plan)
    requires KeysIn(t, p.yLight) && KeysIn(t, p.yDark)
    ensures EvalTerms(PairSelect(t, r), p) == PairFlowFrom(t, p.yLight, p.yDark, r)
  {
    if t != [] {
      EvalPairSelect(t[1..], r, p);
      EvalTermsAppend(if t[0].0.0 == r then [Term(1, Var(YLight, t[0].0)), Term(1, Var(YDark, t[0].0))] else [],
                      PairSelect(t[1..], r), p);
    }
  }

  /** `flow_{r}`: what DC `r` receives equals what it sends on. */
  function FlowConstr(inst: Instance, r: Node): Constr
  {
    Constr(LinExpr(Select(inst.shippingCostFromSupplierToDC, X, Destination, r), 0),
           Eq,
           LinExpr(PairSelect(inst.shippingCostFromDCToStore, r), 0),
           "flow_" + r)
  }

  /** `supply_{s}`: what supplier `s` ships is at most its capacity. */
  function SupplyConstr(inst: Instance, s: Node): Constr
    requires s in inst.capacityInSupplier
  {
    Constr(LinExpr(Select(inst.shippingCostFromSupplierToDC, X, Origin, s), 0),
           Le,
           LinExpr([], inst.capacityInSupplier[s]),
           "supply_" + s)
  }

  /** `light_demand_{c}`: footwear into store `c` is at least its need. */
  function LightDemandConstr(inst: Instance, c: Node): Constr
    requires c in inst.ftwNeededForStores
  {
    Constr(LinExpr(Select(inst.shippingCostFromDCToStore, YLight, Destination, c), 0),
           Ge,
           LinExpr([], inst.ftwNeededForStores[c]),
           "light_demand_" + c)
  }

  /** `dark_demand_{c}`: apparel into store `c` is at least its need. */
  function DarkDemandConstr(inst: Instance, c: Node): Constr
    requires c in inst.appNeededForStores
  {
    Constr(LinExpr(Select(inst.shippingCostFromDCToStore, YDark, Destination, c), 0),
           Ge,
           LinExpr([], inst.appNeededForStores[c]),
           "dark_demand_" + c)
  }

  lemma FlowConstrMeaning(inst: Instance, p: Plan, r: Node)
    requires Fits(inst, p)
    ensures Holds(FlowConstr(inst, r), p) <==> Inbound(inst, p, r) == Outbound(inst, p, r)
  {
    FitsKeys(inst, p);
    EvalSelect(inst.shippingCostFromSupplierToDC, X, Destination, r, p);
    EvalPairSelect(inst.shippingCostFromDCToStore, r, p);
  }

  lemma SupplyConstrMeaning(inst: Instance, p: Plan, s: Node)
    requires Fits(inst, p) && s in inst.capacityInSupplier
    ensures Holds(SupplyConstr(inst, s), p) <==> Shipped(inst, p, s) <= inst.capacityInSupplier[s]
  {
    FitsKeys(inst, p);
    EvalSelect(inst.shippingCostFromSupplierToDC, X, Origin, s, p);
  }

  lemma DemandConstrMeaning(inst: Instance, p: Plan, c: Node)
    requires Fits(inst, p) && c in inst.ftwNeededForStores && c in inst.appNeededForStores
    ensures Holds(LightDemandConstr(inst, c), p) <==> Received(inst, p, YLight, c) >= inst.ftwNeededForStores[c]
    ensures Holds(DarkDemandConstr(inst, c), p) <==> Received(inst, p, YDark, c) >= inst.appNeededForStores[c]
  {
    FitsKeys(inst, p);
    EvalSelect(inst.shippingCostFromDCToStore, YLight, Destination, c, p);
    EvalSelect(inst.shippingCostFromDCToStore, YDark, Destination, c, p);
  }

  /** The constraints the conservation loop adds, one per DC, in iteration order. */
  function FlowConstrs(inst: Instance, rs: seq<Node>): seq<Constr>
  {
    if rs == [] then [] else FlowConstrs(inst, rs[..|rs| - 1]) + [FlowConstr(inst, rs[|rs| - 1])]
  }

  /** The constraints the supply loop adds, one per supplier. */
  function SupplyConstrs(inst: Instance, ss: seq<Node>): seq<Constr>
    requires forall s :: s in ss ==> s in inst.capacityInSupplier
  {
    if ss == [] then [] else SupplyConstrs(inst, ss[..|ss| - 1]) + [SupplyConstr(inst, ss[|ss| - 1])]
  }

  /** The constraints the demand loop adds, footwear then apparel for each store. */
  function DemandConstrs(inst: Instance, cs: seq<Node>): seq<Constr>
    requires forall c :: c in cs ==> c in inst.ftwNeededForStores && c in inst.appNeededForStores
  {
    if cs == [] then []
    else
      var c := cs[|cs| - 1];
      DemandConstrs(inst, cs[..|cs| - 1]) + [LightDemandConstr(inst, c), DarkDemandConstr(inst, c)]
  }

  lemma AllHoldAppend(a: seq<Constr>, b: seq<Constr>, p: Plan)
    ensures AllHold(a + b, p) <==> AllHold(a, p) && AllHold(b, p)
  {
    if AllHold(a, p) && AllHold(b, p) {
      forall i | 0 <= i < |a + b| ensures Holds((a + b)[i], p) {
        if i >= |a| { assert (a + b)[i] == b[i - |a|]; }
      }
    }
    if AllHold(a + b, p) {
      forall i | 0 <= i < |a| ensures Holds(a[i], p) { assert (a + b)[i] == a[i]; }
      forall i | 0 <= i < |b| ensures Holds(b[i], p) { assert (a + b)[|a| + i] == b[i]; }
    }
  }

  lemma AllHoldOne(c: Constr, p: Plan)
    ensures AllHold([c], p) <==> Holds(c, p)
  {
    assert [c][0] == c;
  }

  lemma {:induction false} FlowConstrsMeaning(inst: Instance, p: Plan, rs: seq<Node>)
    requires Fits(inst, p)
    ensures AllHold(FlowConstrs(inst, rs), p) <==> forall r :: r in rs ==> Inbound(inst, p, r) == Outbound(inst, p, r)
  {
    if rs != [] {
      var init, r := rs[..|rs| - 1], rs[|rs| - 1];
      assert rs == init + [r];
      assert forall q :: q in rs <==> q in init || q == r;
      FlowConstrsMeaning(inst, p, init);
      AllHoldAppend(FlowConstrs(inst, init), [FlowConstr(inst, r)], p);
      FlowConstrMeaning(inst, p, r);
      AllHoldOne(FlowConstr(inst, r), p);
    }
  }

  lemma {:induction false} SupplyConstrsMeaning(inst: Instance, p: Plan, ss: seq<Node>)
    requires Fits(inst, p)
    requires forall s :: s in ss ==> s in inst.capacityInSupplier
    ensures AllHold(SupplyConstrs(inst, ss), p) <==>
            forall s :: s in ss ==> Shipped(inst, p, s) <= inst.capacityInSupplier[s]
  {
    if ss != [] {
      var init, s := ss[..|ss| - 1], ss[|ss| - 1];
      assert ss == init + [s];
      assert forall q :: q in ss <==> q in init || q == s;
      SupplyConstrsMeaning(inst, p, init);
      AllHoldAppend(SupplyConstrs(inst, init), [SupplyConstr(inst, s)], p);
      SupplyConstrMeaning(inst, p, s);
      AllHoldOne(SupplyConstr(inst, s), p);
    }
  }

  lemma {:induction false} DemandConstrsMeaning(inst: Instance, p: Plan, cs: seq<Node>)
    requires Fits(inst, p)
    requires forall c :: c in cs ==> c in inst.ftwNeededForStores && c in inst.appNeededForStores
    ensures AllHold(DemandConstrs(inst, cs), p) <==>
            forall c :: c in cs ==>
              && Received(inst, p, YLight, c) >= inst.ftwNeededForStores[c]
              && Received(inst, p, YDark, c) >= inst.appNeededForStores[c]
  {
    if cs != [] {
      var init, c := cs[..|cs| - 1], cs[|cs| - 1];
      assert cs == init + [c];
      assert forall q :: q in cs <==> q in init || q == c;
      DemandConstrsMeaning(inst, p, init);
      AllHoldAppend(DemandConstrs(inst, init), [LightDemandConstr(inst, c), DarkDemandConstr(inst, c)], p);
      DemandConstrMeaning(inst, p, c);
      AllHoldOne(LightDemandConstr(inst, c), p);
      AllHoldOne(DarkDemandConstr(inst, c), p);
      AllHoldAppend([LightDemandConstr(inst, c)], [DarkDemandConstr(inst, c)], p);
      assert [LightDemandConstr(inst, c), DarkDemandConstr(inst, c)]
             == [LightDemandConstr(inst, c)] + [DarkDemandConstr(inst, c)];
    }
  }

  /**
    For loops over exactly the DCs, suppliers and stores of the script, the
    built constraints hold of a plan exactly when it is feasible apart from
    the variables' lower bounds.
   */
  lemma BuiltConstraintsMeaning(inst: Instance, p: Plan, rs: seq<Node>, ss: seq<Node>, cs: seq<Node>)
    requires Fits(inst, p) && CapacitiesKnown(inst) && NeedsKnown(inst)
    requires forall r :: r in rs <==> r in Roasteries(inst)
    requires forall s :: s in ss <==> s in Suppliers(inst)
    requires forall c :: c in cs <==> c in Cafes(inst)
    ensures AllHold(FlowConstrs(inst, rs) + SupplyConstrs(inst, ss) + DemandConstrs(inst, cs), p)
            <==> Conservation(inst, p) && SupplyRespected(inst, p) && DemandMet(inst, p)
    ensures Feasible(inst, p) <==>
            NonNegative(p) && AllHold(FlowConstrs(inst, rs) + SupplyConstrs(inst, ss) + DemandConstrs(inst, cs), p)
  {
    FlowConstrsMeaning(inst, p, rs);
    SupplyConstrsMeaning(inst, p, ss);
    DemandConstrsMeaning(inst, p, cs);
    AllHoldAppend(FlowConstrs(inst, rs), SupplyConstrs(inst, ss), p);
    AllHoldAppend(FlowConstrs(inst, rs) + SupplyConstrs(inst, ss), DemandConstrs(inst, cs), p);
  }

  // ---------------------------------------------------------------------
  // The script, top to bottom

  /** The conservation loop: one `flow_{r}` constraint per DC. */
  method AddFlowConstraints(m: Model, inst: Instance, rs: seq<Node>)
    modifies m
    ensures m.constrs == old(m.constrs) + FlowConstrs(inst, rs)
    ensures m.name == old(m.name) && m.objective == old(m.objective)
  {
    var i := 0;
    while i < |rs|
      invariant 0 <= i <= |rs|
      invariant m.constrs == old(m.constrs) + FlowConstrs(inst, rs[..i])
      invariant m.name == old(m.name) && m.objective == old(m.objective)
    {
      assert rs[..i + 1][..i] == rs[..i];
      m.AddConstr(FlowConstr(inst, rs[i]));
      i := i + 1;
    }
    assert rs[..|rs|] == rs;
  }

  /** The supply loop: one `supply_{s}` constraint per supplier. */
  method AddSupplyConstraints(m: Model, inst: Instance, ss: seq<Node>)
    requires forall s :: s in ss ==> s in inst.capacityInSupplier
    modifies m
    ensures m.constrs == old(m.constrs) + SupplyConstrs(inst, ss)
    ensures m.name == old(m.name) && m.objective == old(m.objective)
  {
    var i := 0;
    while i < |ss|
      invariant 0 <= i <= |ss|
      invariant m.constrs == old(m.constrs) + SupplyConstrs(inst, ss[..i])
      invariant m.name == old(m.name) && m.objective == old(m.objective)
    {
      assert ss[..i + 1][..i] == ss[..i];
      m.AddConstr(SupplyConstr(inst, ss[i]));
      i := i + 1;
    }
    assert ss[..|ss|] == ss;
  }

  /** The demand loop: `light_demand_{c}` then `dark_demand_{c}` per store. */
  method AddDemandConstraints(m: Model, inst: Instance, cs: seq<Node>)
    requires forall c :: c in cs ==> c in inst.ftwNeededForStores && c in inst.appNeededForStores
    modifies m
    ensures m.constrs == old(m.constrs) + DemandConstrs(inst, cs)
    ensures m.name == old(m.name) && m.objective == old(m.objective)
  {
    var i := 0;
    while i < |cs|
      invariant 0 <= i <= |cs|
      invariant m.constrs == old(m.constrs) + DemandConstrs(inst, cs[..i])
      invariant m.name == old(m.name) && m.objective == old(m.objective)
    {
      assert cs[..i + 1][..i] == cs[..i];
      m.AddConstr(LightDemandConstr(inst, cs[i]));
      m.AddConstr(DarkDemandConstr(inst, cs[i]));
      i := i + 1;
    }
    assert cs[..|cs|] == cs;
  }

  /**
    The script up to the first `optimize()`: the node lists, a fresh model,
    its objective and its three constraint families. The constraint loops
    iterate the same sets the node lists are made from.
   */
  method BuildModel(inst: Instance) returns (m: Model, cafes: seq<Node>, roasteries: seq<Node>, suppliers: seq<Node>)
    requires HandlingKnown(inst) && CapacitiesKnown(inst) && NeedsKnown(inst)
    ensures Distinct(cafes) && forall c :: c in cafes <==> c in Cafes(inst)
    ensures Distinct(roasteries) && forall r :: r in roasteries <==> r in Roasteries(inst)
    ensures Distinct(suppliers) && forall s :: s in suppliers <==> s in Suppliers(inst)
    ensures fresh(m)
    ensures m.name == "Fashion Supply Chain"
    ensures m.objective == ObjectiveExpr(inst)
    ensures m.constrs == FlowConstrs(inst, roasteries) + SupplyConstrs(inst, suppliers) + DemandConstrs(inst, cafes)
  {
    cafes := NodeList(inst.shippingCostFromDCToStore, Destination);
    roasteries := NodeList(inst.shippingCostFromSupplierToDC, Destination);
    suppliers := NodeList(inst.shippingCostFromSupplierToDC, Origin);
    assert forall s :: s in suppliers ==> s in inst.capacityInSupplier;
    assert forall c :: c in cafes ==> c in inst.ftwNeededForStores && c in inst.appNeededForStores;
    m := new Model("Fashion Supply Chain");
    m.SetObjective(ObjectiveExpr(inst));
    ghost var flows, supplies, demands :=
      FlowConstrs(inst, roasteries), SupplyConstrs(inst, suppliers), DemandConstrs(inst, cafes);
    AddFlowConstraints(m, inst, roasteries);
    assert m.constrs == flows;
    AddSupplyConstraints(m, inst, suppliers);
    AddDemandConstraints(m, inst, cafes);
  }
}
