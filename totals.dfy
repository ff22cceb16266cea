/**
  Network-wide totals. Summing the per-node constraints of a feasible plan
  over all stores, DCs and suppliers shows that the stores' total need can
  never exceed the suppliers' total capacity, provided every DC that serves
  a store is itself supplied (the conservation loop covers only DCs that
  are destinations of supplier edges).
 */
module Totals {
  import opened Network
  import opened Plans
  import opened Properties

  /** The sum of every variable of one family. */
  function Total(t: Table, y: map<Edge, int>): int
    requires KeysIn(t, y)
  {
    if t == [] then 0 else y[t[0].0] + Total(t[1..], y)
  }

  /** `FlowAt` summed over a list of nodes. */
  function NodeSum(ns: seq<Node>, t: Table, y: map<Edge, int>, end: End): int
    requires KeysIn(t, y)
  {
    if ns == [] then 0 else FlowAt(t, y, end, ns[0]) + NodeSum(ns[1..], t, y, end)
  }

  /** A node-keyed table summed over a list of nodes. */
  function TotalOver(ns: seq<Node>, m: map<Node, int>): int
    requires forall n :: n in ns ==> n in m
  {
    if ns == [] then 0 else m[ns[0]] + TotalOver(ns[1..], m)
  }

  /** How much of an edge's flow `v` a list of nodes picks up at one end. */
  function Hits(ns: seq<Node>, e: Edge, end: End, v: int): int
  {
    if ns == [] then 0 else (if EndOf(e, end) == ns[0] then v else 0) + Hits(ns[1..], e, end, v)
  }

  /** A duplicate-free list picks up an edge's flow once if it holds the edge's end, else not at all. */
  lemma {:induction false} HitsOnce(ns: seq<Node>, e: Edge, end: End, v: int)
    requires Distinct(ns)
    ensures Hits(ns, e, end, v) == if EndOf(e, end) in ns then v else 0
  {
    if ns != [] {
      assert Distinct(ns[1..]);
      HitsOnce(ns[1..], e, end, v);
      assert ns[0] !in ns[1..];
      assert EndOf(e, end) in ns <==> EndOf(e, end) == ns[0] || EndOf(e, end) in ns[1..];
    }
  }

  lemma {:induction false} NodeSumCons(ns: seq<Node>, t: Table, y: map<Edge, int>, end: End)
    requires KeysIn(t, y) && t != []
    ensures NodeSum(ns, t, y, end) == Hits(ns, t[0].0, end, y[t[0].0]) + NodeSum(ns, t[1..], y, end)
  {
    if ns != [] {
      NodeSumCons(ns[1..], t, y, end);
    }
  }

  /**
    Summing the per-node flows over a duplicate-free list that holds every
    node at that end of the table counts every edge exactly once.
   */
  lemma {:induction false} Partition(ns: seq<Node>, t: Table, y: map<Edge, int>, end: End)
    requires KeysIn(t, y) && Distinct(ns)
    requires forall i :: 0 <= i < |t| ==> EndOf(t[i].0, end) in ns
    ensures NodeSum(ns, t, y, end) == Total(t, y)
  {
    if t == [] {
      NodeSumEmpty(ns, t, y, end);
    } else {
      NodeSumCons(ns, t, y, end);
      HitsOnce(ns, t[0].0, end, y[t[0].0]);
      Partition(ns, t[1..], y, end);
    }
  }

  lemma {:induction false} NodeSumEmpty(ns: seq<Node>, t: Table, y: map<Edge, int>, end: End)
    requires KeysIn(t, y) && t == []
    ensures NodeSum(ns, t, y, end) == 0
  {
    if ns != [] {
      NodeSumEmpty(ns[1..], t, y, end);
    }
  }

  lemma {:induction false} NodeSumAtLeast(ns: seq<Node>, t: Table, y: map<Edge, int>, end: End, floor: map<Node, int>)
    requires KeysIn(t, y)
    requires forall n :: n in ns ==> n in floor && FlowAt(t, y, end, n) >= floor[n]
    ensures NodeSum(ns, t, y, end) >= TotalOver(ns, floor)
  {
    if ns != [] {
      NodeSumAtLeast(ns[1..], t, y, end, floor);
    }
  }

  lemma {:induction false} NodeSumAtMost(ns: seq<Node>, t: Table, y: map<Edge, int>, end: End, ceiling: map<Node, int>)
    requires KeysIn(t, y)
    requires forall n :: n in ns ==> n in ceiling && FlowAt(t, y, end, n) <= ceiling[n]
    ensures NodeSum(ns, t, y, end) <= TotalOver(ns, ceiling)
  {
    if ns != [] {
      NodeSumAtMost(ns[1..], t, y, end, ceiling);
    }
  }

  lemma {:induction false} NodeSumConserved(rs: seq<Node>, t1: Table, x: map<Edge, int>,
                                            t2: Table, yl: map<Edge, int>, yd: map<Edge, int>)
    requires KeysIn(t1, x) && KeysIn(t2, yl) && KeysIn(t2, yd)
    requires forall r :: r in rs ==> FlowAt(t1, x, Destination, r) == FlowAt(t2, yl, Origin, r) + FlowAt(t2, yd, Origin, r)
    ensures NodeSum(rs, t1, x, Destination) == NodeSum(rs, t2, yl, Origin) + NodeSum(rs, t2, yd, Origin)
  {
    if rs != [] {
      NodeSumConserved(rs[1..], t1, x, t2, yl, yd);
    }
  }

  /** The stores together receive at least what they need of each commodity. */
  lemma StoresReceiveNeeds(inst: Instance, p: Plan, cs: seq<Node>)
    requires Fits(inst, p) && NeedsKnown(inst) && DemandMet(inst, p)
    requires Distinct(cs) && forall c :: c in cs <==> c in Cafes(inst)
    ensures KeysIn(inst.shippingCostFromDCToStore, p.yLight) && KeysIn(inst.shippingCostFromDCToStore, p.yDark)
    ensures Total(inst.shippingCostFromDCToStore, p.yLight) >= TotalOver(cs, inst.ftwNeededForStores)
    ensures Total(inst.shippingCostFromDCToStore, p.yDark) >= TotalOver(cs, inst.appNeededForStores)
  {
    var t2 := inst.shippingCostFromDCToStore;
    FitsKeys(inst, p);
    NodeSumAtLeast(cs, t2, p.yLight, Destination, inst.ftwNeededForStores);
    NodeSumAtLeast(cs, t2, p.yDark, Destination, inst.appNeededForStores);
    assert forall i :: 0 <= i < |t2| ==> EndOf(t2[i].0, Destination) in Cafes(inst);
    Partition(cs, t2, p.yLight, Destination);
    Partition(cs, t2, p.yDark, Destination);
  }

  /**
    The DCs together pass on exactly what the suppliers send them, when every
    DC that ships to a store is also the destination of a supplier edge.
   */
  lemma DCsPassOnSupply(inst: Instance, p: Plan, rs: seq<Node>)
    requires Fits(inst, p) && Conservation(inst, p)
    requires Distinct(rs) && forall r :: r in rs <==> r in Roasteries(inst)
    requires Ends(inst.shippingCostFromDCToStore, Origin) <= Roasteries(inst)
    ensures KeysIn(inst.shippingCostFromSupplierToDC, p.x)
    ensures KeysIn(inst.shippingCostFromDCToStore, p.yLight) && KeysIn(inst.shippingCostFromDCToStore, p.yDark)
    ensures Total(inst.shippingCostFromDCToStore, p.yLight) + Total(inst.shippingCostFromDCToStore, p.yDark)
            == Total(inst.shippingCostFromSupplierToDC, p.x)
  {
    var t1, t2 := inst.shippingCostFromSupplierToDC, inst.shippingCostFromDCToStore;
    FitsKeys(inst, p);
    forall r | r in rs
      ensures FlowAt(t1, p.x, Destination, r) == FlowAt(t2, p.yLight, Origin, r) + FlowAt(t2, p.yDark, Origin, r)
    {
      ConservationSplit(inst, p, r);
    }
    NodeSumConserved(rs, t1, p.x, t2, p.yLight, p.yDark);
    assert forall i :: 0 <= i < |t2| ==> EndOf(t2[i].0, Origin) in Ends(t2, Origin);
    Partition(rs, t2, p.yLight, Origin);
    Partition(rs, t2, p.yDark, Origin);
    assert forall i :: 0 <= i < |t1| ==> EndOf(t1[i].0, Destination) in Roasteries(inst);
    Partition(rs, t1, p.x, Destination);
  }

  /** The suppliers together ship no more than their total capacity. */
  lemma SuppliersWithinTotalCapacity(inst: Instance, p: Plan, ss: seq<Node>)
    requires Fits(inst, p) && CapacitiesKnown(inst) && SupplyRespected(inst, p)
    requires Distinct(ss) && forall s :: s in ss <==> s in Suppliers(inst)
    ensures KeysIn(inst.shippingCostFromSupplierToDC, p.x)
    ensures Total(inst.shippingCostFromSupplierToDC, p.x) <= TotalOver(ss, inst.capacityInSupplier)
  {
    var t1 := inst.shippingCostFromSupplierToDC;
    FitsKeys(inst, p);
    assert forall i :: 0 <= i < |t1| ==> EndOf(t1[i].0, Origin) in Suppliers(inst);
    Partition(ss, t1, p.x, Origin);
    NodeSumAtMost(ss, t1, p.x, Origin, inst.capacityInSupplier);
  }

  /**
    A feasible plan exists only if the stores' footwear and apparel needs
    together fit within the suppliers' total capacity, when every DC that
    ships to a store also receives from a supplier.
   */
  lemma DemandWithinCapacity(inst: Instance, p: Plan, ss: seq<Node>, rs: seq<Node>, cs: seq<Node>)
    requires Fits(inst, p) && CapacitiesKnown(inst) && NeedsKnown(inst) && Feasible(inst, p)
    requires Distinct(ss) && forall s :: s in ss <==> s in Suppliers(inst)
    requires Distinct(rs) && forall r :: r in rs <==> r in Roasteries(inst)
    requires Distinct(cs) && forall c :: c in cs <==> c in Cafes(inst)
    requires Ends(inst.shippingCostFromDCToStore, Origin) <= Roasteries(inst)
    ensures TotalOver(cs, inst.ftwNeededForStores) + TotalOver(cs, inst.appNeededForStores)
            <= TotalOver(ss, inst.capacityInSupplier)
  {
    StoresReceiveNeeds(inst, p, cs);
    DCsPassOnSupply(inst, p, rs);
    SuppliersWithinTotalCapacity(inst, p, ss);
  }

  /**
    Without its last requirement `DemandWithinCapacity` fails: a DC that only
    ships to stores gets no `flow_` constraint, so it can hand out goods no
    supplier delivered. Here one such DC serves a store needing 5 + 5 units
    while no supplier exists at all.
   */
  lemma UnsuppliedDCIsUnconstrained()
    ensures var inst := Instance(map[], [], map["DC" := 0], map["DC" := 0],
                                 [(("DC", "shop"), 1)], map["shop" := 5], map["shop" := 5]);
            var p := Plan(map[], map[("DC", "shop") := 5], map[("DC", "shop") := 5]);
            && Fits(inst, p) && CapacitiesKnown(inst) && NeedsKnown(inst) && Feasible(inst, p)
            && TotalOver(["shop"], inst.ftwNeededForStores) + TotalOver(["shop"], inst.appNeededForStores)
               > TotalOver([], inst.capacityInSupplier)
  {
    var inst := Instance(map[], [], map["DC" := 0], map["DC" := 0],
                         [(("DC", "shop"), 1)], map["shop" := 5], map["shop" := 5]);
    var p := Plan(map[], map[("DC", "shop") := 5], map[("DC", "shop") := 5]);
    var t2 := inst.shippingCostFromDCToStore;
    assert KeySet(t2) == {("DC", "shop")} by { assert t2[0].0 == ("DC", "shop"); }
    assert Cafes(inst) == {"shop"} by { assert EndOf(t2[0].0, Destination) == "shop"; }
    assert Fits(inst, p);
    assert Received(inst, p, YLight, "shop") == 5 && Received(inst, p, YDark, "shop") == 5;
  }
}
