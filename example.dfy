/**
  The script's example data: three suppliers, the two distribution centres
  CDC and LDC, and the three stores Berlin-CS, Paris-CS and LDN-CS.
 */
module Example {
  import opened Network
  import opened Plans
  import opened Properties
  import opened Totals

  const CapacityInSupplier: map<Node, int> := map["supplier1" := 150, "supplier2" := 50, "supplier3" := 100]

  const ShippingCostFromSupplierToDC: Table := [
    (("supplier1", "CDC"), 5),
    (("supplier1", "LDC"), 4),
    (("supplier2", "CDC"), 6),
    (("supplier2", "LDC"), 3),
    (("supplier3", "CDC"), 2),
    (("supplier3", "LDC"), 7)
  ]

  const InventoryCostFtw: map<Node, int> := map["CDC" := 3, "LDC" := 5]

  const InventoryCostApparel: map<Node, int> := map["CDC" := 5, "LDC" := 6]

  const ShippingCostFromDCToStore: Table := [
    (("CDC", "Berlin-CS"), 5),
    (("CDC", "Paris-CS"), 3),
    (("CDC", "LDN-CS"), 6),
    (("LDC", "Berlin-CS"), 4),
    (("LDC", "Paris-CS"), 5),
    (("LDC", "LDN-CS"), 2)
  ]

  const FtwNeededForStores: map<Node, int> := map["Berlin-CS" := 20, "Paris-CS" := 30, "LDN-CS" := 40]

  const AppNeededForStores: map<Node, int> := map["Berlin-CS" := 20, "Paris-CS" := 20, "LDN-CS" := 100]

  const Data: Instance := Instance(CapacityInSupplier, ShippingCostFromSupplierToDC, InventoryCostFtw,
                                   InventoryCostApparel, ShippingCostFromDCToStore, FtwNeededForStores,
                                   AppNeededForStores)

  /** The node sets the script derives from the two edge tables. */
  lemma ExampleNodes()
    ensures Suppliers(Data) == {"supplier1", "supplier2", "supplier3"}
    ensures Roasteries(Data) == {"CDC", "LDC"}
    ensures Cafes(Data) == {"Berlin-CS", "Paris-CS", "LDN-CS"}
    ensures Ends(ShippingCostFromDCToStore, Origin) == {"CDC", "LDC"}
  {
    var t1, t2 := ShippingCostFromSupplierToDC, ShippingCostFromDCToStore;
    assert t1[0].0 == ("supplier1", "CDC") && t1[2].0 == ("supplier2", "CDC") && t1[4].0 == ("supplier3", "CDC");
    assert t1[1].0 == ("supplier1", "LDC");
    assert t2[0].0 == ("CDC", "Berlin-CS") && t2[1].0 == ("CDC", "Paris-CS") && t2[2].0 == ("CDC", "LDN-CS");
    assert t2[3].0 == ("LDC", "Berlin-CS");
  }

  /**
    Every lookup the script makes succeeds on its example data, no edge
    table repeats a key, and every cost is non-negative.
   */
  lemma ExampleWellFormed()
    ensures TablesAreDicts(Data)
    ensures HandlingKnown(Data) && CapacitiesKnown(Data) && NeedsKnown(Data)
    ensures NonNegativeCosts(Data)
    ensures Ends(Data.shippingCostFromDCToStore, Origin) <= Roasteries(Data)
  {
    ExampleNodes();
    ExampleDistinctKeys();
    ExampleHandlingKnown();
    ExampleCostsNonNegative();
  }

  lemma ExampleCostsNonNegative()
    ensures NonNegativeCosts(Data)
  {
  }

  lemma ExampleDistinctKeys()
    ensures DistinctKeys(ShippingCostFromSupplierToDC) && DistinctKeys(ShippingCostFromDCToStore)
  {
  }

  lemma ExampleHandlingKnown()
    ensures HandlingKnown(Data)
  {
  }

  /** A plan for the example: CDC serves Berlin and Paris, LDC serves London. */
  const Shipment: Plan := Plan(
    map[("supplier1", "CDC") := 0, ("supplier1", "LDC") := 90,
        ("supplier2", "CDC") := 0, ("supplier2", "LDC") := 50,
        ("supplier3", "CDC") := 90, ("supplier3", "LDC") := 0],
    map[("CDC", "Berlin-CS") := 20, ("CDC", "Paris-CS") := 30, ("CDC", "LDN-CS") := 0,
        ("LDC", "Berlin-CS") := 0, ("LDC", "Paris-CS") := 0, ("LDC", "LDN-CS") := 40],
    map[("CDC", "Berlin-CS") := 20, ("CDC", "Paris-CS") := 20, ("CDC", "LDN-CS") := 0,
        ("LDC", "Berlin-CS") := 0, ("LDC", "Paris-CS") := 0, ("LDC", "LDN-CS") := 100])

  lemma ShipmentFits()
    ensures Fits(Data, Shipment)
  {
    var t1, t2 := ShippingCostFromSupplierToDC, ShippingCostFromDCToStore;
    assert t1[0].0 == ("supplier1", "CDC") && t1[1].0 == ("supplier1", "LDC") && t1[2].0 == ("supplier2", "CDC");
    assert t1[3].0 == ("supplier2", "LDC") && t1[4].0 == ("supplier3", "CDC") && t1[5].0 == ("supplier3", "LDC");
    assert t2[0].0 == ("CDC", "Berlin-CS") && t2[1].0 == ("CDC", "Paris-CS") && t2[2].0 == ("CDC", "LDN-CS");
    assert t2[3].0 == ("LDC", "Berlin-CS") && t2[4].0 == ("LDC", "Paris-CS") && t2[5].0 == ("LDC", "LDN-CS");
  }

  lemma ShipmentKeys()
    ensures KeysIn(ShippingCostFromSupplierToDC, Shipment.x)
    ensures KeysIn(ShippingCostFromDCToStore, Shipment.yLight)
    ensures KeysIn(ShippingCostFromDCToStore, Shipment.yDark)
  {
  }

  // The solver finds the sums over the literal tables costly, and the cost
  // grows quickly with the number of sums one lemma asks for. So each table
  // sum below gets a lemma of its own; the grouping lemmas only collect
  // them, and `FittingSums` carries them over to `Data` and `Shipment`.

  lemma OutboundSums()
    ensures KeysIn(ShippingCostFromDCToStore, Shipment.yLight) && KeysIn(ShippingCostFromDCToStore, Shipment.yDark)
    ensures PairFlowFrom(ShippingCostFromDCToStore, Shipment.yLight, Shipment.yDark, "CDC") == 90
    ensures PairFlowFrom(ShippingCostFromDCToStore, Shipment.yLight, Shipment.yDark, "LDC") == 140
  {
    ShipmentKeys();
    PairFlowSplit(ShippingCostFromDCToStore, Shipment.yLight, Shipment.yDark, "CDC");
    PairFlowSplit(ShippingCostFromDCToStore, Shipment.yLight, Shipment.yDark, "LDC");
    FootwearOutCDC();
    ApparelOutCDC();
    FootwearOutLDC();
    ApparelOutLDC();
  }

  lemma InboundSums()
    ensures KeysIn(ShippingCostFromSupplierToDC, Shipment.x)
    ensures FlowAt(ShippingCostFromSupplierToDC, Shipment.x, Destination, "CDC") == 90
    ensures FlowAt(ShippingCostFromSupplierToDC, Shipment.x, Destination, "LDC") == 140
  {
    InboundCDC();
    InboundLDC();
  }

  lemma SupplierSums()
    ensures KeysIn(ShippingCostFromSupplierToDC, Shipment.x)
    ensures FlowAt(ShippingCostFromSupplierToDC, Shipment.x, Origin, "supplier1") == 90
    ensures FlowAt(ShippingCostFromSupplierToDC, Shipment.x, Origin, "supplier2") == 50
    ensures FlowAt(ShippingCostFromSupplierToDC, Shipment.x, Origin, "supplier3") == 90
  {
    ShippedBySupplier1();
    ShippedBySupplier2();
    ShippedBySupplier3();
  }

  lemma FootwearSums()
    ensures KeysIn(ShippingCostFromDCToStore, Shipment.yLight)
    ensures FlowAt(ShippingCostFromDCToStore, Shipment.yLight, Destination, "Berlin-CS") == 20
    ensures FlowAt(ShippingCostFromDCToStore, Shipment.yLight, Destination, "Paris-CS") == 30
    ensures FlowAt(ShippingCostFromDCToStore, Shipment.yLight, Destination, "LDN-CS") == 40
  {
    FootwearToBerlin();
    FootwearToParis();
    FootwearToLondon();
  }

  lemma ApparelSums()
    ensures KeysIn(ShippingCostFromDCToStore, Shipment.yDark)
    ensures FlowAt(ShippingCostFromDCToStore, Shipment.yDark, Destination, "Berlin-CS") == 20
    ensures FlowAt(ShippingCostFromDCToStore, Shipment.yDark, Destination, "Paris-CS") == 20
    ensures FlowAt(ShippingCostFromDCToStore, Shipment.yDark, Destination, "LDN-CS") == 100
  {
    ApparelToBerlin();
    ApparelToParis();
    ApparelToLondon();
  }

  // One table sum each.

  lemma InboundCDC()
    ensures KeysIn(ShippingCostFromSupplierToDC, Shipment.x) && FlowAt(ShippingCostFromSupplierToDC, Shipment.x, Destination, "CDC") == 90
  {
    ShipmentKeys();
  }

  lemma InboundLDC()
    ensures KeysIn(ShippingCostFromSupplierToDC, Shipment.x) && FlowAt(ShippingCostFromSupplierToDC, Shipment.x, Destination, "LDC") == 140
  {
    ShipmentKeys();
  }

  lemma FootwearOutCDC()
    ensures KeysIn(ShippingCostFromDCToStore, Shipment.yLight) && FlowAt(ShippingCostFromDCToStore, Shipment.yLight, Origin, "CDC") == 50
  {
    ShipmentKeys();
  }

  lemma ApparelOutCDC()
    ensures KeysIn(ShippingCostFromDCToStore, Shipment.yDark) && FlowAt(ShippingCostFromDCToStore, Shipment.yDark, Origin, "CDC") == 40
  {
    ShipmentKeys();
  }

  lemma FootwearOutLDC()
    ensures KeysIn(ShippingCostFromDCToStore, Shipment.yLight) && FlowAt(ShippingCostFromDCToStore, Shipment.yLight, Origin, "LDC") == 40
  {
    ShipmentKeys();
  }

  lemma ApparelOutLDC()
    ensures KeysIn(ShippingCostFromDCToStore, Shipment.yDark) && FlowAt(ShippingCostFromDCToStore, Shipment.yDark, Origin, "LDC") == 100
  {
    ShipmentKeys();
  }

  lemma ShippedBySupplier1()
    ensures KeysIn(ShippingCostFromSupplierToDC, Shipment.x) && FlowAt(ShippingCostFromSupplierToDC, Shipment.x, Origin, "supplier1") == 90
  {
    ShipmentKeys();
  }

  lemma ShippedBySupplier2()
    ensures KeysIn(ShippingCostFromSupplierToDC, Shipment.x) && FlowAt(ShippingCostFromSupplierToDC, Shipment.x, Origin, "supplier2") == 50
  {
    ShipmentKeys();
  }

  lemma ShippedBySupplier3()
    ensures KeysIn(ShippingCostFromSupplierToDC, Shipment.x) && FlowAt(ShippingCostFromSupplierToDC, Shipment.x, Origin, "supplier3") == 90
  {
    ShipmentKeys();
  }

  lemma FootwearToBerlin()
    ensures KeysIn(ShippingCostFromDCToStore, Shipment.yLight) && FlowAt(ShippingCostFromDCToStore, Shipment.yLight, Destination, "Berlin-CS") == 20
  {
    ShipmentKeys();
  }

  lemma FootwearToParis()
    ensures KeysIn(ShippingCostFromDCToStore, Shipment.yLight) && FlowAt(ShippingCostFromDCToStore, Shipment.yLight, Destination, "Paris-CS") == 30
  {
    ShipmentKeys();
  }

  lemma FootwearToLondon()
    ensures KeysIn(ShippingCostFromDCToStore, Shipment.yLight) && FlowAt(ShippingCostFromDCToStore, Shipment.yLight, Destination, "LDN-CS") == 40
  {
    ShipmentKeys();
  }

  lemma ApparelToBerlin()
    ensures KeysIn(ShippingCostFromDCToStore, Shipment.yDark) && FlowAt(ShippingCostFromDCToStore, Shipment.yDark, Destination, "Berlin-CS") == 20
  {
    ShipmentKeys();
  }

  lemma ApparelToParis()
    ensures KeysIn(ShippingCostFromDCToStore, Shipment.yDark) && FlowAt(ShippingCostFromDCToStore, Shipment.yDark, Destination, "Paris-CS") == 20
  {
    ShipmentKeys();
  }

  lemma ApparelToLondon()
    ensures KeysIn(ShippingCostFromDCToStore, Shipment.yDark) && FlowAt(ShippingCostFromDCToStore, Shipment.yDark, Destination, "LDN-CS") == 100
  {
    ShipmentKeys();
  }

  lemma ShippingInSum()
    ensures KeysIn(ShippingCostFromSupplierToDC, Shipment.x)
    ensures ShippingInCost(ShippingCostFromSupplierToDC, Shipment.x) == 690
  {
    ShipmentKeys();
  }

  lemma HandlingSum()
    ensures KeysIn(ShippingCostFromDCToStore, Shipment.yLight) && KeysIn(ShippingCostFromDCToStore, Shipment.yDark)
    ensures forall i :: 0 <= i < |ShippingCostFromDCToStore| ==>
      ShippingCostFromDCToStore[i].0.0 in InventoryCostFtw && ShippingCostFromDCToStore[i].0.0 in InventoryCostApparel
    ensures HandlingCost(ShippingCostFromDCToStore, InventoryCostFtw, InventoryCostApparel, Shipment.yLight, Shipment.yDark) == 1150
  {
    ShipmentKeys();
  }

  lemma ShippingOutSum()
    ensures KeysIn(ShippingCostFromDCToStore, Shipment.yLight) && KeysIn(ShippingCostFromDCToStore, Shipment.yDark)
    ensures ShippingOutCost(ShippingCostFromDCToStore, Shipment.yLight, Shipment.yDark) == 630
  {
    ShipmentKeys();
  }

  lemma ShipmentNonNegative()
    ensures NonNegative(Shipment)
  {
  }

  /** What `Shipment` moves through each node of the example. */
  lemma ShipmentFlows()
    ensures Fits(Data, Shipment)
    ensures Inbound(Data, Shipment, "CDC") == 90 == Outbound(Data, Shipment, "CDC")
    ensures Inbound(Data, Shipment, "LDC") == 140 == Outbound(Data, Shipment, "LDC")
  {
    ShipmentFits();
    InboundSums();
    OutboundSums();
    FittingSums(Data, Shipment, "CDC");
    FittingSums(Data, Shipment, "LDC");
  }

  lemma ShipmentShipped()
    ensures Fits(Data, Shipment)
    ensures Shipped(Data, Shipment, "supplier1") == 90
    ensures Shipped(Data, Shipment, "supplier2") == 50
    ensures Shipped(Data, Shipment, "supplier3") == 90
  {
    ShipmentFits();
    SupplierSums();
    FittingSums(Data, Shipment, "supplier1");
    FittingSums(Data, Shipment, "supplier2");
    FittingSums(Data, Shipment, "supplier3");
  }

  lemma ShipmentReceived()
    ensures Fits(Data, Shipment)
    ensures Received(Data, Shipment, YLight, "Berlin-CS") == 20 && Received(Data, Shipment, YDark, "Berlin-CS") == 20
    ensures Received(Data, Shipment, YLight, "Paris-CS") == 30 && Received(Data, Shipment, YDark, "Paris-CS") == 20
    ensures Received(Data, Shipment, YLight, "LDN-CS") == 40 && Received(Data, Shipment, YDark, "LDN-CS") == 100
  {
    ShipmentFits();
    FootwearSums();
    ApparelSums();
    FittingSums(Data, Shipment, "Berlin-CS");
    FittingSums(Data, Shipment, "Paris-CS");
    FittingSums(Data, Shipment, "LDN-CS");
  }

  // The per-node lemmas below name each node literally, so that the solver
  // looks up the literal tables and maps case by case; their branches are
  // that case split and need no further hints.

  lemma DCBalanced(r: Node)
    requires r == "CDC" || r == "LDC"
    ensures Fits(Data, Shipment) && Inbound(Data, Shipment, r) == Outbound(Data, Shipment, r)
  {
    ShipmentFlows();
    if r == "CDC" {
    } else {
    }
  }

  lemma SupplierWithinCapacity(s: Node)
    requires s == "supplier1" || s == "supplier2" || s == "supplier3"
    ensures Fits(Data, Shipment) && s in Data.capacityInSupplier
    ensures Shipped(Data, Shipment, s) <= Data.capacityInSupplier[s]
  {
    ShipmentShipped();
    if s == "supplier1" {
    } else if s == "supplier2" {
    } else {
    }
  }

  lemma StoreServed(c: Node)
    requires c == "Berlin-CS" || c == "Paris-CS" || c == "LDN-CS"
    ensures Fits(Data, Shipment) && c in Data.ftwNeededForStores && c in Data.appNeededForStores
    ensures Received(Data, Shipment, YLight, c) >= Data.ftwNeededForStores[c]
    ensures Received(Data, Shipment, YDark, c) >= Data.appNeededForStores[c]
  {
    ShipmentReceived();
    if c == "Berlin-CS" {
    } else if c == "Paris-CS" {
    } else {
    }
  }

  /** `Shipment` passes on at each DC exactly what it receives there. */
  lemma ShipmentConserves()
    ensures Fits(Data, Shipment) && Conservation(Data, Shipment)
  {
    ExampleNodes();
    ShipmentFits();
    forall r | r in Roasteries(Data) ensures Inbound(Data, Shipment, r) == Outbound(Data, Shipment, r) {
      DCBalanced(r);
    }
  }

  /** `Shipment` keeps every supplier within its capacity. */
  lemma ShipmentWithinCapacity()
    ensures Fits(Data, Shipment) && CapacitiesKnown(Data) && SupplyRespected(Data, Shipment)
  {
    ExampleNodes();
    ShipmentFits();
    forall s | s in Suppliers(Data)
      ensures s in Data.capacityInSupplier && Shipped(Data, Shipment, s) <= Data.capacityInSupplier[s]
    {
      SupplierWithinCapacity(s);
    }
  }

  /** `Shipment` gives every store the footwear and apparel it needs. */
  lemma ShipmentMeetsDemand()
    ensures Fits(Data, Shipment) && NeedsKnown(Data) && DemandMet(Data, Shipment)
  {
    ExampleNodes();
    ShipmentFits();
    forall c | c in Cafes(Data)
      ensures c in Data.ftwNeededForStores && c in Data.appNeededForStores
      ensures Received(Data, Shipment, YLight, c) >= Data.ftwNeededForStores[c]
      ensures Received(Data, Shipment, YDark, c) >= Data.appNeededForStores[c]
    {
      StoreServed(c);
    }
  }

  /** The example's feasible set is not empty: `Shipment` is in it. */
  lemma ShipmentFeasible()
    ensures Fits(Data, Shipment) && CapacitiesKnown(Data) && NeedsKnown(Data)
    ensures Feasible(Data, Shipment)
  {
    ShipmentNonNegative();
    ShipmentConserves();
    ShipmentWithinCapacity();
    ShipmentMeetsDemand();
  }

  /** `Shipment` costs 2470: 690 supplier shipping, 1150 handling, 630 store shipping. */
  lemma ShipmentCost()
    ensures Fits(Data, Shipment) && HandlingKnown(Data)
    ensures Cost(Data, Shipment) == 2470
  {
    ShippingInSum();
    HandlingSum();
    ShippingOutSum();
    ShipmentFits();
    ExampleHandlingKnown();
  }

  /** The example's stores need 230 units in all; its suppliers can ship 300. */
  lemma ExampleTotals()
    ensures TotalOver(["Berlin-CS", "Paris-CS", "LDN-CS"], FtwNeededForStores)
            + TotalOver(["Berlin-CS", "Paris-CS", "LDN-CS"], AppNeededForStores) == 230
    ensures TotalOver(["supplier1", "supplier2", "supplier3"], CapacityInSupplier) == 300
  {
  }
}
