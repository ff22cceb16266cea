/**
  The data of the fashion supply chain: suppliers ship to distribution
  centres (CDC, LDC), which ship two commodities, footwear and apparel, on
  to stores. Edge-keyed cost tables are Python dictionaries keyed by pairs;
  they are kept as association lists so that their iteration order, and the
  sums taken over them, are part of the model.
 */
module Network {

  type Node = string

  /** A directed edge (from, to), the key of the edge tables. */
  type Edge = (Node, Node)

  /** Which component of an edge key a projection or a filter looks at:
      `i[0]` is the origin, `i[1]` the destination. */
  datatype End = Origin | Destination

  /** A dictionary from edges to integer unit costs, in insertion order. */
  type Table = seq<(Edge, int)>

  function EndOf(e: Edge, end: End): Node
  {
    if end == Origin then e.0 else e.1
  }

  /** The keys of a table, `t.keys()`, as a set. */
  function KeySet(t: Table): set<Edge>
  {
    set i | 0 <= i < |t| :: t[i].0
  }

  /** A dictionary never holds a key twice. */
  predicate DistinctKeys(t: Table)
  {
    forall i, j :: 0 <= i < j < |t| ==> t[i].0 != t[j].0
  }

  lemma KeySetCons(t: Table)
    requires t != []
    ensures KeySet(t) == {t[0].0} + KeySet(t[1..])
    ensures DistinctKeys(t) ==> DistinctKeys(t[1..]) && t[0].0 !in KeySet(t[1..])
  {
    forall e | e in KeySet(t) ensures e in {t[0].0} + KeySet(t[1..]) {
      var i :| 0 <= i < |t| && t[i].0 == e;
      if i > 0 { assert t[1..][i - 1].0 == e; }
    }
    forall e | e in KeySet(t[1..]) ensures e in KeySet(t) {
      var i :| 0 <= i < |t[1..]| && t[1..][i].0 == e;
      assert t[i + 1].0 == e;
    }
  }

  /** `set(i[end] for i in t.keys())`. */
  function Ends(t: Table, end: End): set<Node>
  {
    set i | 0 <= i < |t| :: EndOf(t[i].0, end)
  }

  predicate Distinct(ns: seq<Node>)
  {
    forall i, j :: 0 <= i < j < |ns| ==> ns[i] != ns[j]
  }

  /** `t[e]`: the value a table stores under a key it holds. */
  function TableValue(t: Table, e: Edge): (c: int)
    requires e in KeySet(t)
    ensures (e, c) in t
    ensures forall i :: 0 <= i < |t| && t[i].0 == e && DistinctKeys(t) ==> t[i].1 == c
  {
    if t[0].0 == e then t[0].1
    else
      assert e in KeySet(t[1..]) by {
        var i :| 0 <= i < |t| && t[i].0 == e;
        assert t[1..][i - 1].0 == e;
      }
      TableValue(t[1..], e)
  }

  /**
    `list(set(i[end] for i in t.keys()))`: the nodes at one end of the
    table's edges, each once. Python leaves the order of a set unspecified;
    this one keeps first occurrences.
   */
  method NodeList(t: Table, end: End) returns (nodes: seq<Node>)
    ensures Distinct(nodes)
    ensures forall n :: n in nodes <==> n in Ends(t, end)
  {
    nodes := [];
    var i := 0;
    while i < |t|
      invariant 0 <= i <= |t|
      invariant Distinct(nodes)
      invariant forall n :: n in nodes <==> exists k :: 0 <= k < i && EndOf(t[k].0, end) == n
    {
      var n := EndOf(t[i].0, end);
      if n !in nodes {
        nodes := nodes + [n];
      }
      i := i + 1;
    }
  }

  /**
    The seven example tables of the script, and any other data of the same
    shape. Field names follow the script's variables.
   */
  datatype Instance = Instance(
    capacityInSupplier: map<Node, int>,
    shippingCostFromSupplierToDC: Table,
    inventoryCostFtw: map<Node, int>,
    inventoryCostApparel: map<Node, int>,
    shippingCostFromDCToStore: Table,
    ftwNeededForStores: map<Node, int>,
    appNeededForStores: map<Node, int>)

  /** `suppliers`: origins of the supplier-to-DC edges. */
  function Suppliers(inst: Instance): set<Node>
  {
    Ends(inst.shippingCostFromSupplierToDC, Origin)
  }

  /** `roasteries`: the distribution centres, destinations of supplier-to-DC edges. */
  function Roasteries(inst: Instance): set<Node>
  {
    Ends(inst.shippingCostFromSupplierToDC, Destination)
  }

  /** `cafes`: the stores, destinations of DC-to-store edges. */
  function Cafes(inst: Instance): set<Node>
  {
    Ends(inst.shippingCostFromDCToStore, Destination)
  }

  /** Both edge tables are dictionaries: neither holds a key twice. */
  predicate TablesAreDicts(inst: Instance)
  {
    DistinctKeys(inst.shippingCostFromSupplierToDC) && DistinctKeys(inst.shippingCostFromDCToStore)
  }

  /** The objective looks up both handling costs of every DC that ships to a store. */
  predicate HandlingKnown(inst: Instance)
  {
    forall i :: 0 <= i < |inst.shippingCostFromDCToStore| ==>
      var r := inst.shippingCostFromDCToStore[i].0.0;
      r in inst.inventoryCostFtw && r in inst.inventoryCostApparel
  }

  /** The supply constraints look up the capacity of every supplier. */
  predicate CapacitiesKnown(inst: Instance)
  {
    forall s :: s in Suppliers(inst) ==> s in inst.capacityInSupplier
  }

  /** The demand constraints look up both needs of every store. */
  predicate NeedsKnown(inst: Instance)
  {
    forall c :: c in Cafes(inst) ==> c in inst.ftwNeededForStores && c in inst.appNeededForStores
  }

  /** Every unit cost of the instance is non-negative. */
  predicate NonNegativeCosts(inst: Instance)
  {
    && (forall i :: 0 <= i < |inst.shippingCostFromSupplierToDC| ==> inst.shippingCostFromSupplierToDC[i].1 >= 0)
    && (forall i :: 0 <= i < |inst.shippingCostFromDCToStore| ==> inst.shippingCostFromDCToStore[i].1 >= 0)
    && (forall r :: r in inst.inventoryCostFtw ==> inst.inventoryCostFtw[r] >= 0)
    && (forall r :: r in inst.inventoryCostApparel ==> inst.inventoryCostApparel[r] >= 0)
  }
}
