# Fashion supply chain: the integer program and what it promises

The script `benchmark/application/fashionsc.py` builds a gurobipy integer
program for a two-echelon fashion supply chain:

- Suppliers ship goods to two distribution centres, CDC and LDC.
- The distribution centres (DCs) ship two commodities, footwear ("light")
  and apparel ("dark"), on to three stores.

The program has three families of integer variables:

- `x` on supplier-to-DC edges;
- `y_light` and `y_dark` on DC-to-store edges.

Its objective is the minimum-cost sum of three parts:

- supplier shipping;
- per-DC handling of each commodity;
- store shipping.

Its constraints are:

- one `flow_` equality per DC;
- one `supply_` capacity bound per supplier;
- a `light_demand_` and a `dark_demand_` floor per store.

This project models the script's data and the building of the model:

- The data (`Network`): edge tables are association lists in insertion
  order. Node-keyed dictionaries are maps. The node sets are derived from
  the edge keys. `NodeList` is the `list(set(...))` of lines 34-38.
- Values of the variables (`Plans`): a `Plan` holds the three variable
  maps. From a plan the model derives the cost, the per-node sums of each
  constraint, and the feasible set. gurobipy's default lower bound 0 is
  the predicate `NonNegative`.
- gurobipy's expressions and model (`Linear`): `LinExpr` and `Constr` with
  their value under a plan. `Model` is a class whose `SetObjective` and
  `AddConstr` update its state.
- The construction (`Builder`): the objective expression, the three
  constraint loops as methods that append to the model, and the whole
  script as `BuildModel`. Lemmas tie what was built to its meaning:
  - the built objective evaluates to the cost;
  - the built constraints all hold exactly when the plan conserves flow,
    respects capacities and meets demand.
- Properties (`Properties`, `Totals`):
  - the cost decomposes and is linear: raising one variable by `d` adds
    `d` times its unit cost;
  - the cost is never negative, and it does not fall when a flow rises;
  - under the `flow_` constraints, a DC that receives from a supplier
    passes on exactly what it receives, footwear and apparel together;
  - surplus shipments and relaxed data keep a plan feasible;
  - if a feasible plan exists and every DC that ships to a store also
    receives from a supplier, the stores' total need is at most the
    suppliers' total capacity. Without a feasible plan the data may ask
    for more than the suppliers can ship; the program is then infeasible.
- The script's own data (`Example`): it is well formed, and a concrete
  feasible shipment plan of cost 2470 exists.

The `flow_` loop (line 67) ranges over the DCs that are destinations of
supplier edges, not over every DC that ships to a store. The model follows
the code. `Totals.UnsuppliedDCIsUnconstrained` shows what this leaves
open: a DC that only ships to stores gets no conservation constraint, so
it can hand out goods no supplier delivered. On the script's own data
every DC is supplied (`Example.ExampleWellFormed`).

## Model

| member | source | states |
|---|---|---|
| Network.NodeList | benchmark/application/fashionsc.py:34-38 | the node list has no duplicates and holds exactly the nodes at the chosen end of the table's edge keys |
| Network.TableValue | benchmark/application/fashionsc.py:58 | the looked-up cost is stored under the key, and it is the only value under that key when keys are distinct |
| Plans.ValueRaise | benchmark/application/fashionsc.py:46-54 | raising one variable changes that variable by exactly `d` and leaves every other variable unchanged |
| Linear.EvalTermsAppend | benchmark/application/fashionsc.py:57-64 | the value of a concatenation of term lists is the sum of their values |
| Linear.CoeffOfAppend | benchmark/application/fashionsc.py:57-64 | a variable's coefficient in a concatenation is the sum of its coefficients in the parts |
| Linear.EvalRaise | benchmark/application/fashionsc.py:57-64 | a linear expression is linear in each variable: raising one by `d` adds `d` times its coefficient |
| Linear.Model.constructor | benchmark/application/fashionsc.py:41 | a new model has the given name, an empty objective and no constraints |
| Linear.Model.SetObjective | benchmark/application/fashionsc.py:57-64 | the objective is replaced, and the name and constraints are unchanged |
| Linear.Model.AddConstr | benchmark/application/fashionsc.py:68-73 | the constraint is appended at the end, and the name and objective are unchanged |
| Builder.EvalShipIn | benchmark/application/fashionsc.py:58-59 | the supplier-shipping terms evaluate to the sum of `x[i]` times its cost over the supplier-to-DC keys |
| Builder.EvalHandling | benchmark/application/fashionsc.py:60-62 | the handling terms evaluate to each DC's footwear and apparel handling cost times the flows it ships |
| Builder.EvalShipOut | benchmark/application/fashionsc.py:62-64 | the store-shipping terms evaluate to `(y_light + y_dark)` times the edge cost, summed over the DC-to-store keys |
| Builder.ObjectiveMeaning | benchmark/application/fashionsc.py:57-64 | the built objective evaluates, under any plan, to the sum of its three cost parts |
| Builder.EvalSelect | benchmark/application/fashionsc.py:69-70 | a filtered sum of one variable family evaluates to the flow at that end of the node |
| Builder.EvalPairSelect | benchmark/application/fashionsc.py:70-73 | the filtered sum of `y_light[j] + y_dark[j]` evaluates to the DC's outbound flow |
| Builder.FlowConstrMeaning | benchmark/application/fashionsc.py:68-73 | `flow_{r}` holds if and only if DC `r`'s inbound flow equals its outbound flow |
| Builder.SupplyConstrMeaning | benchmark/application/fashionsc.py:77-79 | `supply_{s}` holds if and only if supplier `s` ships at most its capacity |
| Builder.DemandConstrMeaning | benchmark/application/fashionsc.py:83-90 | `light_demand_{c}` and `dark_demand_{c}` hold if and only if store `c` receives at least its need of that commodity |
| Builder.AllHoldAppend | benchmark/application/fashionsc.py:66-90 | constraints added one after another all hold if and only if each batch holds |
| Builder.FlowConstrsMeaning | benchmark/application/fashionsc.py:67-73 | the constraints of the flow loop all hold if and only if every listed DC conserves flow |
| Builder.SupplyConstrsMeaning | benchmark/application/fashionsc.py:76-79 | the constraints of the supply loop all hold if and only if every listed supplier is within capacity |
| Builder.DemandConstrsMeaning | benchmark/application/fashionsc.py:82-90 | the constraints of the demand loop all hold if and only if every listed store gets both its needs |
| Builder.BuiltConstraintsMeaning | benchmark/application/fashionsc.py:66-90 | the built constraints hold if and only if the plan conserves flow, respects capacities and meets demand; feasible means that plus the variables' lower bound 0 |
| Builder.AddFlowConstraints | benchmark/application/fashionsc.py:67-73 | the loop appends exactly one `flow_{r}` equality per DC in list order, and changes nothing else |
| Builder.AddSupplyConstraints | benchmark/application/fashionsc.py:76-79 | the loop appends exactly one `supply_{s}` bound per supplier in list order, and changes nothing else |
| Builder.AddDemandConstraints | benchmark/application/fashionsc.py:82-90 | the loop appends the footwear then the apparel floor per store in list order, and changes nothing else |
| Builder.BuildModel | benchmark/application/fashionsc.py:34-90 | the script yields a fresh model named "Fashion Supply Chain"; its objective is the cost expression; its constraints are the flow, supply and demand families over duplicate-free node lists that cover exactly the derived node sets |
| Properties.ShipInCoeff | benchmark/application/fashionsc.py:58-59 | in the supplier-shipping sum, a variable's coefficient is its edge cost if it is an `x` variable, else 0 |
| Properties.HandlingCoeff | benchmark/application/fashionsc.py:60-62 | in the handling sum, a `y` variable's coefficient is its DC's handling cost for that commodity, and every other variable's is 0 |
| Properties.ShipOutCoeff | benchmark/application/fashionsc.py:62-64 | in the store-shipping sum, a `y` variable's coefficient is its edge cost, else 0 |
| Properties.SelectCoeff | benchmark/application/fashionsc.py:69-70 | a filtered sum gives coefficient 1 exactly to the variables of that family whose edge ends at the node |
| Properties.PairSelectCoeff | benchmark/application/fashionsc.py:70-73 | the outbound sum gives coefficient 1 exactly to the `y` variables whose edge leaves the DC |
| Properties.RaiseFits | benchmark/application/fashionsc.py:46-54 | raising an existing variable keeps the plan's variable set |
| Properties.RaiseNonNegative | benchmark/application/fashionsc.py:46-54 | raising a variable by a natural amount keeps the lower bound 0 |
| Properties.ObjectiveCoeff | benchmark/application/fashionsc.py:57-64 | each variable's objective coefficient is its unit cost: shipping for `x`, handling plus shipping for each `y` |
| Properties.CostRaise | benchmark/application/fashionsc.py:57-64 | raising one variable by `d` changes the cost by exactly `d` times its unit cost |
| Properties.UnitCostNonNegative | benchmark/application/fashionsc.py:6-32 | with non-negative cost tables every unit cost is non-negative |
| Properties.CostMonotone | benchmark/application/fashionsc.py:57-64 | with non-negative cost tables, raising a single flow never lowers the cost |
| Properties.ShippingInCostNonNegative | benchmark/application/fashionsc.py:58-59 | non-negative costs and flows give a non-negative supplier-shipping cost |
| Properties.HandlingCostNonNegative | benchmark/application/fashionsc.py:60-62 | non-negative costs and flows give a non-negative handling cost |
| Properties.ShippingOutCostNonNegative | benchmark/application/fashionsc.py:62-64 | non-negative costs and flows give a non-negative store-shipping cost |
| Properties.CostNonNegative | benchmark/application/fashionsc.py:57-64 | every plan within the lower bound 0 has a non-negative cost when the cost tables are non-negative |
| Properties.PairFlowSplit | benchmark/application/fashionsc.py:70-73 | a DC's outbound sum is its footwear outflow plus its apparel outflow |
| Properties.ConservationSplit | benchmark/application/fashionsc.py:67-73 | under the flow constraints a supplied DC's inflow equals its footwear outflow plus its apparel outflow |
| Properties.FlowsRaise | benchmark/application/fashionsc.py:66-90 | raising one variable by `d` moves each per-node constraint sum by `d` exactly where that variable appears, and leaves every other sum unchanged |
| Properties.SurplusAt | benchmark/application/fashionsc.py:66-90 | after a surplus route shipment: every DC's in-minus-out is unchanged; the supplier's shipment grows by `d` and no other supplier's changes; no store receives less; the target store gets `d` more of the commodity |
| Properties.SurplusConserves | benchmark/application/fashionsc.py:67-73 | a surplus shipment along a supplier-DC-store route keeps flow conserved at every DC |
| Properties.SurplusWithinCapacity | benchmark/application/fashionsc.py:76-79 | a surplus shipment keeps every supplier within capacity when the supplier has `d` to spare |
| Properties.SurplusMeetsDemand | benchmark/application/fashionsc.py:82-90 | a surplus shipment keeps every demand floor met |
| Properties.SurplusStaysFeasible | benchmark/application/fashionsc.py:66-90 | the demand constraints are floors: shipping `d` extra units along a route from a supplier with spare capacity keeps a feasible plan feasible, and the store gets exactly `d` more |
| Properties.RelaxStaysFeasible | benchmark/application/fashionsc.py:75-90 | over the same network, raising capacities or lowering needs keeps every feasible plan feasible |
| Totals.HitsOnce | benchmark/application/fashionsc.py:67-90 | a duplicate-free node list counts an edge's flow once at the node it touches, else not at all |
| Totals.Partition | benchmark/application/fashionsc.py:67-90 | summing per-node flows over a duplicate-free list of all the end nodes gives the total flow of the family |
| Totals.NodeSumAtLeast | benchmark/application/fashionsc.py:82-90 | per-node floors add up to a floor on the summed flows |
| Totals.NodeSumAtMost | benchmark/application/fashionsc.py:76-79 | per-node ceilings add up to a ceiling on the summed flows |
| Totals.NodeSumConserved | benchmark/application/fashionsc.py:67-73 | per-DC conservation adds up over a list of DCs |
| Totals.StoresReceiveNeeds | benchmark/application/fashionsc.py:82-90 | under the demand constraints the total footwear and apparel shipped to stores is at least the stores' total needs |
| Totals.DCsPassOnSupply | benchmark/application/fashionsc.py:67-73 | when every shipping DC is supplied, the flow constraints make the total shipped to stores equal the total shipped by suppliers |
| Totals.SuppliersWithinTotalCapacity | benchmark/application/fashionsc.py:76-79 | under the supply constraints the suppliers together ship at most their total capacity |
| Totals.DemandWithinCapacity | benchmark/application/fashionsc.py:66-90 | a feasible plan exists only if the stores' total needs fit within the suppliers' total capacity, when every DC that ships to a store is supplied |
| Totals.UnsuppliedDCIsUnconstrained | benchmark/application/fashionsc.py:67 | with a DC that is not a supplier destination, a plan is feasible even though the stores need 10 units and no supplier exists |
| Example.ExampleNodes | benchmark/application/fashionsc.py:34-38 | the example's suppliers, DCs and stores are exactly the three suppliers, CDC and LDC, and the three stores |
| Example.ExampleWellFormed | benchmark/application/fashionsc.py:6-32 | the example's keys are distinct; all its lookups succeed; its costs are non-negative; every shipping DC is supplied |
| Example.ShipmentFits | benchmark/application/fashionsc.py:46-54 | the example plan has exactly the variables the script creates |
| Example.ShipmentFlows | benchmark/application/fashionsc.py:67-73 | the example plan moves 90 units through CDC and 140 through LDC, in and out |
| Example.ShipmentShipped | benchmark/application/fashionsc.py:76-79 | the example plan has the suppliers ship 90, 50 and 90 units |
| Example.ShipmentReceived | benchmark/application/fashionsc.py:82-90 | the example plan delivers exactly each store's footwear and apparel need |
| Example.ShipmentConserves | benchmark/application/fashionsc.py:67-73 | the example plan satisfies every `flow_` constraint |
| Example.ShipmentWithinCapacity | benchmark/application/fashionsc.py:76-79 | the example plan satisfies every `supply_` constraint |
| Example.ShipmentMeetsDemand | benchmark/application/fashionsc.py:82-90 | the example plan satisfies every demand constraint |
| Example.ShipmentFeasible | benchmark/application/fashionsc.py:46-90 | the example's integer program has a feasible point |
| Example.ShipmentCost | benchmark/application/fashionsc.py:57-64 | that point costs 2470: 690 supplier shipping, 1150 handling and 630 store shipping |
| Example.ExampleTotals | benchmark/application/fashionsc.py:30-32 | the stores need 230 units in all and the suppliers can ship 300 |

## Left out

- `model.optimize()`, `m.update()` and `m.status` / `m.objVal` (lines 93-106) are calls into the Gurobi solver. The model describes the feasible set and the cost, not optimality or solver status.
- `print(time.ctime())` and the result prints (lines 102-106) are clock access and output.
- The two `OPTIGUIDE` placeholder comments (lines 43 and 96) mark where other code is spliced in. That code is not part of this model.
- Variable names (`name="x"`, …), the `vtype=GRB.INTEGER` flag and the variable handles are not modelled. A plan's values are `int`, which is the integrality, and the lower bound 0 is the predicate `NonNegative`.
- The constraint loops iterate over a Python `set`, whose order is unspecified. `Builder.BuildModel` uses the first-occurrence order of `Network.NodeList`. The meaning lemmas hold for any duplicate-free list that covers the node set.
- Linear.Model.SetObjective: takes no sense argument. The script passes `GRB.MINIMIZE` (line 64); every objective here is minimised, and nothing about the optimum is claimed.
- Python raises `KeyError` when a lookup misses. Here those lookups are preconditions (`HandlingKnown`, `CapacitiesKnown`, `NeedsKnown`), not an error path.
- The script is one instance of a general supply-network builder. Such a builder could allow any number of commodities, reject negative inputs and report typed errors. The script does none of this: it has exactly two commodities and checks nothing. Its conservation covers only DCs that are destinations of supplier edges; see `Totals.UnsuppliedDCIsUnconstrained`.
- Claims about the optimum, such as "lowering a demand cannot raise the optimal cost", are not stated. The solver is not modelled. `Properties.RelaxStaysFeasible` is the fact such a claim rests on: lower needs only enlarge the feasible set.
- Totals.DemandWithinCapacity: assumes every DC that ships to a store is a supplier destination, because the script places no constraint on other DCs.
