/** The manufacturing optimiser: it fixes the materials, equipment, formulas,
    batch size and horizon, defaults its four index spaces, and then builds
    the model step by step: the variables, the inventory, production, flow,
    demand and purchasing constraint families, and the objective to be
    maximised. Every variable and constraint field starts unset and is set
    by the step that builds it. */
module Optimizers {
  import opened Wrappers
  import opened Indexes
  import opened Linear
  import opened BaseConstraint
  import opened Tables
  import Boms = BillsOfMaterials
  import Inv = InventoryConstraints
  import Prod = ProductionConstraints
  import Flow = FlowConstraints
  import Dem = DemandConstraints
  import Pur = PurchasingConstraints

  // ---------------------------------------------------------------------------
  // Inputs

  /** A declared variable family: its identifier and its variables, one per
      index in index order. */
  datatype VariableFamily = VariableFamily(id: string, vars: seq<Var>)

  /** A constraint family built by a builder method whose body this model
      does not include; only its rows are known. */
  datatype ForeignFamily = ForeignFamily(rows: seq<RuleResult>)

  /** What the optimiser reads from the bill of materials. */
  datatype BomFacts = BomFacts(
    allParentMaterials: seq<Material>,
    allComponentMaterials: seq<Material>,
    requiredQuantity: (Formula, Material, Material) -> real)

  /** The materials a list of cells names: the text of every text cell, in
      order. A cell of another kind equals no material name. */
  function TextsOf(cells: seq<Cell>): seq<Material>
  {
    if cells == [] then []
    else (if cells[0].Text? then [cells[0].text] else []) + TextsOf(cells[1..])
  }

  lemma {:induction false} TextsOfMember(cells: seq<Cell>, m: Material)
    ensures m in TextsOf(cells) <==> Text(m) in cells
  {
    if cells != [] {
      TextsOfMember(cells[1..], m);
      assert cells == [cells[0]] + cells[1..];
    }
  }

  /** Distinct cells name distinct materials. */
  lemma {:induction false} TextsOfDistinct(cells: seq<Cell>)
    requires forall i, j :: 0 <= i < j < |cells| ==> cells[i] != cells[j]
    ensures forall i, j :: 0 <= i < j < |TextsOf(cells)| ==> TextsOf(cells)[i] != TextsOf(cells)[j]
  {
    if cells != [] {
      var rest := cells[1..];
      assert forall i, j :: 0 <= i < j < |rest| ==> rest[i] != rest[j] by {
        forall i, j | 0 <= i < j < |rest| ensures rest[i] != rest[j] {
          assert rest[i] == cells[i + 1] && rest[j] == cells[j + 1];
        }
      }
      TextsOfDistinct(rest);
      if cells[0].Text? {
        TextsOfMember(rest, cells[0].text);
        assert cells[0] !in rest by {
          forall j | 0 <= j < |rest| ensures rest[j] != cells[0] {
            assert rest[j] == cells[j + 1];
          }
        }
      }
    }
  }

  /** The facts of a bill of materials whose table has a `manufactured_good`
      column: `all_parent_materials` as `Bom.AllParentMaterials` lists it,
      without repeats. `all_component_materials` and `get_required_quantity`
      are not part of this model, so they are arguments. */
  function BomFactsOf(bom: Boms.Bom, allComponentMaterials: seq<Material>,
                      requiredQuantity: (Formula, Material, Material) -> real): (r: BomFacts)
    requires bom.bomData.Valid() && Boms.ParentMaterialsLabel in bom.bomData.labels
    reads bom.bomData
    ensures r.allComponentMaterials == allComponentMaterials && r.requiredQuantity == requiredQuantity
    ensures forall m :: m in r.allParentMaterials <==> Text(m) in bom.bomData.Column(Boms.ParentMaterialsLabel).value
    ensures forall i, j :: 0 <= i < j < |r.allParentMaterials| ==> r.allParentMaterials[i] != r.allParentMaterials[j]
  {
    var parents := bom.AllParentMaterials().value;
    forall m {
      TextsOfMember(parents, m);
    }
    TextsOfDistinct(parents);
    BomFacts(TextsOf(parents), allComponentMaterials, requiredQuantity)
  }

  /** `build_equipment_time_indexes(all_equipment, t0, tmax)`, a utility
      whose body is not part of this model. `__init__` and the production
      builder both call it with the optimiser's equipment and horizon, so
      the optimiser holds the one function both of them use. */
  type EquipmentTimeIndexBuilder = (seq<Equipment>, Time, Time) -> seq<EquipmentTimeIndex>

  /** The index space and families of builder functions that are not part
      of this model. */
  datatype Unshown = Unshown(
    equipmentFormulaTimeIndexes: seq<EquipmentFormulaTimeIndex>,
    componentsCannotBeProduced: set<Material> -> ForeignFamily,
    equipmentStatusIsActiveWhenProducing: ForeignFamily,
    equipmentStatusLoeThanProduction: ForeignFamily)

  /** The three cost dictionaries the objective reads, keyed by material or by
      (equipment, formula). */
  datatype ObjectiveCosts = ObjectiveCosts(
    inventory: map<Material, real>,
    purchase: map<Material, real>,
    production: map<(Equipment, Formula), real>)

  /** The arguments of `build_model`. */
  datatype Inputs = Inputs(
    initialInventory: map<Material, real>,
    safetyStock: map<Material, real>,
    maxCapacity: map<(Equipment, Formula), int>,
    demand: map<MaterialTimeIndex, int>,
    bom: BomFacts,
    costs: ObjectiveCosts,
    sellingPrices: map<Material, real>,
    unshown: Unshown)

  datatype Sense = Maximize | Minimize

  datatype ObjectiveFunction = ObjectiveFunction(expr: Expr, sense: Sense)

  /** The defaults of `_create_production_constraints` and `_create_demand_constraints`. */
  const DefaultMaxContinuousTime := 4
  const DefaultDemandFillingTime := 8

  // ---------------------------------------------------------------------------
  // The fixed setup and its index defaulting

  /** The fields `__init__` sets once. */
  datatype Setup = Setup(
    materials: seq<Material>,
    allEquipment: seq<Equipment>,
    formulas: seq<Formula>,
    minimumUnitsInBatch: int,
    tmax: Time,
    t0: Time,
    allMaterialsAllTimeIndexes: seq<MaterialTimeIndex>,
    allMaterialsT0Index: seq<MaterialTimeIndex>,
    materialEquipmentFormulaTimeIndexes: seq<MaterialEquipmentFormulaTimeIndex>,
    equipmentTimeIndexes: seq<EquipmentTimeIndex>,
    buildEquipmentTimeIndexes: EquipmentTimeIndexBuilder)

  /** `__init__`'s setup: the horizon ends at the simulation duration, and
      every index space not supplied (or supplied empty) is built over
      [t0, tmax]; the t0 index over [t0, t0]. */
  function NewSetup(
    materials: seq<Material>, allEquipment: seq<Equipment>, formulas: seq<Formula>,
    minimumUnitsInBatch: int, simulationDuration: Time, t0: Time,
    allMaterialsAllTimeIndexes: Option<seq<MaterialTimeIndex>>,
    allMaterialsT0Index: Option<seq<MaterialTimeIndex>>,
    materialEquipmentFormulaTimeIndexes: Option<seq<MaterialEquipmentFormulaTimeIndex>>,
    equipmentTimeIndexes: Option<seq<EquipmentTimeIndex>>,
    buildEquipmentTimeIndexes: EquipmentTimeIndexBuilder): (s: Setup)
    ensures s.materials == materials && s.allEquipment == allEquipment && s.formulas == formulas
    ensures s.minimumUnitsInBatch == minimumUnitsInBatch && s.tmax == simulationDuration && s.t0 == t0
    ensures Supplied(allMaterialsAllTimeIndexes) ==> s.allMaterialsAllTimeIndexes == allMaterialsAllTimeIndexes.value
    ensures !Supplied(allMaterialsAllTimeIndexes) ==>
              s.allMaterialsAllTimeIndexes == NewContext(materials, t0, simulationDuration, None, None).allMaterialsAllTimeIndexes
    ensures Supplied(allMaterialsT0Index) ==> s.allMaterialsT0Index == allMaterialsT0Index.value
    ensures !Supplied(allMaterialsT0Index) ==>
              s.allMaterialsT0Index == NewContext(materials, t0, simulationDuration, None, None).allMaterialsT0Index
    ensures Supplied(materialEquipmentFormulaTimeIndexes) ==>
              s.materialEquipmentFormulaTimeIndexes == materialEquipmentFormulaTimeIndexes.value
    ensures !Supplied(materialEquipmentFormulaTimeIndexes) ==>
              s.materialEquipmentFormulaTimeIndexes == BuildMaterialEquipmentFormulaTimeIndexes(materials, allEquipment, formulas, t0, simulationDuration)
    ensures s.buildEquipmentTimeIndexes == buildEquipmentTimeIndexes
    ensures Supplied(equipmentTimeIndexes) ==> s.equipmentTimeIndexes == equipmentTimeIndexes.value
    ensures !Supplied(equipmentTimeIndexes) ==>
              s.equipmentTimeIndexes == buildEquipmentTimeIndexes(allEquipment, t0, simulationDuration)
  {
    var tmax := simulationDuration;
    Setup(
      materials, allEquipment, formulas, minimumUnitsInBatch, tmax, t0,
      OrDefault(allMaterialsAllTimeIndexes, BuildMaterialTimeIndexes(materials, t0, tmax)),
      OrDefault(allMaterialsT0Index, BuildMaterialTimeIndexes(materials, t0, t0)),
      OrDefault(materialEquipmentFormulaTimeIndexes, BuildMaterialEquipmentFormulaTimeIndexes(materials, allEquipment, formulas, t0, tmax)),
      OrDefault(equipmentTimeIndexes, buildEquipmentTimeIndexes(allEquipment, t0, tmax)),
      buildEquipmentTimeIndexes)
  }

  /** The material-time and production spaces are the ones `__init__`
      builds when none is supplied. */
  predicate DefaultSpaces(s: Setup)
  {
    s.allMaterialsAllTimeIndexes == BuildMaterialTimeIndexes(s.materials, s.t0, s.tmax) &&
    s.materialEquipmentFormulaTimeIndexes ==
      BuildMaterialEquipmentFormulaTimeIndexes(s.materials, s.allEquipment, s.formulas, s.t0, s.tmax)
  }

  /** Every production variable the objective names at an index of the
      all-time space is declared. */
  predicate ProductionIndexesCovered(s: Setup)
  {
    forall x, e, f :: x in s.allMaterialsAllTimeIndexes && e in s.allEquipment && f in s.formulas ==>
      MaterialEquipmentFormulaTimeIndex(x.material, e, f, x.time) in s.materialEquipmentFormulaTimeIndexes
  }

  /** With no index supplied, the optimiser's four spaces are the ones its
      builders build for themselves: the all-time and t0 spaces of every
      builder's context, and the production and equipment-time spaces of the
      production builder. The production index then covers every (material,
      equipment, formula, time) the objective names. */
  lemma DefaultSetupAgreesWithBuilders(
    materials: seq<Material>, allEquipment: seq<Equipment>, formulas: seq<Formula>,
    minimumUnitsInBatch: int, simulationDuration: Time, t0: Time,
    buildEquipmentTimeIndexes: EquipmentTimeIndexBuilder, unshown: Unshown)
    ensures var s := NewSetup(materials, allEquipment, formulas, minimumUnitsInBatch, simulationDuration, t0,
                              None, None, None, None, buildEquipmentTimeIndexes);
            var ctx := DefaultContext(materials, t0, simulationDuration);
            var b := ProductionBuilderOf(s, unshown);
            s.allMaterialsAllTimeIndexes == ctx.allMaterialsAllTimeIndexes &&
            s.allMaterialsT0Index == ctx.allMaterialsT0Index &&
            b.ctx == ctx &&
            s.materialEquipmentFormulaTimeIndexes == b.materialEquipmentFormulaTimeIndexes &&
            s.equipmentTimeIndexes == b.equipmentTimeIndexes &&
            DefaultSpaces(s) && ProductionIndexesCovered(s)
  {
    var s := NewSetup(materials, allEquipment, formulas, minimumUnitsInBatch, simulationDuration, t0,
                      None, None, None, None, buildEquipmentTimeIndexes);
    forall x, e, f | x in s.allMaterialsAllTimeIndexes && e in allEquipment && f in formulas
      ensures MaterialEquipmentFormulaTimeIndex(x.material, e, f, x.time) in s.materialEquipmentFormulaTimeIndexes
    {
      MaterialTimeIndexMember(materials, t0, simulationDuration, x);
      MaterialEquipmentFormulaTimeIndexMember(materials, allEquipment, formulas, t0, simulationDuration,
                                              MaterialEquipmentFormulaTimeIndex(x.material, e, f, x.time));
    }
  }

  // ---------------------------------------------------------------------------
  // Variables

  function ProductionVariable(index: seq<MaterialEquipmentFormulaTimeIndex>): (v: VariableFamily)
    ensures v.id == "production" && |v.vars| == |index|
    ensures forall i :: 0 <= i < |index| ==> v.vars[i] == Production(index[i])
  {
    VariableFamily("production", seq(|index|, i requires 0 <= i < |index| => Production(index[i])))
  }

  function FilledDemandVariable(index: seq<MaterialTimeIndex>): (v: VariableFamily)
    ensures v.id == "filled_demand" && |v.vars| == |index|
    ensures forall i :: 0 <= i < |index| ==> v.vars[i] == FilledDemand(index[i])
  {
    VariableFamily("filled_demand", seq(|index|, i requires 0 <= i < |index| => FilledDemand(index[i])))
  }

  function InventoryVariable(index: seq<MaterialTimeIndex>): (v: VariableFamily)
    ensures v.id == "inventory_quantity" && |v.vars| == |index|
    ensures forall i :: 0 <= i < |index| ==> v.vars[i] == InventoryQuantity(index[i])
  {
    VariableFamily("inventory_quantity", seq(|index|, i requires 0 <= i < |index| => InventoryQuantity(index[i])))
  }

  function PurchasedQtyVariable(index: seq<MaterialTimeIndex>): (v: VariableFamily)
    ensures v.id == "purchased_quantity" && |v.vars| == |index|
    ensures forall i :: 0 <= i < |index| ==> v.vars[i] == PurchasedQuantity(index[i])
  {
    VariableFamily("purchased_quantity", seq(|index|, i requires 0 <= i < |index| => PurchasedQuantity(index[i])))
  }

  function EquipmentStatusVariable(index: seq<EquipmentTimeIndex>): (v: VariableFamily)
    ensures v.id == "equipment_status" && |v.vars| == |index|
    ensures forall i :: 0 <= i < |index| ==> v.vars[i] == EquipmentStatus(index[i])
  {
    VariableFamily("equipment_status", seq(|index|, i requires 0 <= i < |index| => EquipmentStatus(index[i])))
  }

  // ---------------------------------------------------------------------------
  // The objective: for every (m, t) of the all-time space,
  // price * filled - inventory cost * stock - purchase cost * purchased
  // - batch * sum over formula, then equipment, of production cost * batches

  function CostRowExprs(s: Setup, costs: ObjectiveCosts, x: MaterialTimeIndex, f: Formula): (r: seq<Expr>)
    ensures |r| == |s.allEquipment|
  {
    seq(|s.allEquipment|, j requires 0 <= j < |s.allEquipment| =>
      Times(GetOr(costs.production, (s.allEquipment[j], f), 0.0),
            Ref(Production(BuildSingleMaterialEquipmentFormulaTimeIndex(x.material, s.allEquipment[j], f, x.time)))))
  }

  function CostRowValues(s: Setup, costs: ObjectiveCosts, x: MaterialTimeIndex, f: Formula, a: Assignment): (r: seq<real>)
    ensures |r| == |s.allEquipment|
  {
    seq(|s.allEquipment|, j requires 0 <= j < |s.allEquipment| =>
      GetOr(costs.production, (s.allEquipment[j], f), 0.0) *
      a(Production(MaterialEquipmentFormulaTimeIndex(x.material, s.allEquipment[j], f, x.time))))
  }

  function CostExprs(s: Setup, costs: ObjectiveCosts, x: MaterialTimeIndex): (r: seq<Expr>)
    ensures |r| == |s.formulas|
  {
    seq(|s.formulas|, i requires 0 <= i < |s.formulas| => SumExprs(CostRowExprs(s, costs, x, s.formulas[i])))
  }

  function CostValues(s: Setup, costs: ObjectiveCosts, x: MaterialTimeIndex, a: Assignment): (r: seq<real>)
    ensures |r| == |s.formulas|
  {
    seq(|s.formulas|, i requires 0 <= i < |s.formulas| => SumReals(CostRowValues(s, costs, x, s.formulas[i], a)))
  }

  /** The summand of the objective at one index of the all-time space. */
  function ProfitTerm(s: Setup, costs: ObjectiveCosts, sellingPrices: map<Material, real>, x: MaterialTimeIndex): Expr
  {
    var m := x.material;
    Minus(
      Minus(
        Minus(Times(GetOr(sellingPrices, m, 0.0), Ref(FilledDemand(x))),
              Times(GetOr(costs.inventory, m, 0.0), Ref(InventoryQuantity(x)))),
        Times(GetOr(costs.purchase, m, 0.0), Ref(PurchasedQuantity(x)))),
      Times(s.minimumUnitsInBatch as real, SumExprs(CostExprs(s, costs, x))))
  }

  function ProfitTerms(s: Setup, costs: ObjectiveCosts, sellingPrices: map<Material, real>): (r: seq<Expr>)
    ensures |r| == |s.allMaterialsAllTimeIndexes|
  {
    seq(|s.allMaterialsAllTimeIndexes|, p requires 0 <= p < |s.allMaterialsAllTimeIndexes| =>
      ProfitTerm(s, costs, sellingPrices, s.allMaterialsAllTimeIndexes[p]))
  }

  /** One formula's production-cost sum is free of constants. */
  lemma CostRowHomogeneous(s: Setup, costs: ObjectiveCosts, x: MaterialTimeIndex, f: Formula)
    ensures Homogeneous(SumExprs(CostRowExprs(s, costs, x, f)))
  {
    var cells := CostRowExprs(s, costs, x, f);
    forall j | 0 <= j < |cells|
      ensures Homogeneous(cells[j])
    {
      assert cells[j].Times? && cells[j].e.Ref?;
    }
    SumExprsHomogeneous(cells);
  }

  lemma ProfitTermHomogeneous(s: Setup, costs: ObjectiveCosts, sellingPrices: map<Material, real>, x: MaterialTimeIndex)
    ensures Homogeneous(ProfitTerm(s, costs, sellingPrices, x))
  {
    var rows := CostExprs(s, costs, x);
    forall i | 0 <= i < |rows|
      ensures Homogeneous(rows[i])
    {
      CostRowHomogeneous(s, costs, x, s.formulas[i]);
    }
    SumExprsHomogeneous(rows);
    var m := x.material;
    var sold := Times(GetOr(sellingPrices, m, 0.0), Ref(FilledDemand(x)));
    var stocked := Times(GetOr(costs.inventory, m, 0.0), Ref(InventoryQuantity(x)));
    var bought := Times(GetOr(costs.purchase, m, 0.0), Ref(PurchasedQuantity(x)));
    assert Homogeneous(sold) && Homogeneous(stocked) && Homogeneous(bought);
    assert Homogeneous(Minus(Minus(sold, stocked), bought));
  }

  /** `get_objective_function_expression`. It has no constant term. */
  function ObjectiveExpression(s: Setup, costs: ObjectiveCosts, sellingPrices: map<Material, real>): (e: Expr)
    ensures Homogeneous(e)
  {
    var terms := ProfitTerms(s, costs, sellingPrices);
    forall p | 0 <= p < |terms|
      ensures Homogeneous(terms[p])
    {
      ProfitTermHomogeneous(s, costs, sellingPrices, s.allMaterialsAllTimeIndexes[p]);
    }
    SumExprsHomogeneous(terms);
    SumExprs(terms)
  }

  /** The profit of one (m, t) under an assignment. */
  function Profit(s: Setup, costs: ObjectiveCosts, sellingPrices: map<Material, real>, x: MaterialTimeIndex, a: Assignment): real
  {
    var m := x.material;
    GetOr(sellingPrices, m, 0.0) * a(FilledDemand(x))
      - GetOr(costs.inventory, m, 0.0) * a(InventoryQuantity(x))
      - GetOr(costs.purchase, m, 0.0) * a(PurchasedQuantity(x))
      - (s.minimumUnitsInBatch as real) * SumReals(CostValues(s, costs, x, a))
  }

  /** The objective's value: the profits summed over the all-time space. */
  function TotalProfit(s: Setup, costs: ObjectiveCosts, sellingPrices: map<Material, real>, a: Assignment): real
  {
    SumReals(seq(|s.allMaterialsAllTimeIndexes|, p requires 0 <= p < |s.allMaterialsAllTimeIndexes| =>
      Profit(s, costs, sellingPrices, s.allMaterialsAllTimeIndexes[p], a)))
  }

  /** One formula's production-cost sum evaluates to the sum of its costs. */
  lemma CostRowValue(s: Setup, costs: ObjectiveCosts, x: MaterialTimeIndex, f: Formula, a: Assignment)
    ensures Value(SumExprs(CostRowExprs(s, costs, x, f)), a) == SumReals(CostRowValues(s, costs, x, f, a))
  {
    var cells := CostRowExprs(s, costs, x, f);
    var values := CostRowValues(s, costs, x, f, a);
    forall j | 0 <= j < |cells|
      ensures Value(cells[j], a) == values[j]
    {
      var e := s.allEquipment[j];
      assert BuildSingleMaterialEquipmentFormulaTimeIndex(x.material, e, f, x.time)
          == MaterialEquipmentFormulaTimeIndex(x.material, e, f, x.time);
    }
    SumExprsOf(cells, values, a);
  }

  /** The production-cost sum of one (m, t) evaluates to the sum of its costs. */
  lemma CostsValue(s: Setup, costs: ObjectiveCosts, x: MaterialTimeIndex, a: Assignment)
    ensures Value(SumExprs(CostExprs(s, costs, x)), a) == SumReals(CostValues(s, costs, x, a))
  {
    var rows := CostExprs(s, costs, x);
    var values := CostValues(s, costs, x, a);
    forall i | 0 <= i < |rows|
      ensures Value(rows[i], a) == values[i]
    {
      CostRowValue(s, costs, x, s.formulas[i], a);
    }
    SumExprsOf(rows, values, a);
  }

  lemma ProfitTermValue(s: Setup, costs: ObjectiveCosts, sellingPrices: map<Material, real>, x: MaterialTimeIndex, a: Assignment)
    ensures Value(ProfitTerm(s, costs, sellingPrices, x), a) == Profit(s, costs, sellingPrices, x, a)
  {
    CostsValue(s, costs, x, a);
    var m := x.material;
    var sold := Times(GetOr(sellingPrices, m, 0.0), Ref(FilledDemand(x)));
    var stocked := Times(GetOr(costs.inventory, m, 0.0), Ref(InventoryQuantity(x)));
    var bought := Times(GetOr(costs.purchase, m, 0.0), Ref(PurchasedQuantity(x)));
    var made := Times(s.minimumUnitsInBatch as real, SumExprs(CostExprs(s, costs, x)));
    DifferencesValue(sold, stocked, bought, made, a);
  }

  /** `((p - q) - r) - u` evaluates to the differences of the values. */
  lemma DifferencesValue(p: Expr, q: Expr, r: Expr, u: Expr, a: Assignment)
    ensures Value(Minus(Minus(Minus(p, q), r), u), a) == Value(p, a) - Value(q, a) - Value(r, a) - Value(u, a)
  {
    assert Value(Minus(Minus(p, q), r), a) == Value(p, a) - Value(q, a) - Value(r, a);
  }

  /** The objective expression evaluates to the total profit. */
  lemma ObjectiveValue(s: Setup, costs: ObjectiveCosts, sellingPrices: map<Material, real>, a: Assignment)
    ensures Value(ObjectiveExpression(s, costs, sellingPrices), a) == TotalProfit(s, costs, sellingPrices, a)
  {
    var terms := ProfitTerms(s, costs, sellingPrices);
    var profits := seq(|s.allMaterialsAllTimeIndexes|, p requires 0 <= p < |s.allMaterialsAllTimeIndexes| =>
      Profit(s, costs, sellingPrices, s.allMaterialsAllTimeIndexes[p], a));
    forall p | 0 <= p < |terms|
      ensures Value(terms[p], a) == profits[p]
    {
      ProfitTermValue(s, costs, sellingPrices, s.allMaterialsAllTimeIndexes[p], a);
    }
    SumExprsOf(terms, profits, a);
  }

  /** The objective is linear in the assignment, and 0 when nothing is
      produced, stocked, purchased or sold. */
  lemma ObjectiveIsLinear(s: Setup, costs: ObjectiveCosts, sellingPrices: map<Material, real>,
                          c: real, a1: Assignment, a2: Assignment, zero: Assignment)
    requires forall v :: zero(v) == 0.0
    ensures var e := ObjectiveExpression(s, costs, sellingPrices);
            LinearAt(e, c, a1, a2, Combine(c, a1, a2)) && Value(e, zero) == 0.0
  {
    var e := ObjectiveExpression(s, costs, sellingPrices);
    HomogeneousIsLinear(e, c, a1, a2);
    HomogeneousAtZero(e, zero);
  }

  /** The variables the optimiser declares. */
  function DeclaredVars(s: Setup): set<Var>
  {
    (set x | x in s.materialEquipmentFormulaTimeIndexes :: Production(x)) +
    (set x | x in s.allMaterialsAllTimeIndexes :: FilledDemand(x)) +
    (set x | x in s.allMaterialsAllTimeIndexes :: InventoryQuantity(x)) +
    (set x | x in s.allMaterialsAllTimeIndexes :: PurchasedQuantity(x)) +
    (set x | x in s.equipmentTimeIndexes :: EquipmentStatus(x))
  }

  /** One (m, t)'s production costs name only declared production variables. */
  lemma CostRowVars(s: Setup, costs: ObjectiveCosts, x: MaterialTimeIndex, f: Formula)
    requires ProductionIndexesCovered(s)
    requires x in s.allMaterialsAllTimeIndexes && f in s.formulas
    ensures Vars(SumExprs(CostRowExprs(s, costs, x, f))) <= DeclaredVars(s)
  {
    var allowed := DeclaredVars(s);
    var cells := CostRowExprs(s, costs, x, f);
    forall j | 0 <= j < |cells|
      ensures Vars(cells[j]) <= allowed
    {
      var e := s.allEquipment[j];
      var y := MaterialEquipmentFormulaTimeIndex(x.material, e, f, x.time);
      assert e in s.allEquipment;
      assert y in s.materialEquipmentFormulaTimeIndexes;
      assert Production(y) in allowed;
      assert Vars(cells[j]) == {Production(y)};
    }
    SumExprsVars(cells, allowed);
  }

  lemma ProfitTermVars(s: Setup, costs: ObjectiveCosts, sellingPrices: map<Material, real>, x: MaterialTimeIndex)
    requires ProductionIndexesCovered(s)
    requires x in s.allMaterialsAllTimeIndexes
    ensures Vars(ProfitTerm(s, costs, sellingPrices, x)) <= DeclaredVars(s)
  {
    var allowed := DeclaredVars(s);
    var rows := CostExprs(s, costs, x);
    forall i | 0 <= i < |rows|
      ensures Vars(rows[i]) <= allowed
    {
      CostRowVars(s, costs, x, s.formulas[i]);
    }
    SumExprsVars(rows, allowed);
    var m := x.material;
    var sold := Times(GetOr(sellingPrices, m, 0.0), Ref(FilledDemand(x)));
    var stocked := Times(GetOr(costs.inventory, m, 0.0), Ref(InventoryQuantity(x)));
    var bought := Times(GetOr(costs.purchase, m, 0.0), Ref(PurchasedQuantity(x)));
    assert Vars(sold) == {FilledDemand(x)} && Vars(stocked) == {InventoryQuantity(x)};
    assert Vars(bought) == {PurchasedQuantity(x)};
    assert FilledDemand(x) in allowed && InventoryQuantity(x) in allowed && PurchasedQuantity(x) in allowed;
    assert Vars(Minus(Minus(sold, stocked), bought)) <= allowed;
  }

  /** When the production index covers what the objective names (as it does
      with the default index spaces), the objective mentions only declared
      variables. */
  lemma ObjectiveUsesDeclaredVariables(s: Setup, costs: ObjectiveCosts, sellingPrices: map<Material, real>)
    requires ProductionIndexesCovered(s)
    ensures Vars(ObjectiveExpression(s, costs, sellingPrices)) <= DeclaredVars(s)
  {
    var terms := ProfitTerms(s, costs, sellingPrices);
    forall p | 0 <= p < |terms|
      ensures Vars(terms[p]) <= DeclaredVars(s)
    {
      ProfitTermVars(s, costs, sellingPrices, s.allMaterialsAllTimeIndexes[p]);
    }
    SumExprsVars(terms, DeclaredVars(s));
  }

  // ---------------------------------------------------------------------------
  // Results

  /** `col_headers` of `generate_results`: the index columns, then the value
      column. */
  function ColumnHeaders(): map<string, seq<string>>
  {
    map[
      "production" := ["material", "equipment", "formula", "time", "batches"],
      "filled_demand" := ["material", "time", "quantity"],
      "inventory_quantity" := ["material", "time", "quantity"],
      "purchased_quantity" := ["material", "time", "quantity"],
      "equipment_status" := ["equipment", "time", "status"]]
  }

  /** The end-to-end test's value column per result: `status`, `batches`, else `quantity`. */
  function TestQuantityColumn(name: string): string
  {
    if name == "equipment_status" then "status" else if name == "production" then "batches" else "quantity"
  }

  /** Each result's last header is the value column the test filters on, and
      the index columns name the fields of the variable's index record. */
  lemma HeadersMatchTestColumns()
    ensures forall name :: name in ColumnHeaders() ==>
              |ColumnHeaders()[name]| >= 2 && ColumnHeaders()[name][|ColumnHeaders()[name]| - 1] == TestQuantityColumn(name)
    ensures ColumnHeaders()["production"][..4] == ["material", "equipment", "formula", "time"]
    ensures ColumnHeaders()["equipment_status"][..2] == ["equipment", "time"]
  {
    var h := ColumnHeaders();
    assert h["production"][..4] == ["material", "equipment", "formula", "time"];
    assert h["equipment_status"][..2] == ["equipment", "time"];
  }

  /** The named tuple `generate_results` returns. */
  datatype OptimizationResults = OptimizationResults(
    production: Sheet, filledDemand: Sheet, inventoryQuantity: Sheet, purchasedQuantity: Sheet, equipmentStatus: Sheet)

  // ---------------------------------------------------------------------------
  // The model's fields and the steps that set them

  datatype ModelFields = ModelFields(
    production: Option<VariableFamily>,
    filledDemand: Option<VariableFamily>,
    inventoryQuantity: Option<VariableFamily>,
    purchasedQuantity: Option<VariableFamily>,
    equipmentStatus: Option<VariableFamily>,
    initialInventory: Option<Block<Material>>,
    inventoryTmaxGoeThanSafetyStock: Option<Block<Material>>,
    noProductionAtT0: Option<Block<MaterialEquipmentFormulaTimeIndex>>,
    componentsCannotBeProduced: Option<ForeignFamily>,
    productionDoesntExceedCapacity: Option<Block<EquipmentFormulaTimeIndex>>,
    equipmentStatusIsActiveWhenProducing: Option<ForeignFamily>,
    equipmentStatusLoeThanProduction: Option<ForeignFamily>,
    maxContinuousProductionTimeLimit: Option<Block<EquipmentTimeIndex>>,
    noPurchaseQtyAtT0: Option<Block<MaterialTimeIndex>>,
    noFilledDemandAtT0: Option<Block<MaterialTimeIndex>>,
    filledDemandLoeThanDemand: Option<Block<MaterialTimeIndex>>,
    materialFlowBalance: Option<Block<MaterialTimeIndex>>,
    onlyComponentsCanBePurchased: Option<Block<MaterialTimeIndex>>,
    noPurchasingWhenFactoryIsClosed: Option<Block<MaterialTimeIndex>>,
    objective: Option<ObjectiveFunction>,
    results: Option<OptimizationResults>)

  /** Every field unset, as `__init__` leaves them. */
  function Unbuilt(): ModelFields
  {
    ModelFields(None, None, None, None, None, None, None, None, None, None, None,
                None, None, None, None, None, None, None, None, None, None)
  }

  /** The shared context the inventory builder makes for itself. */
  function InventoryContextOf(s: Setup): Context
  {
    DefaultContext(s.materials, s.t0, s.tmax)
  }

  function ProductionBuilderOf(s: Setup, unshown: Unshown): Prod.ProductionBuilder
  {
    Prod.NewProductionBuilder(s.materials, s.t0, s.tmax, s.allEquipment, s.formulas,
                              unshown.equipmentFormulaTimeIndexes, s.buildEquipmentTimeIndexes(s.allEquipment, s.t0, s.tmax))
  }

  function FlowBuilderOf(s: Setup, bom: BomFacts): Flow.FlowBuilder
  {
    Flow.NewFlowBuilder(s.materials, s.t0, s.tmax, s.allEquipment, s.formulas, bom.allParentMaterials, bom.requiredQuantity)
  }

  function DemandBuilderOf(s: Setup, demand: map<MaterialTimeIndex, int>): Dem.DemandBuilder
  {
    Dem.NewDemandBuilder(s.materials, s.t0, s.tmax, demand)
  }

  function PurchasingContextOf(s: Setup): Context
  {
    DefaultContext(s.materials, s.t0, s.tmax)
  }

  function SetOf(xs: seq<Material>): (r: set<Material>)
    ensures forall m :: m in r <==> m in xs
  {
    set m | m in xs
  }

  // Each step of `build_model`, as the fields it leaves behind.

  /** `_create_variables`: the five families over their index spaces. */
  function WithVariables(f: ModelFields, s: Setup): ModelFields
  {
    f.(production := Some(ProductionVariable(s.materialEquipmentFormulaTimeIndexes)),
       filledDemand := Some(FilledDemandVariable(s.allMaterialsAllTimeIndexes)),
       inventoryQuantity := Some(InventoryVariable(s.allMaterialsAllTimeIndexes)),
       purchasedQuantity := Some(PurchasedQtyVariable(s.allMaterialsAllTimeIndexes)),
       equipmentStatus := Some(EquipmentStatusVariable(s.equipmentTimeIndexes)))
  }

  /** `_create_inventory_constraints`, over the builder's own index spaces. */
  function WithInventory(f: ModelFields, s: Setup, initialInventory: map<Material, real>, safetyStock: map<Material, real>): ModelFields
  {
    var ctx := InventoryContextOf(s);
    f.(initialInventory := Some(Inv.InitialInventoryConstraint(ctx, initialInventory)),
       inventoryTmaxGoeThanSafetyStock := Some(Inv.SafetyStockConstraint(ctx, safetyStock)))
  }

  /** `_create_production_constraints`: `no_production_at_t0` is the
      closed-hours family; the component and equipment-status families come
      from builder methods outside this model. */
  function WithProduction(f: ModelFields, s: Setup, componentMaterials: set<Material>,
                          maxCapacity: map<(Equipment, Formula), int>, maxEquipmentProductionContinuousTime: int,
                          unshown: Unshown): ModelFields
  {
    var b := ProductionBuilderOf(s, unshown);
    f.(noProductionAtT0 := Some(Prod.NoProductionWhenFactoryIsClosed(b)),
       componentsCannotBeProduced := Some(unshown.componentsCannotBeProduced(componentMaterials)),
       productionDoesntExceedCapacity := Some(Prod.ProductionDoesntExceedCapacity(b, maxCapacity)),
       equipmentStatusIsActiveWhenProducing := Some(unshown.equipmentStatusIsActiveWhenProducing),
       equipmentStatusLoeThanProduction := Some(unshown.equipmentStatusLoeThanProduction),
       maxContinuousProductionTimeLimit := Some(Prod.MaxContinuousProductionTimeLimit(b, maxEquipmentProductionContinuousTime)))
  }

  /** `_create_material_flow_balance_constraints`. */
  function WithFlow(f: ModelFields, s: Setup, bom: BomFacts): ModelFields
  {
    f.(materialFlowBalance := Some(Flow.MaterialFlowBalance(FlowBuilderOf(s, bom), s.minimumUnitsInBatch)))
  }

  /** `_create_demand_constraints`: `no_filled_demand_at_t0` is the
      filling-hour family. */
  function WithDemand(f: ModelFields, s: Setup, demand: map<MaterialTimeIndex, int>, demandFillingTime: int): ModelFields
  {
    var b := DemandBuilderOf(s, demand);
    f.(noFilledDemandAtT0 := Some(Dem.DemandIsFilledOnlyAtConcreteTimeInADay(b, demandFillingTime)),
       filledDemandLoeThanDemand := Some(Dem.FilledDemandLoeThanDemand(b)))
  }

  /** `_create_purchasing_constraints`. */
  function WithPurchasing(f: ModelFields, s: Setup, allParentMaterials: set<Material>): ModelFields
  {
    var ctx := PurchasingContextOf(s);
    f.(onlyComponentsCanBePurchased := Some(Pur.OnlyComponentsCanBePurchased(ctx, allParentMaterials)),
       noPurchasingWhenFactoryIsClosed := Some(Pur.NoPurchasingWhenFactoryIsClosed(ctx)))
  }

  /** `_build_objective_function`: the objective expression, maximised. */
  function WithObjective(f: ModelFields, s: Setup, costs: ObjectiveCosts, sellingPrices: map<Material, real>): ModelFields
  {
    f.(objective := Some(ObjectiveFunction(ObjectiveExpression(s, costs, sellingPrices), Maximize)))
  }

  /** `build_model`: the seven steps in their fixed order, with production
      given the set of component materials and purchasing the set of parent
      materials, a run limit of 4 periods and a filling hour of 8.
      `no_purchase_qty_at_t0` and `results` keep their values. */
  function Built(f: ModelFields, s: Setup, inputs: Inputs): ModelFields
  {
    var f1 := WithVariables(f, s);
    var f2 := WithInventory(f1, s, inputs.initialInventory, inputs.safetyStock);
    var f3 := WithProduction(f2, s, SetOf(inputs.bom.allComponentMaterials), inputs.maxCapacity,
                             DefaultMaxContinuousTime, inputs.unshown);
    var f4 := WithFlow(f3, s, inputs.bom);
    var f5 := WithDemand(f4, s, inputs.demand, DefaultDemandFillingTime);
    var f6 := WithPurchasing(f5, s, SetOf(inputs.bom.allParentMaterials));
    WithObjective(f6, s, inputs.costs, inputs.sellingPrices)
  }

  // ---------------------------------------------------------------------------
  // What a feasible assignment of the built model satisfies

  predicate SatisfiedIfSet<I>(b: Option<Block<I>>, a: Assignment)
  {
    b.Some? ==> Satisfied(b.value, a)
  }

  predicate ObeyedIfSet(b: Option<ForeignFamily>, a: Assignment)
  {
    b.Some? ==> forall p :: 0 <= p < |b.value.rows| ==> Obeys(b.value.rows[p], a)
  }

  /** Declared as `NonNegativeReals`. */
  predicate NonNegativeIfSet(v: Option<VariableFamily>, a: Assignment)
  {
    v.Some? ==> forall i :: 0 <= i < |v.value.vars| ==> a(v.value.vars[i]) >= 0.0
  }

  /** A candidate solution: every set family holds, and the four
      non-negative variable families are non-negative. */
  predicate Feasible(f: ModelFields, a: Assignment)
  {
    NonNegativeIfSet(f.production, a) && NonNegativeIfSet(f.filledDemand, a) &&
    NonNegativeIfSet(f.inventoryQuantity, a) && NonNegativeIfSet(f.purchasedQuantity, a) &&
    SatisfiedIfSet(f.initialInventory, a) && SatisfiedIfSet(f.inventoryTmaxGoeThanSafetyStock, a) &&
    SatisfiedIfSet(f.noProductionAtT0, a) && ObeyedIfSet(f.componentsCannotBeProduced, a) &&
    SatisfiedIfSet(f.productionDoesntExceedCapacity, a) &&
    ObeyedIfSet(f.equipmentStatusIsActiveWhenProducing, a) && ObeyedIfSet(f.equipmentStatusLoeThanProduction, a) &&
    SatisfiedIfSet(f.maxContinuousProductionTimeLimit, a) && SatisfiedIfSet(f.noPurchaseQtyAtT0, a) &&
    SatisfiedIfSet(f.noFilledDemandAtT0, a) && SatisfiedIfSet(f.filledDemandLoeThanDemand, a) &&
    SatisfiedIfSet(f.materialFlowBalance, a) &&
    SatisfiedIfSet(f.onlyComponentsCanBePurchased, a) && SatisfiedIfSet(f.noPurchasingWhenFactoryIsClosed, a)
  }

  /** A feasible assignment of the built model starts every material at its
      initial inventory and ends it at or above its safety stock; both
      dictionaries must list every material. */
  lemma BuiltModelInventory(f: ModelFields, s: Setup, inputs: Inputs, a: Assignment, m: Material)
    requires Feasible(Built(f, s, inputs), a)
    requires m in s.materials
    ensures m in inputs.initialInventory && m in inputs.safetyStock
    ensures a(InventoryQuantity(MaterialTimeIndex(m, s.t0))) == inputs.initialInventory[m]
    ensures a(InventoryQuantity(MaterialTimeIndex(m, s.tmax))) >= inputs.safetyStock[m]
  {
    var ctx := InventoryContextOf(s);
    assert Satisfied(Inv.InitialInventoryConstraint(ctx, inputs.initialInventory), a);
    assert Satisfied(Inv.SafetyStockConstraint(ctx, inputs.safetyStock), a);
    Inv.InitialInventorySatisfied(ctx, inputs.initialInventory, a);
    Inv.SafetyStockSatisfied(ctx, inputs.safetyStock, a);
  }

  /** ... produces nothing while the factory is closed ... */
  lemma BuiltModelProduction(f: ModelFields, s: Setup, inputs: Inputs, a: Assignment, x: MaterialEquipmentFormulaTimeIndex)
    requires Feasible(Built(f, s, inputs), a)
    requires x.material in s.materials && x.equipment in s.allEquipment && x.formula in s.formulas
    requires s.t0 <= x.time <= s.tmax && Prod.FactoryClosed(x.time)
    ensures a(Production(x)) == 0.0
  {
    var b := ProductionBuilderOf(s, inputs.unshown);
    assert Satisfied(Prod.NoProductionWhenFactoryIsClosed(b), a);
    Prod.ClosedHoursSatisfied(b, a);
  }

  /** ... purchases only materials not made in-house, at an hour from 8 to 20 ... */
  lemma BuiltModelPurchases(f: ModelFields, s: Setup, inputs: Inputs, a: Assignment, x: MaterialTimeIndex)
    requires Feasible(Built(f, s, inputs), a)
    requires x.material in s.materials && s.t0 <= x.time <= s.tmax
    requires a(PurchasedQuantity(x)) != 0.0
    ensures x.material !in inputs.bom.allParentMaterials && 8 <= x.time % 24 <= 20
  {
    var ctx := PurchasingContextOf(s);
    var parents := SetOf(inputs.bom.allParentMaterials);
    MaterialTimeIndexMember(s.materials, s.t0, s.tmax, x);
    assert Satisfied(Pur.OnlyComponentsCanBePurchased(ctx, parents), a);
    assert Satisfied(Pur.NoPurchasingWhenFactoryIsClosed(ctx), a);
    Pur.PurchaseOnlyOfComponentsDuringOpeningHours(ctx, parents, a, x);
  }

  /** ... and fills demand only at 8:00 and never beyond the order. */
  lemma BuiltModelDemand(f: ModelFields, s: Setup, inputs: Inputs, a: Assignment, x: MaterialTimeIndex)
    requires Feasible(Built(f, s, inputs), a)
    requires x.material in s.materials && s.t0 <= x.time <= s.tmax
    ensures a(FilledDemand(x)) <= GetOr(inputs.demand, x, 0) as real
    ensures x.time % 24 != DefaultDemandFillingTime ==> a(FilledDemand(x)) == 0.0
  {
    var b := DemandBuilderOf(s, inputs.demand);
    MaterialTimeIndexMember(s.materials, s.t0, s.tmax, x);
    assert Satisfied(Dem.DemandIsFilledOnlyAtConcreteTimeInADay(b, DefaultDemandFillingTime), a);
    assert Satisfied(Dem.FilledDemandLoeThanDemand(b), a);
    Dem.FillingHourSatisfied(b, DefaultDemandFillingTime, a);
    Dem.DemandCeilingSatisfied(b, a);
  }

  /** Over the horizon, the net flows of every material cover what its
      safety stock asks beyond its initial inventory. */
  lemma BuiltModelNetFlowCoversSafetyStock(f: ModelFields, s: Setup, inputs: Inputs, a: Assignment, m: Material)
    requires Feasible(Built(f, s, inputs), a)
    requires m in s.materials && s.t0 <= s.tmax
    ensures m in inputs.initialInventory && m in inputs.safetyStock
    ensures inputs.initialInventory[m] +
              SumReals(Flow.NetFlows(FlowBuilderOf(s, inputs.bom), s.minimumUnitsInBatch, m, s.t0, s.tmax, a))
            >= inputs.safetyStock[m]
  {
    BuiltModelInventory(f, s, inputs, a, m);
    var b := FlowBuilderOf(s, inputs.bom);
    assert Satisfied(Flow.MaterialFlowBalance(b, s.minimumUnitsInBatch), a);
    Flow.InventoryTelescopes(b, s.minimumUnitsInBatch, m, s.tmax, a);
  }

  // Which variables the built families name

  /** Over the default spaces, the stock, purchase and filled demand of a
      listed material at an instant of the horizon, and its batches on a
      listed equipment with a listed formula, are declared variables. */
  lemma DeclaredAtDefaultSpaces(s: Setup, m: Material, t: Time)
    requires DefaultSpaces(s) && m in s.materials && s.t0 <= t <= s.tmax
    ensures InventoryQuantity(MaterialTimeIndex(m, t)) in DeclaredVars(s)
    ensures PurchasedQuantity(MaterialTimeIndex(m, t)) in DeclaredVars(s)
    ensures FilledDemand(MaterialTimeIndex(m, t)) in DeclaredVars(s)
    ensures forall e, f :: e in s.allEquipment && f in s.formulas ==>
              Production(MaterialEquipmentFormulaTimeIndex(m, e, f, t)) in DeclaredVars(s)
  {
    MaterialTimeIndexMember(s.materials, s.t0, s.tmax, MaterialTimeIndex(m, t));
    forall e, f | e in s.allEquipment && f in s.formulas
      ensures Production(MaterialEquipmentFormulaTimeIndex(m, e, f, t)) in DeclaredVars(s)
    {
      MaterialEquipmentFormulaTimeIndexMember(s.materials, s.allEquipment, s.formulas, s.t0, s.tmax,
                                              MaterialEquipmentFormulaTimeIndex(m, e, f, t));
    }
  }

  lemma InventoryFamiliesUseDeclaredVariables(s: Setup, initialInventory: map<Material, real>, safetyStock: map<Material, real>)
    requires DefaultSpaces(s) && s.t0 <= s.tmax
    ensures MentionsOnly(Inv.InitialInventoryConstraint(InventoryContextOf(s), initialInventory), DeclaredVars(s))
    ensures MentionsOnly(Inv.SafetyStockConstraint(InventoryContextOf(s), safetyStock), DeclaredVars(s))
  {
    var ctx := InventoryContextOf(s);
    var initial := Inv.InitialInventoryConstraint(ctx, initialInventory);
    var safety := Inv.SafetyStockConstraint(ctx, safetyStock);
    forall p | 0 <= p < |s.materials|
      ensures RuleVars(initial.rows[p]) <= DeclaredVars(s) && RuleVars(safety.rows[p]) <= DeclaredVars(s)
    {
      var m := s.materials[p];
      T0IndexOnePerMaterial([m], s.t0);
      T0IndexOnePerMaterial([m], s.tmax);
      DeclaredAtDefaultSpaces(s, m, s.t0);
      DeclaredAtDefaultSpaces(s, m, s.tmax);
    }
  }

  lemma DemandFamiliesUseDeclaredVariables(s: Setup, demand: map<MaterialTimeIndex, int>)
    requires DefaultSpaces(s)
    ensures var b := DemandBuilderOf(s, demand);
            MentionsOnly(Dem.DemandIsFilledOnlyAtConcreteTimeInADay(b, DefaultDemandFillingTime), DeclaredVars(s)) &&
            MentionsOnly(Dem.FilledDemandLoeThanDemand(b), DeclaredVars(s))
  {
    forall x | x in s.allMaterialsAllTimeIndexes
      ensures FilledDemand(x) in DeclaredVars(s)
    {
    }
  }

  lemma PurchasingFamiliesUseDeclaredVariables(s: Setup, parents: set<Material>)
    requires DefaultSpaces(s)
    ensures var ctx := PurchasingContextOf(s);
            MentionsOnly(Pur.OnlyComponentsCanBePurchased(ctx, parents), DeclaredVars(s)) &&
            MentionsOnly(Pur.NoPurchasingWhenFactoryIsClosed(ctx), DeclaredVars(s))
  {
    forall x | x in s.allMaterialsAllTimeIndexes
      ensures PurchasedQuantity(x) in DeclaredVars(s)
    {
    }
  }

  lemma ClosedHoursUsesDeclaredVariables(s: Setup, unshown: Unshown)
    requires DefaultSpaces(s)
    ensures MentionsOnly(Prod.NoProductionWhenFactoryIsClosed(ProductionBuilderOf(s, unshown)), DeclaredVars(s))
  {
    var c := Prod.NoProductionWhenFactoryIsClosed(ProductionBuilderOf(s, unshown));
    forall p | 0 <= p < |c.rows|
      ensures RuleVars(c.rows[p]) <= DeclaredVars(s)
    {
      assert c.index[p] in s.materialEquipmentFormulaTimeIndexes;
    }
  }

  /** Over the default spaces, what the balance at (m, t) may name is
      declared when t is before tmax and every parent is a listed material. */
  lemma FlowVarsDeclared(s: Setup, bom: BomFacts, m: Material, t: Time)
    requires DefaultSpaces(s) && m in s.materials && s.t0 <= t < s.tmax
    requires forall p :: p in bom.allParentMaterials ==> p in s.materials
    ensures Flow.FlowVars(FlowBuilderOf(s, bom), m, t) <= DeclaredVars(s)
  {
    var b := FlowBuilderOf(s, bom);
    DeclaredAtDefaultSpaces(s, m, t);
    DeclaredAtDefaultSpaces(s, m, t + 1);
    forall v | v in Flow.FlowVars(b, m, t)
      ensures v in DeclaredVars(s)
    {
      if v !in {Flow.Inventory(m, t), Flow.Inventory(m, t + 1), Flow.Purchased(m, t), Flow.Filled(m, t)} {
        var p, e, f :| p in [m] + b.parentMaterials && e in b.allEquipment && f in b.formulas &&
                       v == Flow.ProductionVar(p, e, f, t);
        DeclaredAtDefaultSpaces(s, p, t);
      }
    }
  }

  lemma FlowUsesDeclaredVariables(s: Setup, bom: BomFacts)
    requires DefaultSpaces(s)
    requires forall p :: p in bom.allParentMaterials ==> p in s.materials
    ensures MentionsOnly(Flow.MaterialFlowBalance(FlowBuilderOf(s, bom), s.minimumUnitsInBatch), DeclaredVars(s))
  {
    var b := FlowBuilderOf(s, bom);
    var c := Flow.MaterialFlowBalance(b, s.minimumUnitsInBatch);
    forall k | 0 <= k < |c.rows|
      ensures RuleVars(c.rows[k]) <= DeclaredVars(s)
    {
      var x := c.index[k];
      Flow.FlowRuleVars(b, s.minimumUnitsInBatch, x);
      if x.time != s.tmax {
        MaterialTimeIndexMember(s.materials, s.t0, s.tmax, x);
        FlowVarsDeclared(s, bom, x.material, x.time);
      }
    }
  }

  /** Over the default spaces and a non-empty horizon, every family whose
      index space this model builds names only declared variables: both
      inventory families, the closed-hours gate on production, the flow
      balance when every parent is a listed material, and both demand and
      both purchasing families. */
  lemma BuiltFamiliesUseDeclaredVariables(f: ModelFields, s: Setup, inputs: Inputs)
    requires DefaultSpaces(s) && s.t0 <= s.tmax
    requires forall p :: p in inputs.bom.allParentMaterials ==> p in s.materials
    ensures var b := Built(f, s, inputs);
            var allowed := DeclaredVars(s);
            MentionsOnly(b.initialInventory.value, allowed) &&
            MentionsOnly(b.inventoryTmaxGoeThanSafetyStock.value, allowed) &&
            MentionsOnly(b.noProductionAtT0.value, allowed) &&
            MentionsOnly(b.materialFlowBalance.value, allowed) &&
            MentionsOnly(b.noFilledDemandAtT0.value, allowed) &&
            MentionsOnly(b.filledDemandLoeThanDemand.value, allowed) &&
            MentionsOnly(b.onlyComponentsCanBePurchased.value, allowed) &&
            MentionsOnly(b.noPurchasingWhenFactoryIsClosed.value, allowed)
  {
    InventoryFamiliesUseDeclaredVariables(s, inputs.initialInventory, inputs.safetyStock);
    ClosedHoursUsesDeclaredVariables(s, inputs.unshown);
    FlowUsesDeclaredVariables(s, inputs.bom);
    DemandFamiliesUseDeclaredVariables(s, inputs.demand);
    PurchasingFamiliesUseDeclaredVariables(s, SetOf(inputs.bom.allParentMaterials));
  }

  // The results

  /** The tables `generate_results` keys by identifier: one per family, in
      list order, a later family overwriting an earlier one with the same
      identifier. */
  function TablesOf(families: seq<VariableFamily>, toTable: (VariableFamily, map<string, seq<string>>) -> Sheet, headers: map<string, seq<string>>): map<string, Sheet>
  {
    if families == [] then map[]
    else
      var n := |families| - 1;
      TablesOf(families[..n], toTable, headers)[families[n].id := toTable(families[n], headers)]
  }

  /** There is one table per identifier some family carries, and no other. */
  lemma {:induction false} TablesOfDomain(families: seq<VariableFamily>, toTable: (VariableFamily, map<string, seq<string>>) -> Sheet, headers: map<string, seq<string>>, id: string)
    ensures id in TablesOf(families, toTable, headers) <==> exists k :: 0 <= k < |families| && families[k].id == id
  {
    if families != [] {
      var n := |families| - 1;
      TablesOfDomain(families[..n], toTable, headers, id);
      if id in TablesOf(families[..n], toTable, headers) {
        var k :| 0 <= k < n && families[..n][k].id == id;
        assert families[k].id == id;
      }
      if k :| 0 <= k < |families| && families[k].id == id {
        if k < n {
          assert families[..n][k] == families[k];
        }
      }
    }
  }

  /** The five variable families are set, each with its own identifier. */
  predicate AllDeclared(f: ModelFields)
  {
    f.production.Some? && f.production.value.id == "production" &&
    f.filledDemand.Some? && f.filledDemand.value.id == "filled_demand" &&
    f.inventoryQuantity.Some? && f.inventoryQuantity.value.id == "inventory_quantity" &&
    f.purchasedQuantity.Some? && f.purchasedQuantity.value.id == "purchased_quantity" &&
    f.equipmentStatus.Some? && f.equipmentStatus.value.id == "equipment_status"
  }

  /** `generate_results` on the given fields: reading the identifier of a
      family not yet created fails with an `AttributeError`; a result name
      no family carries fails with a `KeyError`. */
  function ResultsOf(f: ModelFields, toTable: (VariableFamily, map<string, seq<string>>) -> Sheet, headers: map<string, seq<string>>): (r: Result<OptimizationResults>)
    ensures r == Err(AttributeError("id")) <==>
              f.production.None? || f.filledDemand.None? || f.inventoryQuantity.None? ||
              f.purchasedQuantity.None? || f.equipmentStatus.None?
  {
    if f.production.None? || f.filledDemand.None? || f.inventoryQuantity.None? ||
       f.purchasedQuantity.None? || f.equipmentStatus.None? then
      Err(AttributeError("id"))
    else
      var families := [f.production.value, f.filledDemand.value, f.inventoryQuantity.value,
                       f.purchasedQuantity.value, f.equipmentStatus.value];
      ResultTuple(TablesOf(families, toTable, headers))
  }

  /** The named tuple read from the tables by result name; the first name
      without a table fails with a `KeyError`. */
  function ResultTuple(t: map<string, Sheet>): (r: Result<OptimizationResults>)
    ensures r.Ok? <==> "production" in t && "filled_demand" in t && "inventory_quantity" in t &&
                       "purchased_quantity" in t && "equipment_status" in t
    ensures r.Ok? ==> r.value == OptimizationResults(t["production"], t["filled_demand"], t["inventory_quantity"],
                                                     t["purchased_quantity"], t["equipment_status"])
    ensures r.Err? ==> r.error.KeyError? && r.error.key !in t
  {
    if "production" !in t then Err(KeyError("production"))
    else if "filled_demand" !in t then Err(KeyError("filled_demand"))
    else if "inventory_quantity" !in t then Err(KeyError("inventory_quantity"))
    else if "purchased_quantity" !in t then Err(KeyError("purchased_quantity"))
    else if "equipment_status" !in t then Err(KeyError("equipment_status"))
    else Ok(OptimizationResults(t["production"], t["filled_demand"], t["inventory_quantity"],
                                t["purchased_quantity"], t["equipment_status"]))
  }

  /** A family whose identifier no later family reuses keeps its own table. */
  lemma {:induction false} TablesOfLookup(families: seq<VariableFamily>, toTable: (VariableFamily, map<string, seq<string>>) -> Sheet, headers: map<string, seq<string>>, k: nat)
    requires k < |families|
    requires forall j :: k < j < |families| ==> families[j].id != families[k].id
    ensures families[k].id in TablesOf(families, toTable, headers)
    ensures TablesOf(families, toTable, headers)[families[k].id] == toTable(families[k], headers)
  {
    var n := |families| - 1;
    if k < n {
      assert forall j :: k < j < n ==> families[..n][j] == families[j];
      TablesOfLookup(families[..n], toTable, headers, k);
    }
  }

  /** With every family declared under its own identifier, the results are
      one table per family. */
  lemma DeclaredModelResults(f: ModelFields, toTable: (VariableFamily, map<string, seq<string>>) -> Sheet, headers: map<string, seq<string>>)
    requires AllDeclared(f)
    ensures ResultsOf(f, toTable, headers) == Ok(OptimizationResults(
              toTable(f.production.value, headers), toTable(f.filledDemand.value, headers),
              toTable(f.inventoryQuantity.value, headers), toTable(f.purchasedQuantity.value, headers),
              toTable(f.equipmentStatus.value, headers)))
  {
    var families := [f.production.value, f.filledDemand.value, f.inventoryQuantity.value,
                     f.purchasedQuantity.value, f.equipmentStatus.value];
    TablesOfLookup(families, toTable, headers, 0);
    TablesOfLookup(families, toTable, headers, 1);
    TablesOfLookup(families, toTable, headers, 2);
    TablesOfLookup(families, toTable, headers, 3);
    TablesOfLookup(families, toTable, headers, 4);
  }

  /** The built model declares every variable family under its own
      identifier, so its results are one table per family. */
  lemma BuiltModelDeclaresAllVariables(f: ModelFields, s: Setup, inputs: Inputs)
    ensures AllDeclared(Built(f, s, inputs))
  {
    var b := Built(f, s, inputs);
    var f1 := WithVariables(f, s);
    assert b.production == f1.production && b.filledDemand == f1.filledDemand;
    assert b.inventoryQuantity == f1.inventoryQuantity && b.purchasedQuantity == f1.purchasedQuantity;
    assert b.equipmentStatus == f1.equipmentStatus;
  }

  /** Before `build_model` no variable exists, so results cannot be read. */
  lemma UnbuiltModelHasNoResults(toTable: (VariableFamily, map<string, seq<string>>) -> Sheet, headers: map<string, seq<string>>)
    ensures ResultsOf(Unbuilt(), toTable, headers) == Err(AttributeError("id"))
  {
  }

  /** Building again from a built model changes nothing: every step
      overwrites its own fields with the same families. */
  lemma BuildingTwiceIsBuildingOnce(f: ModelFields, s: Setup, inputs: Inputs)
    ensures Built(Built(f, s, inputs), s, inputs) == Built(f, s, inputs)
  {
  }

  // ---------------------------------------------------------------------------
  // The optimiser object

  class ManufacturingOptimizer {
    const materials: seq<Material>
    const allEquipment: seq<Equipment>
    const formulas: seq<Formula>
    const minimumUnitsInBatch: int
    const tmax: Time
    const t0: Time
    const allMaterialsAllTimeIndexes: seq<MaterialTimeIndex>
    const allMaterialsT0Index: seq<MaterialTimeIndex>
    const materialEquipmentFormulaTimeIndexes: seq<MaterialEquipmentFormulaTimeIndex>
    const equipmentTimeIndexes: seq<EquipmentTimeIndex>
    const buildEquipmentTimeIndexes: EquipmentTimeIndexBuilder

    var production: Option<VariableFamily>
    var filledDemand: Option<VariableFamily>
    var inventoryQuantity: Option<VariableFamily>
    var purchasedQuantity: Option<VariableFamily>
    var equipmentStatus: Option<VariableFamily>

    var initialInventory: Option<Block<Material>>
    var inventoryTmaxGoeThanSafetyStock: Option<Block<Material>>
    var noProductionAtT0: Option<Block<MaterialEquipmentFormulaTimeIndex>>
    var componentsCannotBeProduced: Option<ForeignFamily>
    var productionDoesntExceedCapacity: Option<Block<EquipmentFormulaTimeIndex>>
    var equipmentStatusIsActiveWhenProducing: Option<ForeignFamily>
    var equipmentStatusLoeThanProduction: Option<ForeignFamily>
    var maxContinuousProductionTimeLimit: Option<Block<EquipmentTimeIndex>>
    var noPurchaseQtyAtT0: Option<Block<MaterialTimeIndex>>
    var noFilledDemandAtT0: Option<Block<MaterialTimeIndex>>
    var filledDemandLoeThanDemand: Option<Block<MaterialTimeIndex>>
    var materialFlowBalance: Option<Block<MaterialTimeIndex>>
    var onlyComponentsCanBePurchased: Option<Block<MaterialTimeIndex>>
    var noPurchasingWhenFactoryIsClosed: Option<Block<MaterialTimeIndex>>

    var objective: Option<ObjectiveFunction>
    var results: Option<OptimizationResults>

    function SetupOf(): Setup
    {
      Setup(materials, allEquipment, formulas, minimumUnitsInBatch, tmax, t0,
            allMaterialsAllTimeIndexes, allMaterialsT0Index, materialEquipmentFormulaTimeIndexes, equipmentTimeIndexes,
            buildEquipmentTimeIndexes)
    }

    function State(): ModelFields
      reads this
    {
      ModelFields(
        production, filledDemand, inventoryQuantity, purchasedQuantity, equipmentStatus,
        initialInventory, inventoryTmaxGoeThanSafetyStock,
        noProductionAtT0, componentsCannotBeProduced, productionDoesntExceedCapacity,
        equipmentStatusIsActiveWhenProducing, equipmentStatusLoeThanProduction, maxContinuousProductionTimeLimit,
        noPurchaseQtyAtT0, noFilledDemandAtT0, filledDemandLoeThanDemand, materialFlowBalance,
        onlyComponentsCanBePurchased, noPurchasingWhenFactoryIsClosed, objective, results)
    }

    /** Store every field of `next`. Each step stores the fields of its
        model, in which only its own fields differ from the current ones. */
    method Store(next: ModelFields)
      modifies this
      ensures State() == next
    {
      StoreVariables(next);
      StoreConstraints(next);
      StoreOthers(next);
    }

    method StoreVariables(next: ModelFields)
      modifies this`production, this`filledDemand, this`inventoryQuantity, this`purchasedQuantity, this`equipmentStatus
      ensures production == next.production && filledDemand == next.filledDemand
      ensures inventoryQuantity == next.inventoryQuantity && purchasedQuantity == next.purchasedQuantity
      ensures equipmentStatus == next.equipmentStatus
    {
      production, filledDemand, inventoryQuantity := next.production, next.filledDemand, next.inventoryQuantity;
      purchasedQuantity, equipmentStatus := next.purchasedQuantity, next.equipmentStatus;
    }

    method StoreConstraints(next: ModelFields)
      modifies this`initialInventory, this`inventoryTmaxGoeThanSafetyStock, this`noProductionAtT0,
               this`componentsCannotBeProduced, this`productionDoesntExceedCapacity,
               this`equipmentStatusIsActiveWhenProducing, this`equipmentStatusLoeThanProduction,
               this`maxContinuousProductionTimeLimit
      ensures initialInventory == next.initialInventory && inventoryTmaxGoeThanSafetyStock == next.inventoryTmaxGoeThanSafetyStock
      ensures noProductionAtT0 == next.noProductionAtT0 && componentsCannotBeProduced == next.componentsCannotBeProduced
      ensures productionDoesntExceedCapacity == next.productionDoesntExceedCapacity
      ensures equipmentStatusIsActiveWhenProducing == next.equipmentStatusIsActiveWhenProducing
      ensures equipmentStatusLoeThanProduction == next.equipmentStatusLoeThanProduction
      ensures maxContinuousProductionTimeLimit == next.maxContinuousProductionTimeLimit
    {
      initialInventory, inventoryTmaxGoeThanSafetyStock := next.initialInventory, next.inventoryTmaxGoeThanSafetyStock;
      noProductionAtT0, componentsCannotBeProduced := next.noProductionAtT0, next.componentsCannotBeProduced;
      productionDoesntExceedCapacity := next.productionDoesntExceedCapacity;
      equipmentStatusIsActiveWhenProducing := next.equipmentStatusIsActiveWhenProducing;
      equipmentStatusLoeThanProduction := next.equipmentStatusLoeThanProduction;
      maxContinuousProductionTimeLimit := next.maxContinuousProductionTimeLimit;
    }

    method StoreOthers(next: ModelFields)
      modifies this`noPurchaseQtyAtT0, this`noFilledDemandAtT0, this`filledDemandLoeThanDemand, this`materialFlowBalance,
               this`onlyComponentsCanBePurchased, this`noPurchasingWhenFactoryIsClosed, this`objective, this`results
      ensures noPurchaseQtyAtT0 == next.noPurchaseQtyAtT0 && noFilledDemandAtT0 == next.noFilledDemandAtT0
      ensures filledDemandLoeThanDemand == next.filledDemandLoeThanDemand && materialFlowBalance == next.materialFlowBalance
      ensures onlyComponentsCanBePurchased == next.onlyComponentsCanBePurchased
      ensures noPurchasingWhenFactoryIsClosed == next.noPurchasingWhenFactoryIsClosed
      ensures objective == next.objective && results == next.results
    {
      noPurchaseQtyAtT0, noFilledDemandAtT0 := next.noPurchaseQtyAtT0, next.noFilledDemandAtT0;
      filledDemandLoeThanDemand, materialFlowBalance := next.filledDemandLoeThanDemand, next.materialFlowBalance;
      onlyComponentsCanBePurchased := next.onlyComponentsCanBePurchased;
      noPurchasingWhenFactoryIsClosed := next.noPurchasingWhenFactoryIsClosed;
      objective, results := next.objective, next.results;
    }

    /** `ManufacturingOptimizer.__init__`. */
    constructor(
      materials: seq<Material>, allEquipment: seq<Equipment>, formulas: seq<Formula>,
      minimumUnitsInBatch: int, simulationDuration: Time, t0: Time,
      allMaterialsAllTimeIndexes: Option<seq<MaterialTimeIndex>>,
      allMaterialsT0Index: Option<seq<MaterialTimeIndex>>,
      materialEquipmentFormulaTimeIndexes: Option<seq<MaterialEquipmentFormulaTimeIndex>>,
      equipmentTimeIndexes: Option<seq<EquipmentTimeIndex>>,
      buildEquipmentTimeIndexes: EquipmentTimeIndexBuilder)
      ensures SetupOf() == NewSetup(materials, allEquipment, formulas, minimumUnitsInBatch, simulationDuration, t0,
                                    allMaterialsAllTimeIndexes, allMaterialsT0Index,
                                    materialEquipmentFormulaTimeIndexes, equipmentTimeIndexes, buildEquipmentTimeIndexes)
      ensures State() == Unbuilt()
    {
      var s := NewSetup(materials, allEquipment, formulas, minimumUnitsInBatch, simulationDuration, t0,
                        allMaterialsAllTimeIndexes, allMaterialsT0Index,
                        materialEquipmentFormulaTimeIndexes, equipmentTimeIndexes, buildEquipmentTimeIndexes);
      this.materials := s.materials;
      this.allEquipment := s.allEquipment;
      this.formulas := s.formulas;
      this.minimumUnitsInBatch := s.minimumUnitsInBatch;
      this.tmax := s.tmax;
      this.t0 := s.t0;
      this.allMaterialsAllTimeIndexes := s.allMaterialsAllTimeIndexes;
      this.allMaterialsT0Index := s.allMaterialsT0Index;
      this.materialEquipmentFormulaTimeIndexes := s.materialEquipmentFormulaTimeIndexes;
      this.equipmentTimeIndexes := s.equipmentTimeIndexes;
      this.buildEquipmentTimeIndexes := s.buildEquipmentTimeIndexes;
      production, filledDemand, inventoryQuantity, purchasedQuantity, equipmentStatus := None, None, None, None, None;
      initialInventory, inventoryTmaxGoeThanSafetyStock := None, None;
      noProductionAtT0, componentsCannotBeProduced, productionDoesntExceedCapacity := None, None, None;
      equipmentStatusIsActiveWhenProducing, equipmentStatusLoeThanProduction := None, None;
      maxContinuousProductionTimeLimit, noPurchaseQtyAtT0 := None, None;
      noFilledDemandAtT0, filledDemandLoeThanDemand, materialFlowBalance := None, None, None;
      onlyComponentsCanBePurchased, noPurchasingWhenFactoryIsClosed := None, None;
      objective, results := None, None;
    }

    /** `_create_variables`: declares the five variable families. */
    method CreateVariables()
      modifies this
      ensures State() == WithVariables(old(State()), SetupOf())
    {
      Store(WithVariables(State(), SetupOf()));
    }

    /** `_create_inventory_constraints`. */
    method CreateInventoryConstraints(initialInventory: map<Material, real>, safetyStock: map<Material, real>)
      modifies this
      ensures State() == WithInventory(old(State()), SetupOf(), initialInventory, safetyStock)
    {
      Store(WithInventory(State(), SetupOf(), initialInventory, safetyStock));
    }

    /** `_create_production_constraints`. */
    method CreateProductionConstraints(componentMaterials: set<Material>, maxCapacity: map<(Equipment, Formula), int>,
                                       maxEquipmentProductionContinuousTime: int, unshown: Unshown)
      modifies this
      ensures State() == WithProduction(old(State()), SetupOf(), componentMaterials, maxCapacity,
                                        maxEquipmentProductionContinuousTime, unshown)
    {
      Store(WithProduction(State(), SetupOf(), componentMaterials, maxCapacity, maxEquipmentProductionContinuousTime, unshown));
    }

    /** `_create_material_flow_balance_constraints`. */
    method CreateMaterialFlowBalanceConstraints(bom: BomFacts)
      modifies this
      ensures State() == WithFlow(old(State()), SetupOf(), bom)
    {
      Store(WithFlow(State(), SetupOf(), bom));
    }

    /** `_create_demand_constraints`. */
    method CreateDemandConstraints(demand: map<MaterialTimeIndex, int>, demandFillingTime: int)
      modifies this
      ensures State() == WithDemand(old(State()), SetupOf(), demand, demandFillingTime)
    {
      Store(WithDemand(State(), SetupOf(), demand, demandFillingTime));
    }

    /** `_create_purchasing_constraints`. */
    method CreatePurchasingConstraints(allParentMaterials: set<Material>)
      modifies this
      ensures State() == WithPurchasing(old(State()), SetupOf(), allParentMaterials)
    {
      Store(WithPurchasing(State(), SetupOf(), allParentMaterials));
    }

    /** `_build_objective_function`: the profit, to be maximised. */
    method BuildObjectiveFunction(costs: ObjectiveCosts, sellingPrices: map<Material, real>)
      modifies this
      ensures State() == WithObjective(old(State()), SetupOf(), costs, sellingPrices)
    {
      Store(WithObjective(State(), SetupOf(), costs, sellingPrices));
    }

    /** `build_model`: the variables, the five constraint groups and the
        objective, in that order, with the default continuous-production
        limit and demand-filling time and the component and parent
        materials of the bill of materials. */
    method BuildModel(initialInventory: map<Material, real>, safetyStock: map<Material, real>,
                      maxCapacity: map<(Equipment, Formula), int>, demand: map<MaterialTimeIndex, int>,
                      bom: Boms.Bom, allComponentMaterials: seq<Material>,
                      requiredQuantity: (Formula, Material, Material) -> real,
                      costs: ObjectiveCosts, sellingPrices: map<Material, real>, unshown: Unshown)
      requires bom.bomData.Valid() && Boms.ParentMaterialsLabel in bom.bomData.labels
      modifies this
      ensures State() == Built(old(State()), SetupOf(),
                               Inputs(initialInventory, safetyStock, maxCapacity, demand,
                                      old(BomFactsOf(bom, allComponentMaterials, requiredQuantity)),
                                      costs, sellingPrices, unshown))
    {
      var facts := BomFactsOf(bom, allComponentMaterials, requiredQuantity);
      BuildModelFrom(initialInventory, safetyStock, maxCapacity, demand, facts, costs, sellingPrices, unshown);
    }

    /** The steps of `build_model` once the facts of the bill of materials
        are read. */
    method BuildModelFrom(initialInventory: map<Material, real>, safetyStock: map<Material, real>,
                          maxCapacity: map<(Equipment, Formula), int>, demand: map<MaterialTimeIndex, int>,
                          facts: BomFacts, costs: ObjectiveCosts, sellingPrices: map<Material, real>, unshown: Unshown)
      modifies this
      ensures State() == Built(old(State()), SetupOf(),
                               Inputs(initialInventory, safetyStock, maxCapacity, demand, facts, costs, sellingPrices, unshown))
    {
      CreateVariables();
      CreateInventoryConstraints(initialInventory, safetyStock);
      CreateProductionConstraints(SetOf(facts.allComponentMaterials), maxCapacity, DefaultMaxContinuousTime, unshown);
      CreateMaterialFlowBalanceConstraints(facts);
      CreateDemandConstraints(demand, DefaultDemandFillingTime);
      CreatePurchasingConstraints(SetOf(facts.allParentMaterials));
      BuildObjectiveFunction(costs, sellingPrices);
    }

    /** `generate_results`: the results of the current fields, stored when
        they could be read. */
    method GenerateResults(toTable: (VariableFamily, map<string, seq<string>>) -> Sheet)
      returns (r: Result<OptimizationResults>)
      modifies this
      ensures r == ResultsOf(old(State()), toTable, ColumnHeaders())
      ensures r.Ok? ==> State() == old(State()).(results := Some(r.value))
      ensures r.Err? ==> State() == old(State())
    {
      r := CollectResults(State(), toTable);
      if r.Ok? {
        Store(State().(results := Some(r.value)));
      }
    }
  }

  /** The loop of `generate_results`: one table per variable family, keyed by
      the family's identifier, then read back by name into the result tuple.
      The conversion of a variable to a table is not part of this model, so
      it is an argument. */
  method CollectResults(f: ModelFields, toTable: (VariableFamily, map<string, seq<string>>) -> Sheet)
    returns (r: Result<OptimizationResults>)
    ensures r == ResultsOf(f, toTable, ColumnHeaders())
  {
    var modelVariables := [f.production, f.filledDemand, f.inventoryQuantity, f.purchasedQuantity, f.equipmentStatus];
    var colHeaders := ColumnHeaders();
    var tables: map<string, Sheet> := map[];
    ghost var seen: seq<VariableFamily> := [];
    var i := 0;
    while i < |modelVariables|
      invariant 0 <= i <= |modelVariables| && |seen| == i
      invariant forall k :: 0 <= k < i ==> modelVariables[k] == Some(seen[k])
      invariant tables == TablesOf(seen, toTable, colHeaders)
    {
      if modelVariables[i].None? {
        return Err(AttributeError("id"));
      }
      var variable := modelVariables[i].value;
      tables := tables[variable.id := toTable(variable, colHeaders)];
      assert (seen + [variable])[..i] == seen;
      seen := seen + [variable];
      i := i + 1;
    }
    assert seen == [modelVariables[0].value, modelVariables[1].value, modelVariables[2].value,
                    modelVariables[3].value, modelVariables[4].value];
    r := ResultTuple(tables);
  }

  /** The end-to-end test's horizon, `((max_period // 24 + 1) * 24) - 4`.
      Python's `//` floors, as Dafny's `/` does for a positive divisor. */
  function TestSimulationDuration(maxPeriod: int): Time
  {
    (maxPeriod / 24 + 1) * 24 - 4
  }

  /** That horizon ends at 20:00, the last open hour, on the day of the
      latest order, so it reaches every order placed at 8:00. */
  lemma TestHorizonEndsAtLastOpenHour(maxPeriod: int)
    ensures TestSimulationDuration(maxPeriod) % 24 == 20
    ensures !Prod.FactoryClosed(TestSimulationDuration(maxPeriod)) && Prod.FactoryClosed(TestSimulationDuration(maxPeriod) + 1)
    ensures maxPeriod % 24 <= 20 ==> maxPeriod <= TestSimulationDuration(maxPeriod)
    ensures TestSimulationDuration(maxPeriod) - 24 < maxPeriod
  {
    var q := maxPeriod / 24;
    assert TestSimulationDuration(maxPeriod) == q * 24 + 20;
    assert maxPeriod == q * 24 + maxPeriod % 24;
  }
}
