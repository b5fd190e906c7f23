/** The material-flow balance: the stock of a material in period t + 1 is
    its stock in t, plus what was purchased and produced in t, minus what the
    production of its parents consumed and the demand filled in t. */
module FlowConstraints {
  import opened Wrappers
  import opened Indexes
  import opened Linear
  import opened BaseConstraint

  /** The builder's state. It holds the BOM only to read two things from it:
      the parent materials (`Bom.all_parent_materials`) and the required
      quantity of a child per batch of a parent made with a formula
      (`Bom.get_required_quantity`, whose body this model does not include, so
      it is a parameter). */
  datatype FlowBuilder = FlowBuilder(
    ctx: Context,
    allEquipment: seq<Equipment>,
    formulas: seq<Formula>,
    parentMaterials: seq<Material>,
    requiredQuantity: (Formula, Material, Material) -> real)

  /** `FlowConstraintsBuilder.__init__`. */
  function NewFlowBuilder(
    materials: seq<Material>, t0: Time, tmax: Time, allEquipment: seq<Equipment>, formulas: seq<Formula>,
    parentMaterials: seq<Material>, requiredQuantity: (Formula, Material, Material) -> real): (b: FlowBuilder)
    ensures b.ctx == NewContext(materials, t0, tmax, None, None)
    ensures b.allEquipment == allEquipment && b.formulas == formulas
    ensures b.parentMaterials == parentMaterials && b.requiredQuantity == requiredQuantity
  {
    FlowBuilder(NewContext(materials, t0, tmax, None, None), allEquipment, formulas, parentMaterials, requiredQuantity)
  }

  function ProductionVar(m: Material, e: Equipment, f: Formula, t: Time): Var
  {
    Production(BuildSingleMaterialEquipmentFormulaTimeIndex(m, e, f, t))
  }

  function Inventory(m: Material, t: Time): Var { InventoryQuantity(MaterialTimeIndex(m, t)) }
  function Purchased(m: Material, t: Time): Var { PurchasedQuantity(MaterialTimeIndex(m, t)) }
  function Filled(m: Material, t: Time): Var { FilledDemand(MaterialTimeIndex(m, t)) }

  // ---------------------------------------------------------------------------
  // Own production: batch * sum over equipment, then formula, of production[m, e, f, t]

  function OwnRowExprs(b: FlowBuilder, m: Material, t: Time, e: Equipment): (r: seq<Expr>)
    ensures |r| == |b.formulas|
  {
    seq(|b.formulas|, l requires 0 <= l < |b.formulas| => Ref(ProductionVar(m, e, b.formulas[l], t)))
  }

  function OwnRowValues(b: FlowBuilder, m: Material, t: Time, e: Equipment, a: Assignment): (r: seq<real>)
    ensures |r| == |b.formulas|
  {
    seq(|b.formulas|, l requires 0 <= l < |b.formulas| => a(ProductionVar(m, e, b.formulas[l], t)))
  }

  function OwnExprs(b: FlowBuilder, m: Material, t: Time): (r: seq<Expr>)
    ensures |r| == |b.allEquipment|
  {
    seq(|b.allEquipment|, j requires 0 <= j < |b.allEquipment| => SumExprs(OwnRowExprs(b, m, t, b.allEquipment[j])))
  }

  function OwnValues(b: FlowBuilder, m: Material, t: Time, a: Assignment): (r: seq<real>)
    ensures |r| == |b.allEquipment|
  {
    seq(|b.allEquipment|, j requires 0 <= j < |b.allEquipment| => SumReals(OwnRowValues(b, m, t, b.allEquipment[j], a)))
  }

  /** The units of `m` produced in period t, as an expression. The source sums
      one flat generator; summing it nested gives the same term list. */
  function OwnProductionExpr(b: FlowBuilder, batch: int, m: Material, t: Time): Expr
  {
    Times(batch as real, SumExprs(OwnExprs(b, m, t)))
  }

  /** The units of `m` produced in period t: batches over every equipment and
      formula, times the batch size. */
  function OwnProduction(b: FlowBuilder, batch: int, m: Material, t: Time, a: Assignment): real
  {
    (batch as real) * SumReals(OwnValues(b, m, t, a))
  }

  lemma OwnSumValue(b: FlowBuilder, m: Material, t: Time, a: Assignment)
    ensures Value(SumExprs(OwnExprs(b, m, t)), a) == SumReals(OwnValues(b, m, t, a))
  {
    var es := OwnExprs(b, m, t);
    var xs := OwnValues(b, m, t, a);
    forall j | 0 <= j < |es| ensures Value(es[j], a) == xs[j] {
      SumExprsOf(OwnRowExprs(b, m, t, b.allEquipment[j]), OwnRowValues(b, m, t, b.allEquipment[j], a), a);
    }
    SumExprsOf(es, xs, a);
  }

  /** The expression evaluates to the units produced. */
  lemma OwnProductionValue(b: FlowBuilder, batch: int, m: Material, t: Time, a: Assignment)
    ensures Value(OwnProductionExpr(b, batch, m, t), a) == OwnProduction(b, batch, m, t, a)
  {
    OwnSumValue(b, m, t, a);
  }

  // ---------------------------------------------------------------------------
  // Consumption by parents: batch * sum over parent, then formula, then
  // equipment, of q(f, parent, m) * production[parent, e, f, t]

  function ConsumptionCellExprs(b: FlowBuilder, m: Material, t: Time, p: Material, f: Formula): (r: seq<Expr>)
    ensures |r| == |b.allEquipment|
  {
    seq(|b.allEquipment|, j requires 0 <= j < |b.allEquipment| =>
      Times(b.requiredQuantity(f, p, m), Ref(ProductionVar(p, b.allEquipment[j], f, t))))
  }

  function ConsumptionCellValues(b: FlowBuilder, m: Material, t: Time, p: Material, f: Formula, a: Assignment): (r: seq<real>)
    ensures |r| == |b.allEquipment|
  {
    seq(|b.allEquipment|, j requires 0 <= j < |b.allEquipment| =>
      b.requiredQuantity(f, p, m) * a(ProductionVar(p, b.allEquipment[j], f, t)))
  }

  function ConsumptionRowExprs(b: FlowBuilder, m: Material, t: Time, p: Material): (r: seq<Expr>)
    ensures |r| == |b.formulas|
  {
    seq(|b.formulas|, l requires 0 <= l < |b.formulas| => SumExprs(ConsumptionCellExprs(b, m, t, p, b.formulas[l])))
  }

  function ConsumptionRowValues(b: FlowBuilder, m: Material, t: Time, p: Material, a: Assignment): (r: seq<real>)
    ensures |r| == |b.formulas|
  {
    seq(|b.formulas|, l requires 0 <= l < |b.formulas| => SumReals(ConsumptionCellValues(b, m, t, p, b.formulas[l], a)))
  }

  function ConsumptionExprs(b: FlowBuilder, m: Material, t: Time): (r: seq<Expr>)
    ensures |r| == |b.parentMaterials|
  {
    seq(|b.parentMaterials|, i requires 0 <= i < |b.parentMaterials| =>
      SumExprs(ConsumptionRowExprs(b, m, t, b.parentMaterials[i])))
  }

  function ConsumptionValues(b: FlowBuilder, m: Material, t: Time, a: Assignment): (r: seq<real>)
    ensures |r| == |b.parentMaterials|
  {
    seq(|b.parentMaterials|, i requires 0 <= i < |b.parentMaterials| =>
      SumReals(ConsumptionRowValues(b, m, t, b.parentMaterials[i], a)))
  }

  function ConsumedExpr(b: FlowBuilder, batch: int, m: Material, t: Time): Expr
  {
    Times(batch as real, SumExprs(ConsumptionExprs(b, m, t)))
  }

  /** The units of `m` consumed in period t by producing its parents. */
  function Consumed(b: FlowBuilder, batch: int, m: Material, t: Time, a: Assignment): real
  {
    (batch as real) * SumReals(ConsumptionValues(b, m, t, a))
  }

  lemma ConsumptionRowValue(b: FlowBuilder, m: Material, t: Time, p: Material, a: Assignment)
    ensures Value(SumExprs(ConsumptionRowExprs(b, m, t, p)), a) == SumReals(ConsumptionRowValues(b, m, t, p, a))
  {
    var rows := ConsumptionRowExprs(b, m, t, p);
    var rowValues := ConsumptionRowValues(b, m, t, p, a);
    forall l | 0 <= l < |rows| ensures Value(rows[l], a) == rowValues[l] {
      SumExprsOf(ConsumptionCellExprs(b, m, t, p, b.formulas[l]), ConsumptionCellValues(b, m, t, p, b.formulas[l], a), a);
    }
    SumExprsOf(rows, rowValues, a);
  }

  lemma ConsumptionSumValue(b: FlowBuilder, m: Material, t: Time, a: Assignment)
    ensures Value(SumExprs(ConsumptionExprs(b, m, t)), a) == SumReals(ConsumptionValues(b, m, t, a))
  {
    var es := ConsumptionExprs(b, m, t);
    var xs := ConsumptionValues(b, m, t, a);
    forall i | 0 <= i < |es| ensures Value(es[i], a) == xs[i] {
      ConsumptionRowValue(b, m, t, b.parentMaterials[i], a);
    }
    SumExprsOf(es, xs, a);
  }

  /** The expression evaluates to the units consumed. */
  lemma ConsumedValue(b: FlowBuilder, batch: int, m: Material, t: Time, a: Assignment)
    ensures Value(ConsumedExpr(b, batch, m, t), a) == Consumed(b, batch, m, t, a)
  {
    ConsumptionSumValue(b, m, t, a);
  }

  // ---------------------------------------------------------------------------
  // The balance

  /** What enters minus what leaves the stock of `m` during period t. */
  function NetFlow(b: FlowBuilder, batch: int, m: Material, t: Time, a: Assignment): real
  {
    a(Purchased(m, t)) + OwnProduction(b, batch, m, t, a) - Consumed(b, batch, m, t, a) - a(Filled(m, t))
  }

  /** The balance equation of `material_flow_balance` at (m, t). */
  predicate BalanceHolds(b: FlowBuilder, batch: int, m: Material, t: Time, a: Assignment)
  {
    a(Inventory(m, t + 1))
      == a(Inventory(m, t)) + a(Purchased(m, t)) + OwnProduction(b, batch, m, t, a)
         - Consumed(b, batch, m, t, a) - a(Filled(m, t))
  }

  /** The rule of `material_flow_balance`: no equation at tmax, which has no
      successor period. */
  function FlowRule(b: FlowBuilder, batch: int, x: MaterialTimeIndex): (r: RuleResult)
    ensures r.Emit? <==> x.time != b.ctx.tmax
    ensures !r.Raise?
    ensures r.Emit? ==> r.relation.Equal?
    ensures r.Emit? ==> forall a :: Holds(r.relation, a) <==> BalanceHolds(b, batch, x.material, x.time, a)
  {
    var m := x.material;
    var t := x.time;
    if t == b.ctx.tmax then Skip
    else
      var stock := Plus(Ref(Inventory(m, t)), Ref(Purchased(m, t)));
      var withOwn := Plus(stock, OwnProductionExpr(b, batch, m, t));
      var withoutConsumed := Minus(withOwn, ConsumedExpr(b, batch, m, t));
      var rhs := Minus(withoutConsumed, Ref(Filled(m, t)));
      assert forall a :: Value(rhs, a) == a(Inventory(m, t)) + a(Purchased(m, t)) + OwnProduction(b, batch, m, t, a)
                                        - Consumed(b, batch, m, t, a) - a(Filled(m, t)) by {
        forall a ensures Value(rhs, a) == a(Inventory(m, t)) + a(Purchased(m, t)) + OwnProduction(b, batch, m, t, a)
                                        - Consumed(b, batch, m, t, a) - a(Filled(m, t)) {
          OwnProductionValue(b, batch, m, t, a);
          ConsumedValue(b, batch, m, t, a);
          assert Value(stock, a) == a(Inventory(m, t)) + a(Purchased(m, t));
          assert Value(withOwn, a) == Value(stock, a) + OwnProduction(b, batch, m, t, a);
          assert Value(withoutConsumed, a) == Value(withOwn, a) - Consumed(b, batch, m, t, a);
        }
      }
      Emit(Equal(Ref(Inventory(m, t + 1)), rhs))
  }

  /** The variables the balance at (m, t) may name: the stock of m at t and
      t + 1, its purchase and its filled demand at t, and the batches at t of
      m or of a parent, on a listed equipment with a listed formula. */
  function FlowVars(b: FlowBuilder, m: Material, t: Time): set<Var>
  {
    {Inventory(m, t), Inventory(m, t + 1), Purchased(m, t), Filled(m, t)} +
    (set p, e, f | p in [m] + b.parentMaterials && e in b.allEquipment && f in b.formulas :: ProductionVar(p, e, f, t))
  }

  lemma OwnProductionVars(b: FlowBuilder, m: Material, t: Time)
    ensures Vars(SumExprs(OwnExprs(b, m, t))) <= FlowVars(b, m, t)
  {
    var allowed := FlowVars(b, m, t);
    var es := OwnExprs(b, m, t);
    forall j | 0 <= j < |es|
      ensures Vars(es[j]) <= allowed
    {
      var e := b.allEquipment[j];
      var row := OwnRowExprs(b, m, t, e);
      forall l | 0 <= l < |row|
        ensures Vars(row[l]) <= allowed
      {
        assert m in [m] + b.parentMaterials;
        assert ProductionVar(m, e, b.formulas[l], t) in allowed;
      }
      SumExprsVars(row, allowed);
    }
    SumExprsVars(es, allowed);
  }

  lemma ConsumptionVars(b: FlowBuilder, m: Material, t: Time)
    ensures Vars(SumExprs(ConsumptionExprs(b, m, t))) <= FlowVars(b, m, t)
  {
    var allowed := FlowVars(b, m, t);
    var es := ConsumptionExprs(b, m, t);
    forall i | 0 <= i < |es|
      ensures Vars(es[i]) <= allowed
    {
      var p := b.parentMaterials[i];
      assert p in [m] + b.parentMaterials;
      var rows := ConsumptionRowExprs(b, m, t, p);
      forall l | 0 <= l < |rows|
        ensures Vars(rows[l]) <= allowed
      {
        var f := b.formulas[l];
        var cells := ConsumptionCellExprs(b, m, t, p, f);
        forall j | 0 <= j < |cells|
          ensures Vars(cells[j]) <= allowed
        {
          assert ProductionVar(p, b.allEquipment[j], f, t) in allowed;
        }
        SumExprsVars(cells, allowed);
      }
      SumExprsVars(rows, allowed);
    }
    SumExprsVars(es, allowed);
  }

  /** The balance at (m, t) names nothing but the stock, the purchase, the
      filled demand and the batches of m and its parents that `FlowVars`
      lists. */
  lemma FlowRuleVars(b: FlowBuilder, batch: int, x: MaterialTimeIndex)
    ensures RuleVars(FlowRule(b, batch, x)) <= FlowVars(b, x.material, x.time)
  {
    var m, t := x.material, x.time;
    if t != b.ctx.tmax {
      var allowed := FlowVars(b, m, t);
      OwnProductionVars(b, m, t);
      ConsumptionVars(b, m, t);
      var stock := Plus(Ref(Inventory(m, t)), Ref(Purchased(m, t)));
      var withOwn := Plus(stock, OwnProductionExpr(b, batch, m, t));
      var withoutConsumed := Minus(withOwn, ConsumedExpr(b, batch, m, t));
      var rhs := Minus(withoutConsumed, Ref(Filled(m, t)));
      assert Vars(stock) <= allowed;
      assert Vars(withOwn) <= allowed;
      assert Vars(withoutConsumed) <= allowed;
      assert Vars(rhs) <= allowed;
      assert FlowRule(b, batch, x) == Emit(Equal(Ref(Inventory(m, t + 1)), rhs));
    }
  }

  /** `material_flow_balance(minimum_units_in_batch)`, over the all-time index. */
  function MaterialFlowBalance(b: FlowBuilder, batch: int): (c: Block<MaterialTimeIndex>)
    ensures c.name == "sc_main_equation_constraint"
    ensures c.index == b.ctx.allMaterialsAllTimeIndexes
    ensures |c.rows| == |c.index| && forall p :: 0 <= p < |c.rows| ==> c.rows[p] == FlowRule(b, batch, c.index[p])
  {
    BuildBlock("sc_main_equation_constraint", b.ctx.allMaterialsAllTimeIndexes, x => FlowRule(b, batch, x))
  }

  /** An equation is emitted for every index of the all-time space except those at tmax. */
  lemma FlowEmitted(b: FlowBuilder, batch: int, x: MaterialTimeIndex)
    ensures x in Emitted(MaterialFlowBalance(b, batch))
        <==> x in b.ctx.allMaterialsAllTimeIndexes && x.time != b.ctx.tmax
  {
    EmittedBuildBlock("sc_main_equation_constraint", b.ctx.allMaterialsAllTimeIndexes, x => FlowRule(b, batch, x), x);
  }

  lemma FlowSatisfied(b: FlowBuilder, batch: int, a: Assignment)
    ensures Satisfied(MaterialFlowBalance(b, batch), a)
        <==> forall x :: x in b.ctx.allMaterialsAllTimeIndexes && x.time != b.ctx.tmax ==>
               BalanceHolds(b, batch, x.material, x.time, a)
  {
    SatisfiedBuildBlock("sc_main_equation_constraint", b.ctx.allMaterialsAllTimeIndexes, x => FlowRule(b, batch, x), a);
  }

  /** The net flows of `m` over the periods from, …, to - 1. */
  function NetFlows(b: FlowBuilder, batch: int, m: Material, from: Time, to: Time, a: Assignment): (r: seq<real>)
    requires from <= to
    ensures |r| == to - from
    ensures forall k :: 0 <= k < |r| ==> r[k] == NetFlow(b, batch, m, from + k, a)
  {
    seq(to - from, k requires 0 <= k < to - from => NetFlow(b, batch, m, from + k, a))
  }

  lemma {:induction false} TelescopeTo(b: FlowBuilder, batch: int, m: Material, s: Time, a: Assignment)
    requires b.ctx.t0 <= s
    requires forall t :: b.ctx.t0 <= t < s ==> BalanceHolds(b, batch, m, t, a)
    ensures a(Inventory(m, s)) == a(Inventory(m, b.ctx.t0)) + SumReals(NetFlows(b, batch, m, b.ctx.t0, s, a))
    decreases s - b.ctx.t0
  {
    var t0 := b.ctx.t0;
    if s > t0 {
      TelescopeTo(b, batch, m, s - 1, a);
      assert BalanceHolds(b, batch, m, s - 1, a);
      var flows := NetFlows(b, batch, m, t0, s, a);
      assert flows[..|flows| - 1] == NetFlows(b, batch, m, t0, s - 1, a);
    }
  }

  /** Telescoping: under a satisfying assignment, the stock of a listed
      material at any period s of the horizon is its stock at t0 plus the net
      flows of the periods before s; at s = tmax this is the whole horizon. */
  lemma InventoryTelescopes(b: FlowBuilder, batch: int, m: Material, s: Time, a: Assignment)
    requires b.ctx == NewContext(b.ctx.materials, b.ctx.t0, b.ctx.tmax, None, None)
    requires m in b.ctx.materials && b.ctx.t0 <= s <= b.ctx.tmax
    requires Satisfied(MaterialFlowBalance(b, batch), a)
    ensures a(Inventory(m, s)) == a(Inventory(m, b.ctx.t0)) + SumReals(NetFlows(b, batch, m, b.ctx.t0, s, a))
  {
    FlowSatisfied(b, batch, a);
    forall t | b.ctx.t0 <= t < s ensures BalanceHolds(b, batch, m, t, a) {
      MaterialTimeIndexMember(b.ctx.materials, b.ctx.t0, b.ctx.tmax, MaterialTimeIndex(m, t));
    }
    TelescopeTo(b, batch, m, s, a);
  }

  /** A material with nothing purchased, produced, consumed or sold in any
      period keeps its initial stock over the whole horizon. */
  lemma ConstantInventoryWithoutFlows(b: FlowBuilder, batch: int, m: Material, s: Time, a: Assignment)
    requires b.ctx == NewContext(b.ctx.materials, b.ctx.t0, b.ctx.tmax, None, None)
    requires m in b.ctx.materials && b.ctx.t0 <= s <= b.ctx.tmax
    requires Satisfied(MaterialFlowBalance(b, batch), a)
    requires forall t :: b.ctx.t0 <= t < b.ctx.tmax ==>
               a(Purchased(m, t)) == 0.0 && OwnProduction(b, batch, m, t, a) == 0.0 &&
               Consumed(b, batch, m, t, a) == 0.0 && a(Filled(m, t)) == 0.0
    ensures a(Inventory(m, s)) == a(Inventory(m, b.ctx.t0))
  {
    InventoryTelescopes(b, batch, m, s, a);
    NoFlowsSumToZero(b, batch, m, s, a);
  }

  /** With every flow of `m` zero before s, so are the net flows and their sum. */
  lemma {:induction false} NoFlowsSumToZero(b: FlowBuilder, batch: int, m: Material, s: Time, a: Assignment)
    requires b.ctx.t0 <= s
    requires forall t :: b.ctx.t0 <= t < s ==>
               a(Purchased(m, t)) == 0.0 && OwnProduction(b, batch, m, t, a) == 0.0 &&
               Consumed(b, batch, m, t, a) == 0.0 && a(Filled(m, t)) == 0.0
    ensures SumReals(NetFlows(b, batch, m, b.ctx.t0, s, a)) == 0.0
    decreases s - b.ctx.t0
  {
    var t0 := b.ctx.t0;
    if s > t0 {
      NoFlowsSumToZero(b, batch, m, s - 1, a);
      NoFlowNoNetFlow(b, batch, m, s - 1, a);
      var flows := NetFlows(b, batch, m, t0, s, a);
      assert flows[..|flows| - 1] == NetFlows(b, batch, m, t0, s - 1, a);
    }
  }

  lemma NoFlowNoNetFlow(b: FlowBuilder, batch: int, m: Material, t: Time, a: Assignment)
    requires a(Purchased(m, t)) == 0.0 && OwnProduction(b, batch, m, t, a) == 0.0
    requires Consumed(b, batch, m, t, a) == 0.0 && a(Filled(m, t)) == 0.0
    ensures NetFlow(b, batch, m, t, a) == 0.0
  {
  }
}
