/** Inventory boundary conditions: the stock at t0 equals the initial
    inventory, and the stock at tmax is at least the safety stock. Both
    families are indexed by the material list, and both look the material up
    with a direct key access, so a material missing from the dictionary makes
    the rule raise. */
module InventoryConstraints {
  import opened Wrappers
  import opened Indexes
  import opened Linear
  import opened BaseConstraint

  function Inventory(material: Material, time: Time): Var
  {
    InventoryQuantity(MaterialTimeIndex(material, time))
  }

  /** The rule of `set_initial_inventory` at one material. */
  function InitialInventoryRule(ctx: Context, initialInventory: map<Material, real>, material: Material): (r: RuleResult)
    ensures material !in initialInventory <==> r.Raise?
    ensures r.Raise? ==> r.error == KeyError(material)
    ensures material in initialInventory ==>
              r.Emit? && forall a :: Holds(r.relation, a) <==> a(Inventory(material, ctx.t0)) == initialInventory[material]
  {
    var materialIndex := BuildMaterialTimeIndexes([material], ctx.t0, ctx.t0)[0];
    assert materialIndex == MaterialTimeIndex(material, ctx.t0) by {
      T0IndexOnePerMaterial([material], ctx.t0);
    }
    if material in initialInventory then
      Emit(Equal(Ref(InventoryQuantity(materialIndex)), Const(initialInventory[material])))
    else
      Raise(KeyError(material))
  }

  /** `set_initial_inventory`: one row per material, in list order. */
  function InitialInventoryConstraint(ctx: Context, initialInventory: map<Material, real>): (b: Block<Material>)
    ensures b.name == "initial_inventory_constraint"
    ensures b.index == ctx.materials && |b.rows| == |ctx.materials|
    ensures forall p :: 0 <= p < |b.rows| ==> b.rows[p] == InitialInventoryRule(ctx, initialInventory, ctx.materials[p])
  {
    BuildBlock("initial_inventory_constraint", ctx.materials, m => InitialInventoryRule(ctx, initialInventory, m))
  }

  /** The rule of `inventory_tmax_goe_than_safety_stock` at one material. */
  function SafetyStockRule(ctx: Context, safetyStock: map<Material, real>, material: Material): (r: RuleResult)
    ensures material !in safetyStock <==> r.Raise?
    ensures r.Raise? ==> r.error == KeyError(material)
    ensures material in safetyStock ==>
              r.Emit? && forall a :: Holds(r.relation, a) <==> a(Inventory(material, ctx.tmax)) >= safetyStock[material]
  {
    var materialTmaxIndex := BuildMaterialTimeIndexes([material], ctx.tmax, ctx.tmax)[0];
    assert materialTmaxIndex == MaterialTimeIndex(material, ctx.tmax) by {
      T0IndexOnePerMaterial([material], ctx.tmax);
    }
    if material in safetyStock then
      Emit(AtLeast(Ref(InventoryQuantity(materialTmaxIndex)), Const(safetyStock[material])))
    else
      Raise(KeyError(material))
  }

  /** `inventory_tmax_goe_than_safety_stock`: one row per material, in list order. */
  function SafetyStockConstraint(ctx: Context, safetyStock: map<Material, real>): (b: Block<Material>)
    ensures b.name == "inventory_at_tmax_goe_than_safety_stock"
    ensures b.index == ctx.materials && |b.rows| == |ctx.materials|
    ensures forall p :: 0 <= p < |b.rows| ==> b.rows[p] == SafetyStockRule(ctx, safetyStock, ctx.materials[p])
  {
    BuildBlock("inventory_at_tmax_goe_than_safety_stock", ctx.materials, m => SafetyStockRule(ctx, safetyStock, m))
  }

  /** The initial-inventory family can be built exactly when every material
      has an initial inventory, and then it emits one equation per material. */
  lemma InitialInventoryConstructible(ctx: Context, initialInventory: map<Material, real>)
    ensures Constructible(InitialInventoryConstraint(ctx, initialInventory))
        <==> forall m :: m in ctx.materials ==> m in initialInventory
    ensures Constructible(InitialInventoryConstraint(ctx, initialInventory)) ==>
              Emitted(InitialInventoryConstraint(ctx, initialInventory)) == ctx.materials
  {
    var rule := m => InitialInventoryRule(ctx, initialInventory, m);
    ConstructibleBuildBlock("initial_inventory_constraint", ctx.materials, rule);
    var b := InitialInventoryConstraint(ctx, initialInventory);
    if Constructible(b) {
      EmittedFromAll(b.index, b.rows);
    }
  }

  /** An assignment satisfies the initial-inventory family exactly when every
      material is listed and its stock at t0 is its initial inventory. */
  lemma InitialInventorySatisfied(ctx: Context, initialInventory: map<Material, real>, a: Assignment)
    ensures Satisfied(InitialInventoryConstraint(ctx, initialInventory), a)
        <==> forall m :: m in ctx.materials ==>
               m in initialInventory && a(Inventory(m, ctx.t0)) == initialInventory[m]
  {
    SatisfiedBuildBlock("initial_inventory_constraint", ctx.materials, m => InitialInventoryRule(ctx, initialInventory, m), a);
  }

  lemma SafetyStockConstructible(ctx: Context, safetyStock: map<Material, real>)
    ensures Constructible(SafetyStockConstraint(ctx, safetyStock))
        <==> forall m :: m in ctx.materials ==> m in safetyStock
    ensures Constructible(SafetyStockConstraint(ctx, safetyStock)) ==>
              Emitted(SafetyStockConstraint(ctx, safetyStock)) == ctx.materials
  {
    var rule := m => SafetyStockRule(ctx, safetyStock, m);
    ConstructibleBuildBlock("inventory_at_tmax_goe_than_safety_stock", ctx.materials, rule);
    var b := SafetyStockConstraint(ctx, safetyStock);
    if Constructible(b) {
      EmittedFromAll(b.index, b.rows);
    }
  }

  /** An assignment satisfies the safety-stock family exactly when every
      material is listed and its stock at tmax reaches its safety stock. */
  lemma SafetyStockSatisfied(ctx: Context, safetyStock: map<Material, real>, a: Assignment)
    ensures Satisfied(SafetyStockConstraint(ctx, safetyStock), a)
        <==> forall m :: m in ctx.materials ==> m in safetyStock && a(Inventory(m, ctx.tmax)) >= safetyStock[m]
  {
    SatisfiedBuildBlock("inventory_at_tmax_goe_than_safety_stock", ctx.materials, m => SafetyStockRule(ctx, safetyStock, m), a);
  }

  /** With a one-instant horizon both families constrain the same variable, so
      they can hold together only if the initial inventory covers the safety
      stock. */
  lemma SingleInstantNeedsEnoughInitialStock(
    ctx: Context, initialInventory: map<Material, real>, safetyStock: map<Material, real>, a: Assignment, m: Material)
    requires ctx.t0 == ctx.tmax && m in ctx.materials
    requires Satisfied(InitialInventoryConstraint(ctx, initialInventory), a)
    requires Satisfied(SafetyStockConstraint(ctx, safetyStock), a)
    ensures m in initialInventory && m in safetyStock && initialInventory[m] >= safetyStock[m]
  {
    InitialInventorySatisfied(ctx, initialInventory, a);
    SafetyStockSatisfied(ctx, safetyStock, a);
  }

  /** Every material keeps its initial inventory at every instant; nothing else is used. */
  function HoldInitialStock(initialInventory: map<Material, real>): Assignment
  {
    (v: Var) => if v.InventoryQuantity? && v.mt.material in initialInventory then initialInventory[v.mt.material] else 0.0
  }

  /** Conversely, when every material has both entries and the initial stock
      covers the safety stock, holding the initial stock throughout satisfies
      both families on a one-instant horizon. */
  lemma SingleInstantSatisfiable(ctx: Context, initialInventory: map<Material, real>, safetyStock: map<Material, real>)
    requires ctx.t0 == ctx.tmax
    requires forall m :: m in ctx.materials ==>
               m in initialInventory && m in safetyStock && initialInventory[m] >= safetyStock[m]
    ensures Satisfied(InitialInventoryConstraint(ctx, initialInventory), HoldInitialStock(initialInventory))
    ensures Satisfied(SafetyStockConstraint(ctx, safetyStock), HoldInitialStock(initialInventory))
  {
    var a := HoldInitialStock(initialInventory);
    InitialInventorySatisfied(ctx, initialInventory, a);
    SafetyStockSatisfied(ctx, safetyStock, a);
  }
}
