/** Purchasing constraints: materials made in-house are never bought, and
    nothing is bought while the factory is closed. The builder adds no
    state of its own to the shared context. */
module PurchasingConstraints {
  import opened Wrappers
  import opened Indexes
  import opened Linear
  import opened BaseConstraint
  import opened ProductionConstraints

  /** The rule of `only_components_can_be_purchased`. */
  function ParentPurchaseRule(allParentMaterials: set<Material>, x: MaterialTimeIndex): (r: RuleResult)
    ensures r.Emit? <==> x.material in allParentMaterials
    ensures !r.Raise?
    ensures r.Emit? ==> forall a :: Holds(r.relation, a) <==> a(PurchasedQuantity(x)) == 0.0
  {
    if x.material in allParentMaterials then
      Emit(Equal(Ref(PurchasedQuantity(MaterialTimeIndex(x.material, x.time))), Const(0.0)))
    else
      Skip
  }

  function OnlyComponentsCanBePurchased(ctx: Context, allParentMaterials: set<Material>): (c: Block<MaterialTimeIndex>)
    ensures c.name == "only_components_can_be_purchased"
    ensures c.index == ctx.allMaterialsAllTimeIndexes
    ensures |c.rows| == |c.index| && forall p :: 0 <= p < |c.rows| ==> c.rows[p] == ParentPurchaseRule(allParentMaterials, c.index[p])
  {
    BuildBlock("only_components_can_be_purchased", ctx.allMaterialsAllTimeIndexes, x => ParentPurchaseRule(allParentMaterials, x))
  }

  /** An equation is emitted exactly at the indices of in-house materials. */
  lemma ParentPurchaseEmitted(ctx: Context, allParentMaterials: set<Material>, x: MaterialTimeIndex)
    ensures x in Emitted(OnlyComponentsCanBePurchased(ctx, allParentMaterials))
        <==> x in ctx.allMaterialsAllTimeIndexes && x.material in allParentMaterials
  {
    EmittedBuildBlock("only_components_can_be_purchased", ctx.allMaterialsAllTimeIndexes,
                      x => ParentPurchaseRule(allParentMaterials, x), x);
  }

  lemma ParentPurchaseSatisfied(ctx: Context, allParentMaterials: set<Material>, a: Assignment)
    ensures Satisfied(OnlyComponentsCanBePurchased(ctx, allParentMaterials), a)
        <==> forall x :: x in ctx.allMaterialsAllTimeIndexes && x.material in allParentMaterials ==>
               a(PurchasedQuantity(x)) == 0.0
  {
    SatisfiedBuildBlock("only_components_can_be_purchased", ctx.allMaterialsAllTimeIndexes,
                        x => ParentPurchaseRule(allParentMaterials, x), a);
  }

  /** The rule of `no_purchasing_when_factory_is_closed`. */
  function ClosedPurchaseRule(x: MaterialTimeIndex): (r: RuleResult)
    ensures r.Emit? <==> FactoryClosed(x.time)
    ensures !r.Raise?
    ensures r.Emit? ==> forall a :: Holds(r.relation, a) <==> a(PurchasedQuantity(x)) == 0.0
  {
    if FactoryClosed(x.time) then Emit(Equal(Ref(PurchasedQuantity(x)), Const(0.0))) else Skip
  }

  function NoPurchasingWhenFactoryIsClosed(ctx: Context): (c: Block<MaterialTimeIndex>)
    ensures c.name == "no_purchasing_when_factory_is_closed"
    ensures c.index == ctx.allMaterialsAllTimeIndexes
    ensures |c.rows| == |c.index| && forall p :: 0 <= p < |c.rows| ==> c.rows[p] == ClosedPurchaseRule(c.index[p])
  {
    BuildBlock("no_purchasing_when_factory_is_closed", ctx.allMaterialsAllTimeIndexes, ClosedPurchaseRule)
  }

  lemma ClosedPurchaseEmitted(ctx: Context, x: MaterialTimeIndex)
    ensures x in Emitted(NoPurchasingWhenFactoryIsClosed(ctx))
        <==> x in ctx.allMaterialsAllTimeIndexes && !(8 <= x.time % 24 <= 20)
  {
    EmittedBuildBlock("no_purchasing_when_factory_is_closed", ctx.allMaterialsAllTimeIndexes, ClosedPurchaseRule, x);
  }

  lemma ClosedPurchaseSatisfied(ctx: Context, a: Assignment)
    ensures Satisfied(NoPurchasingWhenFactoryIsClosed(ctx), a)
        <==> forall x :: x in ctx.allMaterialsAllTimeIndexes && FactoryClosed(x.time) ==> a(PurchasedQuantity(x)) == 0.0
  {
    SatisfiedBuildBlock("no_purchasing_when_factory_is_closed", ctx.allMaterialsAllTimeIndexes, ClosedPurchaseRule, a);
  }

  /** Together the two families leave room for a purchase only of a material
      not made in-house, at an hour between 8:00 and 20:00. */
  lemma PurchaseOnlyOfComponentsDuringOpeningHours(
    ctx: Context, allParentMaterials: set<Material>, a: Assignment, x: MaterialTimeIndex)
    requires Satisfied(OnlyComponentsCanBePurchased(ctx, allParentMaterials), a)
    requires Satisfied(NoPurchasingWhenFactoryIsClosed(ctx), a)
    requires x in ctx.allMaterialsAllTimeIndexes && a(PurchasedQuantity(x)) != 0.0
    ensures x.material !in allParentMaterials && 8 <= x.time % 24 <= 20
  {
    ParentPurchaseSatisfied(ctx, allParentMaterials, a);
    ClosedPurchaseSatisfied(ctx, a);
  }

  /** Conversely, zero purchases everywhere meet both families, whatever the
      materials made in-house. */
  lemma NoPurchasesMeetBothFamilies(ctx: Context, allParentMaterials: set<Material>, a: Assignment)
    requires forall x :: x in ctx.allMaterialsAllTimeIndexes ==> a(PurchasedQuantity(x)) == 0.0
    ensures Satisfied(OnlyComponentsCanBePurchased(ctx, allParentMaterials), a)
    ensures Satisfied(NoPurchasingWhenFactoryIsClosed(ctx), a)
  {
    ParentPurchaseSatisfied(ctx, allParentMaterials, a);
    ClosedPurchaseSatisfied(ctx, a);
  }
}
