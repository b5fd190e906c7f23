/** Demand constraints: demand is filled only at one hour of the day, and
    never beyond what was ordered (a missing order counts as 0). */
module DemandConstraints {
  import opened Wrappers
  import opened Indexes
  import opened Linear
  import opened BaseConstraint

  /** The builder's state: the shared context and the orders, keyed by
      (material, time). */
  datatype DemandBuilder = DemandBuilder(ctx: Context, demand: map<MaterialTimeIndex, int>)

  /** `DemandConstraintsBuilder.__init__`. */
  function NewDemandBuilder(materials: seq<Material>, t0: Time, tmax: Time, demand: map<MaterialTimeIndex, int>)
    : (b: DemandBuilder)
    ensures b.ctx == NewContext(materials, t0, tmax, None, None) && b.demand == demand
  {
    DemandBuilder(NewContext(materials, t0, tmax, None, None), demand)
  }

  /** The rule of `demand_is_filled_only_at_concrete_time_in_a_day`. */
  function FillingHourRule(demandFillingTime: int, x: MaterialTimeIndex): (r: RuleResult)
    ensures r.Emit? <==> x.time % 24 != demandFillingTime
    ensures !r.Raise?
    ensures r.Emit? ==> forall a :: Holds(r.relation, a) <==> a(FilledDemand(x)) == 0.0
  {
    if x.time % 24 != demandFillingTime then Emit(Equal(Ref(FilledDemand(x)), Const(0.0))) else Skip
  }

  /** The family is built over the set of the all-time index; a set has no
      duplicates and its order does not change what the family requires. */
  function DemandIsFilledOnlyAtConcreteTimeInADay(b: DemandBuilder, demandFillingTime: int)
    : (c: Block<MaterialTimeIndex>)
    ensures c.name == "demand_is_filled_only_at_concrete_time_in_a_day"
    ensures c.index == b.ctx.allMaterialsAllTimeIndexes
    ensures |c.rows| == |c.index| && forall p :: 0 <= p < |c.rows| ==> c.rows[p] == FillingHourRule(demandFillingTime, c.index[p])
  {
    BuildBlock("demand_is_filled_only_at_concrete_time_in_a_day", b.ctx.allMaterialsAllTimeIndexes,
               x => FillingHourRule(demandFillingTime, x))
  }

  /** An equation is emitted exactly at the indices whose hour is not the
      filling hour. */
  lemma FillingHourEmitted(b: DemandBuilder, demandFillingTime: int, x: MaterialTimeIndex)
    ensures x in Emitted(DemandIsFilledOnlyAtConcreteTimeInADay(b, demandFillingTime))
        <==> x in b.ctx.allMaterialsAllTimeIndexes && x.time % 24 != demandFillingTime
  {
    EmittedBuildBlock("demand_is_filled_only_at_concrete_time_in_a_day", b.ctx.allMaterialsAllTimeIndexes,
                      x => FillingHourRule(demandFillingTime, x), x);
  }

  lemma FillingHourSatisfied(b: DemandBuilder, demandFillingTime: int, a: Assignment)
    ensures Satisfied(DemandIsFilledOnlyAtConcreteTimeInADay(b, demandFillingTime), a)
        <==> forall x :: x in b.ctx.allMaterialsAllTimeIndexes && x.time % 24 != demandFillingTime ==>
               a(FilledDemand(x)) == 0.0
  {
    SatisfiedBuildBlock("demand_is_filled_only_at_concrete_time_in_a_day", b.ctx.allMaterialsAllTimeIndexes,
                        x => FillingHourRule(demandFillingTime, x), a);
  }

  /** A filling hour outside 0..23 never matches `t % 24`, so no demand can be
      filled at any time. */
  lemma UnreachableFillingHourBlocksAllDemand(b: DemandBuilder, demandFillingTime: int, a: Assignment, x: MaterialTimeIndex)
    requires !(0 <= demandFillingTime < 24)
    requires Satisfied(DemandIsFilledOnlyAtConcreteTimeInADay(b, demandFillingTime), a)
    requires x in b.ctx.allMaterialsAllTimeIndexes
    ensures a(FilledDemand(x)) == 0.0
  {
    FillingHourSatisfied(b, demandFillingTime, a);
  }

  /** The rule of `filled_demand_loe_than_demand`: `demand.get((m, t), 0)`. */
  function DemandCeilingRule(demand: map<MaterialTimeIndex, int>, x: MaterialTimeIndex): (r: RuleResult)
    ensures r.Emit? && !r.Raise?
    ensures forall a :: Holds(r.relation, a) <==> a(FilledDemand(x)) <= (if x in demand then demand[x] else 0) as real
  {
    var materialTIndex := MaterialTimeIndex(x.material, x.time);
    Emit(AtMost(Ref(FilledDemand(materialTIndex)), Const(GetOr(demand, materialTIndex, 0) as real)))
  }

  function FilledDemandLoeThanDemand(b: DemandBuilder): (c: Block<MaterialTimeIndex>)
    ensures c.name == "filled_demand_loe_than_demand"
    ensures c.index == b.ctx.allMaterialsAllTimeIndexes
    ensures |c.rows| == |c.index| && forall p :: 0 <= p < |c.rows| ==> c.rows[p] == DemandCeilingRule(b.demand, c.index[p])
  {
    BuildBlock("filled_demand_loe_than_demand", b.ctx.allMaterialsAllTimeIndexes, x => DemandCeilingRule(b.demand, x))
  }

  /** Every index gets a ceiling, so the family emits the whole all-time index. */
  lemma DemandCeilingEmitted(b: DemandBuilder)
    ensures Emitted(FilledDemandLoeThanDemand(b)) == b.ctx.allMaterialsAllTimeIndexes
  {
    var c := FilledDemandLoeThanDemand(b);
    EmittedFromAll(c.index, c.rows);
  }

  lemma DemandCeilingSatisfied(b: DemandBuilder, a: Assignment)
    ensures Satisfied(FilledDemandLoeThanDemand(b), a)
        <==> forall x :: x in b.ctx.allMaterialsAllTimeIndexes ==> a(FilledDemand(x)) <= GetOr(b.demand, x, 0) as real
  {
    SatisfiedBuildBlock("filled_demand_loe_than_demand", b.ctx.allMaterialsAllTimeIndexes, x => DemandCeilingRule(b.demand, x), a);
  }

  /** Filled demand is declared non-negative. */
  ghost predicate NonNegativeFilledDemand(a: Assignment)
  {
    forall x :: a(FilledDemand(x)) >= 0.0
  }

  /** Without an order for (m, t), nothing can be filled there. */
  lemma NoOrderNoFilling(b: DemandBuilder, a: Assignment, x: MaterialTimeIndex)
    requires NonNegativeFilledDemand(a)
    requires Satisfied(FilledDemandLoeThanDemand(b), a)
    requires x in b.ctx.allMaterialsAllTimeIndexes && x !in b.demand
    ensures a(FilledDemand(x)) == 0.0
  {
    DemandCeilingSatisfied(b, a);
  }

  /** The end-to-end test places the order of day p (p >= 1) at hour
      (p - 1) * 24 + 8. */
  function TestDemandTime(period: int): Time
  {
    (period - 1) * 24 + 8
  }

  /** Those hours always fall at 8:00, the optimiser's default filling hour,
      so the filling-hour family never blocks an order of the test. */
  lemma TestDemandTimeIsFillingHour(period: int)
    requires period >= 1
    ensures TestDemandTime(period) % 24 == 8
    ensures FillingHourRule(8, MaterialTimeIndex("", TestDemandTime(period))).Skip?
  {
    assert TestDemandTime(period) == (period - 1) * 24 + 8;
  }
}
