/** Production constraints: a working-hours gate on every production
    variable, a per-(equipment, formula) capacity on the batches produced in
    one period, and a limit on how long a piece of equipment may run without
    a break. */
module ProductionConstraints {
  import opened Wrappers
  import opened Indexes
  import opened Linear
  import opened BaseConstraint

  /** The builder's state once its constructor ran. The material-equipment-
      formula-time index is built here; the equipment-formula-time and
      equipment-time index spaces come from builders this model does not
      include, so they are inputs. */
  datatype ProductionBuilder = ProductionBuilder(
    ctx: Context,
    allEquipment: seq<Equipment>,
    formulas: seq<Formula>,
    materialEquipmentFormulaTimeIndexes: seq<MaterialEquipmentFormulaTimeIndex>,
    equipmentFormulaTimeIndexes: seq<EquipmentFormulaTimeIndex>,
    equipmentTimeIndexes: seq<EquipmentTimeIndex>)

  /** `ProductionConstraintsBuilder.__init__`. */
  function NewProductionBuilder(
    materials: seq<Material>, t0: Time, tmax: Time, allEquipment: seq<Equipment>, formulas: seq<Formula>,
    equipmentFormulaTimeIndexes: seq<EquipmentFormulaTimeIndex>, equipmentTimeIndexes: seq<EquipmentTimeIndex>)
    : (b: ProductionBuilder)
    ensures b.ctx == NewContext(materials, t0, tmax, None, None)
    ensures b.allEquipment == allEquipment && b.formulas == formulas
    ensures |b.materialEquipmentFormulaTimeIndexes| == |materials| * (|allEquipment| * (|formulas| * Span(t0, tmax)))
    ensures forall x :: x in b.materialEquipmentFormulaTimeIndexes <==>
              x.material in materials && x.equipment in allEquipment && x.formula in formulas && t0 <= x.time <= tmax
    ensures b.equipmentFormulaTimeIndexes == equipmentFormulaTimeIndexes && b.equipmentTimeIndexes == equipmentTimeIndexes
  {
    var meft := BuildMaterialEquipmentFormulaTimeIndexes(materials, allEquipment, formulas, t0, tmax);
    assert forall x :: x in meft <==>
             x.material in materials && x.equipment in allEquipment && x.formula in formulas && t0 <= x.time <= tmax by {
      forall x {
        MaterialEquipmentFormulaTimeIndexMember(materials, allEquipment, formulas, t0, tmax, x);
      }
    }
    ProductionBuilder(NewContext(materials, t0, tmax, None, None), allEquipment, formulas, meft,
                      equipmentFormulaTimeIndexes, equipmentTimeIndexes)
  }

  // ---------------------------------------------------------------------------
  // Working hours

  /** The factory is closed before 8:00 and after 20:00. Python's `%` by a
      positive number agrees with Dafny's, also for negative times. */
  predicate FactoryClosed(time: Time)
  {
    var hourFromDay := time % 24;
    hourFromDay < 8 || hourFromDay > 20
  }


  /** The rule of `no_production_when_factory_is_closed`. */
  function ClosedHoursRule(x: MaterialEquipmentFormulaTimeIndex): (r: RuleResult)
    ensures r.Emit? <==> FactoryClosed(x.time)
    ensures !r.Raise?
    ensures r.Emit? ==> forall a :: Holds(r.relation, a) <==> a(Production(x)) == 0.0
  {
    if FactoryClosed(x.time) then Emit(Equal(Ref(Production(x)), Const(0.0))) else Skip
  }

  function NoProductionWhenFactoryIsClosed(b: ProductionBuilder): (c: Block<MaterialEquipmentFormulaTimeIndex>)
    ensures c.name == "no_production_when_factory_is_closed"
    ensures c.index == b.materialEquipmentFormulaTimeIndexes
    ensures |c.rows| == |c.index| && forall p :: 0 <= p < |c.rows| ==> c.rows[p] == ClosedHoursRule(c.index[p])
  {
    BuildBlock("no_production_when_factory_is_closed", b.materialEquipmentFormulaTimeIndexes, ClosedHoursRule)
  }

  /** The gate emits an equation exactly at the indices whose hour is before 8
      or after 20; hours 8 through 20 are skipped. */
  lemma ClosedHoursEmitted(b: ProductionBuilder, x: MaterialEquipmentFormulaTimeIndex)
    ensures x in Emitted(NoProductionWhenFactoryIsClosed(b))
        <==> x in b.materialEquipmentFormulaTimeIndexes && (x.time % 24 < 8 || x.time % 24 > 20)
  {
    EmittedBuildBlock("no_production_when_factory_is_closed", b.materialEquipmentFormulaTimeIndexes, ClosedHoursRule, x);
  }

  /** Satisfying the gate means no production at a closed hour, and nothing
      more. */
  lemma ClosedHoursSatisfied(b: ProductionBuilder, a: Assignment)
    ensures Satisfied(NoProductionWhenFactoryIsClosed(b), a)
        <==> forall x :: x in b.materialEquipmentFormulaTimeIndexes && FactoryClosed(x.time) ==> a(Production(x)) == 0.0
  {
    SatisfiedBuildBlock("no_production_when_factory_is_closed", b.materialEquipmentFormulaTimeIndexes, ClosedHoursRule, a);
  }

  /** When t0 falls before 8:00 (t0 = 0 in particular), the gate forces zero
      production in the first period; the optimiser stores this family as
      `no_production_at_t0`. */
  lemma NoProductionAtT0(
    materials: seq<Material>, t0: Time, tmax: Time, allEquipment: seq<Equipment>, formulas: seq<Formula>,
    eft: seq<EquipmentFormulaTimeIndex>, et: seq<EquipmentTimeIndex>, a: Assignment,
    m: Material, e: Equipment, f: Formula)
    requires t0 <= tmax && t0 % 24 < 8
    requires m in materials && e in allEquipment && f in formulas
    requires Satisfied(NoProductionWhenFactoryIsClosed(NewProductionBuilder(materials, t0, tmax, allEquipment, formulas, eft, et)), a)
    ensures a(Production(MaterialEquipmentFormulaTimeIndex(m, e, f, t0))) == 0.0
  {
    var b := NewProductionBuilder(materials, t0, tmax, allEquipment, formulas, eft, et);
    ClosedHoursSatisfied(b, a);
    assert MaterialEquipmentFormulaTimeIndex(m, e, f, t0) in b.materialEquipmentFormulaTimeIndexes;
  }

  // ---------------------------------------------------------------------------
  // Capacity

  function ProductionOfEach(materials: seq<Material>, e: Equipment, f: Formula, t: Time): (r: seq<Expr>)
    ensures |r| == |materials|
  {
    seq(|materials|, i requires 0 <= i < |materials| =>
      Ref(Production(BuildSingleMaterialEquipmentFormulaTimeIndex(materials[i], e, f, t))))
  }

  /** Batches produced across all materials by one equipment and formula in one period. */
  function BatchesProduced(materials: seq<Material>, e: Equipment, f: Formula, t: Time, a: Assignment): real
  {
    SumReals(seq(|materials|, i requires 0 <= i < |materials| => a(Production(MaterialEquipmentFormulaTimeIndex(materials[i], e, f, t)))))
  }

  /** The rule of `production_doesnt_exceed_capacity`: a pair without a
      capacity entry is skipped. The sum counts batches; it is not scaled by
      the batch size. */
  function CapacityRule(materials: seq<Material>, maxCapacity: map<(Equipment, Formula), int>, x: EquipmentFormulaTimeIndex)
    : (r: RuleResult)
    ensures r.Emit? <==> (x.equipment, x.formula) in maxCapacity
    ensures !r.Raise?
    ensures r.Emit? ==> forall a :: Holds(r.relation, a) <==>
              BatchesProduced(materials, x.equipment, x.formula, x.time, a) <= maxCapacity[(x.equipment, x.formula)] as real
  {
    if (x.equipment, x.formula) in maxCapacity then
      var lhs := SumExprs(ProductionOfEach(materials, x.equipment, x.formula, x.time));
      assert forall a :: Value(lhs, a) == BatchesProduced(materials, x.equipment, x.formula, x.time, a) by {
        forall a ensures Value(lhs, a) == BatchesProduced(materials, x.equipment, x.formula, x.time, a) {
          SumExprsOf(ProductionOfEach(materials, x.equipment, x.formula, x.time),
                     seq(|materials|, i requires 0 <= i < |materials| =>
                       a(Production(MaterialEquipmentFormulaTimeIndex(materials[i], x.equipment, x.formula, x.time)))), a);
        }
      }
      Emit(AtMost(lhs, Const(maxCapacity[(x.equipment, x.formula)] as real)))
    else
      Skip
  }

  function ProductionDoesntExceedCapacity(b: ProductionBuilder, maxCapacity: map<(Equipment, Formula), int>)
    : (c: Block<EquipmentFormulaTimeIndex>)
    ensures c.name == "production_doesnt_exceed_capacity"
    ensures c.index == b.equipmentFormulaTimeIndexes
    ensures |c.rows| == |c.index| &&
            forall p :: 0 <= p < |c.rows| ==> c.rows[p] == CapacityRule(b.ctx.materials, maxCapacity, c.index[p])
  {
    BuildBlock("production_doesnt_exceed_capacity", b.equipmentFormulaTimeIndexes,
               x => CapacityRule(b.ctx.materials, maxCapacity, x))
  }

  /** A row is emitted exactly for the pairs that have a capacity entry; a
      missing pair means no limit, not a zero limit. */
  lemma CapacityEmitted(b: ProductionBuilder, maxCapacity: map<(Equipment, Formula), int>, x: EquipmentFormulaTimeIndex)
    ensures x in Emitted(ProductionDoesntExceedCapacity(b, maxCapacity))
        <==> x in b.equipmentFormulaTimeIndexes && (x.equipment, x.formula) in maxCapacity
  {
    EmittedBuildBlock("production_doesnt_exceed_capacity", b.equipmentFormulaTimeIndexes,
                      x => CapacityRule(b.ctx.materials, maxCapacity, x), x);
  }

  lemma CapacitySatisfied(b: ProductionBuilder, maxCapacity: map<(Equipment, Formula), int>, a: Assignment)
    ensures Satisfied(ProductionDoesntExceedCapacity(b, maxCapacity), a)
        <==> forall x :: x in b.equipmentFormulaTimeIndexes && (x.equipment, x.formula) in maxCapacity ==>
               BatchesProduced(b.ctx.materials, x.equipment, x.formula, x.time, a) <= maxCapacity[(x.equipment, x.formula)] as real
  {
    SatisfiedBuildBlock("production_doesnt_exceed_capacity", b.equipmentFormulaTimeIndexes,
                        x => CapacityRule(b.ctx.materials, maxCapacity, x), a);
  }

  // ---------------------------------------------------------------------------
  // Continuous running time

  /** The number of periods in `range(time, time + k + 1)`. */
  function WindowLength(k: int): nat
  {
    if k + 1 < 0 then 0 else k + 1
  }

  /** The status variables of one equipment over the periods time..time + k. */
  function StatusWindow(e: Equipment, time: Time, k: int): (r: seq<Expr>)
    ensures |r| == WindowLength(k)
    ensures forall j :: 0 <= j < |r| ==> r[j] == Ref(EquipmentStatus(EquipmentTimeIndex(e, time + j)))
  {
    seq(WindowLength(k), j requires 0 <= j < WindowLength(k) => Ref(EquipmentStatus(EquipmentTimeIndex(e, time + j))))
  }

  /** The values of those status variables. */
  function Statuses(e: Equipment, time: Time, k: int, a: Assignment): (r: seq<real>)
    ensures |r| == WindowLength(k)
    ensures forall j :: 0 <= j < |r| ==> r[j] == a(EquipmentStatus(EquipmentTimeIndex(e, time + j)))
  {
    seq(WindowLength(k), j requires 0 <= j < WindowLength(k) => a(EquipmentStatus(EquipmentTimeIndex(e, time + j))))
  }

  /** The equipment's status summed over the periods time..time + k. */
  function ActivePeriods(e: Equipment, time: Time, k: int, a: Assignment): real
  {
    SumReals(Statuses(e, time, k, a))
  }

  /** The rule of `max_continuous_production_time_limit`. */
  function MaxRunRule(tmax: Time, maxContinuousTime: int, x: EquipmentTimeIndex): (r: RuleResult)
    ensures r.Emit? <==> x.time < tmax - maxContinuousTime
    ensures !r.Raise?
    ensures r.Emit? ==> forall a :: Holds(r.relation, a) <==>
              ActivePeriods(x.equipment, x.time, maxContinuousTime, a) <= maxContinuousTime as real
    ensures r.Emit? ==> forall v :: v in Vars(r.relation.lhs) ==>
              v.EquipmentStatus? && v.et.equipment == x.equipment &&
              x.time <= v.et.time <= x.time + maxContinuousTime < tmax
    ensures r.Emit? ==> Vars(r.relation.rhs) == {}
  {
    if x.time < tmax - maxContinuousTime then
      var window := StatusWindow(x.equipment, x.time, maxContinuousTime);
      var lhs := SumExprs(window);
      assert forall a :: Value(lhs, a) == ActivePeriods(x.equipment, x.time, maxContinuousTime, a) by {
        forall a ensures Value(lhs, a) == ActivePeriods(x.equipment, x.time, maxContinuousTime, a) {
          SumExprsOf(window, Statuses(x.equipment, x.time, maxContinuousTime, a), a);
        }
      }
      var allowed := set j | x.time <= j <= x.time + maxContinuousTime :: EquipmentStatus(EquipmentTimeIndex(x.equipment, j));
      assert forall j :: 0 <= j < |window| ==> Vars(window[j]) <= allowed by {
        forall j | 0 <= j < |window| ensures Vars(window[j]) <= allowed {
          assert x.time <= x.time + j <= x.time + maxContinuousTime;
        }
      }
      SumExprsVars(window, allowed);
      Emit(AtMost(lhs, Const(maxContinuousTime as real)))
    else
      Skip
  }

  function MaxContinuousProductionTimeLimit(b: ProductionBuilder, maxContinuousTime: int): (c: Block<EquipmentTimeIndex>)
    ensures c.name == "max_continuous_production_time_limit"
    ensures c.index == b.equipmentTimeIndexes
    ensures |c.rows| == |c.index| &&
            forall p :: 0 <= p < |c.rows| ==> c.rows[p] == MaxRunRule(b.ctx.tmax, maxContinuousTime, c.index[p])
  {
    BuildBlock("max_continuous_production_time_limit", b.equipmentTimeIndexes,
               x => MaxRunRule(b.ctx.tmax, maxContinuousTime, x))
  }

  /** No window is emitted for a start time at or after tmax - k. */
  lemma MaxRunEmitted(b: ProductionBuilder, maxContinuousTime: int, x: EquipmentTimeIndex)
    ensures x in Emitted(MaxContinuousProductionTimeLimit(b, maxContinuousTime))
        <==> x in b.equipmentTimeIndexes && x.time < b.ctx.tmax - maxContinuousTime
  {
    EmittedBuildBlock("max_continuous_production_time_limit", b.equipmentTimeIndexes,
                      x => MaxRunRule(b.ctx.tmax, maxContinuousTime, x), x);
  }

  lemma MaxRunSatisfied(b: ProductionBuilder, maxContinuousTime: int, a: Assignment)
    ensures Satisfied(MaxContinuousProductionTimeLimit(b, maxContinuousTime), a)
        <==> forall x :: x in b.equipmentTimeIndexes && x.time < b.ctx.tmax - maxContinuousTime ==>
               ActivePeriods(x.equipment, x.time, maxContinuousTime, a) <= maxContinuousTime as real
  {
    SatisfiedBuildBlock("max_continuous_production_time_limit", b.equipmentTimeIndexes,
                        x => MaxRunRule(b.ctx.tmax, maxContinuousTime, x), a);
  }

  /** Every status variable takes the value 0 or 1. */
  ghost predicate BinaryStatus(a: Assignment)
  {
    forall et :: a(EquipmentStatus(et)) == 0.0 || a(EquipmentStatus(et)) == 1.0
  }

  /** With 0/1 statuses, a satisfying assignment has an idle period in every
      window of k + 1 periods that starts before tmax - k. */
  lemma NoOverlongRun(b: ProductionBuilder, maxContinuousTime: nat, a: Assignment, x: EquipmentTimeIndex)
    requires BinaryStatus(a)
    requires Satisfied(MaxContinuousProductionTimeLimit(b, maxContinuousTime), a)
    requires x in b.equipmentTimeIndexes && x.time < b.ctx.tmax - maxContinuousTime
    ensures exists t :: x.time <= t <= x.time + maxContinuousTime && a(EquipmentStatus(EquipmentTimeIndex(x.equipment, t))) == 0.0
  {
    MaxRunSatisfied(b, maxContinuousTime, a);
    var k := maxContinuousTime;
    var statuses := Statuses(x.equipment, x.time, k, a);
    if forall t :: x.time <= t <= x.time + k ==> a(EquipmentStatus(EquipmentTimeIndex(x.equipment, t))) != 0.0 {
      forall j | 0 <= j < |statuses| ensures statuses[j] == 1.0 {
        var t := x.time + j;
        assert statuses[j] == a(EquipmentStatus(EquipmentTimeIndex(x.equipment, t)));
      }
      SumRealsConstant(statuses, 1.0);
      assert false;
    }
  }
}
