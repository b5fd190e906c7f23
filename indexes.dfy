/** The index spaces every variable and constraint is declared over
    (src/utils.py), as ordered sequences of named index records.

    A Python list comprehension `[g(x, y) for x in xs for y in ys]` is modelled
    as the concatenation of one block per `x`:
    `Concat(seq(|xs|, i => seq(|ys|, j => g(xs[i], ys[j]))))`. */
module Indexes {

  type Material = string
  type Equipment = string
  type Formula = string
  type Time = int

  datatype MaterialTimeIndex = MaterialTimeIndex(material: Material, time: Time)

  datatype MaterialEquipmentFormulaTimeIndex =
    MaterialEquipmentFormulaTimeIndex(material: Material, equipment: Equipment, formula: Formula, time: Time)

  datatype EquipmentFormulaTimeIndex = EquipmentFormulaTimeIndex(equipment: Equipment, formula: Formula, time: Time)

  datatype EquipmentTimeIndex = EquipmentTimeIndex(equipment: Equipment, time: Time)

  // ---------------------------------------------------------------------------
  // The horizon

  /** Number of periods in the inclusive horizon [t0, tmax]. */
  function Span(t0: Time, tmax: Time): nat
  {
    if tmax < t0 then 0 else tmax - t0 + 1
  }

  /** `range(t0, tmax + 1)`: the periods t0, t0 + 1, ..., tmax in ascending order. */
  function TimeRange(t0: Time, tmax: Time): (r: seq<Time>)
    ensures |r| == Span(t0, tmax)
    ensures forall k :: 0 <= k < |r| ==> r[k] == t0 + k
    decreases tmax - t0
  {
    if tmax < t0 then [] else [t0] + TimeRange(t0 + 1, tmax)
  }

  // ---------------------------------------------------------------------------
  // Concatenation of blocks (the nested `for` of a comprehension)

  function Concat<T>(blocks: seq<seq<T>>): seq<T>
  {
    if blocks == [] then [] else blocks[0] + Concat(blocks[1..])
  }

  lemma {:induction false} ConcatAppend<T>(x: seq<seq<T>>, y: seq<seq<T>>)
    ensures Concat(x + y) == Concat(x) + Concat(y)
  {
    if x != [] {
      assert (x + y)[1..] == x[1..] + y;
      ConcatAppend(x[1..], y);
    } else {
      assert x + y == y;
    }
  }

  lemma {:induction false} ConcatUniformLength<T>(blocks: seq<seq<T>>, n: nat)
    requires forall j :: 0 <= j < |blocks| ==> |blocks[j]| == n
    ensures |Concat(blocks)| == |blocks| * n
  {
    if blocks != [] {
      ConcatUniformLength(blocks[1..], n);
      assert |blocks| * n == n + (|blocks| - 1) * n;
    }
  }

  /** In a concatenation of blocks of equal length n, position i * n + k holds
      element k of block i. */
  lemma {:induction false} ConcatUniformAt<T>(blocks: seq<seq<T>>, n: nat, i: nat, k: nat)
    requires forall j :: 0 <= j < |blocks| ==> |blocks[j]| == n
    requires i < |blocks| && k < n
    ensures |Concat(blocks)| == |blocks| * n
    ensures i * n + k < |Concat(blocks)| && Concat(blocks)[i * n + k] == blocks[i][k]
  {
    ConcatUniformLength(blocks, n);
    if i > 0 {
      ConcatUniformAt(blocks[1..], n, i - 1, k);
      assert (i - 1) * n + k == i * n + k - n;
    }
  }

  lemma {:induction false} ConcatMember<T>(blocks: seq<seq<T>>, x: T)
    ensures x in Concat(blocks) <==> exists j :: 0 <= j < |blocks| && x in blocks[j]
  {
    if blocks != [] {
      ConcatMember(blocks[1..], x);
      if x in Concat(blocks[1..]) {
        var j :| 0 <= j < |blocks[1..]| && x in blocks[1..][j];
        assert x in blocks[j + 1];
      }
      if exists j :: 0 <= j < |blocks| && x in blocks[j] {
        var j :| 0 <= j < |blocks| && x in blocks[j];
        if j > 0 {
          assert x in blocks[1..][j - 1];
        }
      }
    }
  }

  // ---------------------------------------------------------------------------
  // build_material_time_indexes

  /** `[MaterialTimeIndex(material, time) for time in range(t0, tmax + 1)]`. */
  function MaterialTimeRow(material: Material, t0: Time, tmax: Time): (row: seq<MaterialTimeIndex>)
    ensures |row| == Span(t0, tmax)
  {
    var times := TimeRange(t0, tmax);
    seq(|times|, k requires 0 <= k < |times| => MaterialTimeIndex(material, times[k]))
  }

  function MaterialTimeRows(materials: seq<Material>, t0: Time, tmax: Time): (rows: seq<seq<MaterialTimeIndex>>)
    ensures |rows| == |materials|
    ensures forall i :: 0 <= i < |rows| ==> |rows[i]| == Span(t0, tmax)
  {
    seq(|materials|, i requires 0 <= i < |materials| => MaterialTimeRow(materials[i], t0, tmax))
  }

  /** build_material_time_indexes: material outer, time inner. */
  function BuildMaterialTimeIndexes(materials: seq<Material>, t0: Time, tmax: Time): (r: seq<MaterialTimeIndex>)
    ensures |r| == |materials| * Span(t0, tmax)
    ensures tmax < t0 ==> r == []
  {
    ConcatUniformLength(MaterialTimeRows(materials, t0, tmax), Span(t0, tmax));
    Concat(MaterialTimeRows(materials, t0, tmax))
  }

  /** Element i * (tmax - t0 + 1) + k is (materials[i], t0 + k). */
  lemma MaterialTimeIndexAt(materials: seq<Material>, t0: Time, tmax: Time, i: nat, k: nat)
    requires i < |materials| && k < Span(t0, tmax)
    ensures i * Span(t0, tmax) + k < |BuildMaterialTimeIndexes(materials, t0, tmax)|
    ensures BuildMaterialTimeIndexes(materials, t0, tmax)[i * Span(t0, tmax) + k]
         == MaterialTimeIndex(materials[i], t0 + k)
  {
    ConcatUniformAt(MaterialTimeRows(materials, t0, tmax), Span(t0, tmax), i, k);
  }

  lemma MaterialTimeRowMember(material: Material, t0: Time, tmax: Time, x: MaterialTimeIndex)
    ensures x in MaterialTimeRow(material, t0, tmax) <==> x.material == material && t0 <= x.time <= tmax
  {
    var row := MaterialTimeRow(material, t0, tmax);
    if x.material == material && t0 <= x.time <= tmax {
      assert row[x.time - t0] == x;
    }
  }

  /** A pair is in the index exactly when its material is listed and its time
      lies in the horizon. */
  lemma MaterialTimeIndexMember(materials: seq<Material>, t0: Time, tmax: Time, x: MaterialTimeIndex)
    ensures x in BuildMaterialTimeIndexes(materials, t0, tmax)
        <==> x.material in materials && t0 <= x.time <= tmax
  {
    var rows := MaterialTimeRows(materials, t0, tmax);
    ConcatMember(rows, x);
    if x in Concat(rows) {
      var j :| 0 <= j < |rows| && x in rows[j];
      MaterialTimeRowMember(materials[j], t0, tmax, x);
    }
    if x.material in materials && t0 <= x.time <= tmax {
      var j :| 0 <= j < |materials| && materials[j] == x.material;
      MaterialTimeRowMember(materials[j], t0, tmax, x);
      assert x in rows[j];
    }
  }

  /** With tmax == t0 the builder gives one pair per material, in list order:
      the t0 index. */
  lemma T0IndexOnePerMaterial(materials: seq<Material>, t0: Time)
    ensures |BuildMaterialTimeIndexes(materials, t0, t0)| == |materials|
    ensures forall i :: 0 <= i < |materials| ==>
              BuildMaterialTimeIndexes(materials, t0, t0)[i] == MaterialTimeIndex(materials[i], t0)
  {
    forall i | 0 <= i < |materials|
      ensures BuildMaterialTimeIndexes(materials, t0, t0)[i] == MaterialTimeIndex(materials[i], t0)
    {
      MaterialTimeIndexAt(materials, t0, t0, i, 0);
    }
  }

  // ---------------------------------------------------------------------------
  // build_single_material_equipment_formula_time_index and
  // build_material_equipment_formula_time_indexes

  /** The named record whose four fields are the four arguments. */
  function BuildSingleMaterialEquipmentFormulaTimeIndex(material: Material, equipment: Equipment, formula: Formula, time: Time)
    : (r: MaterialEquipmentFormulaTimeIndex)
    ensures r.material == material && r.equipment == equipment && r.formula == formula && r.time == time
  {
    MaterialEquipmentFormulaTimeIndex(material, equipment, formula, time)
  }

  /** The time-innermost block for one (material, equipment, formula). */
  function TimeBlock(material: Material, equipment: Equipment, formula: Formula, t0: Time, tmax: Time)
    : (block: seq<MaterialEquipmentFormulaTimeIndex>)
    ensures |block| == Span(t0, tmax)
  {
    var times := TimeRange(t0, tmax);
    seq(|times|, k requires 0 <= k < |times| =>
      BuildSingleMaterialEquipmentFormulaTimeIndex(material, equipment, formula, times[k]))
  }

  function FormulaBlocks(material: Material, equipment: Equipment, formulas: seq<Formula>, t0: Time, tmax: Time)
    : (blocks: seq<seq<MaterialEquipmentFormulaTimeIndex>>)
    ensures |blocks| == |formulas|
    ensures forall l :: 0 <= l < |blocks| ==> |blocks[l]| == Span(t0, tmax)
  {
    seq(|formulas|, l requires 0 <= l < |formulas| => TimeBlock(material, equipment, formulas[l], t0, tmax))
  }

  function EquipmentBlock(material: Material, equipment: Equipment, formulas: seq<Formula>, t0: Time, tmax: Time)
    : (block: seq<MaterialEquipmentFormulaTimeIndex>)
    ensures |block| == |formulas| * Span(t0, tmax)
  {
    ConcatUniformLength(FormulaBlocks(material, equipment, formulas, t0, tmax), Span(t0, tmax));
    Concat(FormulaBlocks(material, equipment, formulas, t0, tmax))
  }

  function EquipmentBlocks(material: Material, allEquipment: seq<Equipment>, formulas: seq<Formula>, t0: Time, tmax: Time)
    : (blocks: seq<seq<MaterialEquipmentFormulaTimeIndex>>)
    ensures |blocks| == |allEquipment|
    ensures forall j :: 0 <= j < |blocks| ==> |blocks[j]| == |formulas| * Span(t0, tmax)
  {
    seq(|allEquipment|, j requires 0 <= j < |allEquipment| => EquipmentBlock(material, allEquipment[j], formulas, t0, tmax))
  }

  function MaterialBlock(material: Material, allEquipment: seq<Equipment>, formulas: seq<Formula>, t0: Time, tmax: Time)
    : (block: seq<MaterialEquipmentFormulaTimeIndex>)
    ensures |block| == |allEquipment| * (|formulas| * Span(t0, tmax))
  {
    ConcatUniformLength(EquipmentBlocks(material, allEquipment, formulas, t0, tmax), |formulas| * Span(t0, tmax));
    Concat(EquipmentBlocks(material, allEquipment, formulas, t0, tmax))
  }

  function MaterialBlocks(materials: seq<Material>, allEquipment: seq<Equipment>, formulas: seq<Formula>, t0: Time, tmax: Time)
    : (blocks: seq<seq<MaterialEquipmentFormulaTimeIndex>>)
    ensures |blocks| == |materials|
    ensures forall i :: 0 <= i < |blocks| ==> |blocks[i]| == |allEquipment| * (|formulas| * Span(t0, tmax))
  {
    seq(|materials|, i requires 0 <= i < |materials| => MaterialBlock(materials[i], allEquipment, formulas, t0, tmax))
  }

  /** build_material_equipment_formula_time_indexes: material, then equipment,
      then formula, with time innermost. */
  function BuildMaterialEquipmentFormulaTimeIndexes(
    materials: seq<Material>, allEquipment: seq<Equipment>, formulas: seq<Formula>, t0: Time, tmax: Time)
    : (r: seq<MaterialEquipmentFormulaTimeIndex>)
    ensures |r| == |materials| * (|allEquipment| * (|formulas| * Span(t0, tmax)))
  {
    ConcatUniformLength(MaterialBlocks(materials, allEquipment, formulas, t0, tmax),
                        |allEquipment| * (|formulas| * Span(t0, tmax)));
    Concat(MaterialBlocks(materials, allEquipment, formulas, t0, tmax))
  }

  lemma EquipmentBlockAt(material: Material, equipment: Equipment, formulas: seq<Formula>, t0: Time, tmax: Time,
                         l: nat, k: nat)
    requires l < |formulas| && k < Span(t0, tmax)
    ensures l * Span(t0, tmax) + k < |EquipmentBlock(material, equipment, formulas, t0, tmax)|
    ensures EquipmentBlock(material, equipment, formulas, t0, tmax)[l * Span(t0, tmax) + k]
         == MaterialEquipmentFormulaTimeIndex(material, equipment, formulas[l], t0 + k)
  {
    ConcatUniformAt(FormulaBlocks(material, equipment, formulas, t0, tmax), Span(t0, tmax), l, k);
  }

  lemma MaterialBlockAt(material: Material, allEquipment: seq<Equipment>, formulas: seq<Formula>, t0: Time, tmax: Time,
                        j: nat, q: nat)
    requires j < |allEquipment| && q < |formulas| * Span(t0, tmax)
    ensures j * (|formulas| * Span(t0, tmax)) + q < |MaterialBlock(material, allEquipment, formulas, t0, tmax)|
    ensures MaterialBlock(material, allEquipment, formulas, t0, tmax)[j * (|formulas| * Span(t0, tmax)) + q]
         == EquipmentBlock(material, allEquipment[j], formulas, t0, tmax)[q]
  {
    ConcatUniformAt(EquipmentBlocks(material, allEquipment, formulas, t0, tmax), |formulas| * Span(t0, tmax), j, q);
  }

  lemma MaterialBlocksAt(materials: seq<Material>, allEquipment: seq<Equipment>, formulas: seq<Formula>, t0: Time, tmax: Time,
                         i: nat, q: nat)
    requires i < |materials| && q < |allEquipment| * (|formulas| * Span(t0, tmax))
    ensures i * (|allEquipment| * (|formulas| * Span(t0, tmax))) + q
          < |BuildMaterialEquipmentFormulaTimeIndexes(materials, allEquipment, formulas, t0, tmax)|
    ensures BuildMaterialEquipmentFormulaTimeIndexes(materials, allEquipment, formulas, t0, tmax)
              [i * (|allEquipment| * (|formulas| * Span(t0, tmax))) + q]
         == MaterialBlock(materials[i], allEquipment, formulas, t0, tmax)[q]
  {
    ConcatUniformAt(MaterialBlocks(materials, allEquipment, formulas, t0, tmax),
                    |allEquipment| * (|formulas| * Span(t0, tmax)), i, q);
  }

  /** Position i * (|E| * |F| * S) + j * (|F| * S) + l * S + k of the mixed-radix
      order material > equipment > formula > time, for |E| equipment, |F|
      formulas and S periods. */
  function MeftPosition(equipmentCount: nat, formulaCount: nat, span: nat, i: nat, j: nat, l: nat, k: nat): nat
  {
    i * (equipmentCount * (formulaCount * span)) + (j * (formulaCount * span) + (l * span + k))
  }

  /** (materials[i], allEquipment[j], formulas[l], t0 + k) sits at its
      mixed-radix position. */
  lemma MaterialEquipmentFormulaTimeIndexAt(
    materials: seq<Material>, allEquipment: seq<Equipment>, formulas: seq<Formula>, t0: Time, tmax: Time,
    i: nat, j: nat, l: nat, k: nat)
    requires i < |materials| && j < |allEquipment| && l < |formulas| && k < Span(t0, tmax)
    ensures MeftPosition(|allEquipment|, |formulas|, Span(t0, tmax), i, j, l, k)
          < |BuildMaterialEquipmentFormulaTimeIndexes(materials, allEquipment, formulas, t0, tmax)|
    ensures BuildMaterialEquipmentFormulaTimeIndexes(materials, allEquipment, formulas, t0, tmax)
              [MeftPosition(|allEquipment|, |formulas|, Span(t0, tmax), i, j, l, k)]
         == MaterialEquipmentFormulaTimeIndex(materials[i], allEquipment[j], formulas[l], t0 + k)
  {
    var s := Span(t0, tmax);
    var target := MaterialEquipmentFormulaTimeIndex(materials[i], allEquipment[j], formulas[l], t0 + k);
    var inner := l * s + k;
    var eb := EquipmentBlock(materials[i], allEquipment[j], formulas, t0, tmax);
    assert inner < |formulas| * s && eb[inner] == target by {
      EquipmentBlockAt(materials[i], allEquipment[j], formulas, t0, tmax, l, k);
    }
    var middle := j * (|formulas| * s) + inner;
    var mb := MaterialBlock(materials[i], allEquipment, formulas, t0, tmax);
    assert middle < |allEquipment| * (|formulas| * s) && mb[middle] == target by {
      MaterialBlockAt(materials[i], allEquipment, formulas, t0, tmax, j, inner);
    }
    MaterialBlocksAt(materials, allEquipment, formulas, t0, tmax, i, middle);
  }

  lemma EquipmentBlockMember(material: Material, equipment: Equipment, formulas: seq<Formula>, t0: Time, tmax: Time,
                             x: MaterialEquipmentFormulaTimeIndex)
    ensures x in EquipmentBlock(material, equipment, formulas, t0, tmax)
        <==> x.material == material && x.equipment == equipment && x.formula in formulas && t0 <= x.time <= tmax
  {
    var blocks := FormulaBlocks(material, equipment, formulas, t0, tmax);
    ConcatMember(blocks, x);
    if x.material == material && x.equipment == equipment && x.formula in formulas && t0 <= x.time <= tmax {
      var l :| 0 <= l < |formulas| && formulas[l] == x.formula;
      assert blocks[l][x.time - t0] == x;
    }
  }

  lemma MaterialBlockMember(material: Material, allEquipment: seq<Equipment>, formulas: seq<Formula>, t0: Time, tmax: Time,
                            x: MaterialEquipmentFormulaTimeIndex)
    ensures x in MaterialBlock(material, allEquipment, formulas, t0, tmax)
        <==> x.material == material && x.equipment in allEquipment && x.formula in formulas && t0 <= x.time <= tmax
  {
    var blocks := EquipmentBlocks(material, allEquipment, formulas, t0, tmax);
    ConcatMember(blocks, x);
    if x in Concat(blocks) {
      var j :| 0 <= j < |blocks| && x in blocks[j];
      EquipmentBlockMember(material, allEquipment[j], formulas, t0, tmax, x);
    }
    if x.material == material && x.equipment in allEquipment && x.formula in formulas && t0 <= x.time <= tmax {
      var j :| 0 <= j < |allEquipment| && allEquipment[j] == x.equipment;
      EquipmentBlockMember(material, allEquipment[j], formulas, t0, tmax, x);
      assert x in blocks[j];
    }
  }

  /** (m, e, f, t) is in the index exactly when each component is listed and t
      lies in the horizon. */
  lemma MaterialEquipmentFormulaTimeIndexMember(
    materials: seq<Material>, allEquipment: seq<Equipment>, formulas: seq<Formula>, t0: Time, tmax: Time,
    x: MaterialEquipmentFormulaTimeIndex)
    ensures x in BuildMaterialEquipmentFormulaTimeIndexes(materials, allEquipment, formulas, t0, tmax)
        <==> x.material in materials && x.equipment in allEquipment && x.formula in formulas && t0 <= x.time <= tmax
  {
    var blocks := MaterialBlocks(materials, allEquipment, formulas, t0, tmax);
    ConcatMember(blocks, x);
    if x in Concat(blocks) {
      var i :| 0 <= i < |blocks| && x in blocks[i];
      MaterialBlockMember(materials[i], allEquipment, formulas, t0, tmax, x);
    }
    if x.material in materials && x.equipment in allEquipment && x.formula in formulas && t0 <= x.time <= tmax {
      var i :| 0 <= i < |materials| && materials[i] == x.material;
      MaterialBlockMember(materials[i], allEquipment, formulas, t0, tmax, x);
      assert x in blocks[i];
    }
  }
}
