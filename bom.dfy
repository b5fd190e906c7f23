/** The bill of materials: the caller's table gains a `(formula, parent)`
    key column and a `(component, proportion)` value column, and the raw
    recipe mapping is built from those two columns. */
module BillsOfMaterials {
  import opened Wrappers
  import opened Tables
  import opened Preprocessing

  const FormulaParentLabel := "formula_parent"
  const ComponentProportionLabel := "component_proportion"
  const ParentMaterialsLabel := "manufactured_good"

  /** The zipped column of two equally long columns is as long as they are. */
  lemma ZippedPairLength(first: seq<Cell>, second: seq<Cell>, n: nat)
    requires |first| == n && |second| == n
    ensures |UnifyColumnsIntoTuple([first, second])| == n
  {
    var columns := [first, second];
    var j :| 0 <= j < |columns| && MinLength(columns) == |columns[j]|;
  }

  /** Row `i` of a zipped pair column is the pair of the rows `i`. */
  lemma ZippedPairRow(first: seq<Cell>, second: seq<Cell>, i: nat)
    requires |first| == |second| && i < |first|
    ensures i < |UnifyColumnsIntoTuple([first, second])|
    ensures UnifyColumnsIntoTuple([first, second])[i] == Tuple([first[i], second[i]])
  {
    ZippedPairLength(first, second, |first|);
    var r := UnifyColumnsIntoTuple([first, second]);
    assert r[i].items == [first[i], second[i]];
  }

  /** A zipped key column repeats a key exactly when two rows share both
      halves of the pair. */
  lemma ZippedKeysRepeat(formula: seq<Cell>, parent: seq<Cell>)
    requires |formula| == |parent|
    ensures HasDuplicates(UnifyColumnsIntoTuple([formula, parent]))
        <==> exists i, j :: 0 <= i < j < |formula| && formula[i] == formula[j] && parent[i] == parent[j]
  {
    var keys := UnifyColumnsIntoTuple([formula, parent]);
    ZippedPairLength(formula, parent, |formula|);
    forall i | 0 <= i < |formula|
      ensures keys[i] == Tuple([formula[i], parent[i]])
    {
      ZippedPairRow(formula, parent, i);
    }
    if HasDuplicates(keys) {
      var i, j :| 0 <= i < j < |keys| && keys[i] == keys[j];
      assert keys[i].items[0] == keys[j].items[0] && keys[i].items[1] == keys[j].items[1];
    }
  }

  class Bom {
    /** The caller's table, shared and not copied. */
    const bomData: DataFrame
    var bomRaw: Mapping
    var formulaColumnName: string
    var parentColumnName: string
    var childrenColumnName: string
    var childrenToParentProportionColumnName: string

    constructor Init(bomData: DataFrame, bomRaw: Mapping,
                     formulaColumnName: string, parentColumnName: string,
                     childrenColumnName: string, childrenToParentProportionColumnName: string)
      ensures this.bomData == bomData && this.bomRaw == bomRaw
      ensures this.formulaColumnName == formulaColumnName && this.parentColumnName == parentColumnName
      ensures this.childrenColumnName == childrenColumnName
      ensures this.childrenToParentProportionColumnName == childrenToParentProportionColumnName
    {
      this.bomData := bomData;
      this.bomRaw := bomRaw;
      this.formulaColumnName := formulaColumnName;
      this.parentColumnName := parentColumnName;
      this.childrenColumnName := childrenColumnName;
      this.childrenToParentProportionColumnName := childrenToParentProportionColumnName;
    }

    /** `Bom.__init__`. The formula and parent columns are read and zipped
        into `formula_parent` on the caller's table; the component and
        proportion columns are then read (from the table that already holds
        `formula_parent`) and zipped into `component_proportion`; the raw
        mapping goes from the first new column to the second. A missing
        column raises `KeyError` at the first failed lookup, leaving the
        assignments made before it in place. */
    static method Create(bomData: DataFrame, formulaColumnName: string, parentColumnName: string,
                         childrenColumnName: string, childrenToParentProportionColumnName: string)
      returns (r: Result<Bom>)
      requires bomData.Valid()
      modifies bomData
      ensures bomData.Valid() && bomData.rows == old(bomData.rows)
      ensures forall name :: name in old(bomData.labels) ==> name in bomData.labels
      ensures forall name :: name != FormulaParentLabel && name != ComponentProportionLabel ==>
                bomData.Column(name) == old(bomData.Column(name))
      ensures formulaColumnName !in old(bomData.labels) ==>
                r == Err(KeyError(formulaColumnName)) && unchanged(bomData)
      ensures formulaColumnName in old(bomData.labels) && parentColumnName !in old(bomData.labels) ==>
                r == Err(KeyError(parentColumnName)) && unchanged(bomData)
      ensures formulaColumnName in old(bomData.labels) && parentColumnName in old(bomData.labels) ==>
                bomData.Column(FormulaParentLabel) ==
                  Ok(UnifyColumnsIntoTuple([old(bomData.Column(formulaColumnName)).value,
                                            old(bomData.Column(parentColumnName)).value]))
      ensures formulaColumnName in old(bomData.labels) && parentColumnName in old(bomData.labels) ==>
                var afterFirst := old(bomData.labels) + [FormulaParentLabel];
                (childrenColumnName !in afterFirst ==> r == Err(KeyError(childrenColumnName))) &&
                (childrenColumnName in afterFirst && childrenToParentProportionColumnName !in afterFirst ==>
                   r == Err(KeyError(childrenToParentProportionColumnName))) &&
                (r.Ok? <==> childrenColumnName in afterFirst && childrenToParentProportionColumnName in afterFirst)
      ensures r.Err? ==> r.error.KeyError? && bomData.Column(ComponentProportionLabel) == old(bomData.Column(ComponentProportionLabel))
      ensures r.Ok? ==>
                var keys := UnifyColumnsIntoTuple([old(bomData.Column(formulaColumnName)).value,
                                                   old(bomData.Column(parentColumnName)).value]);
                var children :=
                  if childrenColumnName == FormulaParentLabel || childrenColumnName !in old(bomData.labels) then keys
                  else old(bomData.Column(childrenColumnName)).value;
                var proportion :=
                  if childrenToParentProportionColumnName == FormulaParentLabel ||
                     childrenToParentProportionColumnName !in old(bomData.labels) then keys
                  else old(bomData.Column(childrenToParentProportionColumnName)).value;
                var values := UnifyColumnsIntoTuple([children, proportion]);
                fresh(r.value) && r.value.bomData == bomData &&
                bomData.Column(ComponentProportionLabel) == Ok(values) &&
                r.value.bomRaw == MappingOf(keys, values) &&
                r.value.formulaColumnName == formulaColumnName &&
                r.value.parentColumnName == parentColumnName &&
                r.value.childrenColumnName == childrenColumnName &&
                r.value.childrenToParentProportionColumnName == childrenToParentProportionColumnName
    {
      var formula := bomData.Column(formulaColumnName);
      if formula.Err? {
        return Err(formula.error);
      }
      var parent := bomData.Column(parentColumnName);
      if parent.Err? {
        return Err(parent.error);
      }
      ZippedPairLength(formula.value, parent.value, bomData.rows);
      var keys := UnifyColumnsIntoTuple([formula.value, parent.value]);
      ghost var labels0 := bomData.labels;
      bomData.SetColumn(FormulaParentLabel, keys);
      assert forall name :: name in bomData.labels <==> name in labels0 + [FormulaParentLabel];
      var children := bomData.Column(childrenColumnName);
      if children.Err? {
        return Err(children.error);
      }
      var proportion := bomData.Column(childrenToParentProportionColumnName);
      if proportion.Err? {
        return Err(proportion.error);
      }
      ZippedPairLength(children.value, proportion.value, bomData.rows);
      var values := UnifyColumnsIntoTuple([children.value, proportion.value]);
      bomData.SetColumn(ComponentProportionLabel, values);
      var raw := CreateMappingDictionaryFromTwoColumns(bomData, FormulaParentLabel, ComponentProportionLabel);
      var bom := new Bom.Init(bomData, raw.value, formulaColumnName, parentColumnName,
                              childrenColumnName, childrenToParentProportionColumnName);
      return Ok(bom);
    }

    /** `Bom(bom_data)` with the default column names. */
    static method CreateWithDefaults(bomData: DataFrame) returns (r: Result<Bom>)
      requires bomData.Valid()
      modifies bomData
      ensures r.Ok? <==> forall name :: name in ["formula", ParentMaterialsLabel, "component", "material_to_quantity"] ==>
                                        name in old(bomData.labels)
      ensures r.Ok? ==>
                bomData.Valid() && r.value.bomData == bomData &&
                r.value.AllParentMaterials() == Ok(Unique(old(bomData.Column(ParentMaterialsLabel)).value))
    {
      r := Create(bomData, "formula", ParentMaterialsLabel, "component", "material_to_quantity");
    }

    /** `all_parent_materials`: the distinct values of the
        `manufactured_good` column in first-occurrence order; the attribute
        lookup fails when the table has no such column. */
    function AllParentMaterials(): (r: Result<seq<Cell>>)
      requires bomData.Valid()
      reads bomData
      ensures r.Ok? <==> ParentMaterialsLabel in bomData.labels
      ensures r.Err? ==> r.error == AttributeError(ParentMaterialsLabel)
      ensures r.Ok? ==>
                var column := bomData.Column(ParentMaterialsLabel).value;
                (forall m :: m in r.value <==> m in column) &&
                (forall i, j :: 0 <= i < j < |r.value| ==> r.value[i] != r.value[j]) &&
                (forall i, j :: 0 <= i < j < |r.value| ==> IndexOf(column, r.value[i]) < IndexOf(column, r.value[j]))
    {
      match bomData.Column(ParentMaterialsLabel)
      case Err(_) => Err(AttributeError(ParentMaterialsLabel))
      case Ok(column) => Ok(Unique(column))
    }
  }

  /** The configured parent column name plays no part: a table whose parents
      sit under another name has no parent materials to list. */
  lemma CustomParentColumnIsIgnored(b: Bom)
    requires b.bomData.Valid()
    requires b.parentColumnName in b.bomData.labels && ParentMaterialsLabel !in b.bomData.labels
    ensures b.AllParentMaterials() == Err(AttributeError(ParentMaterialsLabel))
  {
  }

  /** With every `(formula, parent)` recipe on one row only, the raw
      mapping sends each recipe to its single `(component, proportion)`. */
  lemma BomRawOfSingleRowRecipes(formula: seq<Cell>, parent: seq<Cell>, children: seq<Cell>, proportion: seq<Cell>)
    requires |formula| == |parent| == |children| == |proportion|
    requires forall i, j :: 0 <= i < j < |formula| ==> !(formula[i] == formula[j] && parent[i] == parent[j])
    ensures var raw := MappingOf(UnifyColumnsIntoTuple([formula, parent]), UnifyColumnsIntoTuple([children, proportion]));
            raw.OneToOne? &&
            forall i :: 0 <= i < |formula| ==>
              Tuple([formula[i], parent[i]]) in raw.single && raw.single[Tuple([formula[i], parent[i]])] == Tuple([children[i], proportion[i]])
  {
    var keys := UnifyColumnsIntoTuple([formula, parent]);
    var values := UnifyColumnsIntoTuple([children, proportion]);
    ZippedKeysRepeat(formula, parent);
    ZippedPairLength(formula, parent, |formula|);
    ZippedPairLength(children, proportion, |formula|);
    forall i | 0 <= i < |formula|
      ensures keys[i] == Tuple([formula[i], parent[i]]) && values[i] == Tuple([children[i], proportion[i]])
    {
      ZippedPairRow(formula, parent, i);
      ZippedPairRow(children, proportion, i);
    }
  }

  /** When some recipe spans several rows, every recipe maps to the list of
      its `(component, proportion)` pairs in row order. */
  lemma BomRawOfMultiRowRecipes(formula: seq<Cell>, parent: seq<Cell>, children: seq<Cell>, proportion: seq<Cell>)
    requires |formula| == |parent| == |children| == |proportion|
    requires exists i, j :: 0 <= i < j < |formula| && formula[i] == formula[j] && parent[i] == parent[j]
    ensures var keys := UnifyColumnsIntoTuple([formula, parent]);
            var raw := MappingOf(keys, UnifyColumnsIntoTuple([children, proportion]));
            raw.OneToMany? &&
            forall i :: 0 <= i < |formula| ==>
              var key := Tuple([formula[i], parent[i]]);
              key in raw.grouped &&
              |raw.grouped[key]| == |RowsWithKey(keys, key)| &&
              forall p :: 0 <= p < |RowsWithKey(keys, key)| ==>
                var row := RowsWithKey(keys, key)[p];
                0 <= row < |formula| && raw.grouped[key][p] == Tuple([children[row], proportion[row]])
  {
    var keys := UnifyColumnsIntoTuple([formula, parent]);
    var values := UnifyColumnsIntoTuple([children, proportion]);
    ZippedKeysRepeat(formula, parent);
    ZippedPairLength(formula, parent, |formula|);
    ZippedPairLength(children, proportion, |formula|);
    forall i | 0 <= i < |formula|
      ensures keys[i] == Tuple([formula[i], parent[i]]) && values[i] == Tuple([children[i], proportion[i]])
    {
      ZippedPairRow(formula, parent, i);
      ZippedPairRow(children, proportion, i);
    }
  }
}
