/** Reading the problem workbook and turning its tables into the inputs of
    the optimiser: the required-sheet check, the header normalisation
    pipeline and renaming, zipping columns into tuples, two-column mapping
    dictionaries, and the cost mappings. The spreadsheet reader itself is a
    parameter: a map from sheet name to the sheet it yields. */
module Preprocessing {
  import opened Wrappers
  import opened Tables

  // ---------------------------------------------------------------------------
  // Zipping columns into tuples

  /** The length of the shortest column (0 when there is no column). */
  function MinLength(columns: seq<seq<Cell>>): (n: nat)
    ensures columns == [] ==> n == 0
    ensures forall j :: 0 <= j < |columns| ==> n <= |columns[j]|
    ensures columns != [] ==> exists j :: 0 <= j < |columns| && n == |columns[j]|
  {
    if columns == [] then 0
    else if |columns| == 1 then |columns[0]|
    else
      var rest := MinLength(columns[1..]);
      assert forall j :: 1 <= j < |columns| ==> columns[j] == columns[1..][j - 1];
      if |columns[0]| <= rest then |columns[0]| else rest
  }

  /** The tuple of every column's `i`-th value. */
  function RowTuple(columns: seq<seq<Cell>>, i: nat): Cell
    requires i < MinLength(columns)
  {
    Tuple(seq(|columns|, j requires 0 <= j < |columns| => columns[j][i]))
  }

  /** `unify_columns_into_tuple`, which is `tuple(zip(*columns))`: as many
      tuples as the shortest column has values, tuple `i` holding every
      column's `i`-th value in argument order. */
  function UnifyColumnsIntoTuple(columns: seq<seq<Cell>>): (r: seq<Cell>)
    ensures |r| == MinLength(columns)
    ensures forall i :: 0 <= i < |r| ==>
              r[i].Tuple? && |r[i].items| == |columns| &&
              forall j :: 0 <= j < |columns| ==> r[i].items[j] == columns[j][i]
  {
    seq(MinLength(columns), i requires 0 <= i < MinLength(columns) => RowTuple(columns, i))
  }

  /** Position `j` of every tuple. */
  function Project(tuples: seq<Cell>, j: nat): (r: seq<Cell>)
    requires forall i :: 0 <= i < |tuples| ==> tuples[i].Tuple? && j < |tuples[i].items|
    ensures |r| == |tuples|
  {
    seq(|tuples|, i requires 0 <= i < |tuples| => tuples[i].items[j])
  }

  /** Unzipping undoes zipping: projecting position `j` of the tuples gives
      back column `j`, cut to the shortest column; for the equally long
      columns of one table it gives back the whole column. */
  lemma ProjectUnify(columns: seq<seq<Cell>>, j: nat)
    requires j < |columns|
    ensures Project(UnifyColumnsIntoTuple(columns), j) == columns[j][..MinLength(columns)]
    ensures (forall k :: 0 <= k < |columns| ==> |columns[k]| == |columns[j]|) ==>
              Project(UnifyColumnsIntoTuple(columns), j) == columns[j]
  {
    var r := UnifyColumnsIntoTuple(columns);
    assert forall i :: 0 <= i < |r| ==> Project(r, j)[i] == columns[j][i];
    if forall k :: 0 <= k < |columns| ==> |columns[k]| == |columns[j]| {
      assert MinLength(columns) == |columns[j]|;
    }
  }

  // ---------------------------------------------------------------------------
  // Two-column mapping dictionaries

  /** A mapping from a key column to a value column: one value per key when
      the keys are unique, otherwise the list of values of every key. */
  datatype Mapping = OneToOne(single: map<Cell, Cell>) | OneToMany(grouped: map<Cell, seq<Cell>>)

  predicate HasDuplicates(keys: seq<Cell>)
  {
    exists i, j :: 0 <= i < j < |keys| && keys[i] == keys[j]
  }

  /** `Series.to_dict()`: each key in row order stores its value; a later
      row overwrites an earlier one with the same key. */
  function Pairs(keys: seq<Cell>, values: seq<Cell>): (d: map<Cell, Cell>)
    requires |keys| == |values|
    ensures forall k :: k in d <==> k in keys
  {
    if keys == [] then map[]
    else
      var n := |keys| - 1;
      assert forall k :: k in keys <==> k in keys[..n] || k == keys[n] by {
        assert keys == keys[..n] + [keys[n]];
      }
      Pairs(keys[..n], values[..n])[keys[n] := values[n]]
  }

  /** With unique keys, every key maps to the value of its own row. */
  lemma {:induction false} PairsOfUniqueKeys(keys: seq<Cell>, values: seq<Cell>, i: nat)
    requires |keys| == |values| && !HasDuplicates(keys) && i < |keys|
    ensures Pairs(keys, values)[keys[i]] == values[i]
  {
    var n := |keys| - 1;
    var kp, vp := keys[..n], values[..n];
    assert Pairs(keys, values) == Pairs(kp, vp)[keys[n] := values[n]];
    if i < n {
      assert !HasDuplicates(kp) by {
        forall j1, j2 | 0 <= j1 < j2 < n
          ensures kp[j1] != kp[j2]
        {
          assert kp[j1] == keys[j1] && kp[j2] == keys[j2];
        }
      }
      assert kp[i] == keys[i] && vp[i] == values[i];
      PairsOfUniqueKeys(kp, vp, i);
      assert keys[i] != keys[n];
    }
  }

  /** The rows whose key is `k`, in increasing order. */
  function RowsWithKey(keys: seq<Cell>, k: Cell): (rs: seq<nat>)
    ensures forall j :: 0 <= j < |rs| ==> rs[j] < |keys| && keys[rs[j]] == k
    ensures forall j1, j2 :: 0 <= j1 < j2 < |rs| ==> rs[j1] < rs[j2]
    ensures forall i :: 0 <= i < |keys| && keys[i] == k ==> i in rs
  {
    if keys == [] then []
    else
      var n := |keys| - 1;
      var before := RowsWithKey(keys[..n], k);
      assert forall i :: 0 <= i < n ==> keys[..n][i] == keys[i];
      if keys[n] == k then before + [n] else before
  }

  /** The values of the rows whose key is `k`, in row order: what
      `groupby(level=0).agg(list)` collects for `k`. */
  function ValuesOf(keys: seq<Cell>, values: seq<Cell>, k: Cell): seq<Cell>
    requires |keys| == |values|
  {
    if keys == [] then []
    else
      var n := |keys| - 1;
      var before := ValuesOf(keys[..n], values[..n], k);
      if keys[n] == k then before + [values[n]] else before
  }

  /** The grouped values of `k` are exactly the values at the rows carrying
      `k`, in row order. */
  lemma {:induction false} ValuesOfRows(keys: seq<Cell>, values: seq<Cell>, k: Cell)
    requires |keys| == |values|
    ensures |ValuesOf(keys, values, k)| == |RowsWithKey(keys, k)|
    ensures forall j :: 0 <= j < |RowsWithKey(keys, k)| ==>
              ValuesOf(keys, values, k)[j] == values[RowsWithKey(keys, k)[j]]
  {
    if keys != [] {
      var n := |keys| - 1;
      ValuesOfRows(keys[..n], values[..n], k);
      var rs := RowsWithKey(keys[..n], k);
      assert forall j :: 0 <= j < |rs| ==> values[..n][rs[j]] == values[rs[j]];
    }
  }

  /** A key no row carries collects no value. */
  lemma {:induction false} ValuesOfAbsent(keys: seq<Cell>, values: seq<Cell>, k: Cell)
    requires |keys| == |values| && k !in keys
    ensures ValuesOf(keys, values, k) == []
  {
    if keys != [] {
      var n := |keys| - 1;
      assert keys == keys[..n] + [keys[n]];
      ValuesOfAbsent(keys[..n], values[..n], k);
    }
  }

  /** With unique keys the grouped shape would hold the one-value shape's
      value as a one-element list, so the two shapes agree. */
  lemma {:induction false} UniqueKeyGroupIsSingleton(keys: seq<Cell>, values: seq<Cell>, i: nat)
    requires |keys| == |values| && !HasDuplicates(keys) && i < |keys|
    ensures ValuesOf(keys, values, keys[i]) == [values[i]]
  {
    var n := |keys| - 1;
    var kp, vp := keys[..n], values[..n];
    if i == n {
      forall j | 0 <= j < n
        ensures kp[j] != keys[n]
      {
        assert kp[j] == keys[j];
      }
      ValuesOfAbsent(kp, vp, keys[n]);
    } else {
      assert keys[n] != keys[i];
      forall j1, j2 | 0 <= j1 < j2 < n
        ensures kp[j1] != kp[j2]
      {
        assert kp[j1] == keys[j1] && kp[j2] == keys[j2];
      }
      assert kp[i] == keys[i] && vp[i] == values[i];
      UniqueKeyGroupIsSingleton(kp, vp, i);
    }
  }

  /** The body of `create_mapping_dictionary_from_two_columns` on a key and a
      value column of equal length. */
  function MappingOf(keys: seq<Cell>, values: seq<Cell>): (r: Mapping)
    requires |keys| == |values|
    ensures r.OneToOne? <==> !HasDuplicates(keys)
    ensures r.OneToOne? ==>
              (forall k :: k in r.single <==> k in keys) &&
              forall i :: 0 <= i < |keys| ==> r.single[keys[i]] == values[i]
    ensures r.OneToMany? ==>
              (forall k :: k in r.grouped <==> k in keys) &&
              forall k :: k in r.grouped ==>
                |r.grouped[k]| == |RowsWithKey(keys, k)| &&
                forall j :: 0 <= j < |RowsWithKey(keys, k)| ==> r.grouped[k][j] == values[RowsWithKey(keys, k)[j]]
  {
    if HasDuplicates(keys) then
      var grouped := map k | k in keys :: ValuesOf(keys, values, k);
      assert forall k :: k in grouped ==>
               |grouped[k]| == |RowsWithKey(keys, k)| &&
               forall j :: 0 <= j < |RowsWithKey(keys, k)| ==> grouped[k][j] == values[RowsWithKey(keys, k)[j]] by {
        forall k | k in grouped {
          ValuesOfRows(keys, values, k);
        }
      }
      OneToMany(grouped)
    else
      assert forall i :: 0 <= i < |keys| ==> Pairs(keys, values)[keys[i]] == values[i] by {
        forall i | 0 <= i < |keys| {
          PairsOfUniqueKeys(keys, values, i);
        }
      }
      OneToOne(Pairs(keys, values))
  }

  /** `create_mapping_dictionary_from_two_columns(df, column_key,
      column_value)`: the value column is looked up first, then the key
      column; a missing one raises `KeyError`. */
  function CreateMappingDictionaryFromTwoColumns(df: DataFrame, columnKey: string, columnValue: string): (r: Result<Mapping>)
    requires df.Valid()
    reads df
    ensures r.Ok? <==> columnValue in df.labels && columnKey in df.labels
    ensures columnValue !in df.labels ==> r == Err(KeyError(columnValue))
    ensures columnValue in df.labels && columnKey !in df.labels ==> r == Err(KeyError(columnKey))
    ensures r.Ok? ==> r.value == MappingOf(df.Column(columnKey).value, df.Column(columnValue).value)
  {
    match df.Column(columnValue)
    case Err(e) => Err(e)
    case Ok(values) =>
      match df.Column(columnKey)
      case Err(e) => Err(e)
      case Ok(keys) => Ok(MappingOf(keys, values))
  }

  // ---------------------------------------------------------------------------
  // Costs

  /** The cost mappings: inventory and purchase cost per component, and
      operation cost per (equipment, formula). */
  datatype Costs = Costs(inventory: Mapping, purchase: Mapping, production: Mapping)

  /** `create_costs`: three mappings built in the order inventory, purchase,
      production; the first missing column raises. */
  function CreateCosts(componentsMd: DataFrame, productionCosts: DataFrame): (r: Result<Costs>)
    requires componentsMd.Valid() && productionCosts.Valid()
    reads componentsMd, productionCosts
    ensures r.Ok? <==>
              "component" in componentsMd.labels && "inventory_cost" in componentsMd.labels &&
              "purchase_cost" in componentsMd.labels &&
              "equipment_formula" in productionCosts.labels && "operation_cost" in productionCosts.labels
    ensures r.Ok? ==>
              r.value.inventory == MappingOf(componentsMd.Column("component").value, componentsMd.Column("inventory_cost").value) &&
              r.value.purchase == MappingOf(componentsMd.Column("component").value, componentsMd.Column("purchase_cost").value) &&
              r.value.production ==
                MappingOf(productionCosts.Column("equipment_formula").value, productionCosts.Column("operation_cost").value)
    ensures "inventory_cost" !in componentsMd.labels ==> r == Err(KeyError("inventory_cost"))
    ensures "inventory_cost" in componentsMd.labels && "component" !in componentsMd.labels ==> r == Err(KeyError("component"))
    ensures ("component" in componentsMd.labels && "inventory_cost" in componentsMd.labels &&
             "purchase_cost" !in componentsMd.labels) ==> r == Err(KeyError("purchase_cost"))
    ensures ("component" in componentsMd.labels && "inventory_cost" in componentsMd.labels &&
             "purchase_cost" in componentsMd.labels && "operation_cost" !in productionCosts.labels) ==>
              r == Err(KeyError("operation_cost"))
    ensures ("component" in componentsMd.labels && "inventory_cost" in componentsMd.labels &&
             "purchase_cost" in componentsMd.labels && "operation_cost" in productionCosts.labels &&
             "equipment_formula" !in productionCosts.labels) ==> r == Err(KeyError("equipment_formula"))
  {
    match CreateMappingDictionaryFromTwoColumns(componentsMd, "component", "inventory_cost")
    case Err(e) => Err(e)
    case Ok(inventory) =>
      match CreateMappingDictionaryFromTwoColumns(componentsMd, "component", "purchase_cost")
      case Err(e) => Err(e)
      case Ok(purchase) =>
        match CreateMappingDictionaryFromTwoColumns(productionCosts, "equipment_formula", "operation_cost")
        case Err(e) => Err(e)
        case Ok(production) => Ok(Costs(inventory, purchase, production))
  }

  // ---------------------------------------------------------------------------
  // Header normalisation

  predicate IsAsciiUpper(c: char) { 'A' <= c <= 'Z' }
  predicate IsAsciiLower(c: char) { 'a' <= c <= 'z' }

  /** The characters Python's `str.rstrip()` strips by default: the
      characters `str.isspace` accepts, in ASCII and beyond (next line,
      no-break space, the Ogham space mark, the typographic spaces from
      U+2000 to U+200A, the line and paragraph separators, the narrow
      no-break space, the medium mathematical space and the ideographic
      space). */
  predicate IsSpace(c: char)
  {
    var n := c as int;
    n == 0x20 || (0x09 <= n <= 0x0D) || (0x1C <= n <= 0x1F) || n == 0x85 || n == 0xA0 || n == 0x1680 ||
    (0x2000 <= n <= 0x200A) || n == 0x2028 || n == 0x2029 || n == 0x202F || n == 0x205F || n == 0x3000
  }

  /** The position of the first parenthesis at or after `i`, or `|s|`. */
  function NextParen(s: string, i: nat): (j: nat)
    requires i <= |s|
    ensures i <= j <= |s|
    ensures j < |s| ==> s[j] == '(' || s[j] == ')'
    ensures forall k :: i <= k < j ==> s[k] != '(' && s[k] != ')'
    decreases |s| - i
  {
    if i == |s| then i else if s[i] == '(' || s[i] == ')' then i else NextParen(s, i + 1)
  }

  /** The substitution of `\([^()]*\)` by the empty string: scanning left to
      right, an opening parenthesis whose next parenthesis is a closing one
      starts a group, and the whole group is dropped; scanning resumes after
      it. */
  function RemoveParenGroups(s: string): (r: string)
    ensures |r| <= |s|
    decreases |s|
  {
    if s == [] then []
    else if s[0] == '(' && NextParen(s, 1) < |s| && s[NextParen(s, 1)] == ')' then
      RemoveParenGroups(s[NextParen(s, 1) + 1..])
    else
      assert s == [s[0]] + s[1..];
      [s[0]] + RemoveParenGroups(s[1..])
  }

  /** A group is dropped together with everything between its parentheses,
      and the text before it is kept. */
  lemma RemoveParenGroupsDropsGroup(before: string, inside: string, after: string)
    requires '(' !in before
    requires '(' !in inside && ')' !in inside
    ensures RemoveParenGroups(before + "(" + inside + ")" + after) == before + RemoveParenGroups(after)
  {
    var group := "(" + inside + ")" + after;
    assert before + "(" + inside + ")" + after == before + group;
    PrefixWithoutOpeningKept(before, group);
    LeadingGroupDropped(inside, after);
  }

  /** Text without an opening parenthesis is kept as it is, whatever follows. */
  lemma {:induction false} PrefixWithoutOpeningKept(before: string, rest: string)
    requires '(' !in before
    ensures RemoveParenGroups(before + rest) == before + RemoveParenGroups(rest)
  {
    if before == [] {
      assert before + rest == rest;
    } else {
      var c, tail := before[0], before[1..];
      assert before == [c] + tail;
      assert before + rest == [c] + (tail + rest);
      LeadingCharKept(c, tail + rest);
      PrefixWithoutOpeningKept(tail, rest);
      assert [c] + (tail + RemoveParenGroups(rest)) == before + RemoveParenGroups(rest);
    }
  }

  /** Text lacking either parenthesis holds no group and is left as it is. */
  lemma {:induction false} RemoveParenGroupsWithoutGroups(s: string)
    requires '(' !in s || ')' !in s
    ensures RemoveParenGroups(s) == s
    decreases |s|
  {
    if '(' !in s {
      PrefixWithoutOpeningKept(s, []);
      assert s + [] == s;
    } else if s != [] {
      assert NextParen(s, 1) < |s| ==> s[NextParen(s, 1)] != ')';
      assert ')' !in s[1..];
      RemoveParenGroupsWithoutGroups(s[1..]);
      assert s == [s[0]] + s[1..];
    }
  }

  /** A character other than an opening parenthesis is kept. */
  lemma LeadingCharKept(c: char, rest: string)
    requires c != '('
    ensures RemoveParenGroups([c] + rest) == [c] + RemoveParenGroups(rest)
  {
    var s := [c] + rest;
    assert s[0] == c && s[1..] == rest;
  }

  /** A group at the very start is dropped whole. */
  lemma LeadingGroupDropped(inside: string, after: string)
    requires '(' !in inside && ')' !in inside
    ensures RemoveParenGroups("(" + inside + ")" + after) == RemoveParenGroups(after)
  {
    var s := "(" + inside + ")" + after;
    assert s[0] == '(' && s[|inside| + 1] == ')';
    assert forall k :: 1 <= k < |inside| + 1 ==> s[k] == inside[k - 1];
    var j := NextParen(s, 1);
    assert j == |inside| + 1;
    assert s[j + 1..] == after;
  }

  /** Whether the pattern `(?<=[a-z])(?=[A-Z])(?=[/])` matches the empty
      string at position `i`: a lower-case letter before, and a next
      character that is an upper-case letter and a slash at once. */
  predicate UnderscoreAt(s: string, i: nat)
    requires i <= |s|
  {
    0 < i < |s| && IsAsciiLower(s[i - 1]) && IsAsciiUpper(s[i]) && s[i] == '/'
  }

  /** The substitution of that pattern by `_`, from position `i` on. */
  function InsertUnderscoresFrom(s: string, i: nat): string
    requires i <= |s|
    decreases |s| - i
  {
    if i == |s| then []
    else (if UnderscoreAt(s, i) then "_" else "") + [s[i]] + InsertUnderscoresFrom(s, i + 1)
  }

  function InsertUnderscores(s: string): string
  {
    InsertUnderscoresFrom(s, 0)
  }

  /** The underscore pattern never matches, because no character is both an
      upper-case letter and a slash, so the step leaves every header as it
      is. */
  lemma {:induction false} UnderscoreInsertionNeverMatches(s: string, i: nat)
    requires i <= |s|
    ensures InsertUnderscoresFrom(s, i) == s[i..]
    decreases |s| - i
  {
    if i < |s| {
      assert !UnderscoreAt(s, i);
      UnderscoreInsertionNeverMatches(s, i + 1);
      assert s[i..] == [s[i]] + s[i + 1..];
    }
  }

  /** `str.rstrip()`: drop trailing white space. */
  function RStrip(s: string): (r: string)
    ensures r <= s
    ensures r == [] || !IsSpace(r[|r| - 1])
    ensures forall k :: |r| <= k < |s| ==> IsSpace(s[k])
  {
    if s == [] then []
    else if IsSpace(s[|s| - 1]) then
      var r := RStrip(s[..|s| - 1]);
      assert forall k :: |r| <= k < |s| - 1 ==> s[..|s| - 1][k] == s[k];
      r
    else s
  }

  /** `str.replace(c, by)` for a one-character pattern. */
  function ReplaceChar(s: string, c: char, replacement: string): (r: string)
    ensures forall d :: d in r ==> (d in s && d != c) || d in replacement
    ensures c !in s ==> r == s
  {
    if s == [] then []
    else
      assert s == [s[0]] + s[1..];
      (if s[0] == c then replacement else [s[0]]) + ReplaceChar(s[1..], c, replacement)
  }

  lemma {:induction false} ReplaceCharConcat(a: string, b: string, c: char, replacement: string)
    ensures ReplaceChar(a + b, c, replacement) == ReplaceChar(a, c, replacement) + ReplaceChar(b, c, replacement)
  {
    if a == [] {
      assert a + b == b;
    } else {
      assert (a + b)[0] == a[0] && (a + b)[1..] == a[1..] + b;
      ReplaceCharConcat(a[1..], b, c, replacement);
    }
  }

  function LowerChar(c: char): (d: char)
    ensures IsAsciiUpper(c) ==> IsAsciiLower(d)
    ensures !IsAsciiUpper(c) ==> d == c
  {
    if IsAsciiUpper(c) then (c as int + 32) as char else c
  }

  /** `str.lower()` on ASCII letters. */
  function Lower(s: string): (r: string)
    ensures |r| == |s| && forall i :: 0 <= i < |s| ==> r[i] == LowerChar(s[i])
  {
    seq(|s|, i requires 0 <= i < |s| => LowerChar(s[i]))
  }

  /** The whole pipeline applied to one header: drop parenthesised groups,
      the (inert) underscore insertion, strip trailing white space, spaces
      to underscores, drop dots and slashes, lower-case. A normalised header
      has no space, dot, slash or ASCII capital left. */
  function NormaliseColumnName(header: string): (r: string)
    ensures ' ' !in r && '.' !in r && '/' !in r
    ensures forall i :: 0 <= i < |r| ==> !IsAsciiUpper(r[i])
  {
    var stripped := RStrip(InsertUnderscores(RemoveParenGroups(header)));
    var noSlashes := ReplaceChar(ReplaceChar(ReplaceChar(stripped, ' ', "_"), '.', ""), '/', "");
    var r := Lower(noSlashes);
    assert forall i :: 0 <= i < |r| ==> r[i] != ' ' && r[i] != '.' && r[i] != '/' by {
      forall i | 0 <= i < |r|
        ensures r[i] != ' ' && r[i] != '.' && r[i] != '/'
      {
        assert noSlashes[i] in noSlashes;
      }
    }
    r
  }

  /** Without parentheses the pipeline is the character steps alone. */
  lemma NormaliseWithoutGroups(header: string)
    requires '(' !in header && header != [] && !IsSpace(header[|header| - 1])
    ensures NormaliseColumnName(header) ==
              Lower(ReplaceChar(ReplaceChar(ReplaceChar(header, ' ', "_"), '.', ""), '/', ""))
  {
    RemoveParenGroupsWithoutGroups(header);
    UnderscoreInsertionNeverMatches(header, 0);
  }

  lemma ProductMaterialCharacters()
    ensures '(' !in "Product/Material" && ' ' !in "Product/Material" && '.' !in "Product/Material"
    ensures '/' !in "Product" && '/' !in "Material"
    ensures "Product/Material" == "Product" + ['/'] + "Material"
    ensures "Product" + "" + "Material" == "ProductMaterial"
  {
  }

  /** Replacing the only occurrence of a character. */
  lemma ReplaceCharOnce(before: string, after: string, c: char, replacement: string)
    requires c !in before && c !in after
    ensures ReplaceChar(before + [c] + after, c, replacement) == before + replacement + after
  {
    var rest := [c] + after;
    assert before + [c] + after == before + rest;
    ReplaceCharConcat(before, rest, c, replacement);
    assert rest[0] == c && rest[1..] == after;
    assert ReplaceChar(rest, c, replacement) == replacement + after;
    assert before + (replacement + after) == before + replacement + after;
  }

  lemma ProductMaterialSlashDropped(h: string)
    requires h == "Product/Material"
    ensures ReplaceChar(h, '/', "") == "ProductMaterial"
  {
    ProductMaterialCharacters();
    ReplaceCharOnce("Product", "Material", '/', "");
  }

  lemma ProductMaterialLowered()
    ensures Lower("ProductMaterial") == "productmaterial"
  {
  }

  /** The header "Product/Material" becomes "productmaterial", the key the
      end-to-end test reads the stock table with. */
  lemma ProductMaterialHeader()
    ensures NormaliseColumnName("Product/Material") == "productmaterial"
  {
    ProductMaterialCharacters();
    NormaliseWithoutGroups("Product/Material");
    ProductMaterialSlashDropped("Product/Material");
    ProductMaterialLowered();
  }

  function NormaliseLabels(labels: seq<string>): (r: seq<string>)
    ensures |r| == |labels|
    ensures forall i :: 0 <= i < |labels| ==> r[i] == NormaliseColumnName(labels[i])
  {
    seq(|labels|, i requires 0 <= i < |labels| => NormaliseColumnName(labels[i]))
  }

  // ---------------------------------------------------------------------------
  // Reading the workbook

  /** The tables the workbook must provide, in reading order. */
  const RequiredData: seq<string> :=
    ["bom", "finished_goods_md", "inventory", "components_md", "production_lines", "demand"]

  /** The renaming applied to every normalised header. */
  const ColumnsRenaming: map<string, string> :=
    map["material" := "component", "product" := "manufactured_good", "proportion" := "material_to_quantity",
        "product_material" := "material", "demand" := "finished_good"]

  /** The renaming is applied once, not chained: "product_material" becomes
      "material" and stays so, although "material" itself is renamed. */
  lemma RenamingIsNotChained()
    ensures Rename(["product_material", "material"], ColumnsRenaming) == ["material", "component"]
  {
  }

  lemma RequiredDataDistinct()
    ensures forall j, k :: 0 <= j < k < |RequiredData| ==> RequiredData[j] != RequiredData[k]
  {
    assert |RequiredData[0]| == 3 && |RequiredData[1]| == 17 && |RequiredData[2]| == 9;
    assert |RequiredData[3]| == 13 && |RequiredData[4]| == 16 && |RequiredData[5]| == 6;
  }

  predicate AllRequiredMapped(sheetsNamesMapping: map<string, string>)
  {
    forall sheet :: sheet in RequiredData ==> sheet in sheetsNamesMapping
  }

  /** The sheet the reader is asked for when loading table `j`. */
  function SourceSheet(sheetsNamesMapping: map<string, string>, j: nat): string
    requires AllRequiredMapped(sheetsNamesMapping) && j < |RequiredData|
  {
    sheetsNamesMapping[RequiredData[j]]
  }

  /** The labels a table ends with: normalised, then renamed. */
  function FinalLabels(labels: seq<string>): seq<string>
  {
    Rename(NormaliseLabels(labels), ColumnsRenaming)
  }

  /** The reading step: every required table's sheet, as a new table, in
      order; the first sheet missing from the workbook stops the reading. */
  method ReadSheets(workbook: map<string, Sheet>, sheetsNamesMapping: map<string, string>)
    returns (r: Result<seq<DataFrame>>)
    requires AllRequiredMapped(sheetsNamesMapping)
    ensures r.Ok? <==> forall j :: 0 <= j < |RequiredData| ==> SourceSheet(sheetsNamesMapping, j) in workbook
    ensures r.Err? ==>
              r.error.MissingSheet? &&
              exists j :: 0 <= j < |RequiredData| && r.error.sheet == SourceSheet(sheetsNamesMapping, j) &&
                r.error.sheet !in workbook &&
                forall k :: 0 <= k < j ==> SourceSheet(sheetsNamesMapping, k) in workbook
    ensures r.Ok? ==> |r.value| == |RequiredData|
    ensures r.Ok? ==>
              forall j :: 0 <= j < |r.value| ==>
                var source := workbook[SourceSheet(sheetsNamesMapping, j)];
                fresh(r.value[j]) && r.value[j].labels == source.labels &&
                r.value[j].columns == source.columns && r.value[j].rows == source.rows
    ensures r.Ok? ==> forall j, k :: 0 <= j < k < |r.value| ==> r.value[j] != r.value[k]
  {
    var tables: seq<DataFrame> := [];
    var i := 0;
    while i < |RequiredData|
      invariant 0 <= i <= |RequiredData| && |tables| == i
      invariant forall k :: 0 <= k < i ==> SourceSheet(sheetsNamesMapping, k) in workbook
      invariant forall k :: 0 <= k < i ==>
                  var source := workbook[SourceSheet(sheetsNamesMapping, k)];
                  fresh(tables[k]) && tables[k].labels == source.labels &&
                  tables[k].columns == source.columns && tables[k].rows == source.rows
      invariant forall k1, k2 :: 0 <= k1 < k2 < i ==> tables[k1] != tables[k2]
    {
      var name := SourceSheet(sheetsNamesMapping, i);
      if name !in workbook {
        return Err(MissingSheet(name));
      }
      var table := new DataFrame.FromSheet(workbook[name]);
      tables := tables + [table];
      i := i + 1;
    }
    return Ok(tables);
  }

  /** One table of the cleaning step: its headers are normalised in place,
      and the renamed copy is returned. */
  method CleanTable(table: DataFrame) returns (renamed: DataFrame)
    modifies table
    ensures table.labels == NormaliseLabels(old(table.labels))
    ensures table.columns == old(table.columns) && table.rows == old(table.rows)
    ensures fresh(renamed) && renamed.labels == FinalLabels(old(table.labels))
    ensures renamed.columns == old(table.columns) && renamed.rows == old(table.rows)
  {
    table.SetLabels(NormaliseLabels(table.labels));
    renamed := table.Renamed(ColumnsRenaming);
  }

  /** The cleaning step: table by table in reading order, normalise the
      headers in place and take the renamed copy instead. */
  method CleanTables(tables: seq<DataFrame>) returns (cleaned: seq<DataFrame>)
    requires forall j, k :: 0 <= j < k < |tables| ==> tables[j] != tables[k]
    modifies set j | 0 <= j < |tables| :: tables[j]
    ensures |cleaned| == |tables|
    ensures forall j :: 0 <= j < |tables| ==>
              fresh(cleaned[j]) && cleaned[j].labels == FinalLabels(old(tables[j].labels)) &&
              cleaned[j].columns == old(tables[j].columns) && cleaned[j].rows == old(tables[j].rows)
  {
    cleaned := [];
    var i := 0;
    while i < |tables|
      invariant 0 <= i <= |tables| && |cleaned| == i
      invariant forall k :: 0 <= k < i ==>
                  fresh(cleaned[k]) && cleaned[k].labels == FinalLabels(old(tables[k].labels)) &&
                  cleaned[k].columns == old(tables[k].columns) && cleaned[k].rows == old(tables[k].rows)
      invariant forall k :: i <= k < |tables| ==>
                  tables[k].labels == old(tables[k].labels) &&
                  tables[k].columns == old(tables[k].columns) && tables[k].rows == old(tables[k].rows)
    {
      var renamed := CleanTable(tables[i]);
      cleaned := cleaned + [renamed];
      i := i + 1;
    }
  }

  /** `read_production_problem_excel_template`: check that every required
      table has a sheet name, read the six sheets, then clean them. */
  method ReadProductionProblemExcelTemplate(workbook: map<string, Sheet>, sheetsNamesMapping: map<string, string>)
    returns (r: Result<map<string, DataFrame>>)
    ensures !AllRequiredMapped(sheetsNamesMapping) <==> r == Err(AssertionFailed)
    ensures r.Ok? <==>
              AllRequiredMapped(sheetsNamesMapping) &&
              forall j :: 0 <= j < |RequiredData| ==> SourceSheet(sheetsNamesMapping, j) in workbook
    ensures r.Err? && r.error.MissingSheet? ==>
              AllRequiredMapped(sheetsNamesMapping) &&
              exists j :: 0 <= j < |RequiredData| && r.error.sheet == SourceSheet(sheetsNamesMapping, j) &&
                r.error.sheet !in workbook &&
                forall k :: 0 <= k < j ==> SourceSheet(sheetsNamesMapping, k) in workbook
    ensures r.Err? ==> r.error.AssertionFailed? || r.error.MissingSheet?
    ensures r.Ok? ==> forall sheet :: sheet in r.value <==> sheet in RequiredData
    ensures r.Ok? ==>
              forall j :: 0 <= j < |RequiredData| ==>
                var table := r.value[RequiredData[j]];
                var source := workbook[SourceSheet(sheetsNamesMapping, j)];
                fresh(table) && table.labels == FinalLabels(source.labels) &&
                table.columns == source.columns && table.rows == source.rows
  {
    if !AllRequiredMapped(sheetsNamesMapping) {
      return Err(AssertionFailed);
    }
    var read := ReadSheets(workbook, sheetsNamesMapping);
    if read.Err? {
      return Err(read.error);
    }
    var cleaned := CleanTables(read.value);
    RequiredDataDistinct();
    var data := map j | 0 <= j < |RequiredData| :: RequiredData[j] := cleaned[j];
    assert forall j :: 0 <= j < |RequiredData| ==> data[RequiredData[j]] == cleaned[j];
    return Ok(data);
  }
}
