/** The part of a data-frame library the preprocessing and the bill of
    materials rely on: cells, sheets as read from a workbook, a mutable
    table with labelled columns, column lookup and assignment, relabelling,
    and the distinct values of a column in first-occurrence order. */
module Tables {
  import opened Wrappers

  /** A cell: text, a number, or a tuple of cells (a zipped row). */
  datatype Cell = Text(text: string) | Number(number: real) | Tuple(items: seq<Cell>)

  /** One sheet as a spreadsheet reader returns it: the header labels, one
      value sequence per column, and the number of rows. */
  datatype Sheet = Sheet(labels: seq<string>, columns: seq<seq<Cell>>, rows: nat)

  /** Position of the first `x` in `xs`, or `|xs|` when there is none. */
  function IndexOf<T(==)>(xs: seq<T>, x: T): (i: nat)
    ensures i <= |xs|
    ensures x in xs <==> i < |xs|
    ensures i < |xs| ==> xs[i] == x
    ensures forall j :: 0 <= j < i ==> xs[j] != x
  {
    if xs == [] then 0 else if xs[0] == x then 0 else 1 + IndexOf(xs[1..], x)
  }

  /** The first occurrence of a value seen in a prefix is its first
      occurrence in the whole sequence. */
  lemma IndexOfPrefix<T>(xs: seq<T>, n: nat, x: T)
    requires n <= |xs| && x in xs[..n]
    ensures IndexOf(xs, x) == IndexOf(xs[..n], x)
  {
    var i := IndexOf(xs[..n], x);
    assert xs[i] == x;
    forall j | 0 <= j < i
      ensures xs[j] != x
    {
      assert xs[..n][j] == xs[j];
    }
  }

  /** `Series.unique()`: the distinct values in first-occurrence order. */
  function Unique<T(==,!new)>(xs: seq<T>): (r: seq<T>)
    ensures forall x :: x in r <==> x in xs
    ensures forall i, j :: 0 <= i < j < |r| ==> r[i] != r[j]
    ensures forall i, j :: 0 <= i < j < |r| ==> IndexOf(xs, r[i]) < IndexOf(xs, r[j])
  {
    if xs == [] then []
    else
      var n := |xs| - 1;
      var seen := Unique(xs[..n]);
      assert xs[..n] + [xs[n]] == xs;
      assert forall i :: 0 <= i < |seen| ==> IndexOf(xs, seen[i]) == IndexOf(xs[..n], seen[i]) by {
        forall i | 0 <= i < |seen| {
          IndexOfPrefix(xs, n, seen[i]);
        }
      }
      if xs[n] in seen then seen
      else
        assert IndexOf(xs, xs[n]) == n;
        seen + [xs[n]]
  }

  /** `labels.rename(renaming)`: every label listed in the renaming is
      replaced, the others are kept; positions do not move. */
  function Rename(labels: seq<string>, renaming: map<string, string>): (r: seq<string>)
    ensures |r| == |labels|
    ensures forall i :: 0 <= i < |labels| ==> r[i] == GetOr(renaming, labels[i], labels[i])
  {
    seq(|labels|, i requires 0 <= i < |labels| => GetOr(renaming, labels[i], labels[i]))
  }

  /** A table whose column set callers change in place. */
  class DataFrame {
    var labels: seq<string>
    var columns: seq<seq<Cell>>
    var rows: nat

    /** One value sequence per label, each as long as the table. */
    predicate Valid()
      reads this
    {
      |columns| == |labels| && forall j :: 0 <= j < |columns| ==> |columns[j]| == rows
    }

    constructor FromSheet(sheet: Sheet)
      ensures labels == sheet.labels && columns == sheet.columns && rows == sheet.rows
    {
      labels := sheet.labels;
      columns := sheet.columns;
      rows := sheet.rows;
    }

    /** `df[name]`: the column under the first label equal to `name`, or a
        `KeyError` when no label matches. */
    function Column(name: string): (r: Result<seq<Cell>>)
      requires Valid()
      reads this
      ensures r.Ok? <==> name in labels
      ensures r.Err? ==> r.error == KeyError(name)
      ensures r.Ok? ==> |r.value| == rows && r.value == columns[IndexOf(labels, name)]
    {
      if name in labels then Ok(columns[IndexOf(labels, name)]) else Err(KeyError(name))
    }

    /** `df[name] = values`: overwrite the column under `name`, or append a
        new column at the end. */
    method SetColumn(name: string, values: seq<Cell>)
      requires Valid() && |values| == rows
      modifies this
      ensures Valid() && rows == old(rows)
      ensures name in old(labels) ==>
                labels == old(labels) && columns == old(columns)[IndexOf(old(labels), name) := values]
      ensures name !in old(labels) ==> labels == old(labels) + [name] && columns == old(columns) + [values]
      ensures Column(name) == Ok(values)
      ensures forall other :: other != name ==> Column(other) == old(Column(other))
    {
      ghost var labels0, columns0 := labels, columns;
      if name in labels {
        columns := columns[IndexOf(labels, name) := values];
      } else {
        labels := labels + [name];
        columns := columns + [values];
        IndexOfAppended(labels0, name);
      }
      forall other | other != name && other in labels0
        ensures IndexOf(labels, other) == IndexOf(labels0, other)
        ensures columns[IndexOf(labels, other)] == columns0[IndexOf(labels0, other)]
      {
        SetColumnLookup(labels0, columns0, name, values, other);
      }
    }

    /** `df.columns = names`: relabel every column in place. */
    method SetLabels(names: seq<string>)
      requires |names| == |labels|
      modifies this
      ensures labels == names && columns == old(columns) && rows == old(rows)
    {
      labels := names;
    }

    /** `df.rename(columns=renaming)`: a new table with the renamed labels and
        the same columns; this table is left as it is. */
    method Renamed(renaming: map<string, string>) returns (f: DataFrame)
      ensures fresh(f)
      ensures f.labels == Rename(labels, renaming) && f.columns == columns && f.rows == rows
    {
      f := new DataFrame.FromSheet(Sheet(Rename(labels, renaming), columns, rows));
    }
  }

  /** A value appended to a sequence without it is found at the end. */
  lemma IndexOfAppended<T>(xs: seq<T>, x: T)
    requires x !in xs
    ensures IndexOf(xs + [x], x) == |xs|
  {
    assert (xs + [x])[|xs|] == x;
    assert forall j :: 0 <= j < |xs| ==> (xs + [x])[j] == xs[j];
  }

  /** Setting a column keeps every other label's lookup as it was and makes
      the new one return exactly the given values. */
  lemma SetColumnLookup(labels: seq<string>, columns: seq<seq<Cell>>, name: string, values: seq<Cell>, other: string)
    requires |columns| == |labels|
    requires other != name && other in labels
    ensures var labels', columns' :=
              if name in labels then labels else labels + [name],
              if name in labels then columns[IndexOf(labels, name) := values] else columns + [values];
            IndexOf(labels', other) == IndexOf(labels, other) &&
            columns'[IndexOf(labels', other)] == columns[IndexOf(labels, other)] &&
            columns'[IndexOf(labels', name)] == values
  {
    if name !in labels {
      IndexOfPrefix(labels + [name], |labels|, other);
      assert (labels + [name])[..|labels|] == labels;
      assert IndexOf(labels + [name], name) == |labels|;
    }
  }
}
