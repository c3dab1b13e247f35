/** The part of a pandas DataFrame the batch processors use: named columns of equal
    height, a copy, reading a column by name, and assigning a whole column by name
    (which overwrites a column of that name or appends a new one at the end). */
module Frames {
  import opened Trace

  /** A table cell; NA is what `pd.isna` recognises (NaN, None, an empty spreadsheet cell). */
  datatype Cell = NA | Text(s: string) | Whole(n: int) | Fraction(d: Decimal)

  predicate DistinctLabels(labels: seq<string>) {
    forall i, j :: 0 <= i < j < |labels| ==> labels[i] != labels[j]
  }

  predicate WellFormed(labels: seq<string>, columns: seq<seq<Cell>>, height: nat) {
    && |labels| == |columns|
    && (forall j :: 0 <= j < |columns| ==> |columns[j]| == height)
    && DistinctLabels(labels)
  }

  /** Position of a name among the labels. */
  function LabelIndex(labels: seq<string>, name: string): (i: nat)
    requires name in labels
    ensures i < |labels| && labels[i] == name
    ensures forall j :: 0 <= j < i ==> labels[j] != name
  {
    if labels[0] == name then 0 else 1 + LabelIndex(labels[1..], name)
  }

  /** The labels after `df[name] = values`. */
  function AssignLabels(labels: seq<string>, name: string): seq<string> {
    if name in labels then labels else labels + [name]
  }

  /** The columns after `df[name] = values`. */
  function AssignColumns(labels: seq<string>, columns: seq<seq<Cell>>, name: string,
                         values: seq<Cell>): seq<seq<Cell>>
    requires |labels| == |columns|
  {
    if name in labels then columns[LabelIndex(labels, name) := values] else columns + [values]
  }

  /** Assigning a column keeps the frame well formed, makes `values` the column of `name`,
      leaves every other column where and as it was, and appends a new name at the end. */
  lemma {:induction false} AssignColumnSpec(labels: seq<string>, columns: seq<seq<Cell>>, height: nat,
                                            name: string, values: seq<Cell>)
    requires WellFormed(labels, columns, height) && |values| == height
    ensures var ls, cs := AssignLabels(labels, name), AssignColumns(labels, columns, name, values);
      && WellFormed(ls, cs, height)
      && name in ls && cs[LabelIndex(ls, name)] == values
      && (forall j :: 0 <= j < |labels| && labels[j] != name ==> ls[j] == labels[j] && cs[j] == columns[j])
      && (name !in labels ==> ls == labels + [name])
      && (name in labels ==> ls == labels)
  {
    var ls := AssignLabels(labels, name);
    if name !in labels {
      assert ls[|labels|] == name;
      assert LabelIndex(ls, name) == |labels|;
    }
  }

  /** Assigning the same name twice keeps only the second column: a rerun on the same day
      replaces that day's column instead of adding another. */
  lemma AssignTwiceOverwrites(labels: seq<string>, columns: seq<seq<Cell>>, height: nat,
                              name: string, first: seq<Cell>, second: seq<Cell>)
    requires WellFormed(labels, columns, height) && |first| == height && |second| == height
    ensures var ls1, cs1 := AssignLabels(labels, name), AssignColumns(labels, columns, name, first);
      && AssignLabels(ls1, name) == ls1
      && AssignColumns(ls1, cs1, name, second) == AssignColumns(labels, columns, name, second)
  {
    AssignColumnSpec(labels, columns, height, name, first);
    var ls1 := AssignLabels(labels, name);
    if name !in labels {
      assert LabelIndex(ls1, name) == |labels|;
    }
  }

  class DataFrame {
    var labels: seq<string>
    var columns: seq<seq<Cell>>
    var height: nat

    ghost predicate Valid()
      reads this
    {
      WellFormed(labels, columns, height)
    }

    constructor (labels: seq<string>, columns: seq<seq<Cell>>, height: nat)
      requires WellFormed(labels, columns, height)
      ensures Valid()
      ensures this.labels == labels && this.columns == columns && this.height == height
    {
      this.labels := labels;
      this.columns := columns;
      this.height := height;
    }

    /** `df.copy()`: a new frame with the same labels and cells. */
    method Copy() returns (c: DataFrame)
      requires Valid()
      ensures fresh(c) && c.Valid()
      ensures c.labels == labels && c.columns == columns && c.height == height
    {
      c := new DataFrame(labels, columns, height);
    }

    /** `df[name]` as a list of cells, in row order. */
    function Column(name: string): (col: seq<Cell>)
      reads this
      requires Valid() && name in labels
      ensures |col| == height
    {
      columns[LabelIndex(labels, name)]
    }

    /** `df[name] = values`. */
    method Assign(name: string, values: seq<Cell>)
      requires Valid() && |values| == height
      modifies this
      ensures Valid() && height == old(height)
      ensures labels == AssignLabels(old(labels), name)
      ensures columns == AssignColumns(old(labels), old(columns), name, values)
      ensures Column(name) == values
    {
      AssignColumnSpec(labels, columns, height, name, values);
      columns := AssignColumns(labels, columns, name, values);
      labels := AssignLabels(labels, name);
    }
  }
}
