/**
 * Tables as pandas holds them: an ordered list of distinct column names, one
 * sequence of cells per column, all of the same height. `Table` is the value;
 * `Frame` is the mutable DataFrame object whose columns the pipeline overwrites
 * in place. `pd.concat(..., ignore_index=True)` is `ConcatAll`.
 */
module Tables {
  import opened Outcomes
  import opened Cells

  ghost predicate Distinct(names: seq<string>)
  {
    forall i, j :: 0 <= i < j < |names| ==> names[i] != names[j]
  }

  datatype Table = Table(columns: seq<string>, data: map<string, seq<Cell>>, height: nat) {
    /** Column names are distinct, name exactly the stored columns, and every column
        holds one cell per row. */
    ghost predicate Valid()
    {
      && Distinct(columns)
      && (forall c :: c in data <==> c in columns)
      && (forall c :: c in data ==> |data[c]| == height)
    }
  }

  lemma DistinctAppend(x: seq<string>, y: seq<string>)
    requires Distinct(x) && Distinct(y)
    requires forall c :: c in y ==> c !in x
    ensures Distinct(x + y)
  {
    forall i, j | 0 <= i < j < |x + y| ensures (x + y)[i] != (x + y)[j] {
      if j >= |x| && i < |x| {
        assert (x + y)[j] == y[j - |x|] && y[j - |x|] in y;
      }
    }
  }

  /** The empty table (no columns, no rows). */
  const EmptyTable: Table := Table([], map[], 0)

  /** A column of the table, or NaN in every row when the table lacks it (how
      `pd.concat` fills a column that only other frames have). */
  function Column(t: Table, c: string): (r: seq<Cell>)
    ensures t.Valid() ==> |r| == t.height
  {
    if c in t.data then t.data[c] else Missings(t.height)
  }

  /** n missing values. */
  function Missings(n: nat): (r: seq<Cell>)
    ensures |r| == n && forall i :: 0 <= i < n ==> r[i] == Missing
  {
    if n == 0 then [] else Missings(n - 1) + [Missing]
  }

  /** The table after `df[c] = cells`: an existing column keeps its place and is
      replaced, a new one is appended after the others. */
  function WithColumn(t: Table, c: string, cells: seq<Cell>): (r: Table)
    requires |cells| == t.height
    ensures t.Valid() ==> r.Valid()
    ensures r.height == t.height
    ensures c in r.data && r.data[c] == cells
    ensures forall d :: d != c ==> (d in r.data <==> d in t.data)
    ensures forall d :: d != c && d in t.data ==> r.data[d] == t.data[d]
  {
    Table(if c in t.data then t.columns else t.columns + [c], t.data[c := cells], t.height)
  }

  /** Assigning a column twice leaves only the second assignment. */
  lemma WithColumnTwice(t: Table, c: string, first: seq<Cell>, second: seq<Cell>)
    requires t.Valid() && |first| == t.height && |second| == t.height
    ensures WithColumn(WithColumn(t, c, first), c, second) == WithColumn(t, c, second)
  {
    assert t.data[c := first][c := second] == t.data[c := second];
  }

  /** The names of `extra` that `base` lacks, in their order in `extra`. */
  function NewColumns(base: seq<string>, extra: seq<string>): (r: seq<string>)
    ensures forall c :: c in r <==> c in extra && c !in base
    ensures Distinct(extra) ==> Distinct(r)
    decreases |extra|
  {
    if extra == [] then []
    else
      var rest := NewColumns(base, extra[1..]);
      assert Distinct(extra) ==> Distinct(extra[1..]) && extra[0] !in extra[1..];
      if extra[0] in base then rest
      else
        assert Distinct(extra) ==> Distinct([extra[0]] + rest) by {
          if Distinct(extra) { DistinctAppend([extra[0]], rest); }
        }
        [extra[0]] + rest
  }

  ghost predicate AllValid(ts: seq<Table>) { forall k :: 0 <= k < |ts| ==> ts[k].Valid() }

  /** Some table among the first n has column c. */
  ghost predicate SomeHas(ts: seq<Table>, n: nat, c: string)
    requires n <= |ts|
  {
    exists k :: 0 <= k < n && c in ts[k].data
  }

  /** Number of rows of the first n tables. */
  function RowsBefore(ts: seq<Table>, n: nat): nat
    requires n <= |ts|
  {
    if n == 0 then 0 else RowsBefore(ts, n - 1) + ts[n - 1].height
  }

  /** Total number of rows of the tables. */
  function SumHeights(ts: seq<Table>): nat
  {
    RowsBefore(ts, |ts|)
  }

  lemma {:induction false} RowsBeforeMonotone(ts: seq<Table>, m: nat, n: nat)
    requires m <= n <= |ts|
    ensures RowsBefore(ts, m) <= RowsBefore(ts, n)
    decreases n
  {
    if m < n {
      RowsBeforeMonotone(ts, m, n - 1);
    }
  }

  /** The columns of the first n tables: those of the first table in its order, then
      each column a later table adds, in order of first appearance. */
  function UnionColumns(ts: seq<Table>, n: nat): (r: seq<string>)
    requires n <= |ts| && AllValid(ts)
    ensures Distinct(r)
    ensures forall c :: c in r <==> SomeHas(ts, n, c)
    decreases n
  {
    if n == 0 then []
    else
      var before := UnionColumns(ts, n - 1);
      var added := NewColumns(before, ts[n - 1].columns);
      DistinctAppend(before, added);
      assert forall c :: SomeHas(ts, n, c) <==> SomeHas(ts, n - 1, c) || c in ts[n - 1].data;
      before + added
  }

  /** Column c of the first n tables stacked one above the other, NaN where a table
      lacks c. */
  function Stacked(ts: seq<Table>, n: nat, c: string): (r: seq<Cell>)
    requires n <= |ts|
    ensures AllValid(ts) ==> |r| == RowsBefore(ts, n)
    decreases n
  {
    if n == 0 then [] else Stacked(ts, n - 1, c) + Column(ts[n - 1], c)
  }

  /** `pd.concat(ts, ignore_index=True)` (outer join on columns): an empty list is an
      error; otherwise the rows of every table, in list order, under the union of
      their columns. */
  function ConcatAll(ts: seq<Table>): (r: Result<Table>)
    requires AllValid(ts)
    ensures r.Failure? <==> ts == []
    ensures r.Failure? ==> r.error == NoObjectsToConcatenate
    ensures r.Success? ==> r.value.Valid() && r.value.height == SumHeights(ts)
    ensures r.Success? ==> forall c :: c in r.value.data <==> SomeHas(ts, |ts|, c)
  {
    if ts == [] then Failure(NoObjectsToConcatenate)
    else
      var columns := UnionColumns(ts, |ts|);
      Success(Table(columns, map c | c in columns :: Stacked(ts, |ts|, c), SumHeights(ts)))
  }

  /** Stacking more tables keeps every row already stacked where it was. */
  lemma {:induction false} StackedKeepsRow(ts: seq<Table>, m: nat, n: nat, c: string, i: nat)
    requires m <= n <= |ts| && i < |Stacked(ts, m, c)|
    ensures i < |Stacked(ts, n, c)| && Stacked(ts, n, c)[i] == Stacked(ts, m, c)[i]
    decreases n
  {
    if m < n {
      StackedKeepsRow(ts, m, n - 1, c, i);
    }
  }

  /** Row j of the k-th table is row RowsBefore(ts, k) + j of the stacked column. */
  lemma StackedRowOrigin(ts: seq<Table>, n: nat, k: nat, j: nat, c: string)
    requires n <= |ts| && AllValid(ts)
    requires k < n && j < ts[k].height
    ensures RowsBefore(ts, k) + j < RowsBefore(ts, n)
    ensures Stacked(ts, n, c)[RowsBefore(ts, k) + j] == Column(ts[k], c)[j]
  {
    AppendedIndex(Stacked(ts, k, c), Column(ts[k], c), j);
    StackedKeepsRow(ts, k + 1, n, c, RowsBefore(ts, k) + j);
  }

  lemma AppendedIndex(before: seq<Cell>, part: seq<Cell>, j: nat)
    requires j < |part|
    ensures |before| + j < |before + part| && (before + part)[|before| + j] == part[j]
  {
  }

  /** Row j of the k-th table is row RowsBefore(ts, k) + j of the concatenation, in
      every column; a column the k-th table lacks is NaN there. */
  lemma ConcatRowOrigin(ts: seq<Table>, k: nat, j: nat, c: string)
    requires AllValid(ts) && ConcatAll(ts).Success?
    requires k < |ts| && j < ts[k].height
    requires c in ConcatAll(ts).value.data
    ensures RowsBefore(ts, k) + j < ConcatAll(ts).value.height
    ensures ConcatAll(ts).value.data[c][RowsBefore(ts, k) + j] == Column(ts[k], c)[j]
  {
    StackedRowOrigin(ts, |ts|, k, j, c);
  }

  /** A pandas DataFrame: a mutable object whose columns are overwritten in place. */
  class Frame {
    var columns: seq<string>
    var data: map<string, seq<Cell>>
    var height: nat

    function Value(): Table
      reads this
    {
      Table(columns, data, height)
    }

    ghost predicate Valid()
      reads this
    {
      Value().Valid()
    }

    /** A frame holding a loaded table. */
    constructor (t: Table)
      requires t.Valid()
      ensures Valid() && Value() == t
    {
      columns, data, height := t.columns, t.data, t.height;
    }

    /** `df[c] = cells`. */
    method SetColumn(c: string, cells: seq<Cell>)
      requires Valid() && |cells| == height
      modifies this
      ensures Valid() && Value() == WithColumn(old(Value()), c, cells)
    {
      if c !in data {
        columns := columns + [c];
      }
      data := data[c := cells];
    }
  }
}
