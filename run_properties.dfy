/**
 * Properties of the whole run: which exception an empty or unusable source
 * directory ends with, how many rows each output has, that every output row still
 * carries the period of the archive it came from, and that the items' sign is
 * derived from the same row's operation code.
 */
module RunProperties {
  import opened Outcomes
  import opened Cells
  import opened Tables
  import opened PeriodIndex
  import opened Normalisation
  import opened Sign
  import opened Pipeline

  // ----- the schemas declare the tag and code columns once -----

  /** "periodo" is declared once, as `str`, in both schemas; "CFOP" once, as `int64`,
      in the items schema. */
  lemma SchemaColumns()
    ensures ItemsSchema[27] == (PeriodColumn, StrType) && DeclaredOnce(ItemsSchema, 27)
    ensures InvoicesSchema[21] == (PeriodColumn, StrType) && DeclaredOnce(InvoicesSchema, 21)
    ensures ItemsSchema[22] == (CodeColumn, Int64Type) && DeclaredOnce(ItemsSchema, 22)
  {
    forall j | 0 <= j < 27 ensures ItemsSchema[j].0[0] != 'p' {}
    forall j | 0 <= j < 21 ensures InvoicesSchema[j].0[0] != 'p' {}
    forall j | 0 <= j < 22 ensures ItemsSchema[j].0 != CodeColumn {}
    forall j | 23 <= j < 28 ensures ItemsSchema[j].0 != CodeColumn {}
  }

  // ----- failures -----

  /** No period among the first n opens. */
  lemma {:induction false} NoneOpened(dir: Directory, idx: Index, n: nat)
    requires n <= |idx.order| && forall i :: 0 <= i < |idx.order| ==> idx.order[i] in idx.archive
    requires forall i :: 0 <= i < n ==> !Opens(dir, idx.order[i], idx.archive[idx.order[i]])
    ensures OpenedUpTo(dir, idx, n) == []
  {
    if n > 0 {
      NoneOpened(dir, idx, n - 1);
    }
  }

  /** When no archive unpacks into exactly three files (in particular when the
      directory holds no period archive at all), every list stays empty and the
      first `pd.concat` raises. */
  lemma RunFailsWithoutData(dir: Directory, parseDate: string -> DateParse)
    requires LoadsValid(dir)
    requires var idx := PeriodMap(dir);
             forall i :: 0 <= i < |idx.order| ==> !Opens(dir, idx.order[i], idx.archive[idx.order[i]])
    ensures RunSpec(dir, parseDate) == Failure(NoObjectsToConcatenate)
  {
    var idx := PeriodMap(dir);
    var n := |idx.order|;
    NoneOpened(dir, idx, n);
    AccumulateFailsIff(dir, idx, n);
    var acc := AccumulateUpTo(dir, idx, n).value;
    AccumulatedPeriods(dir, idx, n);
    AccumulatedConsistent(dir, idx, n);
    assert acc.items == [];
    assert ConcatAll(acc.items) == Failure(NoObjectsToConcatenate);
  }

  /** A listing without any name starting with six digits yields an empty map. */
  lemma RunOnEmptyListing(dir: Directory, parseDate: string -> DateParse)
    requires LoadsValid(dir)
    requires forall i :: 0 <= i < |dir.listing| ==> !HasPeriodPrefix(dir.listing[i])
    ensures RunSpec(dir, parseDate) == Failure(NoObjectsToConcatenate)
  {
    IndexOfUnrelatedNames(dir.listing, |dir.listing|);
    RunFailsWithoutData(dir, parseDate);
  }

  /** A period whose three files cannot all be assigned a role stops the run with the
      IndexError of that role's `[0]`. */
  lemma RunFailsOnUnclassifiable(dir: Directory, parseDate: string -> DateParse)
    requires LoadsValid(dir)
    requires SomeUnclassifiable(dir, PeriodMap(dir), |PeriodMap(dir).order|)
    ensures RunSpec(dir, parseDate).Failure? && RunSpec(dir, parseDate).error.NoFileFor?
  {
    AccumulateFailsIff(dir, PeriodMap(dir), |PeriodMap(dir).order|);
  }

  // ----- the outputs -----

  /** A run that completes is the post-processing of the lists the main loop built:
      one entry per period that opened, in map order. */
  lemma RunOutputs(dir: Directory, parseDate: string -> DateParse)
    requires LoadsValid(dir) && RunSpec(dir, parseDate).Success?
    ensures Accumulate(dir).Success?
    ensures var acc := Accumulate(dir).value;
            && Consistent(acc)
            && acc.periods == OpenedUpTo(dir, PeriodMap(dir), |PeriodMap(dir).order|)
            && RunSpec(dir, parseDate) == Finish(acc, parseDate)
  {
    AccumulatedPeriods(dir, PeriodMap(dir), |PeriodMap(dir).order|);
    AccumulatedConsistent(dir, PeriodMap(dir), |PeriodMap(dir).order|);
  }

  /** A completed post-processing: each list concatenates, the items and invoices are
      converted, and the events are passed through. */
  lemma FinishParts(acc: Accumulated, parseDate: string -> DateParse)
    requires Consistent(acc) && Finish(acc, parseDate).Success?
    ensures ConcatAll(acc.items).Success? && ConcatAll(acc.events).Success? && ConcatAll(acc.invoices).Success?
    ensures ItemsOutput(ConcatAll(acc.items).value, parseDate).Success?
    ensures InvoicesOutput(ConcatAll(acc.invoices).value, parseDate).Success?
    ensures Finish(acc, parseDate).value == Outputs(ItemsOutput(ConcatAll(acc.items).value, parseDate).value,
                                                    ConcatAll(acc.events).value,
                                                    InvoicesOutput(ConcatAll(acc.invoices).value, parseDate).value)
  {
  }

  /** The events output is the concatenated events list. */
  lemma FinishEvents(acc: Accumulated, parseDate: string -> DateParse, outputs: Outputs)
    requires Consistent(acc)
    requires Finish(acc, parseDate) == Success(outputs)
    ensures ConcatAll(acc.events) == Success(outputs.events)
  {
    FinishParts(acc, parseDate);
  }

  /** The items output is the post-processed concatenation of the items list. */
  lemma FinishItems(acc: Accumulated, parseDate: string -> DateParse, outputs: Outputs)
    requires Consistent(acc)
    requires Finish(acc, parseDate) == Success(outputs)
    ensures ConcatAll(acc.items).Success? && ItemsOutput(ConcatAll(acc.items).value, parseDate) == Success(outputs.items)
  {
    FinishParts(acc, parseDate);
  }

  /** The invoices output is the converted concatenation of the invoices list. */
  lemma FinishInvoices(acc: Accumulated, parseDate: string -> DateParse, outputs: Outputs)
    requires Consistent(acc)
    requires Finish(acc, parseDate) == Success(outputs)
    ensures ConcatAll(acc.invoices).Success?
    ensures InvoicesOutput(ConcatAll(acc.invoices).value, parseDate) == Success(outputs.invoices)
  {
    FinishParts(acc, parseDate);
  }

  /** Each output has as many rows as the tables appended to its list, and at least
      one period was loaded. */
  lemma FinishRowCounts(acc: Accumulated, parseDate: string -> DateParse)
    requires Consistent(acc) && Finish(acc, parseDate).Success?
    ensures var out := Finish(acc, parseDate).value;
            && acc.periods != []
            && out.items.height == SumHeights(acc.items)
            && out.events.height == SumHeights(acc.events)
            && out.invoices.height == SumHeights(acc.invoices)
  {
    FinishParts(acc, parseDate);
  }

  /** `pd.concat` keeps each row's tag, at the row's offset in the result. */
  lemma ConcatKeepsTag(ts: seq<Table>, p: Period, k: nat, j: nat)
    requires AllValid(ts) && k < |ts| && j < ts[k].height && TaggedWith(ts[k], p)
    requires ConcatAll(ts).Success?
    ensures var out := ConcatAll(ts).value;
            && PeriodColumn in out.data && |out.data[PeriodColumn]| == out.height
            && RowsBefore(ts, k) + j < out.height
            && out.data[PeriodColumn][RowsBefore(ts, k) + j] == Text(FormatPeriod(p))
  {
    assert SomeHas(ts, |ts|, PeriodColumn);
    ConcatRowOrigin(ts, k, j, PeriodColumn);
  }

  /** The tag survives `converter_dados`: "periodo" is declared `str`, and `astype(str)`
      keeps text as it is. */
  lemma TagSurvivesNormalise(ts: seq<Table>, decl: Declaration, index: nat, p: Period,
                             k: nat, j: nat, parseDate: string -> DateParse)
    requires AllValid(ts) && k < |ts| && j < ts[k].height && TaggedWith(ts[k], p)
    requires index < |decl| && decl[index] == (PeriodColumn, StrType) && DeclaredOnce(decl, index)
    requires ConcatAll(ts).Success? && Normalise(ConcatAll(ts).value, decl, parseDate).1.None?
    ensures var out := Normalise(ConcatAll(ts).value, decl, parseDate).0;
            && PeriodColumn in out.data && |out.data[PeriodColumn]| == out.height
            && RowsBefore(ts, k) + j < out.height
            && out.data[PeriodColumn][RowsBefore(ts, k) + j] == Text(FormatPeriod(p))
  {
    var whole := ConcatAll(ts).value;
    ConcatKeepsTag(ts, p, k, j);
    NormaliseConvertsEach(whole, decl, parseDate, index);
    StrColumnRendered(whole.data[PeriodColumn], PeriodColumn, parseDate);
  }

  /** Every invoices row keeps its tag through `converter_dados`. */
  lemma InvoicesOutputKeepsTag(ts: seq<Table>, p: Period, k: nat, j: nat, parseDate: string -> DateParse)
    requires AllValid(ts) && k < |ts| && j < ts[k].height && TaggedWith(ts[k], p)
    requires ConcatAll(ts).Success? && InvoicesOutput(ConcatAll(ts).value, parseDate).Success?
    ensures var out := InvoicesOutput(ConcatAll(ts).value, parseDate).value;
            && PeriodColumn in out.data && |out.data[PeriodColumn]| == out.height
            && RowsBefore(ts, k) + j < out.height
            && out.data[PeriodColumn][RowsBefore(ts, k) + j] == Text(FormatPeriod(p))
  {
    SchemaColumns();
    TagSurvivesNormalise(ts, InvoicesSchema, 21, p, k, j, parseDate);
  }

  /** The items output is the converted table with the sign column added. */
  lemma ItemsOutputParts(whole: Table, parseDate: string -> DateParse)
    requires whole.Valid() && ItemsOutput(whole, parseDate).Success?
    ensures Normalise(whole, ItemsSchema, parseDate).1.None?
    ensures ItemsOutput(whole, parseDate) == WithSign(Normalise(whole, ItemsSchema, parseDate).0, CodeColumn)
  {
  }

  /** The tag of an items row survives conversion and the sign column. */
  lemma ItemsOutputKeepsTag(ts: seq<Table>, p: Period, k: nat, j: nat, parseDate: string -> DateParse)
    requires AllValid(ts) && k < |ts| && j < ts[k].height && TaggedWith(ts[k], p)
    requires ConcatAll(ts).Success? && ItemsOutput(ConcatAll(ts).value, parseDate).Success?
    ensures var out := ItemsOutput(ConcatAll(ts).value, parseDate).value;
            && PeriodColumn in out.data && |out.data[PeriodColumn]| == out.height
            && RowsBefore(ts, k) + j < out.height
            && out.data[PeriodColumn][RowsBefore(ts, k) + j] == Text(FormatPeriod(p))
  {
    ItemsOutputParts(ConcatAll(ts).value, parseDate);
    SchemaColumns();
    TagSurvivesNormalise(ts, ItemsSchema, 27, p, k, j, parseDate);
  }

  /** In the items output, every row's sign is +1 or -1 and is derived from that
      row's (converted) operation code, whose values are integers or missing. */
  lemma ItemsOutputSigned(whole: Table, parseDate: string -> DateParse)
    requires whole.Valid() && ItemsOutput(whole, parseDate).Success?
    ensures var out := ItemsOutput(whole, parseDate).value;
            && CodeColumn in out.data && SignColumnName in out.data
            && |out.data[CodeColumn]| == out.height && |out.data[SignColumnName]| == out.height
            && forall i :: 0 <= i < out.height ==>
                 && (out.data[CodeColumn][i].Int? || out.data[CodeColumn][i].Missing?)
                 && out.data[SignColumnName][i] == Int(SignOf(DtypeOf(out.data[CodeColumn]), out.data[CodeColumn][i]))
  {
    ItemsOutputParts(whole, parseDate);
    var normal := Normalise(whole, ItemsSchema, parseDate).0;
    SchemaColumns();
    NormaliseConvertsEach(whole, ItemsSchema, parseDate, 22);
    IntColumnParsed(whole.data[CodeColumn], CodeColumn, parseDate, normal.data[CodeColumn]);
  }

  /** The same, for the items output of the whole run. */
  lemma ItemsSigned(acc: Accumulated, parseDate: string -> DateParse)
    requires Consistent(acc) && Finish(acc, parseDate).Success?
    ensures var out := Finish(acc, parseDate).value.items;
            && CodeColumn in out.data && SignColumnName in out.data
            && |out.data[CodeColumn]| == out.height && |out.data[SignColumnName]| == out.height
            && forall i :: 0 <= i < out.height ==>
                 && (out.data[CodeColumn][i].Int? || out.data[CodeColumn][i].Missing?)
                 && out.data[SignColumnName][i] == Int(SignOf(DtypeOf(out.data[CodeColumn]), out.data[CodeColumn][i]))
  {
    FinishParts(acc, parseDate);
    ItemsOutputSigned(ConcatAll(acc.items).value, parseDate);
  }
}
