/**
 * The ingestion run: index the archives by period, then for each period in the
 * dict's order unpack its archive, skip it unless it holds exactly three files,
 * classify the files, load the three tables, tag every row with the period and
 * append each table to its accumulator; finally concatenate each accumulator,
 * normalise the items and invoices tables and add the sign column to the items.
 * Listing, unpacking and CSV reading are given as inputs.
 */
module Pipeline {
  import opened Outcomes
  import opened Cells
  import opened Tables
  import opened PeriodIndex
  import opened Classification
  import opened Normalisation
  import opened Sign

  /** The column every loaded row is tagged in. */
  const PeriodColumn: string := "periodo"

  /** The code column the sign is derived from. */
  const CodeColumn: string := "CFOP"

  /** What the run reads from the file system: the names in the source directory in
      listing order; the names in a period's scratch directory once an archive has
      been unpacked into it; and the table read from a file of that directory. */
  datatype Directory = Directory(
    listing: seq<string>,
    extracted: (Period, string) -> seq<string>,
    load: (Period, string) -> Table)

  /** File `name` of period p's scratch directory reads as a well-formed table. */
  ghost predicate ReadsValid(dir: Directory, p: Period, name: string)
  {
    dir.load(p, name).Valid()
  }

  /** Every file reads as a well-formed table. */
  ghost predicate LoadsValid(dir: Directory)
  {
    forall p, name :: ReadsValid(dir, p, name)
  }

  /** The dict `mapa` the run iterates over. */
  function PeriodMap(dir: Directory): (idx: Index)
    ensures forall i :: 0 <= i < |idx.order| ==> idx.order[i] in idx.archive
  {
    IndexWellFormed(dir.listing, |dir.listing|);
    IndexUpTo(dir.listing, |dir.listing|)
  }

  // ----- one period -----

  /** A column holding the same tag in every row. */
  function TagColumn(height: nat, tag: string): (r: seq<Cell>)
    ensures |r| == height && forall i :: 0 <= i < height ==> r[i] == Text(tag)
  {
    seq(height, _ => Text(tag))
  }

  /** Every row of the table carries the tag of period p. */
  ghost predicate TaggedWith(t: Table, p: Period)
  {
    PeriodColumn in t.data && t.data[PeriodColumn] == TagColumn(t.height, FormatPeriod(p))
  }

  /** `df['periodo'] = periodo_formatado`. */
  function Tagged(t: Table, p: Period): (r: Table)
    ensures t.Valid() ==> r.Valid()
    ensures r.height == t.height && TaggedWith(r, p)
    ensures forall d :: d != PeriodColumn && d in t.data ==> d in r.data && r.data[d] == t.data[d]
  {
    WithColumn(t, PeriodColumn, TagColumn(t.height, FormatPeriod(p)))
  }

  /** What one period contributes: nothing when its directory does not hold exactly
      three files, else its three tagged tables. */
  datatype Contribution = Skipped | Loaded(items: Table, events: Table, invoices: Table)

  /** The scratch directory of this period holds exactly three files. */
  predicate Opens(dir: Directory, p: Period, archive: string)
  {
    |dir.extracted(p, archive)| == 3
  }

  /** One iteration of the main loop for period p and its archive. */
  function Contribute(dir: Directory, p: Period, archive: string): (r: Result<Contribution>)
    ensures r.Success? && r.value.Skipped? <==> !Opens(dir, p, archive)
    ensures r.Failure? <==> Opens(dir, p, archive) && Classify(dir.extracted(p, archive)).Failure?
    ensures r.Failure? ==> r.error.NoFileFor?
    ensures r.Success? && r.value.Loaded? ==>
              TaggedWith(r.value.items, p) && TaggedWith(r.value.events, p) && TaggedWith(r.value.invoices, p)
  {
    var names := dir.extracted(p, archive);
    if |names| != 3 then Success(Skipped)
    else
      var roles :- Classify(names);
      Success(Loaded(Tagged(dir.load(p, roles.items), p),
                     Tagged(dir.load(p, roles.events), p),
                     Tagged(dir.load(p, roles.invoices), p)))
  }

  /** Tables read from well-formed files stay well-formed once tagged. */
  lemma ContributionValid(dir: Directory, p: Period, archive: string)
    requires LoadsValid(dir)
    ensures var r := Contribute(dir, p, archive);
            r.Success? && r.value.Loaded? ==> r.value.items.Valid() && r.value.events.Valid() && r.value.invoices.Valid()
  {
    var names := dir.extracted(p, archive);
    if |names| == 3 && Classify(names).Success? {
      var roles := Classify(names).value;
      assert ReadsValid(dir, p, roles.items) && ReadsValid(dir, p, roles.events) && ReadsValid(dir, p, roles.invoices);
    }
  }

  // ----- accumulation -----

  /** The three lists `dfs_itens`, `dfs_eventos`, `dfs_nf`, and the period each entry
      came from. */
  datatype Accumulated = Accumulated(periods: seq<Period>, items: seq<Table>, events: seq<Table>, invoices: seq<Table>)

  /** The lists grow together; entry j of each is a well-formed table whose rows all
      carry the tag of periods[j]. */
  ghost predicate Consistent(acc: Accumulated)
  {
    && |acc.items| == |acc.periods| && |acc.events| == |acc.periods| && |acc.invoices| == |acc.periods|
    && AllValid(acc.items) && AllValid(acc.events) && AllValid(acc.invoices)
    && (forall j :: 0 <= j < |acc.periods| ==>
          TaggedWith(acc.items[j], acc.periods[j])
          && TaggedWith(acc.events[j], acc.periods[j])
          && TaggedWith(acc.invoices[j], acc.periods[j]))
  }

  /** The first n periods of the map whose directory holds three files, in map order. */
  function OpenedUpTo(dir: Directory, idx: Index, n: nat): seq<Period>
    requires n <= |idx.order| && forall i :: 0 <= i < |idx.order| ==> idx.order[i] in idx.archive
  {
    if n == 0 then []
    else
      var p := idx.order[n - 1];
      OpenedUpTo(dir, idx, n - 1) + (if Opens(dir, p, idx.archive[p]) then [p] else [])
  }

  /** Some period among the first n has three files that cannot be classified. */
  ghost predicate SomeUnclassifiable(dir: Directory, idx: Index, n: nat)
    requires n <= |idx.order| && forall i :: 0 <= i < |idx.order| ==> idx.order[i] in idx.archive
  {
    exists i :: 0 <= i < n && Opens(dir, idx.order[i], idx.archive[idx.order[i]])
                && Classify(dir.extracted(idx.order[i], idx.archive[idx.order[i]])).Failure?
  }

  lemma ConsistentAppend(acc: Accumulated, p: Period, items: Table, events: Table, invoices: Table)
    requires Consistent(acc)
    requires items.Valid() && events.Valid() && invoices.Valid()
    requires TaggedWith(items, p) && TaggedWith(events, p) && TaggedWith(invoices, p)
    ensures Consistent(Accumulated(acc.periods + [p], acc.items + [items], acc.events + [events], acc.invoices + [invoices]))
  {
  }

  lemma UnclassifiableStep(dir: Directory, idx: Index, n: nat)
    requires 0 < n <= |idx.order| && forall i :: 0 <= i < |idx.order| ==> idx.order[i] in idx.archive
    ensures SomeUnclassifiable(dir, idx, n) <==>
              SomeUnclassifiable(dir, idx, n - 1)
              || (Opens(dir, idx.order[n - 1], idx.archive[idx.order[n - 1]])
                  && Classify(dir.extracted(idx.order[n - 1], idx.archive[idx.order[n - 1]])).Failure?)
  {
  }

  /** The lists after the first n iterations of the main loop (or the exception). */
  function AccumulateUpTo(dir: Directory, idx: Index, n: nat): (r: Result<Accumulated>)
    requires n <= |idx.order| && forall i :: 0 <= i < |idx.order| ==> idx.order[i] in idx.archive
    ensures r.Failure? ==> r.error.NoFileFor?
    decreases n
  {
    if n == 0 then Success(Accumulated([], [], [], []))
    else
      var previous := AccumulateUpTo(dir, idx, n - 1);
      if previous.Failure? then previous
      else
        var before := previous.value;
        var p := idx.order[n - 1];
        var contribution :- Contribute(dir, p, idx.archive[p]);
        match contribution
        case Skipped => Success(before)
        case Loaded(items, events, invoices) =>
          Success(Accumulated(before.periods + [p], before.items + [items],
                              before.events + [events], before.invoices + [invoices]))
  }

  // ----- the whole run -----

  /** The three tables the run ends with: items (normalised, with the sign column),
      events (as concatenated) and invoices (normalised). */
  datatype Outputs = Outputs(items: Table, events: Table, invoices: Table)

  /** `converter_dados` on the concatenated items, then `adicionar_coluna_sinal` on
      the converted frame with the code column "CFOP". */
  function ItemsOutput(items: Table, parseDate: string -> DateParse): (r: Result<Table>)
    requires items.Valid()
    ensures r.Success? ==> r.value.Valid() && r.value.height == items.height && SignColumnName in r.value.data
  {
    var (normal, err) := Normalise(items, ItemsSchema, parseDate);
    if err.Some? then Failure(err.value) else WithSign(normal, CodeColumn)
  }

  /** `converter_dados` on the concatenated invoices. */
  function InvoicesOutput(invoices: Table, parseDate: string -> DateParse): (r: Result<Table>)
    requires invoices.Valid()
    ensures r.Success? ==> r.value.Valid() && r.value.height == invoices.height
  {
    var (normal, err) := Normalise(invoices, InvoicesSchema, parseDate);
    if err.Some? then Failure(err.value) else Success(normal)
  }

  /** What follows the main loop: `pd.concat` of each list (items, events, invoices),
      then the items and the invoices are post-processed in that order; the events
      table is kept as concatenated. */
  function Finish(acc: Accumulated, parseDate: string -> DateParse): (r: Result<Outputs>)
    requires AllValid(acc.items) && AllValid(acc.events) && AllValid(acc.invoices)
    ensures acc.items == [] ==> r == Failure(NoObjectsToConcatenate)
    ensures r.Success? ==> r.value.items.Valid() && r.value.events.Valid() && r.value.invoices.Valid()
    ensures r.Success? ==> SignColumnName in r.value.items.data
  {
    var items :- ConcatAll(acc.items);
    var events :- ConcatAll(acc.events);
    var invoices :- ConcatAll(acc.invoices);
    var signed :- ItemsOutput(items, parseDate);
    var normalInvoices :- InvoicesOutput(invoices, parseDate);
    Success(Outputs(signed, events, normalInvoices))
  }

  /** The main loop over the whole map; only a role's `[0]` can raise in it. */
  function Accumulate(dir: Directory): (r: Result<Accumulated>)
    ensures r.Failure? ==> r.error.NoFileFor?
  {
    var idx := PeriodMap(dir);
    AccumulateUpTo(dir, idx, |idx.order|)
  }

  /** The run as a value: the first exception it raises, or the three final tables. */
  function RunSpec(dir: Directory, parseDate: string -> DateParse): (r: Result<Outputs>)
    requires LoadsValid(dir)
    ensures Accumulate(dir).Failure? ==> r == Failure(Accumulate(dir).error)
    ensures r.Success? ==> r.value.items.Valid() && r.value.events.Valid() && r.value.invoices.Valid()
    ensures r.Success? ==> SignColumnName in r.value.items.data
  {
    var acc :- Accumulate(dir);
    AccumulatedConsistent(dir, PeriodMap(dir), |PeriodMap(dir).order|);
    Finish(acc, parseDate)
  }

  lemma FailureStep(dir: Directory, idx: Index, n: nat, e: Error)
    requires 0 < n <= |idx.order| && forall i :: 0 <= i < |idx.order| ==> idx.order[i] in idx.archive
    requires AccumulateUpTo(dir, idx, n - 1) == Failure(e)
    ensures AccumulateUpTo(dir, idx, n) == Failure(e)
  {
  }

  /** The main loop raises exactly when some period among the first n has three files
      that cannot all be given a role. */
  lemma {:induction false} AccumulateFailsIff(dir: Directory, idx: Index, n: nat)
    requires n <= |idx.order| && forall i :: 0 <= i < |idx.order| ==> idx.order[i] in idx.archive
    ensures AccumulateUpTo(dir, idx, n).Failure? <==> SomeUnclassifiable(dir, idx, n)
  {
    if n > 0 {
      AccumulateFailsIff(dir, idx, n - 1);
      UnclassifiableStep(dir, idx, n);
    }
  }

  /** The periods whose tables were appended are those whose directory held three
      files, in map order. */
  lemma {:induction false} AccumulatedPeriods(dir: Directory, idx: Index, n: nat)
    requires n <= |idx.order| && forall i :: 0 <= i < |idx.order| ==> idx.order[i] in idx.archive
    requires AccumulateUpTo(dir, idx, n).Success?
    ensures AccumulateUpTo(dir, idx, n).value.periods == OpenedUpTo(dir, idx, n)
  {
    if n > 0 {
      AccumulatedPeriods(dir, idx, n - 1);
    }
  }

  /** Every completed prefix of the main loop leaves the lists consistent. */
  lemma {:induction false} AccumulatedConsistent(dir: Directory, idx: Index, n: nat)
    requires LoadsValid(dir)
    requires n <= |idx.order| && forall i :: 0 <= i < |idx.order| ==> idx.order[i] in idx.archive
    requires AccumulateUpTo(dir, idx, n).Success?
    ensures Consistent(AccumulateUpTo(dir, idx, n).value)
  {
    if n > 0 {
      AccumulatedConsistent(dir, idx, n - 1);
      var before := AccumulateUpTo(dir, idx, n - 1).value;
      var p := idx.order[n - 1];
      var c := Contribute(dir, p, idx.archive[p]);
      if c.value.Loaded? {
        ContributionValid(dir, p, idx.archive[p]);
        ConsistentAppend(before, p, c.value.items, c.value.events, c.value.invoices);
      }
    }
  }

  /** Once an iteration has raised, the run stays failed with that exception. */
  lemma {:induction false} AccumulateFailureIsFinal(dir: Directory, idx: Index, n: nat, m: nat, e: Error)
    requires n <= m <= |idx.order| && forall i :: 0 <= i < |idx.order| ==> idx.order[i] in idx.archive
    requires AccumulateUpTo(dir, idx, n) == Failure(e)
    ensures AccumulateUpTo(dir, idx, m) == Failure(e)
    decreases m
  {
    if m > n {
      AccumulateFailureIsFinal(dir, idx, n, m - 1, e);
      FailureStep(dir, idx, m, e);
    }
  }

  /** One more iteration of the main loop after a successful prefix. */
  lemma AccumulateStep(dir: Directory, idx: Index, n: nat, acc: Accumulated, c: Result<Contribution>)
    requires n < |idx.order| && forall i :: 0 <= i < |idx.order| ==> idx.order[i] in idx.archive
    requires AccumulateUpTo(dir, idx, n) == Success(acc)
    requires c == Contribute(dir, idx.order[n], idx.archive[idx.order[n]])
    ensures c.Failure? ==> AccumulateUpTo(dir, idx, n + 1) == Failure(c.error)
    ensures c.Success? && c.value.Skipped? ==> AccumulateUpTo(dir, idx, n + 1) == Success(acc)
    ensures c.Success? && c.value.Loaded? ==>
              AccumulateUpTo(dir, idx, n + 1) ==
                Success(Accumulated(acc.periods + [idx.order[n]], acc.items + [c.value.items],
                                    acc.events + [c.value.events], acc.invoices + [c.value.invoices]))
  {
  }

  /** `pd.read_csv` of one extracted file into a frame, then
      `df['periodo'] = periodo_formatado` on that frame. */
  method LoadTagged(dir: Directory, period: Period, name: string) returns (t: Table)
    requires LoadsValid(dir)
    ensures t == Tagged(dir.load(period, name), period)
  {
    assert ReadsValid(dir, period, name);
    var df := new Frame(dir.load(period, name));
    df.SetColumn(PeriodColumn, TagColumn(df.height, FormatPeriod(period)));
    t := df.Value();
  }

  /** One iteration of the main loop: unpack, count, classify, then read and tag the
      three files. */
  method ProcessPeriod(dir: Directory, period: Period, archive: string) returns (r: Result<Contribution>)
    requires LoadsValid(dir)
    ensures r == Contribute(dir, period, archive)
  {
    var names := dir.extracted(period, archive);
    if |names| != 3 {
      return Success(Skipped);
    }
    var roles := Classify(names);
    if roles.Failure? {
      return Failure(roles.error);
    }
    var items := LoadTagged(dir, period, roles.value.items);
    var events := LoadTagged(dir, period, roles.value.events);
    var invoices := LoadTagged(dir, period, roles.value.invoices);
    r := Success(Loaded(items, events, invoices));
  }

  /** The body of the main loop for the period at position i of the map: on success,
      the period's three tables are appended to `dfs_itens`, `dfs_eventos` and `dfs_nf`. */
  method Visit(dir: Directory, mapa: Index, i: nat, acc: Accumulated) returns (r: Result<Accumulated>)
    requires LoadsValid(dir)
    requires i < |mapa.order| && forall k :: 0 <= k < |mapa.order| ==> mapa.order[k] in mapa.archive
    requires AccumulateUpTo(dir, mapa, i) == Success(acc)
    ensures r == AccumulateUpTo(dir, mapa, i + 1)
  {
    var period := mapa.order[i];
    var contribution := ProcessPeriod(dir, period, mapa.archive[period]);
    AccumulateStep(dir, mapa, i, acc, contribution);
    if contribution.Failure? {
      return Failure(contribution.error);
    }
    if contribution.value.Skipped? {
      return Success(acc);
    }
    var dfsItems := acc.items + [contribution.value.items];
    var dfsEvents := acc.events + [contribution.value.events];
    var dfsInvoices := acc.invoices + [contribution.value.invoices];
    r := Success(Accumulated(acc.periods + [period], dfsItems, dfsEvents, dfsInvoices));
  }

  /** The main loop over the map, in its order; the first exception ends it. */
  method Gather(dir: Directory, mapa: Index) returns (r: Result<Accumulated>)
    requires LoadsValid(dir)
    requires forall k :: 0 <= k < |mapa.order| ==> mapa.order[k] in mapa.archive
    ensures r == AccumulateUpTo(dir, mapa, |mapa.order|)
  {
    var acc := Accumulated([], [], [], []);
    var i := 0;
    while i < |mapa.order|
      invariant 0 <= i <= |mapa.order|
      invariant AccumulateUpTo(dir, mapa, i) == Success(acc)
    {
      var next := Visit(dir, mapa, i, acc);
      if next.Failure? {
        AccumulateFailureIsFinal(dir, mapa, i + 1, |mapa.order|, next.error);
        return next;
      }
      acc := next.value;
      i := i + 1;
    }
    r := Success(acc);
  }

  /** `converter_dados` and `adicionar_coluna_sinal` on a frame of the items. */
  method PrepareItems(items: Table, parseDate: string -> DateParse) returns (r: Result<Table>)
    requires items.Valid()
    ensures r == ItemsOutput(items, parseDate)
  {
    var df := new Frame(items);
    var err := ConvertData(df, ItemsSchema, parseDate);
    if err.Some? {
      return Failure(err.value);
    }
    err := DeriveSign(df, CodeColumn);
    if err.Some? {
      return Failure(err.value);
    }
    r := Success(df.Value());
  }

  /** `converter_dados` on a frame of the invoices. */
  method PrepareInvoices(invoices: Table, parseDate: string -> DateParse) returns (r: Result<Table>)
    requires invoices.Valid()
    ensures r == InvoicesOutput(invoices, parseDate)
  {
    var df := new Frame(invoices);
    var err := ConvertData(df, InvoicesSchema, parseDate);
    if err.Some? {
      return Failure(err.value);
    }
    r := Success(df.Value());
  }

  /** Concatenation and post-processing. */
  method Conclude(acc: Accumulated, parseDate: string -> DateParse) returns (r: Result<Outputs>)
    requires AllValid(acc.items) && AllValid(acc.events) && AllValid(acc.invoices)
    ensures r == Finish(acc, parseDate)
  {
    var items := ConcatAll(acc.items);
    if items.Failure? {
      return Failure(items.error);
    }
    var events := ConcatAll(acc.events);
    if events.Failure? {
      return Failure(events.error);
    }
    var invoices := ConcatAll(acc.invoices);
    if invoices.Failure? {
      return Failure(invoices.error);
    }
    var signed := PrepareItems(items.value, parseDate);
    if signed.Failure? {
      return Failure(signed.error);
    }
    var normalInvoices := PrepareInvoices(invoices.value, parseDate);
    if normalInvoices.Failure? {
      return Failure(normalInvoices.error);
    }
    r := Success(Outputs(signed.value, events.value, normalInvoices.value));
  }

  /** The script's top level. */
  method Run(dir: Directory, parseDate: string -> DateParse) returns (r: Result<Outputs>)
    requires LoadsValid(dir)
    ensures r == RunSpec(dir, parseDate)
  {
    var mapa := IndexByPeriod(dir.listing);
    assert mapa == PeriodMap(dir);
    var acc := Gather(dir, mapa);
    if acc.Failure? {
      return Failure(acc.error);
    }
    AccumulatedConsistent(dir, mapa, |mapa.order|);
    r := Conclude(acc.value, parseDate);
  }
}
