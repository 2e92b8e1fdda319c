/**
 * The type normaliser: a declaration lists (column, type) pairs in dict order; each
 * declared column of the frame is rewritten in place, one after the other. A
 * timestamp column goes through date parsing, an int64 column held as `object`
 * first loses every ',' and is then parsed as a number, a `str` column is
 * converted value by value with `str()`. Columns not declared are left alone.
 * The first exception aborts the loop with the columns already rewritten kept.
 */
module Normalisation {
  import opened Outcomes
  import opened Cells
  import opened Tables

  datatype DeclaredType = DatetimeType | Int64Type | StrType

  /** `tipos_de_dados`: the pairs of a dict literal, in insertion order. */
  type Declaration = seq<(string, DeclaredType)>

  ghost predicate DistinctNames(decl: Declaration)
  {
    forall i, j :: 0 <= i < j < |decl| ==> decl[i].0 != decl[j].0
  }

  /** The k-th declared name is declared nowhere else. */
  ghost predicate DeclaredOnce(decl: Declaration, k: int)
    requires 0 <= k < |decl|
  {
    forall j :: 0 <= j < |decl| && j != k ==> decl[j].0 != decl[k].0
  }

  /** `TIPOS_DE_DADOS_ITENS`. */
  const ItemsSchema: Declaration := [
    ("CHAVE DE ACESSO", StrType),
    ("MODELO", StrType),
    ("SÉRIE", Int64Type),
    ("NÚMERO", Int64Type),
    ("NATUREZA DA OPERAÇÃO", StrType),
    ("DATA EMISSÃO", DatetimeType),
    ("CPF/CNPJ Emitente", StrType),
    ("RAZÃO SOCIAL EMITENTE", StrType),
    ("INSCRIÇÃO ESTADUAL EMITENTE", Int64Type),
    ("UF EMITENTE", StrType),
    ("MUNICÍPIO EMITENTE", StrType),
    ("CNPJ DESTINATÁRIO", Int64Type),
    ("NOME DESTINATÁRIO", StrType),
    ("UF DESTINATÁRIO", StrType),
    ("INDICADOR IE DESTINATÁRIO", StrType),
    ("DESTINO DA OPERAÇÃO", StrType),
    ("CONSUMIDOR FINAL", StrType),
    ("PRESENÇA DO COMPRADOR", StrType),
    ("NÚMERO PRODUTO", Int64Type),
    ("DESCRIÇÃO DO PRODUTO/SERVIÇO", StrType),
    ("CÓDIGO NCM/SH", Int64Type),
    ("NCM/SH (TIPO DE PRODUTO)", StrType),
    ("CFOP", Int64Type),
    ("QUANTIDADE", Int64Type),
    ("UNIDADE", StrType),
    ("VALOR UNITÁRIO", Int64Type),
    ("VALOR TOTAL", Int64Type),
    ("periodo", StrType)
  ]

  /** `TIPOS_DE_DADOS_NF`. */
  const InvoicesSchema: Declaration := [
    ("CHAVE DE ACESSO", StrType),
    ("MODELO", StrType),
    ("SÉRIE", Int64Type),
    ("NÚMERO", Int64Type),
    ("NATUREZA DA OPERAÇÃO", StrType),
    ("DATA EMISSÃO", DatetimeType),
    ("EVENTO MAIS RECENTE", StrType),
    ("DATA/HORA EVENTO MAIS RECENTE", DatetimeType),
    ("CPF/CNPJ Emitente", StrType),
    ("RAZÃO SOCIAL EMITENTE", StrType),
    ("INSCRIÇÃO ESTADUAL EMITENTE", Int64Type),
    ("UF EMITENTE", StrType),
    ("MUNICÍPIO EMITENTE", StrType),
    ("CNPJ DESTINATÁRIO", Int64Type),
    ("NOME DESTINATÁRIO", StrType),
    ("UF DESTINATÁRIO", StrType),
    ("INDICADOR IE DESTINATÁRIO", StrType),
    ("DESTINO DA OPERAÇÃO", StrType),
    ("CONSUMIDOR FINAL", StrType),
    ("PRESENÇA DO COMPRADOR", StrType),
    ("VALOR NOTA FISCAL", Int64Type),
    ("periodo", StrType)
  ]

  // ----- one column -----

  /** What day-first date parsing makes of one text value: a timestamp, NaT (for the
      values pandas reads as missing), or a refusal. */
  datatype DateParse = Stamp(nanos: int) | NotATime | Unparseable

  /** One value through `pd.to_datetime`: text is parsed, an integer is taken as
      nanoseconds since the epoch, timestamps and missing values stay as they are. */
  function DateOf(c: Cell, parseDate: string -> DateParse): Option<Cell>
  {
    match c
    case Text(s) =>
      (match parseDate(s)
       case Stamp(nanos) => Some(Date(nanos))
       case NotATime => Some(Missing)
       case Unparseable => None)
    case Int(n) => Some(Date(n))
    case Date(_) => Some(c)
    case Missing => Some(Missing)
  }

  /** One value through `pd.to_numeric` in a column of the given dtype: integer text is
      parsed, a timestamp becomes its nanosecond count, NaT becomes the int64 minimum. */
  function NumberOf(kind: Dtype, c: Cell): Option<Cell>
  {
    match c
    case Text(s) => (match ParseInteger(s) case Some(n) => Some(Int(n)) case None => None)
    case Int(_) => Some(c)
    case Date(nanos) => Some(Int(nanos))
    case Missing => if kind == Datetime64 then Some(Int(NaTValue)) else Some(Missing)
  }

  /** A whole-column conversion from row i on: every value converted, or the first
      row whose value is refused. */
  function ConvertFrom(cells: seq<Cell>, convert: Cell -> Option<Cell>, column: string, i: nat): (r: Result<seq<Cell>>)
    requires i <= |cells|
    ensures r.Success? ==> |r.value| == |cells| - i
                           && forall k :: i <= k < |cells| ==> convert(cells[k]) == Some(r.value[k - i])
    ensures r.Failure? <==> exists k :: i <= k < |cells| && convert(cells[k]).None?
    ensures r.Failure? ==> exists k :: i <= k < |cells| && convert(cells[k]).None?
                                       && r.error == UnparseableValue(column, k)
                                       && forall m :: i <= m < k ==> convert(cells[m]).Some?
    decreases |cells| - i
  {
    if i == |cells| then Success([])
    else
      match convert(cells[i])
      case None => Failure(UnparseableValue(column, i))
      case Some(c) =>
        var rest := ConvertFrom(cells, convert, column, i + 1);
        if rest.Failure? then rest else Success([c] + rest.value)
  }

  /** `pd.to_datetime(column, dayfirst=True)`. */
  function ToDatetime(cells: seq<Cell>, column: string, parseDate: string -> DateParse): (r: Result<seq<Cell>>)
    ensures r.Success? ==> |r.value| == |cells|
    ensures r.Failure? ==> exists i :: 0 <= i < |cells| && cells[i].Text? && parseDate(cells[i].s).Unparseable?
                                       && r.error == UnparseableValue(column, i)
  {
    ConvertFrom(cells, c => DateOf(c, parseDate), column, 0)
  }

  /** `pd.to_numeric(column)`. */
  function ToNumeric(cells: seq<Cell>, column: string): (r: Result<seq<Cell>>)
    ensures r.Success? ==> |r.value| == |cells|
    ensures r.Failure? ==> exists i :: 0 <= i < |cells| && cells[i].Text? && ParseInteger(cells[i].s).None?
                                       && r.error == UnparseableValue(column, i)
  {
    var kind := DtypeOf(cells);
    ConvertFrom(cells, c => NumberOf(kind, c), column, 0)
  }

  /** `column.str.replace(',', '')` on an object column: strings lose every ',', and
      every value that is not a string becomes NaN. */
  function WithoutCommas(cells: seq<Cell>): (r: seq<Cell>)
    ensures |r| == |cells|
    ensures forall i :: 0 <= i < |cells| ==> r[i] == if cells[i].Text? then Text(StripCommas(cells[i].s)) else Missing
  {
    seq(|cells|, i requires 0 <= i < |cells| => if cells[i].Text? then Text(StripCommas(cells[i].s)) else Missing)
  }

  /** `column.astype(str)`, as each value's `str()` under the column's dtype. pandas
      formats a datetime64 column as a whole (dates alone when every time is
      midnight, a shared sub-second precision); that formatting is not modelled. */
  function AsStr(cells: seq<Cell>): (r: seq<Cell>)
    ensures |r| == |cells| && forall i :: 0 <= i < |cells| ==> r[i].Text?
  {
    var kind := DtypeOf(cells);
    seq(|cells|, i requires 0 <= i < |cells| => Text(Render(kind, cells[i])))
  }

  /** The column held as `object` loses its separators before `pd.to_numeric`. */
  function HeldForParsing(cells: seq<Cell>): (r: seq<Cell>)
    ensures |r| == |cells|
    ensures forall i :: 0 <= i < |r| && r[i].Text? ==> ',' !in r[i].s
  {
    if DtypeOf(cells) == Object then WithoutCommas(cells) else cells
  }

  /** What one branch of the loop makes of a present column. */
  function Converted(cells: seq<Cell>, column: string, ty: DeclaredType, parseDate: string -> DateParse): (r: Result<seq<Cell>>)
    ensures r.Success? ==> |r.value| == |cells|
    ensures ty == StrType ==> r.Success?
    ensures r.Failure? ==> r.error.UnparseableValue? && r.error.column == column && r.error.row < |cells|
  {
    match ty
    case DatetimeType => ToDatetime(cells, column, parseDate)
    case Int64Type => ToNumeric(HeldForParsing(cells), column)
    case StrType => Success(AsStr(cells))
  }

  // ----- the loop -----

  /** How a declared column is converted once the date parser is fixed. The loop and
      its lemmas take it as a parameter: they only depend on what it returns. */
  type Conversion = (seq<Cell>, string, DeclaredType) -> Result<seq<Cell>>

  /** A conversion that accepts a column returns one value per row. */
  ghost predicate KeepsLength(convert: Conversion)
  {
    forall cells, column, ty :: convert(cells, column, ty).Success? ==> |convert(cells, column, ty).value| == |cells|
  }

  /** The three branches of the loop's body. */
  function ByDeclaredType(parseDate: string -> DateParse): (convert: Conversion)
    ensures KeepsLength(convert)
    ensures forall cells, column, ty :: convert(cells, column, ty) == Converted(cells, column, ty, parseDate)
  {
    (cells, column, ty) => Converted(cells, column, ty, parseDate)
  }

  /** One iteration: a missing column raises KeyError; an int64 column held as
      `object` is first overwritten without its separators, so a refused value
      leaves that column stripped; otherwise the converted column replaces it. */
  function Step(t: Table, entry: (string, DeclaredType), convert: Conversion): (r: (Table, Option<Error>))
    requires t.Valid() && KeepsLength(convert)
    ensures r.0.Valid() && r.0.height == t.height && r.0.columns == t.columns
    ensures forall c :: c != entry.0 && c in t.data ==> r.0.data[c] == t.data[c]
  {
    var (column, ty) := entry;
    if column !in t.data then (t, Some(ColumnNotFound(column)))
    else
      var cells := t.data[column];
      match convert(cells, column, ty)
      case Success(v) => (WithColumn(t, column, v), None)
      case Failure(e) =>
        if ty == Int64Type && DtypeOf(cells) == Object then (WithColumn(t, column, WithoutCommas(cells)), Some(e))
        else (t, Some(e))
  }

  /** The declared column is present and its branch accepts every value. */
  predicate Converts(t: Table, entry: (string, DeclaredType), convert: Conversion)
  {
    entry.0 in t.data && convert(t.data[entry.0], entry.0, entry.1).Success?
  }

  /** The k-th declared column is present and converts. */
  predicate ConvertsAt(t: Table, decl: Declaration, convert: Conversion, k: int)
  {
    0 <= k < |decl| && Converts(t, decl[k], convert)
  }

  /** An iteration completes exactly when the column is present and converts, and
      then the column holds its conversion. */
  lemma StepOutcome(t: Table, entry: (string, DeclaredType), convert: Conversion)
    requires t.Valid() && KeepsLength(convert)
    ensures Step(t, entry, convert).1.None? <==> Converts(t, entry, convert)
    ensures Step(t, entry, convert).1.None? ==>
              Step(t, entry, convert).0.data[entry.0] == convert(t.data[entry.0], entry.0, entry.1).value
  {
  }

  /** The first n declared names. */
  function NamesUpTo(decl: Declaration, n: nat): (r: seq<string>)
    requires n <= |decl|
    ensures |r| == n && forall k :: 0 <= k < n ==> r[k] == decl[k].0
  {
    seq(n, k requires 0 <= k < n => decl[k].0)
  }

  /** The frame and the exception (if any) after the first n declared columns. */
  function NormaliseUpTo(t: Table, decl: Declaration, convert: Conversion, n: nat): (r: (Table, Option<Error>))
    requires t.Valid() && KeepsLength(convert) && n <= |decl|
    ensures r.0.Valid() && r.0.height == t.height && r.0.columns == t.columns
    ensures forall c :: c in t.data && c !in NamesUpTo(decl, n) ==> r.0.data[c] == t.data[c]
    ensures r.1.None? ==> forall k :: 0 <= k < n ==> decl[k].0 in t.data
    decreases n
  {
    if n == 0 then (t, None)
    else
      var before := NormaliseUpTo(t, decl, convert, n - 1);
      if before.1.Some? then before else Step(before.0, decl[n - 1], convert)
  }

  /** Some entry of the declaration names column c. */
  ghost predicate Declared(decl: Declaration, c: string)
  {
    exists k :: 0 <= k < |decl| && decl[k].0 == c
  }

  /** `converter_dados(df, decl)` as a value: the row count and the column order are
      kept, an undeclared column is never touched, and a completed run found every
      declared column. */
  function Normalise(t: Table, decl: Declaration, parseDate: string -> DateParse): (r: (Table, Option<Error>))
    requires t.Valid()
    ensures r.0.Valid() && r.0.height == t.height && r.0.columns == t.columns
    ensures forall c :: c in t.data && !Declared(decl, c) ==> r.0.data[c] == t.data[c]
    ensures r.1.None? ==> forall k :: 0 <= k < |decl| ==> decl[k].0 in t.data
  {
    var names := NamesUpTo(decl, |decl|);
    assert forall c :: !Declared(decl, c) ==> c !in names;
    NormaliseUpTo(t, decl, ByDeclaredType(parseDate), |decl|)
  }

  lemma {:induction false} ErrorIsFinal(t: Table, decl: Declaration, convert: Conversion, n: nat, m: nat)
    requires t.Valid() && KeepsLength(convert) && n <= m <= |decl|
    requires NormaliseUpTo(t, decl, convert, n).1.Some?
    ensures NormaliseUpTo(t, decl, convert, m) == NormaliseUpTo(t, decl, convert, n)
    decreases m
  {
    if m > n {
      ErrorIsFinal(t, decl, convert, n, m - 1);
    }
  }

  /** The int64 branch on a present column: strip the separators in place when the
      column is held as `object`, then parse it. */
  method ParseIntColumn(df: Frame, column: string, parseDate: string -> DateParse) returns (err: Option<Error>)
    requires df.Valid() && column in df.data
    modifies df
    ensures df.Valid() && (df.Value(), err) == Step(old(df.Value()), (column, Int64Type), ByDeclaredType(parseDate))
  {
    ghost var before := df.Value();
    var held := df.data[column];
    var stripped := DtypeOf(held) == Object;
    if stripped {
      held := WithoutCommas(held);
      df.SetColumn(column, held);
    }
    var converted := ToNumeric(held, column);
    if converted.Failure? {
      return Some(converted.error);
    }
    df.SetColumn(column, converted.value);
    if stripped {
      WithColumnTwice(before, column, held, converted.value);
    }
    err := None;
  }

  /** One iteration of the loop on `df`. */
  method ConvertColumn(df: Frame, column: string, ty: DeclaredType, parseDate: string -> DateParse) returns (err: Option<Error>)
    requires df.Valid()
    modifies df
    ensures df.Valid() && (df.Value(), err) == Step(old(df.Value()), (column, ty), ByDeclaredType(parseDate))
  {
    if column !in df.data {
      return Some(ColumnNotFound(column));
    }
    var cells := df.data[column];
    match ty {
      case DatetimeType =>
        var converted := ToDatetime(cells, column, parseDate);
        if converted.Failure? {
          return Some(converted.error);
        }
        df.SetColumn(column, converted.value);
      case Int64Type =>
        err := ParseIntColumn(df, column, parseDate);
        return;
      case StrType =>
        df.SetColumn(column, AsStr(cells));
    }
    err := None;
  }

  /** `converter_dados`: rewrites the declared columns of `df` in place, in declaration
      order, stopping at the first exception. */
  method ConvertData(df: Frame, decl: Declaration, parseDate: string -> DateParse) returns (err: Option<Error>)
    requires df.Valid()
    modifies df
    ensures df.Valid() && (df.Value(), err) == Normalise(old(df.Value()), decl, parseDate)
  {
    ghost var original := df.Value();
    ghost var convert := ByDeclaredType(parseDate);
    var i := 0;
    while i < |decl|
      invariant 0 <= i <= |decl|
      invariant df.Valid() && NormaliseUpTo(original, decl, convert, i) == (df.Value(), None)
    {
      err := ConvertColumn(df, decl[i].0, decl[i].1, parseDate);
      if err.Some? {
        ErrorIsFinal(original, decl, convert, i + 1, |decl|);
        return;
      }
      i := i + 1;
    }
    err := None;
  }

  // ----- what the normaliser guarantees -----

  /** With distinct declared names, the first n iterations complete when each of
      their columns is present and converts. */
  lemma {:induction false} NormaliseCompletes(t: Table, decl: Declaration, convert: Conversion, n: nat)
    requires t.Valid() && KeepsLength(convert) && n <= |decl| && DistinctNames(decl)
    requires forall k :: 0 <= k < n ==> ConvertsAt(t, decl, convert, k)
    ensures NormaliseUpTo(t, decl, convert, n).1.None?
    decreases n
  {
    if n > 0 {
      var before := NormaliseUpTo(t, decl, convert, n - 1);
      assert before.1.None? by {
        NormaliseCompletes(t, decl, convert, n - 1);
      }
      assert Converts(before.0, decl[n - 1], convert) by {
        assert decl[n - 1].0 !in NamesUpTo(decl, n - 1);
        assert ConvertsAt(t, decl, convert, n - 1);
      }
      assert Step(before.0, decl[n - 1], convert).1.None? by {
        StepOutcome(before.0, decl[n - 1], convert);
      }
    }
  }

  /** Once its own iteration is over, a declared column is not touched again. */
  lemma {:induction false} ColumnSettled(t: Table, decl: Declaration, convert: Conversion, n: nat, k: nat)
    requires t.Valid() && KeepsLength(convert) && k < n <= |decl| && DeclaredOnce(decl, k)
    requires NormaliseUpTo(t, decl, convert, n).1.None?
    ensures NormaliseUpTo(t, decl, convert, k + 1).1.None?
    ensures decl[k].0 in NormaliseUpTo(t, decl, convert, n).0.data
    ensures NormaliseUpTo(t, decl, convert, n).0.data[decl[k].0]
         == NormaliseUpTo(t, decl, convert, k + 1).0.data[decl[k].0]
    decreases n
  {
    if n > k + 1 {
      var before := NormaliseUpTo(t, decl, convert, n - 1);
      var after := Step(before.0, decl[n - 1], convert);
      assert before.1.None? && NormaliseUpTo(t, decl, convert, n) == after;
      ColumnSettled(t, decl, convert, n - 1, k);
      var c := decl[k].0;
      assert decl[n - 1].0 != c;
      assert after.0.data[c] == before.0.data[c];
    }
  }

  /** After a completed run a column declared once holds its own conversion of the
      original column. */
  lemma NormaliseConvertsEach(t: Table, decl: Declaration, parseDate: string -> DateParse, k: nat)
    requires t.Valid() && k < |decl| && DeclaredOnce(decl, k)
    requires Normalise(t, decl, parseDate).1.None?
    ensures Converts(t, decl[k], ByDeclaredType(parseDate))
    ensures Normalise(t, decl, parseDate).0.data[decl[k].0]
         == Converted(t.data[decl[k].0], decl[k].0, decl[k].1, parseDate).value
  {
    var convert := ByDeclaredType(parseDate);
    ColumnSettled(t, decl, convert, |decl|, k);
    var before := NormaliseUpTo(t, decl, convert, k);
    var c := decl[k].0;
    assert before.0.data[c] == t.data[c] by {
      assert c !in NamesUpTo(decl, k);
    }
    StepOutcome(before.0, decl[k], convert);
  }

  /** An int64 column: every value ends up an integer or NaN. When the column was held
      as `object`, each string is read after its ',' are removed, and every value that
      was not a string is NaN afterwards, integers included (what `.str.replace` does
      to them); otherwise integers are kept. */
  lemma IntColumnParsed(cells: seq<Cell>, column: string, parseDate: string -> DateParse, v: seq<Cell>)
    requires Converted(cells, column, Int64Type, parseDate) == Success(v)
    ensures |v| == |cells| && forall i :: 0 <= i < |v| ==> v[i].Int? || v[i].Missing?
    ensures DtypeOf(cells) == Object ==>
              forall i :: 0 <= i < |cells| && cells[i].Text? ==>
                v[i].Int? && ParseInteger(StripCommas(cells[i].s)) == Some(v[i].n)
    ensures DtypeOf(cells) == Object ==> forall i :: 0 <= i < |cells| && !cells[i].Text? ==> v[i] == Missing
    ensures DtypeOf(cells) != Object ==> forall i :: 0 <= i < |cells| && cells[i].Int? ==> v[i] == cells[i]
  {
    if DtypeOf(cells) == Object {
      StrippedNumbersParsed(cells, column, v);
    } else {
      NumbersParsed(cells, column, v);
    }
  }

  /** `pd.to_numeric` on a column held as `object` once its ',' are removed. */
  lemma StrippedNumbersParsed(cells: seq<Cell>, column: string, v: seq<Cell>)
    requires ToNumeric(WithoutCommas(cells), column) == Success(v)
    ensures |v| == |cells|
    ensures forall i :: 0 <= i < |cells| && cells[i].Text? ==>
              v[i].Int? && ParseInteger(StripCommas(cells[i].s)) == Some(v[i].n)
    ensures forall i :: 0 <= i < |cells| && !cells[i].Text? ==> v[i] == Missing
  {
    var held := WithoutCommas(cells);
    var kind := DtypeOf(held);
    assert kind != Datetime64 by {
      assert !HasDate(held);
    }
    forall i | 0 <= i < |cells|
      ensures cells[i].Text? ==> v[i].Int? && ParseInteger(StripCommas(cells[i].s)) == Some(v[i].n)
      ensures !cells[i].Text? ==> v[i] == Missing
    {
      assert NumberOf(kind, held[i]) == Some(v[i]);
    }
  }

  /** `pd.to_numeric` that succeeds yields integers or NaN, and keeps every integer. */
  lemma NumbersParsed(cells: seq<Cell>, column: string, v: seq<Cell>)
    requires ToNumeric(cells, column) == Success(v)
    ensures |v| == |cells|
    ensures forall i :: 0 <= i < |v| ==> v[i].Int? || v[i].Missing?
    ensures forall i :: 0 <= i < |cells| && cells[i].Int? ==> v[i] == cells[i]
  {
    var kind := DtypeOf(cells);
    forall i | 0 <= i < |v| ensures NumberOf(kind, cells[i]) == Some(v[i]) {
    }
  }

  /** An int64 column is refused exactly when it is held as `object` and some string
      is not integer text once its ',' are removed. */
  lemma IntColumnRefused(cells: seq<Cell>, column: string, parseDate: string -> DateParse)
    ensures Converted(cells, column, Int64Type, parseDate).Failure? <==>
              DtypeOf(cells) == Object
              && exists i :: 0 <= i < |cells| && cells[i].Text? && ParseInteger(StripCommas(cells[i].s)).None?
  {
    var held := HeldForParsing(cells);
    var kind := DtypeOf(held);
    if DtypeOf(cells) == Object {
      forall i | 0 <= i < |cells|
        ensures NumberOf(kind, held[i]).None? <==> cells[i].Text? && ParseInteger(StripCommas(cells[i].s)).None?
      {
      }
    } else {
      assert forall i :: 0 <= i < |cells| ==> NumberOf(kind, held[i]).Some?;
    }
  }

  /** "1,234" in an `object` int64 column becomes 1234. */
  lemma ThousandsSeparatedReadsBack(cells: seq<Cell>, column: string, parseDate: string -> DateParse, v: seq<Cell>, i: nat, n: int)
    requires Converted(cells, column, Int64Type, parseDate) == Success(v)
    requires DtypeOf(cells) == Object && i < |cells| && cells[i] == Text(ThousandsText(n))
    ensures v[i] == Int(n)
  {
    IntColumnParsed(cells, column, parseDate, v);
    ThousandsTextParses(n);
  }

  /** A date column: every value ends up a timestamp or NaT, text that parses becomes
      its timestamp, and the column is refused exactly when some text does not parse. */
  lemma DateColumnParsed(cells: seq<Cell>, column: string, parseDate: string -> DateParse)
    ensures Converted(cells, column, DatetimeType, parseDate).Failure? <==>
              exists i :: 0 <= i < |cells| && cells[i].Text? && parseDate(cells[i].s).Unparseable?
    ensures Converted(cells, column, DatetimeType, parseDate).Success? ==>
              var v := Converted(cells, column, DatetimeType, parseDate).value;
              |v| == |cells|
              && (forall i :: 0 <= i < |v| ==> v[i].Date? || v[i].Missing?)
              && forall i :: 0 <= i < |v| && cells[i].Text? && parseDate(cells[i].s).Stamp? ==>
                   v[i] == Date(parseDate(cells[i].s).nanos)
  {
    var r := ToDatetime(cells, column, parseDate);
    DatesRefused(cells, column, parseDate);
    if r.Success? {
      DatesParsed(cells, column, parseDate, r.value);
    }
  }

  /** `pd.to_datetime` refuses a column exactly when one of its strings is not a date. */
  lemma DatesRefused(cells: seq<Cell>, column: string, parseDate: string -> DateParse)
    ensures ToDatetime(cells, column, parseDate).Failure? <==>
              exists i :: 0 <= i < |cells| && cells[i].Text? && parseDate(cells[i].s).Unparseable?
  {
    if ToDatetime(cells, column, parseDate).Failure? {
      var k :| 0 <= k < |cells| && DateOf(cells[k], parseDate).None?;
      assert cells[k].Text? && parseDate(cells[k].s).Unparseable?;
    } else {
      forall i | 0 <= i < |cells| ensures !(cells[i].Text? && parseDate(cells[i].s).Unparseable?) {
        assert DateOf(cells[i], parseDate).Some?;
      }
    }
  }

  /** `pd.to_datetime` that succeeds yields timestamps or NaT, parsed strings included. */
  lemma DatesParsed(cells: seq<Cell>, column: string, parseDate: string -> DateParse, v: seq<Cell>)
    requires ToDatetime(cells, column, parseDate) == Success(v)
    ensures |v| == |cells|
    ensures forall i :: 0 <= i < |v| ==> v[i].Date? || v[i].Missing?
    ensures forall i :: 0 <= i < |v| && cells[i].Text? && parseDate(cells[i].s).Stamp? ==>
              v[i] == Date(parseDate(cells[i].s).nanos)
  {
    forall i | 0 <= i < |v| ensures DateOf(cells[i], parseDate) == Some(v[i]) {
    }
  }

  /** A `str` column: every value ends up a string, strings are kept, and an integer
      of an int64 column becomes decimal text that reads back as the same integer. */
  lemma StrColumnRendered(cells: seq<Cell>, column: string, parseDate: string -> DateParse)
    ensures Converted(cells, column, StrType, parseDate).Success?
    ensures var v := Converted(cells, column, StrType, parseDate).value;
            |v| == |cells|
            && (forall i :: 0 <= i < |v| ==> v[i].Text?)
            && (forall i :: 0 <= i < |v| && cells[i].Text? ==> v[i] == cells[i])
            && (DtypeOf(cells) == Int64 ==>
                  forall i :: 0 <= i < |v| ==> ParseInteger(v[i].s) == Some(cells[i].n))
  {
    var v := AsStr(cells);
    if DtypeOf(cells) == Int64 {
      forall i | 0 <= i < |v| ensures ParseInteger(v[i].s) == Some(cells[i].n) {
        DecimalTextParses(cells[i].n);
      }
    }
  }

  /** Converting a `str` column again changes nothing. */
  lemma {:induction false} StrColumnIdempotent(cells: seq<Cell>)
    ensures AsStr(AsStr(cells)) == AsStr(cells)
  {
    var once := AsStr(cells);
    if |once| > 0 {
      assert once[0].Text?;
    }
    assert DtypeOf(once) == Object || once == [];
  }

  /** With distinct declared names (as in a dict literal) `converter_dados` completes
      exactly when every declared column is present and converts. */
  lemma NormaliseCompletesIff(t: Table, decl: Declaration, parseDate: string -> DateParse)
    requires t.Valid() && DistinctNames(decl)
    ensures Normalise(t, decl, parseDate).1.None? <==>
              forall k :: 0 <= k < |decl| ==> ConvertsAt(t, decl, ByDeclaredType(parseDate), k)
  {
    var convert := ByDeclaredType(parseDate);
    if Normalise(t, decl, parseDate).1.None? {
      forall k | 0 <= k < |decl| ensures ConvertsAt(t, decl, convert, k) {
        NormaliseConvertsEach(t, decl, parseDate, k);
      }
    } else if forall k :: 0 <= k < |decl| ==> ConvertsAt(t, decl, convert, k) {
      NormaliseCompletes(t, decl, convert, |decl|);
    }
  }
}
