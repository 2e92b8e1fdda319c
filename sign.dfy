/**
 * The sign deriver: a new column "sinal" holding +1 for every row whose fiscal
 * operation code (CFOP) is written with a leading 5, 6 or 7 (outgoing operations)
 * and -1 for every other row. The test is made on Python's `str()` of the value
 * as pandas holds it, so it depends on the column's dtype.
 */
module Sign {
  import opened Outcomes
  import opened Cells
  import opened Tables

  /** The column the deriver adds. */
  const SignColumnName: string := "sinal"

  /** `text.startswith(('5', '6', '7'))`. */
  predicate StartsOutgoing(text: string)
  {
    |text| > 0 && (text[0] == '5' || text[0] == '6' || text[0] == '7')
  }

  /** The lambda applied to one value of a column of the given dtype. */
  function SignOf(kind: Dtype, c: Cell): (s: int)
    ensures s == 1 || s == -1
  {
    if StartsOutgoing(Render(kind, c)) then 1 else -1
  }

  /** `.apply(lambda x: ...)` over the code column. */
  function SignColumn(cells: seq<Cell>): (r: seq<Cell>)
    ensures |r| == |cells|
    ensures forall i :: 0 <= i < |cells| ==> r[i] == Int(SignOf(DtypeOf(cells), cells[i]))
  {
    var kind := DtypeOf(cells);
    seq(|cells|, i requires 0 <= i < |cells| => Int(SignOf(kind, cells[i])))
  }

  /** `adicionar_coluna_sinal(t, code)` as a value: a table without the code column is
      refused; otherwise "sinal" is set (appended, or replaced in place if the table
      already has it) and nothing else changes. */
  function WithSign(t: Table, code: string): (r: Result<Table>)
    requires t.Valid()
    ensures r.Failure? <==> code !in t.data
    ensures r.Failure? ==> r.error == MissingCodeColumn(code)
    ensures r.Success? ==>
              && r.value.Valid() && r.value.height == t.height
              && SignColumnName in r.value.data
              && (forall i :: 0 <= i < r.value.height ==>
                    r.value.data[SignColumnName][i] == Int(1) || r.value.data[SignColumnName][i] == Int(-1))
              && (forall d :: d != SignColumnName ==> (d in r.value.data <==> d in t.data))
              && (forall d :: d != SignColumnName && d in t.data ==> r.value.data[d] == t.data[d])
  {
    if code !in t.data then Failure(MissingCodeColumn(code))
    else Success(WithColumn(t, SignColumnName, SignColumn(t.data[code])))
  }

  /** `adicionar_coluna_sinal`: adds the sign column to `df` in place. */
  method DeriveSign(df: Frame, code: string) returns (err: Option<Error>)
    requires df.Valid()
    modifies df
    ensures df.Valid()
    ensures err.None? <==> WithSign(old(df.Value()), code).Success?
    ensures err.None? ==> df.Value() == WithSign(old(df.Value()), code).value
    ensures err.Some? ==> err.value == WithSign(old(df.Value()), code).error && df.Value() == old(df.Value())
  {
    if code !in df.data {
      return Some(MissingCodeColumn(code));
    }
    df.SetColumn(SignColumnName, SignColumn(df.data[code]));
    err := None;
  }

  /** A non-negative integer code is outgoing exactly when its leading decimal digit is
      5, 6 or 7, whatever the dtype (a float64 column writes "5102.0"). */
  lemma SignOfCode(kind: Dtype, n: nat)
    ensures SignOf(kind, Int(n)) == 1 <==> LeadingDigit(n) == 5 || LeadingDigit(n) == 6 || LeadingDigit(n) == 7
  {
    NaturalTextStartsWithLeadingDigit(n);
    var text := Render(kind, Int(n));
    assert text[0] == NaturalText(n)[0];
    var d := LeadingDigit(n);
    assert DigitValue(DigitChar(d)) == d;
  }

  /** A negative code and a missing code are never outgoing. */
  lemma SignOfNonCodes(kind: Dtype, n: int)
    requires n < 0
    ensures SignOf(kind, Int(n)) == -1
    ensures SignOf(kind, Missing) == -1
  {
    assert Render(kind, Int(n))[0] == '-';
  }

  /** Typical CFOP codes: sales inside the state, to other states and abroad are
      outgoing; purchases are not. */
  lemma SignOfTypicalCodes()
    ensures SignOf(Int64, Int(5102)) == 1 && SignOf(Int64, Int(6108)) == 1 && SignOf(Int64, Int(7102)) == 1
    ensures SignOf(Int64, Int(1102)) == -1 && SignOf(Int64, Int(2101)) == -1
    ensures SignOf(Float64, Int(5102)) == 1
  {
    SignOfCode(Int64, 5102);
    SignOfCode(Int64, 6108);
    SignOfCode(Int64, 7102);
    SignOfCode(Int64, 1102);
    SignOfCode(Int64, 2101);
    SignOfCode(Float64, 5102);
  }
}
