/**
 * Cell values of a pandas column, the dtype pandas infers for a column from the
 * values it holds, and the text/number conversions the normaliser and the sign
 * deriver rely on: Python's `str()` of a held value, decimal parsing as
 * `pd.to_numeric` does it for integer text, and removal of thousands separators.
 */
module Cells {
  import opened Outcomes

  /** One value of a column: a string, an integer, a timestamp in nanoseconds since
      the epoch (pandas' datetime64[ns]), or the missing marker NaN/NaT. */
  datatype Cell = Text(s: string) | Int(n: int) | Date(nanos: int) | Missing

  /** The dtype pandas gives a column holding these cells. */
  datatype Dtype = Int64 | Float64 | Datetime64 | Object

  /** The integer pandas gives NaT when a datetime64 column is viewed as numbers. */
  const NaTValue: int := -9223372036854775808

  predicate HasText(cells: seq<Cell>) { exists i :: 0 <= i < |cells| && cells[i].Text? }
  predicate HasInt(cells: seq<Cell>) { exists i :: 0 <= i < |cells| && cells[i].Int? }
  predicate HasDate(cells: seq<Cell>) { exists i :: 0 <= i < |cells| && cells[i].Date? }
  predicate HasMissing(cells: seq<Cell>) { exists i :: 0 <= i < |cells| && cells[i].Missing? }

  /** Any string makes the column `object`, as does a mix of timestamps and integers;
      otherwise timestamps give datetime64, integers alone int64, and integers with
      NaN (or nothing but NaN) float64. */
  function DtypeOf(cells: seq<Cell>): (d: Dtype)
    ensures d == Object <==> HasText(cells) || (HasDate(cells) && HasInt(cells))
    ensures d == Datetime64 ==> forall i :: 0 <= i < |cells| ==> cells[i].Date? || cells[i].Missing?
    ensures d == Int64 ==> forall i :: 0 <= i < |cells| ==> cells[i].Int?
  {
    if HasText(cells) || (HasDate(cells) && HasInt(cells)) then Object
    else if HasDate(cells) then Datetime64
    else if HasInt(cells) && !HasMissing(cells) then Int64
    else Float64
  }

  // ----- decimal text -----

  predicate IsDigit(c: char) { '0' <= c <= '9' }

  predicate AllDigits(s: string) { forall i :: 0 <= i < |s| ==> IsDigit(s[i]) }

  function DigitChar(d: int): (c: char)
    requires 0 <= d < 10
    ensures IsDigit(c) && DigitValue(c) == d
  {
    ('0' as int + d) as char
  }

  function DigitValue(c: char): int
    requires IsDigit(c)
  {
    c as int - '0' as int
  }

  /** The decimal digits of n without leading zeros. */
  function NaturalText(n: nat): (r: string)
    ensures |r| >= 1 && AllDigits(r)
    decreases n
  {
    if n < 10 then [DigitChar(n)] else NaturalText(n / 10) + [DigitChar(n % 10)]
  }

  /** Python's `str()` of an int. */
  function DecimalText(n: int): string
  {
    if n < 0 then "-" + NaturalText(-n) else NaturalText(n)
  }

  /** The value of a run of decimal digits, most significant first. */
  function DigitsValue(s: string): nat
    requires AllDigits(s)
    decreases |s|
  {
    if s == [] then 0 else DigitsValue(s[..|s| - 1]) * 10 + DigitValue(s[|s| - 1])
  }

  /** Integer text as `pd.to_numeric` reads it: an optional sign and one or more digits. */
  function ParseInteger(s: string): (r: Option<int>)
    ensures r.Some? ==> |s| > 0 && ',' !in s
    ensures r.Some? && r.value < 0 ==> s[0] == '-'
  {
    if |s| > 1 && (s[0] == '-' || s[0] == '+') && AllDigits(s[1..]) then
      var magnitude: int := DigitsValue(s[1..]);
      Some(if s[0] == '-' then -magnitude else magnitude)
    else if |s| > 0 && AllDigits(s) then Some(DigitsValue(s))
    else None
  }

  lemma {:induction false} NaturalTextValue(n: nat)
    ensures DigitsValue(NaturalText(n)) == n
    decreases n
  {
    if n >= 10 {
      var t := NaturalText(n);
      assert t[..|t| - 1] == NaturalText(n / 10);
      NaturalTextValue(n / 10);
    }
  }

  /** Parsing undoes `str()`: every integer's decimal text reads back as that integer. */
  lemma DecimalTextParses(n: int)
    ensures ParseInteger(DecimalText(n)) == Some(n)
  {
    if n < 0 {
      var digits := NaturalText(-n);
      var t := "-" + digits;
      assert t[1..] == digits && t[0] == '-' && |t| > 1;
      NaturalTextValue(-n);
      var magnitude: int := DigitsValue(digits);
      assert ParseInteger(t) == Some(-magnitude);
    } else {
      NaturalTextValue(n);
    }
  }

  /** The first character of a non-negative integer's decimal text is its leading digit. */
  function LeadingDigit(n: nat): (d: nat)
    ensures d < 10
    decreases n
  {
    if n < 10 then n else LeadingDigit(n / 10)
  }

  lemma {:induction false} NaturalTextStartsWithLeadingDigit(n: nat)
    ensures NaturalText(n)[0] == DigitChar(LeadingDigit(n))
    decreases n
  {
    if n >= 10 {
      NaturalTextStartsWithLeadingDigit(n / 10);
    }
  }

  // ----- thousands separators -----

  /** Every ',' removed, every other character kept in order: `str.replace(',', '')`. */
  function StripCommas(s: string): (r: string)
    ensures ',' !in r
    ensures |r| <= |s|
    decreases |s|
  {
    if s == [] then [] else (if s[0] == ',' then [] else [s[0]]) + StripCommas(s[1..])
  }

  lemma {:induction false} StripCommasAppend(a: string, b: string)
    ensures StripCommas(a + b) == StripCommas(a) + StripCommas(b)
    decreases |a|
  {
    if a != [] {
      assert (a + b)[1..] == a[1..] + b;
      StripCommasAppend(a[1..], b);
    } else {
      assert a + b == b;
    }
  }

  lemma {:induction false} StripCommasKeepsCommaFree(s: string)
    requires ',' !in s
    ensures StripCommas(s) == s
    decreases |s|
  {
    if s != [] {
      StripCommasKeepsCommaFree(s[1..]);
    }
  }

  /** Digits grouped by threes from the right with ',' between groups, as the
      published files write large numbers ("1,234,567"). */
  function Grouped(digits: string): string
    decreases |digits|
  {
    if |digits| <= 3 then digits
    else Grouped(digits[..|digits| - 3]) + "," + digits[|digits| - 3..]
  }

  /** An integer written with thousands separators. */
  function ThousandsText(n: int): string
  {
    if n < 0 then "-" + Grouped(NaturalText(-n)) else Grouped(NaturalText(n))
  }

  lemma {:induction false} StripCommasUngroups(digits: string)
    requires AllDigits(digits)
    ensures StripCommas(Grouped(digits)) == digits
    decreases |digits|
  {
    if |digits| <= 3 {
      StripCommasKeepsCommaFree(digits);
    } else {
      var head, tail := digits[..|digits| - 3], digits[|digits| - 3..];
      var grouped := Grouped(head);
      assert AllDigits(head) && AllDigits(tail);
      calc {
        StripCommas(Grouped(digits));
        { assert Grouped(digits) == grouped + ("," + tail); }
        StripCommas(grouped + ("," + tail));
        { StripCommasAppend(grouped, "," + tail); }
        StripCommas(grouped) + StripCommas("," + tail);
        { StripCommasUngroups(head); StripCommasAppend(",", tail); StripCommasKeepsCommaFree(tail); }
        head + (StripCommas(",") + tail);
        { assert StripCommas(",") == []; }
        head + tail;
      }
      assert head + tail == digits;
    }
  }

  /** Removing the separators and parsing recovers the number: "1,234" reads as 1234. */
  lemma ThousandsTextParses(n: int)
    ensures ParseInteger(StripCommas(ThousandsText(n))) == Some(n)
  {
    if n < 0 {
      StripCommasAppend("-", Grouped(NaturalText(-n)));
      StripCommasUngroups(NaturalText(-n));
      assert StripCommas(ThousandsText(n)) == DecimalText(n);
    } else {
      StripCommasUngroups(NaturalText(n));
    }
    DecimalTextParses(n);
  }

  // ----- timestamps -----

  const NanosPerSecond: int := 1000000000
  const SecondsPerDay: int := 86400

  /** Proleptic Gregorian (year, month, day) of a day count since 1970-01-01. */
  function CivilFromDays(days: int): (int, int, int)
  {
    var z := days + 719468;
    var era := z / 146097;
    var doe := z - era * 146097;
    var yoe := (doe - doe / 1460 + doe / 36524 - doe / 146096) / 365;
    var doy := doe - (365 * yoe + yoe / 4 - yoe / 100);
    var mp := (5 * doy + 2) / 153;
    var day := doy - (153 * mp + 2) / 5 + 1;
    var month := if mp < 10 then mp + 3 else mp - 9;
    var year := yoe + era * 400 + (if month <= 2 then 1 else 0);
    (year, month, day)
  }

  /** Decimal text left-padded with zeros to at least `width` characters. */
  function Padded(n: int, width: nat): string
  {
    var t := DecimalText(n);
    if |t| >= width then t else seq(width - |t|, _ => '0') + t
  }

  /** `str()` of a pandas Timestamp: "YYYY-MM-DD HH:MM:SS", then ".ffffff" when the
      sub-second part is whole microseconds, else ".fffffffff". */
  function TimestampText(nanos: int): string
  {
    var days := nanos / (SecondsPerDay * NanosPerSecond);
    var inDay := nanos % (SecondsPerDay * NanosPerSecond);
    var (year, month, day) := CivilFromDays(days);
    var secs := inDay / NanosPerSecond;
    var frac := inDay % NanosPerSecond;
    var fraction :=
      if frac == 0 then ""
      else if frac % 1000 == 0 then "." + Padded(frac / 1000, 6)
      else "." + Padded(frac, 9);
    DecimalText(year) + "-" + Padded(month, 2) + "-" + Padded(day, 2) + " "
      + Padded(secs / 3600, 2) + ":" + Padded(secs / 60 % 60, 2) + ":" + Padded(secs % 60, 2)
      + fraction
  }

  /** Python's `str()` of a value as pandas holds it in a column of the given dtype:
      integers in a float64 column are floats ("5102.0"), a missing value is "NaT"
      in a datetime64 column and "nan" elsewhere. */
  function Render(kind: Dtype, c: Cell): (r: string)
    ensures c.Text? ==> r == c.s
    ensures c.Int? ==> |r| > 0 && (r[0] == '-' <==> c.n < 0) && (c.n >= 0 ==> IsDigit(r[0]))
    ensures c.Missing? ==> |r| > 0 && !IsDigit(r[0])
  {
    match c
    case Text(s) => s
    case Int(n) => if kind == Float64 then DecimalText(n) + ".0" else DecimalText(n)
    case Date(nanos) => TimestampText(nanos)
    case Missing => if kind == Datetime64 then "NaT" else "nan"
  }
}
