/** Quotation numbers: `"Q-"`, the creation time as `%Y%m%d%H%M%S`, `"-"` and
    a random integer drawn from 1000..9999 (server.py, generate_quotation_number).
    The clock reading and the random draw are parameters of the model. */
module Numbering {
  import opened Common

  /** A wall-clock reading with the fields of a Python `datetime`. */
  datatype DateTime = DateTime(year: int, month: int, day: int, hour: int, minute: int, second: int)

  predicate IsLeapYear(year: int) {
    year % 4 == 0 && (year % 100 != 0 || year % 400 == 0)
  }

  function DaysInMonth(year: int, month: int): int
    requires 1 <= month <= 12
  {
    if month == 2 then (if IsLeapYear(year) then 29 else 28)
    else if month == 4 || month == 6 || month == 9 || month == 11 then 30
    else 31
  }

  /** The ranges a Python `datetime` guarantees for its fields. */
  predicate ValidDateTime(t: DateTime) {
    && 1 <= t.year <= 9999
    && 1 <= t.month <= 12
    && 1 <= t.day <= DaysInMonth(t.year, t.month)
    && 0 <= t.hour < 24
    && 0 <= t.minute < 60
    && 0 <= t.second < 60
  }

  function Pow10(n: nat): (r: nat)
    ensures 1 <= r
  {
    if n == 0 then 1 else 10 * Pow10(n - 1)
  }

  predicate IsDigit(c: char) {
    '0' <= c <= '9'
  }

  predicate AllDigits(s: string) {
    forall i :: 0 <= i < |s| ==> IsDigit(s[i])
  }

  function DigitValue(c: char): nat
    requires IsDigit(c)
  {
    c as int - '0' as int
  }

  function DigitChar(d: nat): (c: char)
    requires d < 10
    ensures IsDigit(c) && DigitValue(c) == d
  {
    ('0' as int + d) as char
  }

  /** `n` in decimal, left-padded with zeros to exactly `width` digits: what
      strftime writes for `%Y` (width 4) and for `%m`, `%d`, `%H`, `%M`, `%S`
      (width 2). */
  function Padded(n: nat, width: nat): (s: string)
    requires n < Pow10(width)
    ensures |s| == width && AllDigits(s)
  {
    if width == 0 then ""
    else
      assert n / 10 < Pow10(width - 1);
      Padded(n / 10, width - 1) + [DigitChar(n % 10)]
  }

  /** Python's `str(n)` for a natural number: decimal, no leading zeros. */
  function Decimal(n: nat): (s: string)
    ensures 1 <= |s| && AllDigits(s)
  {
    if n < 10 then [DigitChar(n)] else Decimal(n / 10) + [DigitChar(n % 10)]
  }

  /** The number a string of decimal digits denotes. */
  function ValueOf(s: string): nat
    requires AllDigits(s)
  {
    if s == [] then 0 else 10 * ValueOf(s[..|s| - 1]) + DigitValue(s[|s| - 1])
  }

  /** Reading a padded number back gives the number. */
  lemma {:induction false} PaddedRoundTrip(n: nat, width: nat)
    requires n < Pow10(width)
    ensures ValueOf(Padded(n, width)) == n
  {
    if width > 0 {
      var s := Padded(n, width);
      assert s[..|s| - 1] == Padded(n / 10, width - 1);
      PaddedRoundTrip(n / 10, width - 1);
    }
  }

  /** A number with exactly `width` digits needs no padding: `str(n)` and the
      `width`-digit padded form agree. */
  lemma {:induction false} DecimalIsPadded(n: nat, width: nat)
    requires 1 <= width && Pow10(width - 1) <= n < Pow10(width)
    ensures Decimal(n) == Padded(n, width)
  {
    if width > 1 {
      assert Pow10(width - 2) <= n / 10 < Pow10(width - 1);
      DecimalIsPadded(n / 10, width - 1);
    }
  }

  /** `datetime.strftime("%Y%m%d%H%M%S")`. */
  function Timestamp(t: DateTime): (s: string)
    requires ValidDateTime(t)
    ensures |s| == 14 && AllDigits(s)
  {
    Padded(t.year, 4) + Padded(t.month, 2) + Padded(t.day, 2)
      + Padded(t.hour, 2) + Padded(t.minute, 2) + Padded(t.second, 2)
  }

  /** generate_quotation_number, with the clock reading `now` and the value
      `random` of `random.randint(1000, 9999)` supplied by the caller. */
  function QuotationNumber(now: DateTime, random: int): (s: string)
    requires ValidDateTime(now) && 1000 <= random <= 9999
    ensures |s| == 21
    ensures s[..2] == "Q-" && s[16] == '-'
    ensures AllDigits(s[2..16]) && AllDigits(s[17..])
  {
    DecimalIsPadded(random, 4);
    "Q-" + Timestamp(now) + "-" + Decimal(random)
  }

  /** Splits a quotation number back into its clock reading and random part;
      `None` for a string not of the generated shape. */
  function ParseQuotationNumber(s: string): (r: Option<(DateTime, int)>)
    ensures r.Some? ==> |s| == 21 && s[..2] == "Q-" && s[16] == '-'
    ensures r.Some? ==> |s| == 21 && AllDigits(s[2..16]) && AllDigits(s[17..])
  {
    if |s| == 21 && s[..2] == "Q-" && s[16] == '-' && AllDigits(s[2..16]) && AllDigits(s[17..]) then
      var d := s[2..16];
      assert AllDigits(d[0..4]) && AllDigits(d[4..6]) && AllDigits(d[6..8]);
      assert AllDigits(d[8..10]) && AllDigits(d[10..12]) && AllDigits(d[12..14]);
      Some((DateTime(ValueOf(d[0..4]), ValueOf(d[4..6]), ValueOf(d[6..8]),
                     ValueOf(d[8..10]), ValueOf(d[10..12]), ValueOf(d[12..14])),
            ValueOf(s[17..])))
    else None
  }

  /** The generated number determines the clock reading and the random
      draw it was made from: its timestamp is exactly `now`, to the second,
      and its suffix is the drawn integer, between 1000 and 9999. */
  lemma QuotationNumberRoundTrip(now: DateTime, random: int)
    requires ValidDateTime(now) && 1000 <= random <= 9999
    ensures ParseQuotationNumber(QuotationNumber(now, random)) == Some((now, random))
  {
    var s := QuotationNumber(now, random);
    var d := s[2..16];
    var y, mo, da, h, mi, se := Padded(now.year, 4), Padded(now.month, 2), Padded(now.day, 2),
                                Padded(now.hour, 2), Padded(now.minute, 2), Padded(now.second, 2);
    assert d == Timestamp(now) == y + mo + da + h + mi + se;
    assert d[0..4] == y;
    assert d[4..6] == mo;
    assert d[6..8] == da;
    assert d[8..10] == h;
    assert d[10..12] == mi;
    assert d[12..14] == se by {
      assert d == (y + mo + da + h + mi) + se;
      assert |y + mo + da + h + mi| == 12;
    }
    PaddedRoundTrip(now.year, 4);
    PaddedRoundTrip(now.month, 2);
    PaddedRoundTrip(now.day, 2);
    PaddedRoundTrip(now.hour, 2);
    PaddedRoundTrip(now.minute, 2);
    PaddedRoundTrip(now.second, 2);
    DecimalIsPadded(random, 4);
    assert s[17..] == Padded(random, 4);
    PaddedRoundTrip(random, 4);
  }

  /** Two quotations created in different seconds, or with different random
      draws, get different numbers. */
  lemma QuotationNumberInjective(t1: DateTime, r1: int, t2: DateTime, r2: int)
    requires ValidDateTime(t1) && 1000 <= r1 <= 9999
    requires ValidDateTime(t2) && 1000 <= r2 <= 9999
    requires QuotationNumber(t1, r1) == QuotationNumber(t2, r2)
    ensures t1 == t2 && r1 == r2
  {
    QuotationNumberRoundTrip(t1, r1);
    QuotationNumberRoundTrip(t2, r2);
  }
}
