/**
 * The pure helpers of the 837I encoder: X12 control numbers
 * (`generate_control_numbers`), date rewriting (`format_date`) and the
 * split of the valid claims into batches.
 *
 * The random draws of `generate_control_numbers` are parameters, limited
 * to the ranges `random.randint` draws from.
 */
module ClaimsFormat {
  import opened Text

  // ---------------------------------------------------------------------
  // Control numbers

  /** `str(draw).zfill(width)`: the draw in decimal, left-padded with
      zeros to the width. */
  function ControlNumber(draw: nat, width: nat): (r: string)
    ensures AllDigits(r) && DecimalValue(r) == draw
    ensures width >= 1 && draw < Pow10(width) ==> |r| == width
  {
    var s := NatToString(draw);
    if width >= 1 && draw < Pow10(width) then NatToStringWidth(draw, width); Pad(s, width)
    else Pad(s, width)
  }

  /** Zero padding and its value. */
  function Pad(s: string, width: nat): (r: string)
    requires AllDigits(s)
    ensures AllDigits(r) && DecimalValue(r) == DecimalValue(s)
    ensures |r| == if |s| < width then width else |s|
  {
    if |s| < width then LeadingZerosValue(width - |s|, s); ZFill(s, width) else ZFill(s, width)
  }

  datatype ControlNumbers = ControlNumbers(isa: string, gs: string, st: string)

  /** generate_control_numbers, given its three draws: ISA13 and GS06 are
      9 digits, ST02 is 4 digits, each the zero-padded draw. */
  function GenerateControlNumbers(isaDraw: nat, gsDraw: nat, stDraw: nat): (r: ControlNumbers)
    requires 1 <= isaDraw <= 999999 && 1 <= gsDraw <= 999999 && 1 <= stDraw <= 9999
    ensures |r.isa| == 9 && |r.gs| == 9 && |r.st| == 4
    ensures AllDigits(r.isa) && AllDigits(r.gs) && AllDigits(r.st)
    ensures DecimalValue(r.isa) == isaDraw && DecimalValue(r.gs) == gsDraw && DecimalValue(r.st) == stDraw
  {
    Pow10Values();
    ControlNumbers(ControlNumber(isaDraw, 9), ControlNumber(gsDraw, 9), ControlNumber(stDraw, 4))
  }

  lemma Pow10Values()
    ensures Pow10(4) == 10000 && Pow10(9) == 1000000000
  {
    assert Pow10(2) == 100;
    assert Pow10(4) == 10000;
    assert Pow10(6) == 1000000;
    assert Pow10(8) == 100000000;
  }

  // ---------------------------------------------------------------------
  // format_date

  /** A calendar date as `datetime` holds it. */
  datatype Date = Date(year: nat, month: nat, day: nat)

  /** The text `%m` accepts: `1[0-2]|0[1-9]|[1-9]`. */
  predicate MonthText(m: string) {
    || (|m| == 2 && m[0] == '1' && '0' <= m[1] <= '2')
    || (|m| == 2 && m[0] == '0' && '1' <= m[1] <= '9')
    || (|m| == 1 && '1' <= m[0] <= '9')
  }

  /** The text `%d` accepts: `3[01]|[12]\d|0[1-9]|[1-9]| [1-9]`. */
  predicate DayText(d: string) {
    || (|d| == 2 && d[0] == '3' && (d[1] == '0' || d[1] == '1'))
    || (|d| == 2 && (d[0] == '1' || d[0] == '2') && IsDigit(d[1]))
    || (|d| == 2 && d[0] == '0' && '1' <= d[1] <= '9')
    || (|d| == 2 && d[0] == ' ' && '1' <= d[1] <= '9')
    || (|d| == 1 && '1' <= d[0] <= '9')
  }

  /** The number a month or day field denotes (a leading space counts as
      nothing). */
  function FieldValue(t: string): (n: nat)
    requires MonthText(t) || DayText(t)
    ensures 1 <= n <= 31
    ensures MonthText(t) ==> n <= 12
  {
    if |t| == 1 then DigitValue(t[0])
    else (if t[0] == ' ' then 0 else 10 * DigitValue(t[0])) + DigitValue(t[1])
  }

  predicate LeapYear(y: nat) {
    y % 4 == 0 && (y % 100 != 0 || y % 400 == 0)
  }

  function DaysInMonth(y: nat, m: nat): nat
    requires 1 <= m <= 12
  {
    if m == 2 then (if LeapYear(y) then 29 else 28)
    else if m == 4 || m == 6 || m == 9 || m == 11 then 30
    else 31
  }

  /** `datetime.strptime(s, '%Y-%m-%d')`: four year digits, a dash, the
      month field up to the next dash, the day field to the end; the year
      must be at least 1 and the day must exist in that month. `None` is
      the ValueError. */
  function ParseIsoDate(s: string): (r: Option<Date>)
    ensures r.Some? ==> 1 <= r.value.year <= 9999 && 1 <= r.value.month <= 12
    ensures r.Some? ==> 1 <= r.value.day <= DaysInMonth(r.value.year, r.value.month)
  {
    if |s| < 5 || !AllDigits(s[..4]) || s[4] != '-' then None
    else
      var rest := s[5..];
      var i := IndexOf(rest, '-');
      if i == |rest| then None
      else
        var m, d := rest[..i], rest[i + 1..];
        if !MonthText(m) || !DayText(d) then None
        else
          var y := DecimalValue(s[..4]);
          FourDigitsBound(s[..4]);
          if y < 1 || FieldValue(d) > DaysInMonth(y, FieldValue(m)) then None
          else Some(Date(y, FieldValue(m), FieldValue(d)))
  }

  lemma FourDigitsBound(s: string)
    requires |s| == 4 && AllDigits(s)
    ensures DecimalValue(s) <= 9999
  {
    DecimalValueBound(s);
    Pow10Values();
  }

  /** A string of w digits denotes a number below 10^w. */
  lemma {:induction false} DecimalValueBound(s: string)
    requires AllDigits(s)
    ensures DecimalValue(s) < Pow10(|s|)
  {
    if |s| > 0 {
      DecimalValueBound(s[..|s| - 1]);
    }
  }

  /** `datetime.strptime(s, '%Y%m%d')` of the eight-digit form. */
  function ParseCompactDate(r: string): Option<Date> {
    if |r| == 8 && AllDigits(r) then
      Some(Date(DecimalValue(r[..4]), DecimalValue(r[4..6]), DecimalValue(r[6..8])))
    else None
  }

  /** format_date(date_str): '' for a falsy value; the `%Y%m%d` text of a
      date `%Y-%m-%d` accepts; any other string unchanged. */
  function FormatDate(date: Option<string>): (r: string)
    ensures !Truthy(date) ==> r == ""
    ensures Truthy(date) && ParseIsoDate(date.value).None? ==> r == date.value
    ensures Truthy(date) && ParseIsoDate(date.value).Some? ==>
              |r| == 8 && AllDigits(r) && r[..4] == date.value[..4]
  {
    if !Truthy(date) then ""
    else
      match ParseIsoDate(date.value)
      case None => date.value
      case Some(dt) => date.value[..4] + TwoDigits(dt.month) + TwoDigits(dt.day)
  }

  /** `%m` / `%d` output: two digits, zero-padded. */
  function TwoDigits(n: nat): (r: string)
    requires n < 100
    ensures |r| == 2 && AllDigits(r) && DecimalValue(r) == n
  {
    Pow10Values();
    assert Pow10(2) == 100;
    ControlNumber(n, 2)
  }

  /** The eight digits format_date writes, read back with `%Y%m%d`, are the
      date that was parsed. */
  lemma FormatDateRoundTrip(s: string)
    requires s != [] && ParseIsoDate(s).Some?
    ensures ParseCompactDate(FormatDate(Some(s))) == ParseIsoDate(s)
  {
    var dt := ParseIsoDate(s).value;
    var r := FormatDate(Some(s));
    var y, m, d := s[..4], TwoDigits(dt.month), TwoDigits(dt.day);
    assert r == y + m + d;
    CompactOfParts(y, m, d);
  }

  lemma CompactOfParts(y: string, m: string, d: string)
    requires |y| == 4 && |m| == 2 && |d| == 2 && AllDigits(y) && AllDigits(m) && AllDigits(d)
    ensures ParseCompactDate(y + m + d) == Some(Date(DecimalValue(y), DecimalValue(m), DecimalValue(d)))
  {
    var r := y + m + d;
    assert r[..4] == y && r[4..6] == m && r[6..8] == d;
  }

  /** On the zero-padded form `YYYY-MM-DD` the rewrite just drops the two
      dashes. */
  lemma FormatDateDropsDashes(s: string)
    requires |s| == 10 && s[4] == '-' && s[7] == '-'
    requires AllDigits(s[..4]) && AllDigits(s[5..7]) && AllDigits(s[8..])
    requires ParseIsoDate(s).Some?
    ensures FormatDate(Some(s)) == s[..4] + s[5..7] + s[8..]
  {
    var dt := ParseIsoDate(s).value;
    var rest := s[5..];
    assert rest[2] == '-' && '-' !in rest[..2];
    assert IndexOf(rest, '-') == 2;
    var m, d := rest[..2], rest[3..];
    assert m == s[5..7] && d == s[8..];
    TwoDigitsOfField(m);
    TwoDigitsOfField(d);
  }

  lemma TwoDigitsOfField(t: string)
    requires |t| == 2 && AllDigits(t) && (MonthText(t) || DayText(t))
    ensures TwoDigits(FieldValue(t)) == t
  {
    var r := TwoDigits(FieldValue(t));
    TwoDigitValue(t);
    SameTwoDigits(r, t);
  }

  /** Two two-digit strings with the same value are the same string. */
  lemma SameTwoDigits(r: string, t: string)
    requires |r| == 2 && |t| == 2 && AllDigits(r) && AllDigits(t)
    requires DecimalValue(r) == DecimalValue(t)
    ensures r == t
  {
    TwoDigitValue(r);
    TwoDigitValue(t);
    var a, b, c, d := DigitValue(r[0]), DigitValue(r[1]), DigitValue(t[0]), DigitValue(t[1]);
    assert b < 10 && d < 10;
    assert a == c && b == d;
    assert r[0] == t[0] && r[1] == t[1];
  }

  lemma TwoDigitValue(s: string)
    requires |s| == 2 && AllDigits(s)
    ensures DecimalValue(s) == 10 * DigitValue(s[0]) + DigitValue(s[1])
  {
    var a := s[..1];
    assert a[..0] == [] && a[0] == s[0];
    assert DecimalValue(a) == DigitValue(s[0]);
    assert s[..|s| - 1] == a;
  }

  /** A rewritten date is never rewritten again: format_date is idempotent. */
  lemma FormatDateIdempotent(date: Option<string>)
    ensures FormatDate(Some(FormatDate(date))) == FormatDate(date)
  {
    var r := FormatDate(date);
    if Truthy(date) && ParseIsoDate(date.value).Some? {
      assert r[4] != '-';
    }
  }

  // ---------------------------------------------------------------------
  // One batch's draws and clock reading

  /** A reading of `datetime.now()`, to the minute. */
  datatype Moment = Moment(date: Date, hour: nat, minute: nat)

  /** A clock reading that exists, with a four-digit year. */
  predicate ValidMoment(m: Moment) {
    && 1000 <= m.date.year <= 9999 && 1 <= m.date.month <= 12
    && 1 <= m.date.day <= DaysInMonth(m.date.year, m.date.month)
    && m.hour < 24 && m.minute < 60
  }

  /** What one pass of the batch loop takes from `random.randint` (the
      three control-number draws) and from the clock. */
  datatype BatchDraws = BatchDraws(isaDraw: nat, gsDraw: nat, stDraw: nat, now: Moment)

  /** The ranges `random.randint(1, 999999)` and `random.randint(1, 9999)`
      draw from, and a real clock reading. */
  predicate ValidDraws(d: BatchDraws) {
    && 1 <= d.isaDraw <= 999999 && 1 <= d.gsDraw <= 999999 && 1 <= d.stDraw <= 9999
    && ValidMoment(d.now)
  }

  /** `now.strftime('%Y%m%d')`: four digits of year, two of month, two of
      day. */
  function ClockDate(m: Moment): (r: string)
    requires ValidMoment(m)
    ensures |r| == 8
  {
    Pow10Values();
    ControlNumber(m.date.year, 4) + TwoDigits(m.date.month) + TwoDigits(m.date.day)
  }

  /** The clock's date, read back with `%Y%m%d`, is the date of the reading. */
  lemma ClockDateReadsBack(m: Moment)
    requires ValidMoment(m)
    ensures AllDigits(ClockDate(m)) && ParseCompactDate(ClockDate(m)) == Some(m.date)
  {
    Pow10Values();
    CompactOfParts(ControlNumber(m.date.year, 4), TwoDigits(m.date.month), TwoDigits(m.date.day));
  }

  /** `now.strftime('%H%M')`: two digits of hour, then two of minute. */
  function ClockTime(m: Moment): (r: string)
    requires ValidMoment(m)
    ensures |r| == 4
  {
    TwoDigits(m.hour) + TwoDigits(m.minute)
  }

  /** The clock's time is the hour's two digits, then the minute's. */
  lemma ClockTimeValues(m: Moment)
    requires ValidMoment(m)
    ensures var r := ClockTime(m);
            AllDigits(r) && AllDigits(r[..2]) && AllDigits(r[2..])
            && DecimalValue(r[..2]) == m.hour && DecimalValue(r[2..]) == m.minute
  {
    var hh, mm := TwoDigits(m.hour), TwoDigits(m.minute);
    assert (hh + mm)[..2] == hh && (hh + mm)[2..] == mm;
  }

  // ---------------------------------------------------------------------
  // Batching

  /** `[xs[i:i+size] for i in range(0, len(xs), size)]`. */
  function Batches<T>(xs: seq<T>, size: nat): seq<seq<T>>
    requires size >= 1
    decreases |xs|
  {
    if |xs| == 0 then []
    else if |xs| <= size then [xs]
    else [xs[..size]] + Batches(xs[size..], size)
  }

  function Flatten<T>(xss: seq<seq<T>>): seq<T> {
    if |xss| == 0 then [] else xss[0] + Flatten(xss[1..])
  }

  /** The batches, put back together, are the input, in order. */
  lemma {:induction false} BatchesFlatten<T>(xs: seq<T>, size: nat)
    requires size >= 1
    ensures Flatten(Batches(xs, size)) == xs
    decreases |xs|
  {
    if |xs| > size {
      var b := Batches(xs, size);
      assert b[1..] == Batches(xs[size..], size);
      BatchesFlatten(xs[size..], size);
      assert xs == xs[..size] + xs[size..];
    } else if |xs| > 0 {
      assert Batches(xs, size)[1..] == [];
    }
  }

  /** There are ceil(|xs| / size) batches: the fewest whose capacity holds
      every item. */
  lemma {:induction false} BatchesCount<T>(xs: seq<T>, size: nat)
    requires size >= 1
    ensures |xs| <= |Batches(xs, size)| * size < |xs| + size
    decreases |xs|
  {
    if |xs| > size {
      var n := |Batches(xs[size..], size)|;
      BatchesCount(xs[size..], size);
      assert Batches(xs, size) == [xs[..size]] + Batches(xs[size..], size);
      assert (n + 1) * size == n * size + size;
    }
  }

  /** Every batch holds between 1 and `size` items, and all but the last
      hold exactly `size`. */
  lemma {:induction false} BatchesSizes<T>(xs: seq<T>, size: nat)
    requires size >= 1
    ensures forall k :: 0 <= k < |Batches(xs, size)| ==> 1 <= |Batches(xs, size)[k]| <= size
    ensures forall k :: 0 <= k < |Batches(xs, size)| - 1 ==> |Batches(xs, size)[k]| == size
    decreases |xs|
  {
    var b := Batches(xs, size);
    if |xs| > size {
      var rest := Batches(xs[size..], size);
      BatchesSizes(xs[size..], size);
      assert b == [xs[..size]] + rest;
      forall k | 0 <= k < |b| ensures 1 <= |b[k]| <= size && (k < |b| - 1 ==> |b[k]| == size) {
        if k > 0 { assert b[k] == rest[k - 1]; }
      }
    }
  }
}
