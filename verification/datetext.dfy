/** The kick-off form's date rendering: `formatDate` and the timeline field. */
module DateText {
  import opened Common
  import opened Decimal

  /** `s.padStart(width, fill)` with a one-character fill: fill characters before `s`
      until it is `width` long; a string already that long is returned as it is. */
  function PadStart(s: string, width: nat, fill: char): (r: string)
    ensures |r| == if |s| >= width then |s| else width
    ensures r[|r| - |s|..] == s
    ensures forall i :: 0 <= i < |r| - |s| ==> r[i] == fill
    decreases width - |s|
  {
    if |s| >= width then s else PadStart([fill] + s, width, fill)
  }

  /** `s.substr(-k)` and `s.slice(-k)`: the last `k` characters, or all of a shorter string. */
  function TakeLast(s: string, k: nat): string
  {
    if |s| >= k then s[|s| - k..] else s
  }

  /** `formatDate(date)`: day and month number padded to two digits, then the last two
      characters of the year, joined by slashes. For a day and month a `Date` gives and a year
      of at least two digits this is exactly "dd/mm/yy", reading back as the day, the month
      number (month index + 1) and the year modulo 100. */
  function FormatDate(date: CalendarDate): (r: string)
    ensures Displayable(date) ==> |r| == 8 && ParseDate(r) == Some(Shown(date))
  {
    var day := PadStart(DecimalString(date.day), 2, '0');
    var month := PadStart(DecimalString(date.monthIndex + 1), 2, '0');
    var year := TakeLast(JsIntString(date.year), 2);
    var text := day + "/" + month + "/" + year;
    if Displayable(date) then DatePartsReadBack(date); text else text
  }

  /** The value of the read-only timeline input: the picked range when both ends are set,
      otherwise today and the same day next month, as two "dd/mm/yy" dates around " - ". */
  function Timeline(startDate: Option<CalendarDate>, endDate: Option<CalendarDate>,
                    today: CalendarDate, nextMonth: CalendarDate): (r: string)
    ensures var both := startDate.Some? && endDate.Some?;
            var first := if both then startDate.value else today;
            var second := if both then endDate.value else nextMonth;
            Displayable(first) && Displayable(second) ==>
              && |r| == 19 && r[8..11] == " - "
              && ParseDate(r[..8]) == Some(Shown(first))
              && ParseDate(r[11..]) == Some(Shown(second))
  {
    var both := startDate.Some? && endDate.Some?;
    var first := if both then startDate.value else today;
    var second := if both then endDate.value else nextMonth;
    var f1 := FormatDate(first);
    var f2 := FormatDate(second);
    RangeTextSplits(f1, f2);
    f1 + " - " + f2
  }

  /** Day, month number (1 to 12) and two-digit year as a reader of "dd/mm/yy" sees them. */
  datatype DayMonthYear = DayMonthYear(day: nat, month: nat, yy: nat)

  /** Reads a "dd/mm/yy" text; anything else is `None`. */
  function ParseDate(s: string): Option<DayMonthYear>
  {
    if |s| == 8 && s[2] == '/' && s[5] == '/'
       && AllDigits(s[..2]) && AllDigits(s[3..5]) && AllDigits(s[6..])
    then Some(DayMonthYear(ParseDecimal(s[..2]), ParseDecimal(s[3..5]), ParseDecimal(s[6..])))
    else None
  }

  /** A date whose day and month are in the range a JavaScript `Date` gives and whose year
      has at least two digits. */
  predicate Displayable(d: CalendarDate)
  {
    1 <= d.day <= 31 && d.monthIndex <= 11 && d.year >= 10
  }

  /** What "dd/mm/yy" shows of a date. */
  function Shown(d: CalendarDate): DayMonthYear
  {
    DayMonthYear(d.day, d.monthIndex + 1, d.year % 100)
  }

  /** Two digits read back as a two-digit number. */
  lemma ParsePair(a: char, b: char)
    requires IsDigit(a) && IsDigit(b)
    ensures AllDigits([a, b]) && ParseDecimal([a, b]) == DigitValue(a) * 10 + DigitValue(b)
  {
    assert [a, b][..1] == [a];
    assert [a][..0] == [];
    assert ParseDecimal([a]) == ParseDecimal([]) * 10 + DigitValue(a);
    assert ParseDecimal([a, b]) == ParseDecimal([a]) * 10 + DigitValue(b);
  }

  /** Padding a number below 100 to two characters gives two digits that read back as it. */
  lemma TwoDigits(n: nat)
    requires n < 100
    ensures var p := PadStart(DecimalString(n), 2, '0');
            |p| == 2 && AllDigits(p) && ParseDecimal(p) == n
  {
    if n < 10 {
      OneDigitReadsBack(n);
    } else {
      TwoDigitsReadBack(n);
    }
  }

  lemma OneDigitReadsBack(n: nat)
    requires n < 10
    ensures var p := PadStart(DecimalString(n), 2, '0');
            |p| == 2 && AllDigits(p) && ParseDecimal(p) == n
  {
    var c := DigitChar(n);
    PadOneDigit(n);
    ParsePair('0', c);
    assert DigitValue('0') == 0;
  }

  lemma TwoDigitsReadBack(n: nat)
    requires 10 <= n < 100
    ensures var p := PadStart(DecimalString(n), 2, '0');
            |p| == 2 && AllDigits(p) && ParseDecimal(p) == n
  {
    var hi, lo := DigitChar(n / 10), DigitChar(n % 10);
    PadTwoDigits(n);
    ParsePair(hi, lo);
    assert DigitValue(hi) * 10 + DigitValue(lo) == (n / 10) * 10 + n % 10;
  }

  lemma PadOneDigit(n: nat)
    requires n < 10
    ensures PadStart(DecimalString(n), 2, '0') == ['0', DigitChar(n)]
  {
    var c := DigitChar(n);
    assert DecimalString(n) == [c];
    assert PadStart([c], 2, '0') == PadStart(['0'] + [c], 2, '0');
    assert ['0'] + [c] == ['0', c];
  }

  lemma PadTwoDigits(n: nat)
    requires 10 <= n < 100
    ensures PadStart(DecimalString(n), 2, '0') == [DigitChar(n / 10), DigitChar(n % 10)]
  {
    assert DecimalString(n / 10) == [DigitChar(n / 10)];
    assert DecimalString(n) == [DigitChar(n / 10)] + [DigitChar(n % 10)];
  }

  /** The last two characters of a year of at least two digits are its last two digits. */
  lemma YearDigits(y: int)
    requires y >= 10
    ensures var t := TakeLast(JsIntString(y), 2);
            |t| == 2 && AllDigits(t) && ParseDecimal(t) == y % 100
  {
    var q := y / 10;
    var s := DecimalString(q);
    assert DecimalString(y) == s + [DigitChar(y % 10)];
    var t := TakeLast(JsIntString(y), 2);
    if q < 10 {
      assert s == [DigitChar(q)];
    } else {
      assert s == DecimalString(q / 10) + [DigitChar(q % 10)];
    }
    assert t == [DigitChar(q % 10), DigitChar(y % 10)];
    ParsePair(DigitChar(q % 10), DigitChar(y % 10));
    ModHundred(y);
  }

  lemma ModHundred(y: nat)
    ensures ((y / 10) % 10) * 10 + y % 10 == y % 100
  {
    var q := y / 10;
    var r := y % 10;
    var a := q / 10;
    var b := q % 10;
    assert y == 10 * q + r;
    assert q == 10 * a + b;
    assert y == 100 * a + (10 * b + r);
    assert 0 <= 10 * b + r < 100;
  }

  /** Three two-digit fields joined by slashes read back field by field. */
  lemma ParseJoined(a: string, b: string, c: string)
    requires |a| == 2 && |b| == 2 && |c| == 2 && AllDigits(a) && AllDigits(b) && AllDigits(c)
    ensures ParseDate(a + "/" + b + "/" + c)
            == Some(DayMonthYear(ParseDecimal(a), ParseDecimal(b), ParseDecimal(c)))
  {
    var s := a + "/" + b + "/" + c;
    assert |s| == 8 && s[2] == '/' && s[5] == '/';
    assert s[..2] == a && s[3..5] == b && s[6..] == c;
  }

  /** The three padded parts of a displayable date, joined by slashes, read back as it. */
  lemma DatePartsReadBack(d: CalendarDate)
    requires Displayable(d)
    ensures var day := PadStart(DecimalString(d.day), 2, '0');
            var month := PadStart(DecimalString(d.monthIndex + 1), 2, '0');
            var year := TakeLast(JsIntString(d.year), 2);
            |day + "/" + month + "/" + year| == 8
            && ParseDate(day + "/" + month + "/" + year) == Some(Shown(d))
  {
    var day := PadStart(DecimalString(d.day), 2, '0');
    var month := PadStart(DecimalString(d.monthIndex + 1), 2, '0');
    var year := TakeLast(JsIntString(d.year), 2);
    TwoDigits(d.day);
    TwoDigits(d.monthIndex + 1);
    YearDigits(d.year);
    ParseJoined(day, month, year);
  }

  /** Two eight-character dates around " - " split back into the two dates. */
  lemma RangeTextSplits(f1: string, f2: string)
    ensures var t := f1 + " - " + f2;
            |f1| == 8 && |f2| == 8 ==>
              |t| == 19 && t[..8] == f1 && t[8..11] == " - " && t[11..] == f2
  {
    var t := f1 + " - " + f2;
    if |f1| == 8 && |f2| == 8 {
      assert t[..8] == f1;
      assert t[11..] == f2;
    }
  }

  /** For years 0 to 9 the year part is a single digit, and for years -1 to -9 it keeps the
      minus sign, so the text is not "dd/mm/yy". */
  lemma ShortYearText(d: CalendarDate)
    requires 1 <= d.day <= 31 && d.monthIndex <= 11 && -9 <= d.year <= 9
    ensures ParseDate(FormatDate(d)) == None
  {
    var a := PadStart(DecimalString(d.day), 2, '0');
    var b := PadStart(DecimalString(d.monthIndex + 1), 2, '0');
    var c := TakeLast(JsIntString(d.year), 2);
    TwoDigitsLength(d.day);
    TwoDigitsLength(d.monthIndex + 1);
    ShortYearPart(d.year);
    NotJoinedDate(a, b, c);
  }

  lemma TwoDigitsLength(n: nat)
    requires n < 100
    ensures |PadStart(DecimalString(n), 2, '0')| == 2
  {
    if n >= 10 {
      assert DecimalString(n / 10) == [DigitChar(n / 10)];
    }
  }

  /** The year part of a year from -9 to 9 is one digit, or a minus sign and a digit. */
  lemma ShortYearPart(y: int)
    requires -9 <= y <= 9
    ensures var c := TakeLast(JsIntString(y), 2);
            |c| != 2 || !IsDigit(c[0])
  {
    if y < 0 {
      assert JsIntString(y) == "-" + [DigitChar(-y)];
    } else {
      assert |DecimalString(y)| == 1;
    }
  }

  lemma NotJoinedDate(a: string, b: string, c: string)
    requires |a| == 2 && |b| == 2 && (|c| != 2 || !IsDigit(c[0]))
    ensures ParseDate(a + "/" + b + "/" + c) == None
  {
    var s := a + "/" + b + "/" + c;
    if |c| == 2 {
      assert s[6..] == c;
    }
  }
}
