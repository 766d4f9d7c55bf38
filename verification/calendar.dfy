/**
 * Calendar dates as Python's `datetime` accepts them, the month interval the
 * summary filters on, and `datetime.strptime(s, "%Y-%m-%d")` on strings of
 * the shape the transaction schema admits.
 */
module Calendar {
  import opened Wrappers
  import opened Text

  /** `datetime.MINYEAR` and `datetime.MAXYEAR`. */
  const MinYear: int := 1
  const MaxYear: int := 9999

  /** A midnight timestamp; the store only ever holds dates at midnight. */
  datatype Date = Date(year: int, month: int, day: int)

  predicate IsLeap(y: int) {
    y % 4 == 0 && (y % 100 != 0 || y % 400 == 0)
  }

  function DaysInMonth(y: int, m: int): (n: int)
    requires 1 <= m <= 12
    ensures 28 <= n <= 31
  {
    if m == 2 then (if IsLeap(y) then 29 else 28)
    else if m == 4 || m == 6 || m == 9 || m == 11 then 30
    else 31
  }

  /** The dates `datetime(year, month, day)` constructs without raising. */
  predicate ValidDate(d: Date) {
    && MinYear <= d.year <= MaxYear
    && 1 <= d.month <= 12
    && 1 <= d.day <= DaysInMonth(d.year, d.month)
  }

  /** `datetime(y, m, d)`: `None` where the constructor raises `ValueError`. */
  function MakeDate(y: int, m: int, d: int): (r: Option<Date>)
    ensures r.Some? <==> ValidDate(Date(y, m, d))
    ensures r.Some? ==> r.value == Date(y, m, d)
  {
    if ValidDate(Date(y, m, d)) then Some(Date(y, m, d)) else None
  }

  /** Chronological order of dates (lexicographic on year, month, day). */
  predicate Before(a: Date, b: Date) {
    || a.year < b.year
    || (a.year == b.year && a.month < b.month)
    || (a.year == b.year && a.month == b.month && a.day < b.day)
  }

  /** A half-open range `[start, end)`. */
  datatype Interval = Interval(start: Date, end: Date)

  /** The store's `{"$gte": start, "$lt": end}` test on a date. */
  predicate InInterval(d: Date, iv: Interval) {
    !Before(d, iv.start) && Before(d, iv.end)
  }

  /**
   * The range a summary for month `m` of year `y` covers: from the first of
   * the month up to, not including, the first of the next month; December
   * runs to January 1 of the next year. `None` where one of the two
   * `datetime` constructions raises.
   */
  function MonthInterval(y: int, m: int): (r: Option<Interval>)
    ensures r.Some? <==> MinYear <= y <= MaxYear && 1 <= m <= 12 && !(m == 12 && y == MaxYear)
    ensures r.Some? ==> r.value.start == Date(y, m, 1)
    ensures r.Some? && m < 12 ==> r.value.end == Date(y, m + 1, 1)
    ensures r.Some? && m == 12 ==> r.value.end == Date(y + 1, 1, 1)
    ensures r.Some? ==> ValidDate(r.value.start) && ValidDate(r.value.end)
    ensures r.Some? ==> Before(r.value.start, r.value.end)
  {
    match MakeDate(y, m, 1)
    case None => None
    case Some(start) =>
      var end := if m == 12 then MakeDate(y + 1, 1, 1) else MakeDate(y, m + 1, 1);
      match end
      case None => None
      case Some(e) => Some(Interval(start, e))
  }

  /** A real calendar date lies in a month's interval exactly when it has that year and month. */
  lemma {:induction false} InMonthInterval(d: Date, y: int, m: int)
    requires 1 <= d.month <= 12 && 1 <= d.day
    requires MonthInterval(y, m).Some?
    ensures InInterval(d, MonthInterval(y, m).value) <==> d.year == y && d.month == m
  {
  }

  // ---------------------------------------------------------------------------
  // ISO date strings

  /** Four digits, `-`, two digits, `-`, two digits. */
  predicate IsoDateShape(s: string) {
    && |s| == 10
    && s[4] == '-' && s[7] == '-'
    && AllDigits(s[0..4]) && AllDigits(s[5..7]) && AllDigits(s[8..10])
  }

  /**
   * `datetime.strptime(s, "%Y-%m-%d")` on a string of the ISO shape: the
   * directives read the three digit fields (`%m` rejects `00` and anything
   * above `12`, `%d` rejects `00` and anything above `31`), and the date must
   * then exist in the calendar. `None` where it raises.
   */
  function ParseIsoDate(s: string): (r: Option<Date>)
    requires IsoDateShape(s)
    ensures r.Some? <==> ValidDate(Date(DigitsValue(s[0..4]), DigitsValue(s[5..7]), DigitsValue(s[8..10])))
    ensures r.Some? ==> ValidDate(r.value)
  {
    MakeDate(DigitsValue(s[0..4]), DigitsValue(s[5..7]), DigitsValue(s[8..10]))
  }

  /** `date.isoformat()`: zero-padded year, month and day. */
  function IsoFormat(d: Date): (s: string)
    requires ValidDate(d)
    ensures IsoDateShape(s)
  {
    var s := FixedDigits(d.year, 4) + "-" + FixedDigits(d.month, 2) + "-" + FixedDigits(d.day, 2);
    assert s[0..4] == FixedDigits(d.year, 4);
    assert s[5..7] == FixedDigits(d.month, 2);
    assert s[8..10] == FixedDigits(d.day, 2);
    s
  }

  /** Parsing the ISO rendering of a real date gives back that date. */
  lemma {:induction false} ParseIsoFormat(d: Date)
    requires ValidDate(d)
    ensures ParseIsoDate(IsoFormat(d)) == Some(d)
  {
    var s := IsoFormat(d);
    assert s[0..4] == FixedDigits(d.year, 4);
    assert s[5..7] == FixedDigits(d.month, 2);
    assert s[8..10] == FixedDigits(d.day, 2);
    FixedDigitsValue(d.year, 4);
    FixedDigitsValue(d.month, 2);
    FixedDigitsValue(d.day, 2);
  }

  /** An ISO-shaped string is its three fields joined by `-`. */
  lemma {:induction false} IsoFields(s: string)
    requires IsoDateShape(s)
    ensures s == s[0..4] + "-" + s[5..7] + "-" + s[8..10]
  {
    assert s == s[..4] + s[4..5] + s[5..7] + s[7..8] + s[8..];
  }

  /** Rendering a parsed date gives back the text it was parsed from. */
  lemma {:induction false} IsoFormatParse(s: string)
    requires IsoDateShape(s)
    requires ParseIsoDate(s).Some?
    ensures IsoFormat(ParseIsoDate(s).value) == s
  {
    var y, m, d := s[0..4], s[5..7], s[8..10];
    DigitsRoundTrip(y);
    DigitsRoundTrip(m);
    DigitsRoundTrip(d);
    var date := ParseIsoDate(s).value;
    assert date == Date(DigitsValue(y), DigitsValue(m), DigitsValue(d));
    assert IsoFormat(date) == y + "-" + m + "-" + d;
    IsoFields(s);
  }
}
