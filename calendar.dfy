/** The informal transaction dates ("Today", "Yesterday", "Jan 28") and the small
    part of the JavaScript `Date` calendar the aggregations depend on. The wall clock
    is a parameter: a `Clock` holds the local date and hour that `new Date()` reads. */
module Calendar {
  import opened Util
  import opened Text

  /** What `parseTransactionDate` makes of a date string. `Invalid` stands for the
      `Invalid Date` object that `new Date(year, undefined | NaN, ...)` yields: it is
      truthy, so callers do not skip it. */
  datatype DateToken = Today | Yesterday | MonthDay(month: int, day: int) | Invalid

  const MonthAbbreviations: seq<string> :=
    ["Jan", "Feb", "Mar", "Apr", "May", "Jun", "Jul", "Aug", "Sep", "Oct", "Nov", "Dec"]

  function FindMonth(name: string, from: nat): (r: Option<int>)
    requires from <= 12
    ensures r.Some? ==> from <= r.value < 12 && MonthAbbreviations[r.value] == name
    ensures r.None? ==> forall m :: from <= m < 12 ==> MonthAbbreviations[m] != name
    decreases 12 - from
  {
    if from == 12 then None
    else if MonthAbbreviations[from] == name then Some(from)
    else FindMonth(name, from + 1)
  }

  /** `monthMap[monthStr]`. */
  function MonthIndex(name: string): (r: Option<int>)
    ensures r.Some? ==> 0 <= r.value < 12 && MonthAbbreviations[r.value] == name
    ensures r.None? ==> name !in MonthAbbreviations
  {
    FindMonth(name, 0)
  }

  /** `parseTransactionDate`: the two keywords, else "<Mon> <day>" split at the
      spaces, with `parseInt` on the second piece. */
  function ParseTransactionDate(s: string): (r: DateToken)
    ensures r.MonthDay? ==> 0 <= r.month < 12
  {
    if s == "Today" then Today
    else if s == "Yesterday" then Yesterday
    else
      var parts := Split(s, ' ');
      var month := MonthIndex(parts[0]);
      var day := if |parts| >= 2 then ParseInt(parts[1]) else None;
      if month.Some? && day.Some? then MonthDay(month.value, day.value) else Invalid
  }

  lemma {:induction false} SplitAtSeparator(a: string, b: string, sep: char)
    requires sep !in a
    ensures Split(a + [sep] + b, sep) == [a] + Split(b, sep)
    decreases |a|
  {
    if |a| == 0 {
      assert (a + [sep] + b)[1..] == b;
    } else {
      SplitAtSeparator(a[1..], b, sep);
      assert (a + [sep] + b)[1..] == a[1..] + [sep] + b;
      assert [a[0]] + a[1..] == a;
    }
  }

  lemma {:induction false} SplitWithoutSeparator(a: string, sep: char)
    requires sep !in a
    ensures Split(a, sep) == [a]
    decreases |a|
  {
    if |a| > 0 {
      SplitWithoutSeparator(a[1..], sep);
      assert [a[0]] + a[1..] == a;
    }
  }

  lemma {:induction false} DigitPrefixOfDigits(ds: string)
    requires forall i :: 0 <= i < |ds| ==> IsDigit(ds[i])
    ensures DigitPrefix(ds) == ds
    decreases |ds|
  {
    if |ds| > 0 {
      DigitPrefixOfDigits(ds[1..]);
      assert [ds[0]] + ds[1..] == ds;
    }
  }

  lemma ParseIntOfDigits(s: string)
    requires |s| > 0 && forall i :: 0 <= i < |s| ==> IsDigit(s[i])
    ensures ParseInt(s) == Some(DigitsValue(s) as int)
  {
    assert !IsSpace(s[0]);
    assert TrimStart(s) == s;
    assert SignAndRest(s) == (false, s);
    assert !HasHexPrefix(s) by {
      if |s| >= 2 {
        assert IsDigit(s[1]);
      }
    }
    DigitPrefixOfDigits(s);
    assert ParseMagnitude(s) == Some(DigitsValue(s));
  }

  lemma ParseIntOfNatToString(n: nat)
    ensures ParseInt(NatToString(n)) == Some(n)
  {
    ParseIntOfDigits(NatToString(n));
    DigitsValueOfNatToString(n);
  }

  lemma SplitTwo(a: string, b: string, sep: char)
    requires sep !in a && sep !in b
    ensures Split(a + [sep] + b, sep) == [a, b]
  {
    SplitAtSeparator(a, b, sep);
    SplitWithoutSeparator(b, sep);
  }

  lemma MonthAbbreviationsDistinct(i: int, j: int)
    requires 0 <= i < 12 && 0 <= j < 12 && i != j
    ensures MonthAbbreviations[i] != MonthAbbreviations[j]
  {
    assert MonthAbbreviations[i][0] != MonthAbbreviations[j][0]
      || MonthAbbreviations[i][1] != MonthAbbreviations[j][1]
      || MonthAbbreviations[i][2] != MonthAbbreviations[j][2];
  }

  /** A date in the "<Mon> <day>" form the transaction form writes parses back to
      its month index and day. */
  lemma ParseMonthDayRoundTrip(m: int, d: nat)
    requires 0 <= m < 12
    ensures ParseTransactionDate(MonthAbbreviations[m] + " " + NatToString(d)) == MonthDay(m, d)
  {
    var name := MonthAbbreviations[m];
    var digits := NatToString(d);
    var s := name + [' '] + digits;
    assert ' ' !in name;
    assert ' ' !in digits by {
      forall i | 0 <= i < |digits| ensures digits[i] != ' ' {
        assert IsDigit(digits[i]);
      }
    }
    SplitTwo(name, digits, ' ');
    assert s[|name|] == ' ';
    assert s != "Today" && s != "Yesterday";
    var found := MonthIndex(name);
    if found.value != m {
      MonthAbbreviationsDistinct(found.value, m);
    }
    assert found == Some(m);
    ParseIntOfNatToString(d);
    var parts := Split(s, ' ');
    assert parts[0] == name && parts[1] == digits;
    assert ParseInt(parts[1]) == Some(d as int);
  }

  /** Strings without a known month abbreviation before the first space are `Invalid`
      (the shared `NaN-NaN` bucket downstream), never `null`. */
  lemma UnknownMonthIsInvalid(s: string)
    requires s != "Today" && s != "Yesterday"
    requires Split(s, ' ')[0] !in MonthAbbreviations
    ensures ParseTransactionDate(s) == Invalid
  {}

  // --------------------------------------------------------------- calendar

  /** The local date and hour `new Date()` reports, and `Date.now()`. */
  datatype Clock = Clock(year: int, month: int, day: int, hour: int, millis: int)

  datatype CalendarDate = CalendarDate(year: int, month: int, day: int)

  predicate IsLeap(y: int) {
    (y % 4 == 0 && y % 100 != 0) || y % 400 == 0
  }

  function DaysInMonth(y: int, m: int): (r: int)
    requires 0 <= m < 12
    ensures 28 <= r <= 31
  {
    if m == 1 then (if IsLeap(y) then 29 else 28)
    else if m == 3 || m == 5 || m == 8 || m == 10 then 30
    else 31
  }

  predicate ValidDate(d: CalendarDate) {
    0 <= d.month < 12 && 1 <= d.day <= DaysInMonth(d.year, d.month)
  }

  predicate ValidClock(c: Clock) {
    ValidDate(CalendarDate(c.year, c.month, c.day)) && 0 <= c.hour < 24
  }

  /** `new Date(y, m, d)`: a day outside the month rolls over into the
      neighbouring months (day 0 is the last day of the previous month). */
  function Normalize(y: int, m: int, d: int): (r: CalendarDate)
    requires 0 <= m < 12
    ensures ValidDate(r)
    decreases if d < 1 then 33 - d else d
  {
    if d < 1 then
      var py := if m == 0 then y - 1 else y;
      var pm := if m == 0 then 11 else m - 1;
      Normalize(py, pm, d + DaysInMonth(py, pm))
    else if d > DaysInMonth(y, m) then
      var ny := if m == 11 then y + 1 else y;
      var nm := if m == 11 then 0 else m + 1;
      Normalize(ny, nm, d - DaysInMonth(y, m))
    else CalendarDate(y, m, d)
  }

  /** A day inside its month is left alone; the 32nd of December is the first
      of January of the next year. */
  lemma NormalizeExamples(y: int, m: int, d: int)
    requires ValidDate(CalendarDate(y, m, d))
    ensures Normalize(y, m, d) == CalendarDate(y, m, d)
    ensures Normalize(y, 11, 32) == CalendarDate(y + 1, 0, 1)
    ensures Normalize(y, 0, 0) == CalendarDate(y - 1, 11, 31)
  {}

  /** The calendar date a parsed token denotes, `None` for `Invalid Date`. */
  function Resolve(t: DateToken, now: Clock): (r: Option<CalendarDate>)
    requires ValidClock(now)
    ensures r.Some? ==> ValidDate(r.value)
    ensures r.None? <==> t.Invalid? || (t.MonthDay? && !(0 <= t.month < 12))
  {
    match t
    case Today => Some(CalendarDate(now.year, now.month, now.day))
    case Yesterday => Some(Normalize(now.year, now.month, now.day - 1))
    case MonthDay(m, d) => if 0 <= m < 12 then Some(Normalize(now.year, m, d)) else None
    case Invalid => None
  }

  /** `getDay()`: 0 = Sunday, by Sakamoto's method (floor division, as `/` on
      `int` is here for a positive divisor). */
  function Weekday(d: CalendarDate): (r: int)
    requires ValidDate(d)
    ensures 0 <= r < 7
  {
    var offsets := [0, 3, 2, 5, 0, 3, 5, 1, 4, 6, 2, 4];
    var y := if d.month < 2 then d.year - 1 else d.year;
    (y + y / 4 - y / 100 + y / 400 + offsets[d.month] + d.day) % 7
  }

  /** The month bucket key `${getFullYear()}-${getMonth()}`; `Invalid Date`
      prints as `NaN-NaN`. */
  datatype MonthKey = MonthOf(year: int, month: int) | NaNMonth

  function MonthKeyOf(date: string, now: Clock): (k: MonthKey)
    requires ValidClock(now)
    ensures k.NaNMonth? <==> ParseTransactionDate(date).Invalid?
  {
    match Resolve(ParseTransactionDate(date), now)
    case Some(c) => MonthOf(c.year, c.month)
    case None => NaNMonth
  }

  /** The `dayCounts` slot of a transaction date: `getDay()` in 0..6, and slot 7
      for the `NaN` key an `Invalid Date` adds after the seven numeric keys. */
  function WeekdaySlot(date: string, now: Clock): (r: int)
    requires ValidClock(now)
    ensures 0 <= r < 8
    ensures r == 7 <==> ParseTransactionDate(date).Invalid?
  {
    match Resolve(ParseTransactionDate(date), now)
    case Some(c) => Weekday(c)
    case None => 7
  }

  datatype TimeOfDay = Morning | Afternoon | Evening

  /** `hour < 12 ? 'morning' : hour < 17 ? 'afternoon' : 'evening'`. */
  function TimeOfDayAt(now: Clock): TimeOfDay {
    if now.hour < 12 then Morning else if now.hour < 17 then Afternoon else Evening
  }

  /** `[0, 6].includes(new Date().getDay())`. */
  predicate IsWeekend(now: Clock)
    requires ValidClock(now)
  {
    var w := Weekday(CalendarDate(now.year, now.month, now.day));
    w == 0 || w == 6
  }
}
