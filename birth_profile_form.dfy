/**
 * The birth-profile form: reading stored `YYYY-MM-DD` / `HH:MM` strings into
 * dates, writing dates back out, the five required-field checks, and the
 * submit handler that sends the profile to the server.
 *
 * A JavaScript `Date` is modelled by its calendar fields (`Moment`) or as the
 * invalid date `Number` produces from a non-numeric field (`InvalidDate`).
 */
module BirthProfileForm {
  import opened Wrappers
  import opened JsBuiltins
  import opened ApiErrors

  // ------------------------------------------------------------------ dates

  /** Calendar fields of a `Date`; `month` counts from 0 as in JavaScript. */
  datatype Moment = Moment(year: int, month: int, day: int,
                           hours: int, minutes: int, seconds: int, millis: int)

  datatype DateValue = Valid(at: Moment) | InvalidDate

  predicate IsLeapYear(y: int) {
    (y % 4 == 0 && y % 100 != 0) || y % 400 == 0
  }

  function DaysInMonth(y: int, m: int): (n: int)
    requires 0 <= m < 12
    ensures 28 <= n <= 31
  {
    if m == 1 then (if IsLeapYear(y) then 29 else 28)
    else if m == 3 || m == 5 || m == 8 || m == 10 then 30
    else 31
  }

  /** The calendar date of `t` names a real day, so `Date` keeps it as given. */
  predicate InCalendar(t: Moment) {
    0 <= t.month < 12 && 1 <= t.day <= DaysInMonth(t.year, t.month)
  }

  /** `new Date(y, ...)` reads the years 0 to 99 as 1900 to 1999. */
  function FullYear(y: int): (r: int)
    ensures 0 <= y <= 99 ==> r == 1900 + y
    ensures !(0 <= y <= 99) ==> r == y
  {
    if 0 <= y <= 99 then 1900 + y else y
  }

  /** Days from 1 January 1970 to 1 January of year `y` (ECMAScript's DayFromYear; `/` floors here). */
  function DayFromYear(y: int): int {
    365 * (y - 1970) + (y - 1969) / 4 - (y - 1901) / 100 + (y - 1601) / 400
  }

  /** Days from 1 January of year `y` to the first of month `m`. */
  function DaysBeforeMonth(y: int, m: int): (n: int)
    requires 0 <= m < 12
    ensures 28 * m <= n <= 31 * m
  {
    if m == 0 then 0 else DaysBeforeMonth(y, m - 1) + DaysInMonth(y, m - 1)
  }

  /**
   * ECMAScript's MakeDay: the day number, counted from 1 January 1970, of
   * day `d` of month `m` of year `y`; a month outside 0..11 moves the year.
   */
  function DayNumber(y: int, m: int, d: int): int {
    var ym := y + m / 12;
    DayFromYear(ym) + DaysBeforeMonth(ym, m % 12) + d - 1
  }

  /** A time value is at most 8.64e15 ms, that is 10^8 days, from the epoch (TimeClip). */
  const MaxDays: int := 100_000_000

  /** The midnight starting day `d` of month `m` of year `y` is a time `Date` can hold. */
  predicate Representable(y: int, m: int, d: int) {
    -MaxDays <= DayNumber(y, m, d) <= MaxDays
  }

  /**
   * `new Date(y, m, d)` at midnight: a NaN argument, or a day too far from
   * 1970 for a time value, gives an invalid date.
   */
  function MakeDate(y: Option<int>, m: Option<int>, d: Option<int>): (r: DateValue)
    ensures r.Valid? <==> y.Some? && m.Some? && d.Some? &&
                          Representable(FullYear(y.value), m.value, d.value)
    ensures r.Valid? ==> r.at == Moment(FullYear(y.value), m.value, d.value, 0, 0, 0, 0)
  {
    if y.Some? && m.Some? && d.Some? && Representable(FullYear(y.value), m.value, d.value) then
      Valid(Moment(FullYear(y.value), m.value, d.value, 0, 0, 0, 0))
    else InvalidDate
  }

  /** For a month within the year, the day number is the year's start plus the days before. */
  lemma DayNumberInYear(y: int, m: int, d: int)
    requires 0 <= m < 12
    ensures DayNumber(y, m, d) == DayFromYear(y) + DaysBeforeMonth(y, m) + d - 1
  {
    assert m / 12 == 0 && m % 12 == m;
  }

  /** Every day of the years 100 to 275759 can be held by a `Date`. */
  lemma YearsRepresentable(y: int, m: int, d: int)
    requires 100 <= y <= 275759 && 0 <= m < 12 && 1 <= d <= 31
    ensures Representable(y, m, d)
  {
    DayNumberInYear(y, m, d);
  }

  /** The last representable day is 13 September 275760; the day after is not. */
  lemma LastRepresentableDay()
    ensures Representable(275760, 8, 13)
    ensures !Representable(275760, 8, 14)
  {
    var y := 275760;
    assert IsLeapYear(y);
    LeapSeptember(y);
    assert DayFromYear(y) == 99999744;
    DayNumberInYear(y, 8, 13);
    assert DayNumber(y, 8, 13) == MaxDays;
    DayNumberInYear(y, 8, 14);
    assert DayNumber(y, 8, 14) == MaxDays + 1;
  }

  /** In a leap year, September starts on the 245th day. */
  lemma LeapSeptember(y: int)
    requires IsLeapYear(y)
    ensures DaysBeforeMonth(y, 8) == 244
  {
    assert DaysBeforeMonth(y, 1) == 31;
    assert DaysBeforeMonth(y, 2) == 60;
    assert DaysBeforeMonth(y, 3) == 91;
    assert DaysBeforeMonth(y, 4) == 121;
    assert DaysBeforeMonth(y, 5) == 152;
    assert DaysBeforeMonth(y, 6) == 182;
    assert DaysBeforeMonth(y, 7) == 213;
  }

  /** 1 January 300000 lies beyond the range of `Date`. */
  lemma YearThreeHundredThousandUnrepresentable()
    ensures !Representable(300000, 0, 1)
  {
    DayNumberInYear(300000, 0, 1);
    assert DayFromYear(300000) == 108853222;
  }

  /** `Number(s) - 1`, where NaN stays NaN. */
  function Decrement(n: Option<int>): (r: Option<int>)
    ensures r.Some? <==> n.Some?
    ensures r.Some? ==> r.value == n.value - 1
  {
    if n.Some? then Some(n.value - 1) else None
  }

  /**
   * `parseDateString`: `null` (None) unless the string has exactly three
   * dash-separated parts, that is two dashes; otherwise the date they name,
   * at midnight. Fields are read without a sign, so a two-digit year never
   * survives: it becomes 19xx.
   */
  function ParseDate(s: string): (r: Option<DateValue>)
    ensures r.Some? <==> multiset(s)['-'] == 2
    ensures r.Some? && r.value.Valid? ==>
      var t := r.value.at;
      t.year >= 100 && t.month >= -1 && t.day >= 0 &&
      t.hours == 0 && t.minutes == 0 && t.seconds == 0 && t.millis == 0
  {
    SplitCount(s, '-');
    var parts := Split(s, '-');
    if |parts| != 3 then None
    else Some(MakeDate(ToNumber(parts[0]), Decrement(ToNumber(parts[1])), ToNumber(parts[2])))
  }

  /** `d.setHours(h, m, 0, 0)` on the current date `now`. */
  function SetTime(now: Moment, h: Option<int>, m: Option<int>): (r: DateValue)
    ensures r.Valid? <==> h.Some? && m.Some?
    ensures r.Valid? ==> r.at == now.(hours := h.value, minutes := m.value, seconds := 0, millis := 0)
  {
    if h.Some? && m.Some? then
      Valid(now.(hours := h.value, minutes := m.value, seconds := 0, millis := 0))
    else InvalidDate
  }

  /**
   * `parseTimeString`: `null` (None) unless the string has at least two
   * colon-separated parts, that is a colon; otherwise today (`now`) at that
   * hour and minute, with seconds and milliseconds cleared.
   */
  function ParseTime(s: string, now: Moment): (r: Option<DateValue>)
    ensures r.Some? <==> multiset(s)[':'] >= 1
    ensures r.Some? && r.value.Valid? ==>
      var t := r.value.at;
      t.(hours := now.hours, minutes := now.minutes) == now.(seconds := 0, millis := 0) &&
      t.hours >= 0 && t.minutes >= 0
  {
    SplitCount(s, ':');
    var parts := Split(s, ':');
    if |parts| < 2 then None
    else Some(SetTime(now, ToNumber(parts[0]), ToNumber(parts[1])))
  }

  /**
   * `formatDate`: the year, then the month and day padded to two digits; an
   * invalid date prints its fields as `NaN`.
   */
  function FormatDate(d: DateValue): (r: string)
    ensures d.InvalidDate? ==> r == "NaN-NaN-NaN"
    ensures d.Valid? && 0 <= d.at.month < 99 && 0 <= d.at.day < 100 ==>
      |r| == |IntToString(d.at.year)| + 6 && r[|r| - 6] == '-' && r[|r| - 3] == '-'
  {
    match d
    case InvalidDate => "NaN-NaN-NaN"
    case Valid(t) =>
      var y, m, dd := IntToString(t.year), TwoDigits(t.month + 1), TwoDigits(t.day);
      if 0 <= t.month < 99 && 0 <= t.day < 100 then
        TwoDigitsWidth(t.month + 1);
        TwoDigitsWidth(t.day);
        DashedShape(y, m, dd);
        y + "-" + m + "-" + dd
      else y + "-" + m + "-" + dd
  }

  /**
   * `formatTime`: hours and minutes padded to two digits; an invalid date
   * prints its fields as `NaN`.
   */
  function FormatTime(d: DateValue): (r: string)
    ensures d.InvalidDate? ==> r == "NaN:NaN"
    ensures d.Valid? && 0 <= d.at.hours < 100 && 0 <= d.at.minutes < 100 ==>
      |r| == 5 && r[2] == ':'
  {
    match d
    case InvalidDate => "NaN:NaN"
    case Valid(t) =>
      var h, m := TwoDigits(t.hours), TwoDigits(t.minutes);
      if 0 <= t.hours < 100 && 0 <= t.minutes < 100 then
        TwoDigitsWidth(t.hours);
        TwoDigitsWidth(t.minutes);
        ColonShape(h, m);
        h + ":" + m
      else h + ":" + m
  }

  // ----------------------------------------------------- parsing and format

  /** The number of parts a split gives is one more than the separators in the string. */
  lemma {:induction false} SplitCount(s: string, sep: char)
    ensures |Split(s, sep)| == multiset(s)[sep] + 1
    decreases |s|
  {
    var k := IndexOfChar(s, sep);
    if k >= 0 {
      assert s == s[..k] + [sep] + s[k + 1..];
      SplitCount(s[k + 1..], sep);
    }
  }

  /** Three digit strings joined by dashes split back into those strings. */
  lemma DigitFieldsSplit(y: string, m: string, d: string)
    requires AllDigits(y) && AllDigits(m) && AllDigits(d)
    ensures Split(y + "-" + m + "-" + d, '-') == [y, m, d]
  {
    DigitsExclude(y, '-');
    DigitsExclude(m, '-');
    DigitsExclude(d, '-');
    SplitThree(y, m, d, '-');
  }

  /** The parts of a formatted date with a non-negative year, as `split("-")` sees them. */
  lemma FormattedDateParts(t: Moment)
    requires t.year >= 0 && t.month >= 0 && t.day >= 0
    ensures Split(FormatDate(Valid(t)), '-') ==
            [NatToString(t.year), TwoDigits(t.month + 1), TwoDigits(t.day)]
  {
    var y, m, d := NatToString(t.year), TwoDigits(t.month + 1), TwoDigits(t.day);
    var s := FormatDate(Valid(t));
    assert s == y + "-" + m + "-" + d;
    assert Split(s, '-') == [y, m, d] by {
      TwoDigitsValue(t.month + 1);
      TwoDigitsValue(t.day);
      DigitFieldsSplit(y, m, d);
    }
  }

  /** A formatted date with non-negative fields is read back as `new Date` of those fields. */
  lemma DateReadsAsMakeDate(t: Moment)
    requires t.year >= 0 && t.month >= 0 && t.day >= 0
    ensures ParseDate(FormatDate(Valid(t))) == Some(MakeDate(Some(t.year), Some(t.month), Some(t.day)))
  {
    FormattedDateParts(t);
    NatToStringValue(t.year);
    TwoDigitsValue(t.month + 1);
    TwoDigitsValue(t.day);
  }

  /**
   * Reading back a formatted date gives the same calendar day at midnight,
   * except that the years 0 to 99 come back as 1900 to 1999; the day must
   * exist in the year `Date` actually builds, and that year must be one a
   * `Date` holds whole.
   */
  lemma DateRoundTrip(t: Moment)
    requires 0 <= t.year <= 275759 && InCalendar(t.(year := FullYear(t.year)))
    ensures ParseDate(FormatDate(Valid(t))) ==
            Some(Valid(Moment(FullYear(t.year), t.month, t.day, 0, 0, 0, 0)))
  {
    YearsRepresentable(FullYear(t.year), t.month, t.day);
    DateReadsAsMakeDate(t);
  }

  /** A stored date beyond the range of `Date` is read as an invalid date, whose fields print as NaN. */
  lemma FarDateReadsInvalid(t: Moment)
    requires t.year >= 0 && t.month >= 0 && t.day >= 0
    requires !Representable(FullYear(t.year), t.month, t.day)
    ensures ParseDate(FormatDate(Valid(t))) == Some(InvalidDate)
    ensures FormatDate(ParseDate(FormatDate(Valid(t))).value) == "NaN-NaN-NaN"
  {
    DateReadsAsMakeDate(t);
  }

  /** From the year 100 to the year 275759, a stored date survives a read and a re-format unchanged. */
  lemma DateStringStable(t: Moment)
    requires 100 <= t.year <= 275759 && InCalendar(t)
    ensures ParseDate(FormatDate(Valid(t))).Some?
    ensures FormatDate(ParseDate(FormatDate(Valid(t))).value) == FormatDate(Valid(t))
  {
    var u := Moment(t.year, t.month, t.day, 0, 0, 0, 0);
    assert FormatDate(Valid(u)) == FormatDate(Valid(t));
    assert FullYear(t.year) == t.year;
    assert t.(year := FullYear(t.year)) == t;
    DateRoundTrip(t);
  }

  /** A date in the years 0 to 99 that also exists 1900 years later is read back there. */
  lemma TwoDigitYearShifts(t: Moment)
    requires 0 <= t.year <= 99 && InCalendar(t.(year := t.year + 1900))
    ensures ParseDate(FormatDate(Valid(t))).Some?
    ensures ParseDate(FormatDate(Valid(t))).value.Valid?
    ensures ParseDate(FormatDate(Valid(t))).value.at.year == t.year + 1900
  {
    assert t.(year := FullYear(t.year)) == t.(year := t.year + 1900);
    DateRoundTrip(t);
  }

  /**
   * The year 0 is a leap year but 1900 is not: 29 February 0 is a real day,
   * yet the date `Date` builds for it, 29 February 1900, is not.
   */
  lemma LeapDayOfYearZeroLost()
    ensures InCalendar(Moment(0, 1, 29, 0, 0, 0, 0))
    ensures !InCalendar(Moment(FullYear(0), 1, 29, 0, 0, 0, 0))
  {
  }

  /** A date before the year 0 prints a leading minus, so it cannot be read back. */
  lemma NegativeYearUnreadable(t: Moment)
    requires t.year < 0 && InCalendar(t)
    ensures ParseDate(FormatDate(Valid(t))) == None
  {
    SignedDateParts(t);
  }

  /** The parts of a formatted date with a negative year: an empty one comes first. */
  lemma SignedDateParts(t: Moment)
    requires t.year < 0 && t.month >= 0 && t.day >= 0
    ensures Split(FormatDate(Valid(t)), '-') ==
            ["", NatToString(-t.year), TwoDigits(t.month + 1), TwoDigits(t.day)]
  {
    var n, m, d := NatToString(-t.year), TwoDigits(t.month + 1), TwoDigits(t.day);
    SignedDateShape(t);
    NumeralsHaveNoDash(-t.year, t.month + 1, t.day);
    SplitSignedThree(n, m, d, '-');
  }

  /** A date with a negative year is printed with a leading minus sign. */
  lemma SignedDateShape(t: Moment)
    requires t.year < 0
    ensures FormatDate(Valid(t)) ==
            ['-'] + NatToString(-t.year) + ['-'] + TwoDigits(t.month + 1) + ['-'] + TwoDigits(t.day)
  {
  }

  /** The numerals a formatted date is built from contain no dash. */
  lemma NumeralsHaveNoDash(y: nat, m: nat, d: nat)
    ensures '-' !in NatToString(y) && '-' !in TwoDigits(m) && '-' !in TwoDigits(d)
  {
    TwoDigitsValue(m);
    TwoDigitsValue(d);
    DigitsExclude(NatToString(y), '-');
    DigitsExclude(TwoDigits(m), '-');
    DigitsExclude(TwoDigits(d), '-');
  }

  /**
   * Reading back a formatted time gives today at that hour and minute, with
   * seconds and milliseconds cleared.
   */
  lemma TimeRoundTrip(t: Moment, now: Moment)
    requires 0 <= t.hours < 24 && 0 <= t.minutes < 60
    ensures ParseTime(FormatTime(Valid(t)), now) ==
            Some(Valid(now.(hours := t.hours, minutes := t.minutes, seconds := 0, millis := 0)))
  {
    FormattedTimeParts(t);
    TwoDigitsValue(t.hours);
    TwoDigitsValue(t.minutes);
  }

  /** The parts of a formatted time, as `split(":")` sees them. */
  lemma FormattedTimeParts(t: Moment)
    requires 0 <= t.hours && 0 <= t.minutes
    ensures Split(FormatTime(Valid(t)), ':') == [TwoDigits(t.hours), TwoDigits(t.minutes)]
  {
    var h, m := TwoDigits(t.hours), TwoDigits(t.minutes);
    TwoDigitsValue(t.hours);
    TwoDigitsValue(t.minutes);
    DigitsExclude(h, ':');
    DigitsExclude(m, ':');
    assert FormatTime(Valid(t)) == h + [':'] + m;
    SplitTwo(h, m, ':');
  }

  /** Parts after the minutes, such as seconds, are ignored. */
  lemma ParseTimeIgnoresExtraParts(h: string, m: string, rest: string, now: Moment)
    requires ':' !in h && ':' !in m
    ensures ParseTime(h + ":" + m + ":" + rest, now) == ParseTime(h + ":" + m, now)
    ensures ParseTime(h + ":" + m, now) == Some(SetTime(now, ToNumber(h), ToNumber(m)))
  {
    SplitTwoThenRest(h, m, rest, ':');
    SplitTwo(h, m, ':');
  }

  /** A stored time survives a read and a re-format unchanged. */
  lemma TimeStringStable(t: Moment, now: Moment)
    requires 0 <= t.hours < 24 && 0 <= t.minutes < 60
    ensures ParseTime(FormatTime(Valid(t)), now).Some?
    ensures FormatTime(ParseTime(FormatTime(Valid(t)), now).value) == FormatTime(Valid(t))
  {
    TimeRoundTrip(t, now);
  }

  /** A formatted four-digit-year date is `YYYY-MM-DD`: ten characters, dashes at 4 and 7. */
  lemma FormatDateShape(t: Moment)
    requires 1000 <= t.year <= 9999 && InCalendar(t)
    ensures var s := FormatDate(Valid(t));
            |s| == 10 && s[4] == '-' && s[7] == '-'
  {
    NumeralLength(t.year);
    NumeralLength(t.month + 1);
    NumeralLength(t.day);
    DashedShape(NatToString(t.year), TwoDigits(t.month + 1), TwoDigits(t.day));
  }

  lemma ColonShape(h: string, m: string)
    requires |h| == 2 && |m| == 2
    ensures var s := h + ":" + m;
            |s| == 5 && s[2] == ':'
  {
  }

  lemma DashedShape(y: string, m: string, d: string)
    requires |m| == 2 && |d| == 2
    ensures var s := y + "-" + m + "-" + d;
            |s| == |y| + 6 && s[|y|] == '-' && s[|y| + 3] == '-'
  {
  }

  // ------------------------------------------------------------- validation

  /** The fields `validate` checks, in the order it checks them. */
  datatype Problem = NoName | NoGender | NoDate | NoTime | NoPlace

  /** The message shown for each missing field. */
  function Message(p: Problem): (m: string)
    ensures m != ""
  {
    match p
    case NoName => "Full name is required"
    case NoGender => "Please select a gender"
    case NoDate => "Date of birth is required"
    case NoTime => "Time of birth is required"
    case NoPlace => "Place of birth is required"
  }

  /** Whether the field behind `p` is missing: blank for text, unset for dates. */
  predicate Missing(p: Problem, fullName: string, gender: string, birthDate: Option<DateValue>,
                    birthTime: Option<DateValue>, birthLocation: string)
  {
    match p
    case NoName => AllWhite(fullName)
    case NoGender => gender == ""
    case NoDate => birthDate.None?
    case NoTime => birthTime.None?
    case NoPlace => AllWhite(birthLocation)
  }

  /** The position of a check in the order `validate` makes them. */
  function Rank(p: Problem): (r: nat)
    ensures r < 5
  {
    match p
    case NoName => 0
    case NoGender => 1
    case NoDate => 2
    case NoTime => 3
    case NoPlace => 4
  }

  /**
   * `validate`: the first missing field, or `null` (None). A name or place of
   * only whitespace counts as missing; any date object, even an invalid one,
   * counts as given.
   */
  function Validate(fullName: string, gender: string, birthDate: Option<DateValue>,
                    birthTime: Option<DateValue>, birthLocation: string): (problem: Option<Problem>)
    ensures problem.None? <==>
              !AllWhite(fullName) && gender != "" && birthDate.Some? && birthTime.Some? &&
              !AllWhite(birthLocation)
  {
    if Trim(fullName) == "" then Some(NoName)
    else if gender == "" then Some(NoGender)
    else if birthDate.None? then Some(NoDate)
    else if birthTime.None? then Some(NoTime)
    else if Trim(birthLocation) == "" then Some(NoPlace)
    else None
  }

  /** Different problems show different messages, so the message names the field. */
  lemma MessagesDistinct(p: Problem, q: Problem)
    requires p != q
    ensures Message(p) != Message(q)
  {
    match p
    case NoName => assert Message(p)[0] == 'F';
    case NoGender => assert Message(p)[1] == 'l' && Message(p)[2] == 'e';
    case NoDate => assert Message(p)[0] == 'D';
    case NoTime => assert Message(p)[0] == 'T';
    case NoPlace => assert Message(p)[1] == 'l' && Message(p)[2] == 'a';
  }

  /** The problem reported is a missing field with no missing field checked before it. */
  lemma ValidateFirstFailure(fullName: string, gender: string, birthDate: Option<DateValue>,
                             birthTime: Option<DateValue>, birthLocation: string, p: Problem)
    ensures Validate(fullName, gender, birthDate, birthTime, birthLocation) == Some(p) <==>
            Missing(p, fullName, gender, birthDate, birthTime, birthLocation) &&
            forall q: Problem :: Rank(q) < Rank(p) ==>
              !Missing(q, fullName, gender, birthDate, birthTime, birthLocation)
  {
    if Validate(fullName, gender, birthDate, birthTime, birthLocation) == Some(p) {
      ReportedIsFirstMissing(fullName, gender, birthDate, birthTime, birthLocation, p);
    }
    if Missing(p, fullName, gender, birthDate, birthTime, birthLocation) &&
       forall q: Problem :: Rank(q) < Rank(p) ==> !Missing(q, fullName, gender, birthDate, birthTime, birthLocation)
    {
      FirstMissingIsReported(fullName, gender, birthDate, birthTime, birthLocation, p);
    }
  }

  /** The problem `validate` reports is missing, and every earlier check passed. */
  lemma ReportedIsFirstMissing(fullName: string, gender: string, birthDate: Option<DateValue>,
                               birthTime: Option<DateValue>, birthLocation: string, p: Problem)
    requires Validate(fullName, gender, birthDate, birthTime, birthLocation) == Some(p)
    ensures Missing(p, fullName, gender, birthDate, birthTime, birthLocation)
    ensures forall q: Problem :: Rank(q) < Rank(p) ==>
              !Missing(q, fullName, gender, birthDate, birthTime, birthLocation)
  {
    forall q: Problem | Rank(q) < Rank(p)
      ensures !Missing(q, fullName, gender, birthDate, birthTime, birthLocation)
    {
      match q
      case NoName => assert Trim(fullName) != "";
      case NoGender =>
      case NoDate =>
      case NoTime =>
      case NoPlace =>
    }
  }

  /** A missing field whose earlier checks all pass is the one `validate` reports. */
  lemma FirstMissingIsReported(fullName: string, gender: string, birthDate: Option<DateValue>,
                               birthTime: Option<DateValue>, birthLocation: string, p: Problem)
    requires Missing(p, fullName, gender, birthDate, birthTime, birthLocation)
    requires forall q: Problem :: Rank(q) < Rank(p) ==>
               !Missing(q, fullName, gender, birthDate, birthTime, birthLocation)
    ensures Validate(fullName, gender, birthDate, birthTime, birthLocation) == Some(p)
  {
    if Rank(p) > 0 {
      assert !Missing(NoName, fullName, gender, birthDate, birthTime, birthLocation);
    }
    if Rank(p) > 1 {
      assert !Missing(NoGender, fullName, gender, birthDate, birthTime, birthLocation);
    }
    if Rank(p) > 2 {
      assert !Missing(NoDate, fullName, gender, birthDate, birthTime, birthLocation);
    }
    if Rank(p) > 3 {
      assert !Missing(NoTime, fullName, gender, birthDate, birthTime, birthLocation);
    }
  }


  // ---------------------------------------------------------------- records

  datatype BirthProfile = BirthProfile(id: string, fullName: string, gender: string,
                                       birthDate: string, birthTime: string,
                                       birthLocation: string)

  /** The body of the create request. */
  datatype ProfileInput = ProfileInput(fullName: string, gender: string, birthDate: string,
                                       birthTime: string, birthLocation: string)

  /** Where the screen goes after a submit. */
  datatype Navigation = Stay | GoBack | ChartPreview(profile: BirthProfile)

  const CreateFailed := "Failed to create profile. Try again."

  /** The request body built from a form that passed validation. */
  function Payload(fullName: string, gender: string, birthDate: DateValue,
                   birthTime: DateValue, birthLocation: string): (p: ProfileInput)
    ensures p.gender == gender
    ensures p.fullName == Trim(fullName) && p.birthLocation == Trim(birthLocation)
  {
    ProfileInput(Trim(fullName), gender, FormatDate(birthDate), FormatTime(birthTime),
                 Trim(birthLocation))
  }

  /** A form holding an invalid date still passes validation and sends `NaN` fields. */
  lemma InvalidDateIsSent(fullName: string, gender: string, birthLocation: string)
    requires !AllWhite(fullName) && gender != "" && !AllWhite(birthLocation)
    ensures Validate(fullName, gender, Some(InvalidDate), Some(InvalidDate), birthLocation) == None
    ensures var p := Payload(fullName, gender, InvalidDate, InvalidDate, birthLocation);
            p.birthDate == "NaN-NaN-NaN" && p.birthTime == "NaN:NaN"
  {
  }

  /** What a submit leaves behind: the request sent, where the screen goes, and its new state. */
  datatype Submission = Submission(request: Option<ProfileInput>, nav: Navigation,
                                   error: string, loading: bool, hasProfile: bool)

  /** How the screen answers the end of the create request. */
  datatype Reply = Reply(nav: Navigation, error: string, hasProfile: bool)

  /**
   * On success an edit goes back, and a new profile marks the session as
   * having one and opens its chart preview; on failure the screen stays and
   * shows the server's detail or the fixed message.
   */
  function Answer(isEditMode: bool, hasProfile: bool, result: Outcome<BirthProfile>): (r: Reply)
    ensures result.Resolved? ==>
      r.error == "" &&
      (isEditMode ==> r.nav == GoBack && r.hasProfile == hasProfile) &&
      (!isEditMode ==> r.nav == ChartPreview(result.value) && r.hasProfile)
    ensures result.Rejected? ==> r.nav == Stay && r.hasProfile == hasProfile && r.error != ""
  {
    match result
    case Resolved(p) =>
      if isEditMode then Reply(GoBack, "", hasProfile) else Reply(ChartPreview(p), "", true)
    case Rejected(detail) => Reply(Stay, ErrorText(detail, CreateFailed), hasProfile)
  }

  /**
   * The effect of one submit of the form, given how the create request ends
   * (`result`), whether the screen edits an existing profile, and the
   * loading and has-a-profile flags before it.
   */
  function Submit(fullName: string, gender: string, birthDate: Option<DateValue>,
                  birthTime: Option<DateValue>, birthLocation: string, isEditMode: bool,
                  loading: bool, hasProfile: bool, result: Outcome<BirthProfile>): (r: Submission)
    ensures r.request.Some? <==> Validate(fullName, gender, birthDate, birthTime, birthLocation) == None
    ensures r.request.None? ==>
      r.nav == Stay && r.error != "" && r.loading == loading && r.hasProfile == hasProfile
    ensures r.request.Some? ==> !r.loading
  {
    var problem := Validate(fullName, gender, birthDate, birthTime, birthLocation);
    if problem.Some? then Submission(None, Stay, Message(problem.value), loading, hasProfile)
    else
      var request := Some(Payload(fullName, gender, birthDate.value, birthTime.value, birthLocation));
      var reply := Answer(isEditMode, hasProfile, result);
      Submission(request, reply.nav, reply.error, false, reply.hasProfile)
  }

  /**
   * A form with a missing field sends nothing, stays, shows that field's
   * message and leaves the loading and has-a-profile flags alone.
   */
  lemma SubmitIncomplete(fullName: string, gender: string, birthDate: Option<DateValue>,
                         birthTime: Option<DateValue>, birthLocation: string, isEditMode: bool,
                         loading: bool, hasProfile: bool, result: Outcome<BirthProfile>, p: Problem)
    requires Validate(fullName, gender, birthDate, birthTime, birthLocation) == Some(p)
    ensures var s := Submit(fullName, gender, birthDate, birthTime, birthLocation, isEditMode,
                            loading, hasProfile, result);
            s.request == None && s.nav == Stay && s.error == Message(p) &&
            s.loading == loading && s.hasProfile == hasProfile
  {
  }

  /**
   * A complete form sends its trimmed name and place, its gender, and its
   * date and time formatted; whatever the answer, the screen stops loading.
   */
  lemma SubmitComplete(fullName: string, gender: string, d: DateValue, t: DateValue,
                       birthLocation: string, isEditMode: bool, loading: bool, hasProfile: bool,
                       result: Outcome<BirthProfile>)
    requires !AllWhite(fullName) && gender != "" && !AllWhite(birthLocation)
    ensures var s := Submit(fullName, gender, Some(d), Some(t), birthLocation, isEditMode,
                            loading, hasProfile, result);
            s.request == Some(ProfileInput(Trim(fullName), gender, FormatDate(d), FormatTime(t),
                                           Trim(birthLocation))) &&
            !s.loading
  {
  }

  /**
   * When the server accepts a complete form, no error shows; an edit goes
   * back, and a new profile marks the session and opens the chart preview of
   * the profile the server returned.
   */
  lemma SubmitAccepted(fullName: string, gender: string, d: DateValue, t: DateValue,
                       birthLocation: string, isEditMode: bool, loading: bool, hasProfile: bool,
                       created: BirthProfile)
    requires !AllWhite(fullName) && gender != "" && !AllWhite(birthLocation)
    ensures var s := Submit(fullName, gender, Some(d), Some(t), birthLocation, isEditMode,
                            loading, hasProfile, Resolved(created));
            s.error == "" &&
            (isEditMode ==> s.nav == GoBack && s.hasProfile == hasProfile) &&
            (!isEditMode ==> s.nav == ChartPreview(created) && s.hasProfile)
  {
  }

  /**
   * When the server refuses a complete form, the screen stays and shows the
   * server's non-empty detail or else the fixed message, never an empty one.
   */
  lemma SubmitRefused(fullName: string, gender: string, d: DateValue, t: DateValue,
                      birthLocation: string, isEditMode: bool, loading: bool, hasProfile: bool,
                      detail: Option<string>)
    requires !AllWhite(fullName) && gender != "" && !AllWhite(birthLocation)
    ensures var s := Submit(fullName, gender, Some(d), Some(t), birthLocation, isEditMode,
                            loading, hasProfile, Rejected(detail));
            s.nav == Stay && s.hasProfile == hasProfile && s.error != "" &&
            s.error == (if detail.Some? && detail.value != "" then detail.value else CreateFailed)
  {
  }

  // ----------------------------------------------------------------- screen

  /** The state of the birth-profile screen, plus the session's has-a-profile flag. */
  class ProfileScreen {
    const isEditMode: bool
    var fullName: string
    var gender: string
    var birthDate: Option<DateValue>
    var birthTime: Option<DateValue>
    var birthLocation: string
    var loading: bool
    var error: string
    var hasProfile: bool

    /**
     * Opening the screen, for a new profile or to edit `existing`: the fields
     * start from the stored profile, and the stored date and time strings are
     * read only when they are non-empty.
     */
    constructor(existing: Option<BirthProfile>, now: Moment, sessionHasProfile: bool)
      ensures isEditMode == existing.Some?
      ensures fullName == (if existing.Some? then existing.value.fullName else "")
      ensures gender == (if existing.Some? then existing.value.gender else "")
      ensures birthDate == (if existing.Some? && existing.value.birthDate != ""
                            then ParseDate(existing.value.birthDate) else None)
      ensures birthTime == (if existing.Some? && existing.value.birthTime != ""
                            then ParseTime(existing.value.birthTime, now) else None)
      ensures birthLocation == (if existing.Some? then existing.value.birthLocation else "")
      ensures !loading && error == "" && hasProfile == sessionHasProfile
    {
      isEditMode := existing.Some?;
      if existing.Some? {
        var p := existing.value;
        fullName, gender, birthLocation := p.fullName, p.gender, p.birthLocation;
        birthDate := if p.birthDate != "" then ParseDate(p.birthDate) else None;
        birthTime := if p.birthTime != "" then ParseTime(p.birthTime, now) else None;
      } else {
        fullName, gender, birthLocation := "", "", "";
        birthDate, birthTime := None, None;
      }
      loading, error, hasProfile := false, "", sessionHasProfile;
    }

    /** The date picker closed; a chosen date replaces the current one. */
    method OnDateChange(selected: Option<Moment>)
      modifies this`birthDate
      ensures birthDate == (if selected.Some? then Some(Valid(selected.value)) else old(birthDate))
    {
      if selected.Some? {
        birthDate := Some(Valid(selected.value));
      }
    }

    /** The time picker closed; a chosen time replaces the current one. */
    method OnTimeChange(selected: Option<Moment>)
      modifies this`birthTime
      ensures birthTime == (if selected.Some? then Some(Valid(selected.value)) else old(birthTime))
    {
      if selected.Some? {
        birthTime := Some(Valid(selected.value));
      }
    }

    /**
     * The web date field changed: a typed string that reads as a date
     * replaces the current one (an invalid date too, since any `Date` is
     * truthy); one that does not is ignored.
     */
    method OnDateInput(value: string)
      modifies this`birthDate
      ensures birthDate == (if ParseDate(value).Some? then ParseDate(value) else old(birthDate))
    {
      var date := ParseDate(value);
      if date.Some? {
        birthDate := date;
      }
    }

    /**
     * The web time field changed: a typed string that reads as a time
     * replaces the current one, on today's date `now`; one that does not is
     * ignored.
     */
    method OnTimeInput(value: string, now: Moment)
      modifies this`birthTime
      ensures birthTime == (if ParseTime(value, now).Some? then ParseTime(value, now) else old(birthTime))
    {
      var time := ParseTime(value, now);
      if time.Some? {
        birthTime := time;
      }
    }

    /**
     * `handleSubmit`, with `result` standing for how the create request ends:
     * the request sent, the navigation and the new state are those `Submit`
     * gives for the form as it was.
     */
    method HandleSubmit(result: Outcome<BirthProfile>) returns (request: Option<ProfileInput>, nav: Navigation)
      modifies this`error, this`loading, this`hasProfile
      ensures Submission(request, nav, error, loading, hasProfile) ==
              Submit(old(fullName), old(gender), old(birthDate), old(birthTime),
                     old(birthLocation), isEditMode, old(loading), old(hasProfile), result)
    {
      // the handler sees the field values of the render it was created in
      var name, sex, date, time, place := fullName, gender, birthDate, birthTime, birthLocation;
      error := "";
      var problem := Validate(name, sex, date, time, place);
      if problem.Some? {
        error := Message(problem.value);
        return None, Stay;
      }
      loading := true;
      request := Some(Payload(name, sex, date.value, time.value, place));
      var reply := Answer(isEditMode, hasProfile, result);
      nav, error, hasProfile := reply.nav, reply.error, reply.hasProfile;
      loading := false;
    }
  }
}
