/** Timestamps as RFC 3339 text (manifest.rs, `rfc3339_from_unix`): the civil date of a day count, against
    the Gregorian calendar counted day by day, and the text it prints. */
module CivilDate {
  import opened Options
  import opened Text

  datatype Date = Date(year: int, month: int, day: int)

  // ----- The calendar --------------------------------------------------------------------------

  predicate Leap(y: int) {
    y % 4 == 0 && (y % 100 != 0 || y % 400 == 0)
  }

  function DaysInMonth(y: int, m: int): int {
    if m == 2 then if Leap(y) then 29 else 28
    else if m == 4 || m == 6 || m == 9 || m == 11 then 30
    else 31
  }

  predicate Valid(d: Date) {
    1 <= d.month <= 12 && 1 <= d.day <= DaysInMonth(d.year, d.month)
  }

  function NextDay(d: Date): Date {
    if d.day < DaysInMonth(d.year, d.month) then d.(day := d.day + 1)
    else if d.month < 12 then Date(d.year, d.month + 1, 1)
    else Date(d.year + 1, 1, 1)
  }

  function DaysBeforeMonth(y: int, m: nat): int {
    if m <= 1 then 0 else DaysBeforeMonth(y, m - 1) + DaysInMonth(y, m - 1)
  }

  /** Days before a year, counted from 1 January of the year 1; a year is 365 days, and a leap year one more. */
  function DaysBeforeYear(y: int): int {
    365 * (y - 1) + (y - 1) / 4 - (y - 1) / 100 + (y - 1) / 400
  }

  /** Days since 1 January 1970. */
  function DayNumber(d: Date): int
    requires d.month > 0
  {
    DaysBeforeYear(d.year) + DaysBeforeMonth(d.year, d.month) + d.day - 719_163
  }

  lemma YearLength(y: int)
    ensures DaysBeforeYear(y + 1) - DaysBeforeYear(y) == if Leap(y) then 366 else 365
  {
    Multiples(y);
    assert y / 4 - (y - 1) / 4 == if y % 4 == 0 then 1 else 0;
    assert y / 100 - (y - 1) / 100 == if y % 100 == 0 then 1 else 0;
    assert y / 400 - (y - 1) / 400 == if y % 400 == 0 then 1 else 0;
  }

  lemma Multiples(y: int)
    ensures y % 100 == 0 ==> y % 4 == 0
    ensures y % 400 == 0 ==> y % 100 == 0
  {
  }

  lemma MonthsOfYear(y: int)
    ensures DaysBeforeMonth(y, 12) + 31 == if Leap(y) then 366 else 365
  {
    assert DaysBeforeMonth(y, 4) == DaysBeforeMonth(y, 2) + DaysInMonth(y, 2) + 31;
    assert DaysBeforeMonth(y, 6) == DaysBeforeMonth(y, 4) + 61;
    assert DaysBeforeMonth(y, 8) == DaysBeforeMonth(y, 6) + 61;
    assert DaysBeforeMonth(y, 10) == DaysBeforeMonth(y, 8) + 61;
    assert DaysBeforeMonth(y, 12) == DaysBeforeMonth(y, 10) + 61;
  }

  /** The count goes up by one from each day to the next. */
  lemma DayNumberNext(d: Date)
    requires Valid(d)
    ensures Valid(NextDay(d)) && DayNumber(NextDay(d)) == DayNumber(d) + 1
  {
    if d.day == DaysInMonth(d.year, d.month) && d.month == 12 {
      YearLength(d.year);
      MonthsOfYear(d.year);
    }
  }

  // ----- The civil date of a day count ---------------------------------------------------------

  /** A day of the 400-year era: the year, counted from March, and the day within it. */
  datatype EraDay = EraDay(era: int, yearOfEra: int, dayOfYear: int)

  /** The days of an era before a year of it. */
  function YearStart(yoe: int): int {
    365 * yoe + yoe / 4 - yoe / 100
  }

  function EraDayOf(days: int): EraDay {
    var z := days + 719_468;
    var era := z / 146_097;
    var doe := z % 146_097;
    var yoe := (doe - doe / 1460 + doe / 36_524 - doe / 146_096) / 365;
    EraDay(era, yoe, doe - YearStart(yoe))
  }

  function Civil(days: int): Date {
    var e := EraDayOf(days);
    var y := e.yearOfEra + e.era * 400;
    var mp := (5 * e.dayOfYear + 2) / 153;
    var d := e.dayOfYear - (153 * mp + 2) / 5 + 1;
    var m := if mp < 10 then mp + 3 else mp - 9;
    Date(if m <= 2 then y + 1 else y, m, d)
  }

  /** The length of a year of the era, from March to the end of the next February. */
  function EraYearLength(yoe: int): int {
    if yoe == 399 || ((yoe + 1) % 4 == 0 && (yoe + 1) % 100 != 0) then 366 else 365
  }

  /** The day of an era as centuries, four-year cycles, years and days. */
  lemma EraParts(doe: int) returns (c: int, q: int, s: int, doy: int)
    requires 0 <= doe < 146_097
    ensures 0 <= c <= 3 && 0 <= q <= 24 && 0 <= s <= 3 && 0 <= doy <= 365
    ensures doe == 36_524 * c + 1461 * q + 365 * s + doy
    ensures doy == 365 ==> s == 3 && (q == 24 ==> c == 3)
    ensures doe / 36_524 - doe / 146_096 == c
  {
    c := doe / 36_524 - doe / 146_096;
    var r := doe - 36_524 * c;
    q := r / 1461;
    var left := r - 1461 * q;
    s := if left == 1460 then 3 else left / 365;
    doy := left - 365 * s;
  }

  lemma YearStartOf(c: int, q: int, s: int)
    requires 0 <= c <= 3 && 0 <= q <= 24 && 0 <= s <= 3
    ensures var yoe := 100 * c + 4 * q + s;
      YearStart(yoe) == 36_524 * c + 1461 * q + 365 * s && 0 <= yoe < 400 &&
      EraYearLength(yoe) == if s == 3 && (q == 24 ==> c == 3) then 366 else 365
  {
  }

  lemma EraYearIs(doe: int, c: int, q: int, s: int, doy: int)
    requires 0 <= c <= 3 && 0 <= q <= 24 && 0 <= s <= 3 && 0 <= doy <= 365
    requires doe == 36_524 * c + 1461 * q + 365 * s + doy
    requires doy == 365 ==> s == 3
    ensures (doe - doe / 1460 + c) / 365 == 100 * c + 4 * q + s
  {
  }

  /** The year of the era a day falls in. */
  lemma EraYearOf(doe: int)
    requires 0 <= doe < 146_097
    ensures var yoe := (doe - doe / 1460 + doe / 36_524 - doe / 146_096) / 365;
      0 <= yoe < 400 && YearStart(yoe) <= doe < YearStart(yoe) + EraYearLength(yoe)
  {
    var c, q, s, doy := EraParts(doe);
    EraYearIs(doe, c, q, s, doy);
    YearStartOf(c, q, s);
    assert doe - doe / 1460 + doe / 36_524 - doe / 146_096 == doe - doe / 1460 + c;
  }

  predicate InEra(e: EraDay) {
    0 <= e.yearOfEra < 400 && 0 <= e.dayOfYear < EraYearLength(e.yearOfEra)
  }

  function EraDayNumber(e: EraDay): int {
    e.era * 146_097 + YearStart(e.yearOfEra) + e.dayOfYear - 719_468
  }

  function NextEraDay(e: EraDay): EraDay {
    if e.dayOfYear + 1 < EraYearLength(e.yearOfEra) then e.(dayOfYear := e.dayOfYear + 1)
    else if e.yearOfEra < 399 then EraDay(e.era, e.yearOfEra + 1, 0)
    else EraDay(e.era + 1, 0, 0)
  }

  lemma YearStartNext(yoe: int)
    requires 0 <= yoe < 400
    ensures yoe < 399 ==> YearStart(yoe + 1) == YearStart(yoe) + EraYearLength(yoe)
    ensures yoe == 399 ==> YearStart(yoe) + EraYearLength(yoe) == 146_097
  {
  }

  lemma {:induction false} YearStartGrows(a: int, b: int)
    requires 0 <= a < b < 400
    ensures YearStart(a) + EraYearLength(a) <= YearStart(b)
    decreases b - a
  {
    YearStartNext(a);
    if a + 1 < b {
      YearStartGrows(a + 1, b);
    }
  }

  lemma EraBound(e: EraDay)
    requires InEra(e)
    ensures 0 <= YearStart(e.yearOfEra) + e.dayOfYear < 146_097
  {
  }

  /** A day count has one era day. */
  lemma EraDayUnique(e: EraDay, f: EraDay)
    requires InEra(e) && InEra(f) && EraDayNumber(e) == EraDayNumber(f)
    ensures e == f
  {
    EraBound(e);
    EraBound(f);
    assert e.era == f.era;
    if e.yearOfEra < f.yearOfEra {
      YearStartGrows(e.yearOfEra, f.yearOfEra);
    } else if f.yearOfEra < e.yearOfEra {
      YearStartGrows(f.yearOfEra, e.yearOfEra);
    }
  }

  lemma EraDayIs(days: int)
    ensures InEra(EraDayOf(days)) && EraDayNumber(EraDayOf(days)) == days
  {
    EraYearOf((days + 719_468) % 146_097);
  }

  lemma EraDayNext(days: int)
    ensures EraDayOf(days + 1) == NextEraDay(EraDayOf(days))
  {
    EraDayIs(days);
    EraDayIs(days + 1);
    var e := EraDayOf(days);
    YearStartNext(e.yearOfEra);
    EraDayUnique(EraDayOf(days + 1), NextEraDay(e));
  }

  /** Months counted from March: the days of the year before each. */
  function MonthStart(mp: int): int {
    (153 * mp + 2) / 5
  }

  function MonthOf(doy: int): int {
    (5 * doy + 2) / 153
  }

  lemma MonthHolds(doy: int)
    requires 0 <= doy <= 365
    ensures 0 <= MonthOf(doy) <= 11 && MonthStart(MonthOf(doy)) <= doy < MonthStart(MonthOf(doy) + 1)
  {
  }

  /** From a day of the year to the next: the next day of the month, or the first of the next month. */
  lemma MonthStep(doy: int)
    requires 0 <= doy < 365
    ensures doy + 1 < MonthStart(MonthOf(doy) + 1) ==> MonthOf(doy + 1) == MonthOf(doy)
    ensures doy + 1 == MonthStart(MonthOf(doy) + 1) ==> MonthOf(doy + 1) == MonthOf(doy) + 1
  {
  }

  function MonthNumber(mp: int): int {
    if mp < 10 then mp + 3 else mp - 9
  }

  lemma MonthLengths(y: int, mp: int)
    requires 0 <= mp < 11
    ensures MonthStart(mp + 1) - MonthStart(mp) == DaysInMonth(y, MonthNumber(mp))
  {
  }

  lemma EraLeap(era: int, yoe: int)
    requires 0 <= yoe < 400
    ensures EraYearLength(yoe) == 366 <==> Leap(era * 400 + yoe + 1)
  {
    var y := era * 400 + yoe + 1;
    assert y == 4 * (100 * era) + (yoe + 1) && y == 100 * (4 * era) + (yoe + 1);
    Remainder4(100 * era, yoe + 1);
    Remainder100(4 * era, yoe + 1);
    Remainder400(era, yoe + 1);
    Multiples(yoe + 1);
  }

  lemma Remainder4(k: int, n: int)
    ensures (4 * k + n) % 4 == n % 4
  {
  }

  lemma Remainder100(k: int, n: int)
    ensures (100 * k + n) % 100 == n % 100
  {
  }

  lemma Remainder400(k: int, n: int)
    ensures (400 * k + n) % 400 == n % 400
  {
  }

  /** The date of an era day. */
  function DateOf(e: EraDay): Date {
    var mp := MonthOf(e.dayOfYear);
    var m := MonthNumber(mp);
    var y := e.era * 400 + e.yearOfEra;
    Date(if m <= 2 then y + 1 else y, m, e.dayOfYear - MonthStart(mp) + 1)
  }

  lemma DateIsValid(e: EraDay)
    requires InEra(e)
    ensures Valid(DateOf(e))
  {
    var mp := MonthOf(e.dayOfYear);
    MonthHolds(e.dayOfYear);
    EraLeap(e.era, e.yearOfEra);
    if mp < 11 {
      MonthLengths(DateOf(e).year, mp);
    }
  }

  lemma CivilIs(days: int)
    ensures Civil(days) == DateOf(EraDayOf(days))
  {
  }

  /** Every day count has a date of the calendar. */
  lemma CivilIsValid(days: int)
    ensures Valid(Civil(days))
  {
    CivilIs(days);
    EraDayIs(days);
    hide *;
    DateIsValid(EraDayOf(days));
  }

  /** The date of the next day count is the next day. */
  lemma CivilNext(days: int)
    ensures Civil(days + 1) == NextDay(Civil(days))
  {
    var e := EraDayOf(days);
    EraDayIs(days);
    hide EraDayOf;
    assert DateOf(NextEraDay(e)) == NextDay(DateOf(e)) by {
      var doy := e.dayOfYear;
      var mp := MonthOf(doy);
      MonthHolds(doy);
      EraLeap(e.era, e.yearOfEra);
      if mp < 11 {
        MonthLengths(DateOf(e).year, mp);
      }
      if doy + 1 < EraYearLength(e.yearOfEra) {
        MonthStep(doy);
      }
    }
    hide *;
    CivilIs(days);
    CivilIs(days + 1);
    EraDayNext(days);
  }

  lemma CivilEpoch()
    ensures Civil(0) == Date(1970, 1, 1) && DayNumber(Date(1970, 1, 1)) == 0
  {
    assert 719_468 / 146_097 == 4 && 719_468 % 146_097 == 135_080;
    assert 135_080 / 1460 == 92 && 135_080 / 36_524 == 3 && 135_080 / 146_096 == 0;
    assert (135_080 - 92 + 3) / 365 == 369 && YearStart(369) == 134_774;
    assert EraDayOf(0) == EraDay(4, 369, 306);
    hide EraDayOf;
    assert 1532 / 153 == 10 && 1532 / 5 == 306;
    assert DaysBeforeYear(1970) == 719_162;
  }

  /** The civil date inverts the calendar's day count. */
  lemma {:induction false} CivilInvertsDayNumber(days: int)
    ensures Valid(Civil(days)) && DayNumber(Civil(days)) == days
    decreases if days < 0 then -days else days
  {
    hide Civil;
    hide DayNumber;
    hide NextDay;
    CivilIsValid(days);
    if days == 0 {
      CivilEpoch();
    } else if days > 0 {
      CivilInvertsDayNumber(days - 1);
      CivilNext(days - 1);
      DayNumberNext(Civil(days - 1));
    } else {
      CivilInvertsDayNumber(days + 1);
      CivilNext(days);
      DayNumberNext(Civil(days));
    }
  }

  // ----- Order ---------------------------------------------------------------------------------

  predicate Before(d: Date, e: Date) {
    d.year < e.year || (d.year == e.year && (d.month < e.month || (d.month == e.month && d.day < e.day)))
  }

  lemma {:induction false} MonthsGrow(y: int, m: nat, n: nat)
    requires 1 <= m < n <= 13
    ensures DaysBeforeMonth(y, m) + DaysInMonth(y, m) <= DaysBeforeMonth(y, n)
    decreases n
  {
    if m + 1 < n {
      MonthsGrow(y, m, n - 1);
    }
  }

  lemma {:induction false} YearsGrow(y: int, z: int)
    requires y < z
    ensures DaysBeforeYear(y) + (if Leap(y) then 366 else 365) <= DaysBeforeYear(z)
    decreases z - y
  {
    YearLength(y);
    if y + 1 < z {
      YearsGrow(y + 1, z);
    }
  }

  lemma WithinYear(d: Date)
    requires Valid(d)
    ensures 1 <= DaysBeforeMonth(d.year, d.month) + d.day <= if Leap(d.year) then 366 else 365
  {
    MonthsOfYear(d.year);
    if d.month < 12 {
      MonthsGrow(d.year, d.month, 12);
    }
    if d.month > 1 {
      MonthsGrow(d.year, 1, d.month);
    }
  }

  /** Earlier dates have lower counts. */
  lemma DayNumberOrders(d: Date, e: Date)
    requires Valid(d) && Valid(e)
    ensures Before(d, e) <==> DayNumber(d) < DayNumber(e)
    ensures d == e <==> DayNumber(d) == DayNumber(e)
  {
    hide DaysBeforeYear;
    if Before(d, e) {
      EarlierIsLower(d, e);
    } else if d != e {
      EarlierIsLower(e, d);
    }
  }

  lemma EarlierIsLower(d: Date, e: Date)
    requires Valid(d) && Valid(e) && Before(d, e)
    ensures DayNumber(d) < DayNumber(e)
  {
    hide DaysBeforeYear;
    hide DaysInMonth;
    WithinYear(d);
    WithinYear(e);
    if d.year < e.year {
      YearsGrow(d.year, e.year);
    } else if d.month < e.month {
      MonthEnds(d);
      MonthEnds(e);
      MonthsGrow(d.year, d.month, e.month);
    }
  }

  lemma MonthEnds(d: Date)
    requires Valid(d)
    ensures 1 <= d.day <= DaysInMonth(d.year, d.month)
  {
  }

  /** Every date of the calendar is the civil date of its count. */
  lemma DayNumberInvertsCivil(d: Date)
    requires Valid(d)
    ensures Civil(DayNumber(d)) == d
  {
    hide Civil;
    CivilInvertsDayNumber(DayNumber(d));
    DayNumberOrders(Civil(DayNumber(d)), d);
  }

  // ----- The text ------------------------------------------------------------------------------

  /** Text by its character codes. */
  type Codes = seq<nat>

  const DASH: nat := 45
  const COLON: nat := 58
  const TIME: nat := 84
  const ZULU: nat := 90

  function Pad(w: nat, n: nat): (t: Codes)
    ensures |t| == w
  {
    if w == 0 then [] else Pad(w - 1, n / 10) + [48 + n % 10]
  }

  function ReadPad(t: Codes): nat
    requires forall i :: 0 <= i < |t| ==> 48 <= t[i] < 58
  {
    if t == [] then 0
    else
      var last := t[|t| - 1];
      ReadPad(t[..|t| - 1]) * 10 + (last - 48)
  }

  lemma {:induction false} PadReads(w: nat, n: nat)
    requires n < Pow(10, w)
    ensures forall i :: 0 <= i < |Pad(w, n)| ==> 48 <= Pad(w, n)[i] < 58
    ensures ReadPad(Pad(w, n)) == n
  {
    if w > 0 {
      PadReads(w - 1, n / 10);
      assert Pad(w, n)[..w - 1] == Pad(w - 1, n / 10);
    }
  }

  /** Text order, code by code. */
  predicate Less(a: Codes, b: Codes) {
    if b == [] then false
    else if a == [] then true
    else a[0] < b[0] || (a[0] == b[0] && Less(a[1..], b[1..]))
  }

  lemma {:induction false} LessConcat(a: Codes, b: Codes, c: Codes, d: Codes)
    requires |a| == |b|
    ensures Less(a + c, b + d) <==> Less(a, b) || (a == b && Less(c, d))
    decreases |a|
  {
    if a == [] {
      assert a + c == c && b + d == d;
    } else {
      assert (a + c)[1..] == a[1..] + c && (b + d)[1..] == b[1..] + d;
      LessConcat(a[1..], b[1..], c, d);
      assert a == [a[0]] + a[1..] && b == [b[0]] + b[1..];
    }
  }

  lemma {:induction false} PadOrders(w: nat, m: nat, n: nat)
    requires m < Pow(10, w) && n < Pow(10, w)
    ensures Less(Pad(w, m), Pad(w, n)) <==> m < n
    ensures Pad(w, m) == Pad(w, n) <==> m == n
  {
    PadReads(w, m);
    PadReads(w, n);
    if w > 0 {
      PadOrders(w - 1, m / 10, n / 10);
      LessConcat(Pad(w - 1, m / 10), Pad(w - 1, n / 10), [48 + m % 10], [48 + n % 10]);
    }
  }

  /** A number of fixed width, and the character after it. */
  datatype Field = Field(width: nat, value: nat, after: nat)

  function Print(fields: seq<Field>): Codes {
    if fields == [] then [] else Pad(fields[0].width, fields[0].value) + ([fields[0].after] + Print(fields[1..]))
  }

  predicate SameShape(fs: seq<Field>, gs: seq<Field>) {
    && |fs| == |gs|
    && forall i :: 0 <= i < |fs| ==>
      && fs[i].width == gs[i].width && fs[i].after == gs[i].after
      && fs[i].value < Pow(10, fs[i].width) && gs[i].value < Pow(10, gs[i].width)
  }

  predicate FieldsLess(fs: seq<Field>, gs: seq<Field>) {
    if fs == [] || gs == [] then false
    else fs[0].value < gs[0].value || (fs[0].value == gs[0].value && FieldsLess(fs[1..], gs[1..]))
  }

  /** Fields of fixed width are in the order of their numbers. */
  lemma {:induction false} PrintOrders(fs: seq<Field>, gs: seq<Field>)
    requires SameShape(fs, gs)
    ensures Less(Print(fs), Print(gs)) <==> FieldsLess(fs, gs)
    decreases |fs|
  {
    if fs != [] {
      var f, g := fs[0], gs[0];
      PrintOrders(fs[1..], gs[1..]);
      PadOrders(f.width, f.value, g.value);
      LessConcat([f.after], [g.after], Print(fs[1..]), Print(gs[1..]));
      LessConcat(Pad(f.width, f.value), Pad(g.width, g.value), [f.after] + Print(fs[1..]), [g.after] + Print(gs[1..]));
    }
  }

  /** A timestamp's fields: the date, and the time of day. */
  function FieldsOf(secs: int): seq<Field>
    requires 0 <= Civil(secs / 86_400).year
  {
    var d, rem := Civil(secs / 86_400), secs % 86_400;
    CivilIsValid(secs / 86_400);
    [Field(4, d.year, DASH), Field(2, d.month, DASH), Field(2, d.day, TIME),
     Field(2, rem / 3600, COLON), Field(2, (rem % 3600) / 60, COLON), Field(2, rem % 60, ZULU)]
  }

  /** The timestamp as text, for the years RFC 3339 covers. */
  function Rfc3339(secs: int): Codes
    requires 0 <= Civil(secs / 86_400).year <= 9999
  {
    Print(FieldsOf(secs))
  }

  /** The fields name a date and a time of day, and the timestamp is theirs. */
  lemma FieldsAre(secs: int)
    requires 0 <= Civil(secs / 86_400).year <= 9999
    ensures var fs := FieldsOf(secs);
      && Valid(Date(fs[0].value, fs[1].value, fs[2].value))
      && fs[3].value < 24 && fs[4].value < 60 && fs[5].value < 60
      && DayNumber(Date(fs[0].value, fs[1].value, fs[2].value)) * 86_400 + fs[3].value * 3600 + fs[4].value * 60 + fs[5].value == secs
  {
    hide Civil;
    hide DayNumber;
    CivilInvertsDayNumber(secs / 86_400);
  }

  lemma FieldsFit(secs: int, other: int)
    requires 0 <= Civil(secs / 86_400).year <= 9999 && 0 <= Civil(other / 86_400).year <= 9999
    ensures SameShape(FieldsOf(secs), FieldsOf(other))
  {
    hide Civil;
    Tens();
    FieldsBelow(secs);
    FieldsBelow(other);
    hide Pow;
  }

  lemma Tens()
    ensures Pow(10, 2) == 100 && Pow(10, 4) == 10000
  {
  }

  lemma FieldsBelow(secs: int)
    requires 0 <= Civil(secs / 86_400).year <= 9999
    ensures var fs := FieldsOf(secs); |fs| == 6 && fs[0].value < 10000 && forall i :: 1 <= i < 6 ==> fs[i].value < 100
  {
  }

  /** Text order is time order, as section 5.1 of RFC 3339 intends. */
  lemma TextOrderIsTimeOrder(t: int, u: int)
    requires 0 <= Civil(t / 86_400).year <= 9999 && 0 <= Civil(u / 86_400).year <= 9999
    ensures Less(Rfc3339(t), Rfc3339(u)) <==> t < u
  {
    var fs, gs := FieldsOf(t), FieldsOf(u);
    FieldsFit(t, u);
    PrintOrders(fs, gs);
    FieldsLessIs(fs, gs);
    FieldsAre(t);
    FieldsAre(u);
    hide Civil;
    hide DayNumber;
    DayNumberOrders(Date(fs[0].value, fs[1].value, fs[2].value), Date(gs[0].value, gs[1].value, gs[2].value));
  }

  lemma FieldsLessIs(fs: seq<Field>, gs: seq<Field>)
    requires |fs| == |gs| == 6
    ensures FieldsLess(fs, gs) <==>
      (fs[0].value < gs[0].value || (fs[0].value == gs[0].value &&
      (fs[1].value < gs[1].value || (fs[1].value == gs[1].value &&
      (fs[2].value < gs[2].value || (fs[2].value == gs[2].value &&
      (fs[3].value < gs[3].value || (fs[3].value == gs[3].value &&
      (fs[4].value < gs[4].value || (fs[4].value == gs[4].value && fs[5].value < gs[5].value))))))))))
  {
    Unfold(fs, gs, 0);
    Unfold(fs, gs, 1);
    Unfold(fs, gs, 2);
    Unfold(fs, gs, 3);
    Unfold(fs, gs, 4);
    Unfold(fs, gs, 5);
    assert fs[0..] == fs && gs[0..] == gs;
    hide FieldsLess;
  }

  lemma Unfold(fs: seq<Field>, gs: seq<Field>, i: nat)
    requires i < |fs| == |gs|
    ensures FieldsLess(fs[i..], gs[i..]) <==>
      (fs[i].value < gs[i].value || (fs[i].value == gs[i].value && FieldsLess(fs[i + 1..], gs[i + 1..])))
    ensures i + 1 == |fs| ==> !FieldsLess(fs[i + 1..], gs[i + 1..])
  {
  }

  // ----- Reading the text ----------------------------------------------------------------------

  /** The grammar of section 5.6 of RFC 3339, in UTC without a fraction: widths, each with what follows. */
  const SHAPE: seq<(nat, nat)> := [(4, DASH), (2, DASH), (2, TIME), (2, COLON), (2, COLON), (2, ZULU)]

  function Parse(shape: seq<(nat, nat)>, t: Codes): Option<seq<nat>> {
    if shape == [] then if t == [] then Some([]) else None
    else
      var (w, after) := shape[0];
      if |t| <= w || t[w] != after || !(forall i :: 0 <= i < w ==> 48 <= t[i] < 58) then None
      else
        var rest := Parse(shape[1..], t[w + 1..]);
        if rest.None? then None else Some([ReadPad(t[..w])] + rest.value)
  }

  function ShapeOf(fs: seq<Field>): seq<(nat, nat)> {
    seq(|fs|, i requires 0 <= i < |fs| => (fs[i].width, fs[i].after))
  }

  function ValuesOf(fs: seq<Field>): seq<nat> {
    seq(|fs|, i requires 0 <= i < |fs| => fs[i].value)
  }

  lemma ParseField(w: nat, n: nat, after: nat, shape: seq<(nat, nat)>, rest: Codes)
    requires n < Pow(10, w)
    ensures Parse([(w, after)] + shape, Pad(w, n) + ([after] + rest)) ==
      if Parse(shape, rest).None? then None else Some([n] + Parse(shape, rest).value)
  {
    var t := Pad(w, n) + ([after] + rest);
    PadReads(w, n);
    hide Pad;
    hide ReadPad;
    assert t[..w] == Pad(w, n) && t[w + 1..] == rest && t[w] == after;
    assert forall i :: 0 <= i < w ==> t[i] == Pad(w, n)[i];
    assert ([(w, after)] + shape)[1..] == shape;
  }

  lemma {:induction false} ParsePrint(fs: seq<Field>)
    requires forall i :: 0 <= i < |fs| ==> fs[i].value < Pow(10, fs[i].width)
    ensures Parse(ShapeOf(fs), Print(fs)) == Some(ValuesOf(fs))
    decreases |fs|
  {
    hide Pad;
    hide Pow;
    if fs != [] {
      var f := fs[0];
      ParsePrint(fs[1..]);
      ParseField(f.width, f.value, f.after, ShapeOf(fs[1..]), Print(fs[1..]));
      assert ShapeOf(fs) == [(f.width, f.after)] + ShapeOf(fs[1..]);
      assert ValuesOf(fs) == [f.value] + ValuesOf(fs[1..]);
      hide Parse;
    }
  }

  /** The text fits the grammar, names a date of the calendar and a time of day, and reading it gives the
      timestamp back. */
  lemma PrintedTimeReadsBack(secs: int)
    requires 0 <= Civil(secs / 86_400).year <= 9999
    ensures var v := Parse(SHAPE, Rfc3339(secs));
      && v.Some? && |v.value| == 6
      && Valid(Date(v.value[0], v.value[1], v.value[2]))
      && v.value[3] < 24 && v.value[4] < 60 && v.value[5] < 60
      && DayNumber(Date(v.value[0], v.value[1], v.value[2])) * 86_400 + v.value[3] * 3600 + v.value[4] * 60 + v.value[5] == secs
  {
    var fs := FieldsOf(secs);
    FieldsFit(secs, secs);
    ParsePrint(fs);
    FieldsAre(secs);
    assert ShapeOf(fs) == SHAPE;
    hide Civil;
    hide DayNumber;
    hide Parse;
    hide Print;
  }
}
