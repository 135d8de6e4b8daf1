/** Epoch seconds to a civil date and time, against a calendar that counts one day at a time. */
module Calendar {
  datatype Date = Date(year: int, month: int, day: int)
  datatype Stamp = Stamp(date: Date, hour: int, minute: int, second: int)

  // --- the reference: section 5.7 and appendix C of RFC 3339 ---

  predicate Leap(y: int) {
    y % 4 == 0 && (y % 100 != 0 || y % 400 == 0)
  }

  function DaysInMonth(y: int, m: int): int {
    if m == 2 then (if Leap(y) then 29 else 28)
    else if m == 4 || m == 6 || m == 9 || m == 11 then 30
    else 31
  }

  predicate ValidDate(d: Date) {
    1 <= d.month <= 12 && 1 <= d.day <= DaysInMonth(d.year, d.month)
  }

  function NextDay(d: Date): Date {
    if d.day < DaysInMonth(d.year, d.month) then d.(day := d.day + 1)
    else if d.month < 12 then Date(d.year, d.month + 1, 1)
    else Date(d.year + 1, 1, 1)
  }

  /** The date `n` days after 1970-01-01. */
  function DateAfter(n: nat): Date {
    if n == 0 then Date(1970, 1, 1) else NextDay(DateAfter(n - 1))
  }

  // --- the code, in two copies ---

  /** The year-of-era numerator. */
  function Numerator(doe: int): int {
    doe - doe / 1460 + doe / 36_524 - doe / 146_096
  }

  /** Month and day within a year that starts in March. */
  function FromMarch(y: int, doy: int): Date {
    var mp := (5 * doy + 2) / 153;
    var d := doy - (153 * mp + 2) / 5 + 1;
    var m := if mp < 10 then mp + 3 else mp - 9;
    Date(if m <= 2 then y + 1 else y, m, d)
  }

  /** The year that starts in March, and the day in it. */
  function MarchDay(days: int): (int, int) {
    var z := days + 719_468;
    var era := z / 146_097;
    var doe := z % 146_097;
    var yoe := Numerator(doe) / 365;
    (yoe + era * 400, doe - (365 * yoe + yoe / 4 - yoe / 100))
  }

  function CivilFromDays(days: int): Date {
    var (y, doy) := MarchDay(days);
    FromMarch(y, doy)
  }

  function FormatTs(epochSecs: nat): Stamp {
    var secs := epochSecs % 86_400;
    Stamp(CivilFromDays(epochSecs / 86_400), secs / 3600, secs % 3600 / 60, secs % 60)
  }

  /** The second copy subtracts one more quotient, and takes the seconds in two steps. */
  function MarchDay2(days: int): (int, int) {
    var z := days + 719_468;
    var era := z / 146_097;
    var doe := z % 146_097;
    var yoe := Numerator(doe) / 365;
    (yoe + era * 400, doe - (365 * yoe + yoe / 4 - yoe / 100 + yoe / 146_096))
  }

  function CivilFromDays2(days: int): Date {
    var (y, doy) := MarchDay2(days);
    FromMarch(y, doy)
  }

  function FormatTs2(epochSecs: nat): Stamp {
    var secs := epochSecs % 86_400;
    Stamp(CivilFromDays2(epochSecs / 86_400), secs / 3600, secs % 3600 / 60, secs % 3600 % 60)
  }

  // --- the year within an era ---

  /** Days before year `y` of an era of 400 years that start in March: each year ends with the
      February of the next. */
  function DaysBefore(y: int): int {
    if y <= 0 then 0 else DaysBefore(y - 1) + if Leap(y) then 366 else 365
  }

  lemma {:induction false} DaysBeforeIs(y: int)
    requires 0 <= y < 400
    ensures DaysBefore(y) == 365 * y + y / 4 - y / 100
  {
    if y > 0 {
      DaysBeforeIs(y - 1);
      Next4(y);
      Next100(y);
    }
  }

  lemma Next4(y: int)
    ensures y / 4 == (y - 1) / 4 + if y % 4 == 0 then 1 else 0
  {
  }

  lemma Next100(y: int)
    ensures y / 100 == (y - 1) / 100 + if y % 100 == 0 then 1 else 0
    ensures y % 100 == 0 ==> y % 4 == 0
    ensures 0 < y < 400 ==> y % 400 != 0
  {
  }

  lemma EraDays()
    ensures DaysBefore(400) == 146_097
  {
    DaysBeforeIs(399);
  }

  lemma {:induction false} DaysBeforeMonotone(a: int, b: int)
    requires 0 <= a <= b
    ensures DaysBefore(a) <= DaysBefore(b)
  {
    if a < b { DaysBeforeMonotone(a, b - 1); }
  }

  lemma NumeratorStep(x: int)
    requires 0 <= x < 146_096
    ensures Numerator(x) <= Numerator(x + 1)
  {
  }

  lemma {:induction false} NumeratorMonotone(a: int, b: int)
    requires 0 <= a <= b < 146_097
    ensures Numerator(a) <= Numerator(b)
    decreases b - a
  {
    if a < b {
      NumeratorMonotone(a, b - 1);
      NumeratorStep(b - 1);
    }
  }

  lemma Parts(y: int, c: int, q: int, r: int)
    requires c == y / 100 && q == y % 100 / 4 && r == y % 4 && 0 <= y < 400
    ensures y == 100 * c + 4 * q + r && 0 <= c <= 3 && 0 <= q <= 24 && 0 <= r <= 3
    ensures DaysBefore(y) == 36_524 * c + 1461 * q + 365 * r
  {
    DaysBeforeIs(y);
    assert y == 100 * c + y % 100;
    Quarters(c, q, r);
  }

  lemma Quarters(c: int, q: int, r: int)
    requires 0 <= c && 0 <= q <= 24 && 0 <= r <= 3
    ensures (100 * c + 4 * q + r) / 4 == 25 * c + q && (100 * c + 4 * q + r) / 100 == c
  {
  }

  lemma NumeratorIs(x: int, a: int, b: int)
    requires 0 <= x < 146_096
    requires 1460 * a <= x < 1460 * (a + 1) && 36_524 * b <= x < 36_524 * (b + 1)
    ensures Numerator(x) == x - a + b
  {
  }

  lemma NumeratorOf(c: int, q: int, r: int)
    requires 0 <= c <= 3 && 0 <= q <= 24 && 0 <= r <= 3
    ensures var (y, d) := (100 * c + 4 * q + r, 36_524 * c + 1461 * q + 365 * r);
      && 0 <= d < 146_096 && Numerator(d) == 365 * y
      && (y > 0 ==> d > 0 && Numerator(d - 1) < 365 * y)
  {
    var (y, d) := (100 * c + 4 * q + r, 36_524 * c + 1461 * q + 365 * r);
    NumeratorIs(d, 25 * c + q, c);
    if y > 0 {
      NumeratorIs(d - 1, 25 * c + q, if q == 0 && r == 0 then c - 1 else c);
    }
  }

  /** At the first day of a year the numerator is 365 times the year; the day before, it is less. */
  lemma NumeratorAt(y: int)
    requires 0 <= y < 400
    ensures 0 <= DaysBefore(y) < 146_096 && Numerator(DaysBefore(y)) == 365 * y
    ensures y > 0 ==> DaysBefore(y) > 0 && Numerator(DaysBefore(y) - 1) < 365 * y
  {
    var (c, q, r) := (y / 100, y % 100 / 4, y % 4);
    Parts(y, c, q, r);
    NumeratorOf(c, q, r);
  }

  /** Day `doe` of an era lies in year `y`. */
  predicate InYear(doe: int, y: int) {
    0 <= y < 400 && DaysBefore(y) <= doe < DaysBefore(y + 1)
  }

  lemma YearBelow(doe: int, y: int)
    requires InYear(doe, y)
    ensures 0 <= doe < 146_097
  {
    EraDays();
    DaysBeforeMonotone(0, y);
    DaysBeforeMonotone(y + 1, 400);
  }

  lemma NumeratorFrom(doe: int, y: int)
    requires 0 <= y < 400 && DaysBefore(y) <= doe < 146_097
    ensures 365 * y <= Numerator(doe)
  {
    NumeratorAt(y);
    NumeratorMonotone(DaysBefore(y), doe);
  }

  lemma NumeratorTo(doe: int, y: int)
    requires 0 <= y < 400 && 0 <= doe < DaysBefore(y + 1) && doe < 146_097
    ensures Numerator(doe) < 365 * (y + 1)
  {
    if y < 399 {
      NumeratorAt(y + 1);
      NumeratorMonotone(doe, DaysBefore(y + 1) - 1);
    } else {
      NumeratorMonotone(doe, 146_096);
    }
  }

  lemma Quotient365(n: int, y: int)
    requires 365 * y <= n < 365 * (y + 1)
    ensures n / 365 == y
  {
  }

  lemma YearUnique(doe: int, y: int)
    requires InYear(doe, y)
    ensures Numerator(doe) / 365 == y
  {
    YearBelow(doe, y);
    NumeratorFrom(doe, y);
    NumeratorTo(doe, y);
    Quotient365(Numerator(doe), y);
  }

  /** Every day of an era lies in a year. */
  lemma FindYear(doe: int) returns (y: int)
    requires 0 <= doe < 146_097
    ensures InYear(doe, y)
  {
    EraDays();
    y := 0;
    while doe >= DaysBefore(y + 1)
      invariant 0 <= y < 400 && DaysBefore(y) <= doe
      decreases 400 - y
    {
      y := y + 1;
    }
  }

  // --- the day within a year that starts in March ---

  /** The year that starts in March of `y` ends with the February of `y + 1`. */
  function MarchYearDays(y: int): int {
    if Leap(y + 1) then 366 else 365
  }

  lemma YearLength(era: int, yoe: int)
    requires 0 <= yoe < 400
    ensures DaysBefore(yoe + 1) == DaysBefore(yoe) + MarchYearDays(yoe + era * 400)
  {
    LeapInEra(era, yoe + 1);
    assert yoe + 1 + era * 400 == yoe + era * 400 + 1;
  }

  lemma LeapInEra(era: int, y: int)
    ensures Leap(y + era * 400) <==> Leap(y)
  {
    LeapShift(y, era);
    assert y + era * 400 == y + 400 * era;
  }

  /** The leap rule repeats every 400 years. */
  lemma LeapShift(y: int, era: int)
    ensures Leap(y + 400 * era) <==> Leap(y)
  {
    var u := y + 400 * era;
    Remainder(u, y / 400 + era, y % 400);
    LeapMod(y);
    LeapMod(u);
  }

  lemma LeapMod(y: int)
    ensures y % 4 == y % 400 % 4 && y % 100 == y % 400 % 100
  {
    var (z, r) := (y / 400, y % 400);
    Remainder4(y, 100 * z + r / 4, r % 4);
    Remainder100(y, 4 * z + r / 100, r % 100);
  }

  lemma Remainder(u: int, q: int, r: int)
    requires u == 400 * q + r && 0 <= r < 400
    ensures u % 400 == r
  {
  }

  lemma Remainder4(u: int, q: int, r: int)
    requires u == 4 * q + r && 0 <= r < 4
    ensures u % 4 == r
  {
  }

  lemma Remainder100(u: int, q: int, r: int)
    requires u == 100 * q + r && 0 <= r < 100
    ensures u % 100 == r
  {
  }

  /** The first day of the `mp`-th month from March. */
  function MonthStart(mp: int): int
    requires 0 <= mp <= 12
  {
    [0, 31, 61, 92, 122, 153, 184, 214, 245, 275, 306, 337, 367][mp]
  }

  lemma MonthStartIs(mp: int)
    requires 0 <= mp <= 12
    ensures MonthStart(mp) == (153 * mp + 2) / 5
    ensures mp < 12 ==> MonthStart(mp) < MonthStart(mp + 1)
  {
  }

  predicate InMonth(doy: int, mp: int) {
    0 <= mp < 12 && MonthStart(mp) <= doy < MonthStart(mp + 1)
  }

  lemma MonthQuotient(doy: int, mp: int)
    requires InMonth(doy, mp)
    ensures (5 * doy + 2) / 153 == mp
  {
    MonthStartIs(mp);
    MonthStartIs(mp + 1);
    Quotient153(5 * doy + 2, mp);
  }

  lemma Quotient153(n: int, q: int)
    requires 153 * q <= n < 153 * (q + 1)
    ensures n / 153 == q
  {
  }

  lemma FromMarchIs(y: int, doy: int, mp: int)
    requires InMonth(doy, mp)
    ensures FromMarch(y, doy) ==
            Date(if mp < 10 then y else y + 1, if mp < 10 then mp + 3 else mp - 9, doy - MonthStart(mp) + 1)
  {
    MonthQuotient(doy, mp);
    MonthStartIs(mp);
  }

  /** Up to January the months from March have the usual lengths. */
  lemma MonthLength(y: int, mp: int)
    requires 0 <= mp < 11
    ensures DaysInMonth(y, if mp < 10 then mp + 3 else mp - 9) == MonthStart(mp + 1) - MonthStart(mp)
  {
  }

  lemma FindMonth(doy: int) returns (mp: int)
    requires 0 <= doy < 367
    ensures InMonth(doy, mp)
  {
    mp := 0;
    while doy >= MonthStart(mp + 1)
      invariant 0 <= mp < 12 && MonthStart(mp) <= doy
      decreases 12 - mp
    {
      mp := mp + 1;
    }
  }

  /** The next day of the same year, or the first of March. */
  lemma FromMarchNext(y: int, doy: int)
    requires 0 <= doy < MarchYearDays(y)
    ensures NextDay(FromMarch(y, doy)) ==
            if doy + 1 < MarchYearDays(y) then FromMarch(y, doy + 1) else FromMarch(y + 1, 0)
  {
    var mp := FindMonth(doy);
    FromMarchIs(y, doy, mp);
    if doy + 1 == MarchYearDays(y) {
      FromMarchIs(y + 1, 0, 0);
    } else if doy + 1 < MonthStart(mp + 1) {
      FromMarchIs(y, doy + 1, mp);
      if mp < 11 { MonthLength(y, mp); }
    } else {
      MonthStartIs(mp + 1);
      FromMarchIs(y, doy + 1, mp + 1);
      MonthLength(y, mp);
    }
  }

  // --- all days ---

  lemma EraOf(z: int, era: int, doe: int)
    requires z == 146_097 * era + doe && 0 <= doe < 146_097
    ensures z / 146_097 == era && z % 146_097 == doe
  {
  }

  /** A day's era, year and day of the era, and its March-based year and day. */
  datatype Place = Place(era: int, yoe: int, doe: int, year: int, doy: int)

  predicate ValidPlace(p: Place) {
    && 0 <= p.doe && InYear(p.doe, p.yoe)
    && p.year == p.yoe + p.era * 400 && p.doy == p.doe - DaysBefore(p.yoe)
  }

  lemma NextPlace(p: Place) returns (q: Place)
    requires ValidPlace(p)
    ensures ValidPlace(q) && 146_097 * q.era + q.doe == 146_097 * p.era + p.doe + 1
    ensures 0 <= p.doy < MarchYearDays(p.year)
    ensures (q.year, q.doy) == if p.doy + 1 < MarchYearDays(p.year) then (p.year, p.doy + 1) else (p.year + 1, 0)
  {
    YearLength(p.era, p.yoe);
    EraDays();
    if p.doy + 1 < MarchYearDays(p.year) {
      q := p.(doe := p.doe + 1, doy := p.doy + 1);
    } else if p.yoe < 399 {
      YearLength(p.era, p.yoe + 1);
      q := Place(p.era, p.yoe + 1, p.doe + 1, p.year + 1, 0);
    } else {
      q := Place(p.era + 1, 0, 0, p.year + 1, 0);
    }
  }

  lemma NextValid(d: Date)
    requires ValidDate(d)
    ensures ValidDate(NextDay(d))
  {
  }

  lemma Advance(d: Date, before: Place) returns (p: Place)
    requires ValidPlace(before) && ValidDate(d) && d == FromMarch(before.year, before.doy)
    ensures ValidPlace(p) && 146_097 * p.era + p.doe == 146_097 * before.era + before.doe + 1
    ensures NextDay(d) == FromMarch(p.year, p.doy) && ValidDate(NextDay(d))
  {
    p := NextPlace(before);
    FromMarchNext(before.year, before.doy);
    NextValid(d);
  }

  lemma Epoch() returns (p: Place)
    ensures ValidPlace(p) && 719_468 == 146_097 * p.era + p.doe && FromMarch(p.year, p.doy) == Date(1970, 1, 1)
  {
    p := Place(4, 369, 135_080, 1969, 306);
    DaysBeforeIs(369);
    DaysBeforeIs(370);
  }

  /** The place in the March-based calendar that the counted date stands for. */
  lemma {:induction false} CountedPlace(n: nat) returns (p: Place)
    ensures ValidPlace(p) && n + 719_468 == 146_097 * p.era + p.doe
    ensures DateAfter(n) == FromMarch(p.year, p.doy) && ValidDate(DateAfter(n))
  {
    if n == 0 {
      p := Epoch();
    } else {
      var before := CountedPlace(n - 1);
      p := Advance(DateAfter(n - 1), before);
    }
  }

  /** The position in the March-based calendar that the arithmetic finds. */
  lemma Located(days: int, p: Place)
    requires ValidPlace(p) && days + 719_468 == 146_097 * p.era + p.doe
    ensures MarchDay(days) == (p.year, p.doy)
  {
    YearBelow(p.doe, p.yoe);
    EraOf(days + 719_468, p.era, p.doe);
    YearArguments(p);
  }

  lemma YearArguments(p: Place)
    requires ValidPlace(p)
    ensures var yoe := Numerator(p.doe) / 365;
      yoe + p.era * 400 == p.year && p.doe - (365 * yoe + yoe / 4 - yoe / 100) == p.doy
  {
    YearUnique(p.doe, p.yoe);
    DaysBeforeIs(p.yoe);
  }

  /** For every day since 1970-01-01 the arithmetic gives the counted date. */
  lemma CivilIsCounted(n: nat)
    ensures CivilFromDays(n) == DateAfter(n) && ValidDate(DateAfter(n))
  {
    var p := CountedPlace(n);
    Located(n, p);
  }

  lemma TimeOfDay(secs: nat)
    requires secs < 86_400
    ensures 0 <= secs / 3600 < 24 && 0 <= secs % 3600 / 60 < 60
    ensures 3600 * (secs / 3600) + 60 * (secs % 3600 / 60) + secs % 60 == secs
    ensures secs % 3600 % 60 == secs % 60
  {
  }

  /** For every epoch second: the counted date, and the time that makes up the rest of the day. */
  lemma FormatTsIsCivil(t: nat)
    ensures var s := FormatTs(t);
      && s.date == DateAfter(t / 86_400) && ValidDate(s.date)
      && 0 <= s.hour < 24 && 0 <= s.minute < 60 && 0 <= s.second < 60
      && 86_400 * (t / 86_400) + 3600 * s.hour + 60 * s.minute + s.second == t
  {
    CivilIsCounted(t / 86_400);
    TimeOfDay(t % 86_400);
  }

  lemma MarchCopiesAgree(days: int)
    ensures MarchDay(days) == MarchDay2(days)
  {
    var doe := (days + 719_468) % 146_097;
    var yoe := FindYear(doe);
    YearUnique(doe, yoe);
    var doy := doe - (365 * yoe + yoe / 4 - yoe / 100);
    assert doe - (365 * yoe + yoe / 4 - yoe / 100 + yoe / 146_096) == doy;
  }

  /** The two copies agree. */
  lemma CopiesAgree(t: nat)
    ensures FormatTs(t) == FormatTs2(t)
  {
    MarchCopiesAgree(t / 86_400);
    TimeOfDay(t % 86_400);
  }
}
