/** Days since 1970-01-01 and proleptic Gregorian dates, each way. */
module CivilCalendar {
  import opened Wrappers
  import opened Text

  datatype Date = Date(y: int, m: int, d: int)

  // ---- the calendar, from its own rules ----

  predicate Leap(y: int) { y % 4 == 0 && (y % 100 != 0 || y % 400 == 0) }

  function DaysInMonth(y: int, m: int): int
    requires 1 <= m <= 12
  {
    if m == 2 then (if Leap(y) then 29 else 28)
    else if m == 4 || m == 6 || m == 9 || m == 11 then 30
    else 31
  }

  predicate Valid(a: Date) { 1 <= a.m <= 12 && 1 <= a.d <= DaysInMonth(a.y, a.m) }

  function Tomorrow(a: Date): Date
    requires Valid(a)
  {
    if a.d < DaysInMonth(a.y, a.m) then Date(a.y, a.m, a.d + 1)
    else if a.m < 12 then Date(a.y, a.m + 1, 1)
    else Date(a.y + 1, 1, 1)
  }

  predicate Earlier(a: Date, b: Date) {
    a.y < b.y || (a.y == b.y && (a.m < b.m || (a.m == b.m && a.d < b.d)))
  }

  // ---- the program's two conversions ----

  /** Division rounding toward zero, by a positive divisor. */
  function Quot(a: int, b: int): int
    requires 0 < b
  {
    if 0 <= a then a / b else -((-a) / b)
  }

  /** Day number of a date: years counted from March, in eras of 400. */
  function DaysFromCivil(a: Date): int {
    var y := if a.m <= 2 then a.y - 1 else a.y;
    var era := Quot(if 0 <= y then y else y - 399, 400);
    var yoe := y - era * 400;
    var mp := (a.m + 9) % 12;
    var doy := (153 * mp + 2) / 5 + a.d - 1;
    var doe := yoe * 365 + yoe / 4 - yoe / 100 + doy;
    era * 146_097 + doe - 719_468
  }

  function CivilFromDays(day: int): Date {
    var z := day + 719_468;
    CivilOf(z / 146_097, z % 146_097)
  }

  /** The date of a day of an era. */
  function CivilOf(era: int, doe: int): Date {
    var yoe := (doe - doe / 1460 + doe / 36_524 - doe / 146_096) / 365;
    var y := yoe + era * 400;
    var doy := doe - (365 * yoe + yoe / 4 - yoe / 100);
    var mp := (5 * doy + 2) / 153;
    var d := doy - (153 * mp + 2) / 5 + 1;
    var m := if mp < 10 then mp + 3 else mp - 9;
    Date(if m <= 2 then y + 1 else y, m, d)
  }

  // ---- the day number, year by year and month by month ----

  /** The day number of 1 March, year `y`, from 1 March, year 0. */
  function YearStart(y: int): int { 365 * y + y / 4 - y / 100 + y / 400 }

  function MonthStart(mp: int): int { (153 * mp + 2) / 5 }

  function MarchYear(a: Date): int { if a.m <= 2 then a.y - 1 else a.y }

  function MarchMonth(a: Date): int { if a.m <= 2 then a.m + 9 else a.m - 3 }

  lemma EraIsFloor(y: int)
    ensures Quot(if 0 <= y then y else y - 399, 400) == y / 400
  {}

  lemma EraYear(y: int)
    ensures var era := y / 400; var yoe := y - era * 400;
            && 0 <= yoe < 400
            && era * 146_097 + yoe * 365 + yoe / 4 - yoe / 100 == YearStart(y)
  {
    var era := y / 400;
    var yoe := y - era * 400;
    assert y / 4 == era * 100 + yoe / 4;
    assert y / 100 == era * 4 + yoe / 100;
  }

  function DayNumber(a: Date): int {
    YearStart(MarchYear(a)) + MonthStart(MarchMonth(a)) + a.d - 1 - 719_468
  }

  lemma DaysAre(a: Date)
    requires 1 <= a.m <= 12
    ensures DaysFromCivil(a) == DayNumber(a)
  {
    EraIsFloor(MarchYear(a));
    EraYear(MarchYear(a));
    assert (a.m + 9) % 12 == MarchMonth(a);
  }

  lemma YearLength(y: int)
    ensures YearStart(y + 1) == YearStart(y) + if Leap(y + 1) then 366 else 365
  {
    assert (y + 1) / 4 == y / 4 + if (y + 1) % 4 == 0 then 1 else 0;
    assert (y + 1) / 100 == y / 100 + if (y + 1) % 100 == 0 then 1 else 0;
    assert (y + 1) / 400 == y / 400 + if (y + 1) % 400 == 0 then 1 else 0;
  }

  lemma MonthLength(a: Date)
    requires Valid(a)
    ensures a.m != 2 ==> MonthStart(MarchMonth(a) + 1) == MonthStart(MarchMonth(a)) + DaysInMonth(a.y, a.m)
    ensures a.m == 2 ==> MonthStart(MarchMonth(a)) + DaysInMonth(a.y, a.m) == if Leap(a.y) then 366 else 365
  {}

  lemma NextDay(a: Date)
    requires Valid(a)
    ensures Valid(Tomorrow(a)) && DayNumber(Tomorrow(a)) == DayNumber(a) + 1
  {
    MonthLength(a);
    if a.d == DaysInMonth(a.y, a.m) && a.m == 2 {
      YearLength(a.y - 1);
    }
  }

  /** The day number rises by one from each date to the next. */
  lemma TomorrowIsNext(a: Date)
    requires Valid(a)
    ensures Valid(Tomorrow(a)) && DaysFromCivil(Tomorrow(a)) == DaysFromCivil(a) + 1
  {
    NextDay(a);
    DaysAre(a);
    DaysAre(Tomorrow(a));
  }

  // ---- inverses ----

  lemma DivIs(a: int, b: int, q: int)
    requires 0 < b && q * b <= a < q * b + b
    ensures a / b == q && a % b == a - q * b
  {
    var k := a / b - q;
    assert k * b == (a - q * b) - a % b;
    NoMultiple(k, b);
  }

  lemma NoMultiple(k: int, b: int)
    requires 0 < b && -b < k * b < b
    ensures k == 0
  {}

  /** A year of an era is `r` past a leap cycle, `q` cycles past a century,
      `c` centuries in. */
  lemma YearParts(yoe: int) returns (c: int, q: int, r: int)
    requires 0 <= yoe < 400
    ensures 0 <= c < 4 && 0 <= q < 25 && 0 <= r < 4 && yoe == 100 * c + 4 * q + r
    ensures yoe / 4 == 25 * c + q && yoe / 100 == c
    ensures Leap(yoe + 1) ==> r == 3 && (q == 24 ==> c == 3)
  {
    c, q, r := yoe / 100, yoe % 100 / 4, yoe % 4;
  }

  /** The year of the era is recovered from the day of the era. */
  lemma YearRecovered(yoe: int, doy: int)
    requires 0 <= yoe < 400 && 0 <= doy <= 365
    requires doy == 365 ==> Leap(yoe + 1)
    ensures var doe := 365 * yoe + yoe / 4 - yoe / 100 + doy;
            && 0 <= doe < 146_097
            && (doe - doe / 1460 + doe / 36_524 - doe / 146_096) / 365 == yoe
  {
    var c, q, r := YearParts(yoe);
    PartsRecovered(c, q, r, doy);
  }

  lemma PartsRecovered(c: int, q: int, r: int, doy: int)
    requires 0 <= c < 4 && 0 <= q < 25 && 0 <= r < 4 && 0 <= doy <= 365
    requires doy == 365 ==> r == 3 && (q == 24 ==> c == 3)
    ensures var doe := 36_524 * c + (1461 * q + 365 * r + doy);
            && 0 <= doe < 146_097
            && (doe - doe / 1460 + doe / 36_524 - doe / 146_096) / 365 == 100 * c + 4 * q + r
  {
    CenturyRecovered(c, q, r, doy);
    CycleRecovered(c, q, r, doy);
    var e := if 24 * c + q + 365 * r + doy < 1460 then 0 else 1;
    DivIs(365 * (100 * c + 4 * q + r) + (doy - e), 365, 100 * c + 4 * q + r);
  }

  lemma CenturyRecovered(c: int, q: int, r: int, doy: int)
    requires 0 <= c < 4 && 0 <= q < 25 && 0 <= r < 4 && 0 <= doy <= 365
    requires doy == 365 ==> r == 3 && (q == 24 ==> c == 3)
    ensures var doe := 36_524 * c + (1461 * q + 365 * r + doy);
            doe / 36_524 - doe / 146_096 == c
  {
    var doe := 36_524 * c + (1461 * q + 365 * r + doy);
    if q == 24 && r == 3 && doy == 365 {
      assert doe == 146_096;
    } else {
      assert 1461 * q + 365 * r + doy < 36_524;
      DivIs(doe, 36_524, c);
      DivIs(doe, 146_096, 0);
    }
  }

  lemma CycleRecovered(c: int, q: int, r: int, doy: int)
    requires 0 <= c < 4 && 0 <= q < 25 && 0 <= r < 4 && 0 <= doy <= 365
    requires doy == 365 ==> r == 3
    ensures var doe := 36_524 * c + (1461 * q + 365 * r + doy);
            var x := 24 * c + q + 365 * r + doy;
            var e := if x < 1460 then 0 else 1;
            doe / 1460 == 25 * c + q + e && 0 <= doy - e < 365
  {
    var doe := 36_524 * c + (1461 * q + 365 * r + doy);
    var x := 24 * c + q + 365 * r + doy;
    assert doe == 1460 * (25 * c + q) + x;
    DivIs(doe, 1460, 25 * c + q + if x < 1460 then 0 else 1);
  }

  lemma MonthRecovered(mp: int, d: int)
    requires 0 <= mp < 12 && 1 <= d && d - 1 < MonthStart(mp + 1) - MonthStart(mp)
    ensures (5 * (MonthStart(mp) + d - 1) + 2) / 153 == mp
  {}

  lemma DayOfYear(a: Date)
    requires Valid(a)
    ensures var doy := MonthStart(MarchMonth(a)) + a.d - 1;
            && 0 <= doy <= 365 && (doy == 365 ==> Leap(MarchYear(a) + 1))
            && a.d - 1 < MonthStart(MarchMonth(a) + 1) - MonthStart(MarchMonth(a))
  {
    MonthLength(a);
  }

  /** The conversion back, given the era, the year of it and the day of that. */
  lemma Assembled(era: int, yoe: int, mp: int, d: int)
    requires 0 <= yoe < 400 && 0 <= mp < 12 && 1 <= d && d - 1 < MonthStart(mp + 1) - MonthStart(mp)
    requires var doy := MonthStart(mp) + d - 1; 0 <= doy <= 365 && (doy == 365 ==> Leap(yoe + 1))
    ensures var m := if mp < 10 then mp + 3 else mp - 9;
            var doe := 365 * yoe + yoe / 4 - yoe / 100 + (MonthStart(mp) + d - 1);
            && 0 <= doe < 146_097
            && CivilOf(era, doe) == Date(if m <= 2 then yoe + era * 400 + 1 else yoe + era * 400, m, d)
  {
    YearRecovered(yoe, MonthStart(mp) + d - 1);
    MonthRecovered(mp, d);
  }

  lemma FromEra(day: int, era: int, doe: int)
    requires day + 719_468 == era * 146_097 + doe && 0 <= doe < 146_097
    ensures CivilFromDays(day) == CivilOf(era, doe)
  {
    DivIs(day + 719_468, 146_097, era);
  }

  lemma LeapInEra(y: int)
    ensures Leap(y + 1) == Leap(y - y / 400 * 400 + 1)
  {
    var era := y / 400;
    var n := y - era * 400 + 1;
    DivIs(y + 1, 4, n / 4 + 100 * era);
    DivIs(y + 1, 100, n / 100 + 4 * era);
    DivIs(y + 1, 400, n / 400 + era);
  }

  /** A day number as an era, a year of it, and a day of that. */
  lemma Decomposed(a: Date) returns (era: int, yoe: int)
    requires Valid(a)
    ensures MarchYear(a) == era * 400 + yoe && 0 <= yoe < 400
    ensures var doy := MonthStart(MarchMonth(a)) + a.d - 1;
            && 0 <= doy <= 365 && (doy == 365 ==> Leap(yoe + 1))
            && a.d - 1 < MonthStart(MarchMonth(a) + 1) - MonthStart(MarchMonth(a))
            && DayNumber(a) + 719_468 == era * 146_097 + (365 * yoe + yoe / 4 - yoe / 100 + doy)
  {
    var y := MarchYear(a);
    era := y / 400;
    yoe := y - era * 400;
    EraYear(y);
    DayOfYear(a);
    LeapInEra(y);
  }

  lemma NumberRecovered(a: Date)
    requires Valid(a)
    ensures CivilFromDays(DayNumber(a)) == a
  {
    var era, yoe := Decomposed(a);
    Assembled(era, yoe, MarchMonth(a), a.d);
    FromEra(DayNumber(a), era, 365 * yoe + yoe / 4 - yoe / 100 + (MonthStart(MarchMonth(a)) + a.d - 1));
  }

  /** A date's day number is that date's. */
  lemma DateRecovered(a: Date)
    requires Valid(a)
    ensures CivilFromDays(DaysFromCivil(a)) == a
  {
    DaysAre(a);
    NumberRecovered(a);
  }

  lemma YearPeriod(y: int)
    ensures YearStart(y - 400) == YearStart(y) - 146_097 && Leap(y - 400) == Leap(y)
  {
    assert (y - 400) / 4 == y / 4 - 100;
    assert (y - 400) / 100 == y / 100 - 4;
    assert (y - 400) / 400 == y / 400 - 1;
  }

  lemma Period(a: Date)
    requires Valid(a)
    ensures var b := Date(a.y - 400, a.m, a.d);
            Valid(b) && DaysFromCivil(b) == DaysFromCivil(a) - 146_097
  {
    YearPeriod(a.y);
    YearPeriod(MarchYear(a));
    DaysAre(a);
    DaysAre(Date(a.y - 400, a.m, a.d));
  }

  /** Every day number is some date's. */
  lemma {:induction false} DateOf(day: int) returns (a: Date)
    ensures Valid(a) && DaysFromCivil(a) == day
    decreases if day < 0 then 1 else 0, if day < 0 then -day else day
  {
    if day == 0 {
      a := Date(1970, 1, 1);
      DaysAre(a);
    } else if 0 < day {
      var b := DateOf(day - 1);
      a := Tomorrow(b);
      TomorrowIsNext(b);
    } else {
      var b := DateOf(day + 146_097);
      a := Date(b.y - 400, b.m, b.d);
      Period(b);
    }
  }

  /** A day number's date is valid, and its day number is that. */
  lemma DayRecovered(day: int)
    ensures Valid(CivilFromDays(day)) && DaysFromCivil(CivilFromDays(day)) == day
  {
    var a := DateOf(day);
    DateRecovered(a);
  }

  // ---- order ----

  lemma {:induction false} YearsRise(x: int, y: int)
    requires x <= y
    ensures YearStart(x) + 365 * (y - x) <= YearStart(y)
    decreases y - x
  {
    if x < y {
      YearLength(x);
      YearsRise(x + 1, y);
    }
  }

  /** Day numbers order valid dates as the calendar does. */
  lemma DaysKeepOrder(a: Date, b: Date)
    requires Valid(a) && Valid(b)
    ensures Earlier(a, b) <==> DaysFromCivil(a) < DaysFromCivil(b)
  {
    if Earlier(a, b) {
      EarlierRises(a, b);
    } else if a != b {
      EarlierRises(b, a);
    }
  }

  lemma EarlierRises(a: Date, b: Date)
    requires Valid(a) && Valid(b) && Earlier(a, b)
    ensures DaysFromCivil(a) < DaysFromCivil(b)
  {
    DaysAre(a);
    DaysAre(b);
    if MarchYear(a) < MarchYear(b) {
      YearApart(a, b);
    } else {
      SameYear(a, b);
    }
  }

  lemma YearApart(a: Date, b: Date)
    requires Valid(a) && Valid(b) && MarchYear(a) < MarchYear(b)
    ensures DayNumber(a) < DayNumber(b)
  {
    DayOfYear(a);
    DayOfYear(b);
    YearLength(MarchYear(a));
    YearsRise(MarchYear(a) + 1, MarchYear(b));
  }

  lemma SameYear(a: Date, b: Date)
    requires Valid(a) && Valid(b) && Earlier(a, b) && MarchYear(b) <= MarchYear(a)
    ensures DayNumber(a) < DayNumber(b)
  {
    assert MarchYear(a) == MarchYear(b);
    DayOfYear(a);
    assert MarchMonth(a) < MarchMonth(b) || (MarchMonth(a) == MarchMonth(b) && a.d < b.d);
  }

  // ---- dates as text ----

  const DAY_MILLIS: int := 86_400_000

  /** A run of digits as a number; nothing else is one. */
  function Num(s: string): Option<nat> {
    if s == "" || !AllDigits(s) then None else Some(Number(s))
  }

  predicate InRange(n: Option<nat>, lo: nat, hi: nat) { n.Some? && lo <= n.value <= hi }

  /** A stored `when` as Unix millis. Text is ASCII here: one byte a char. */
  function WhenMillis(when: string): Option<int> {
    if |when| < 10 then None
    else
      var day := DayMillis(Num(when[0..4]), Num(when[5..7]), Num(when[8..10]));
      if |when| != 16 then day else Plus(day, TimeMillis(Num(when[11..13]), Num(when[14..16])))
  }

  function DayMillis(y: Option<nat>, m: Option<nat>, d: Option<nat>): Option<int> {
    if y == None || !InRange(m, 1, 12) || !InRange(d, 1, 31) then None
    else Some(DaysFromCivil(Date(y.value, m.value, d.value)) * DAY_MILLIS)
  }

  function TimeMillis(h: Option<nat>, min: Option<nat>): Option<int> {
    if h == None || min == None then None else Some((h.value * 60 + min.value) * 60_000)
  }

  function Plus(a: Option<int>, b: Option<int>): Option<int> {
    if a == None || b == None then None else Some(a.value + b.value)
  }

  function YearText(y: int): string { if y < 0 then "-" + Pad(-y, 3) else Pad(y, 4) }

  /** A month of the year and a day of some month. */
  predicate Ranged(a: Date) { 1 <= a.m <= 12 && 1 <= a.d <= 31 }

  function DateText(a: Date): string
    requires Ranged(a)
  {
    YearText(a.y) + "-" + Pad(a.m, 2) + "-" + Pad(a.d, 2)
  }

  function TimeText(h: nat, min: nat): string { Pad(h, 2) + ":" + Pad(min, 2) }

  /** Unix millis as a UTC stamp, rounded down to the minute. */
  function FormatTs(ms: int): string {
    var secs := ms / 1000;
    var rem := secs % 86_400;
    DayRecovered(secs / 86_400);
    DateText(CivilFromDays(secs / 86_400)) + " " + TimeText(rem / 3600, rem % 3600 / 60) + " UTC"
  }

  lemma DigitsWidth(n: nat)
    ensures n < 10 ==> |Digits(n)| == 1
    ensures 10 <= n < 100 ==> |Digits(n)| == 2
    ensures 100 <= n < 1000 ==> |Digits(n)| == 3
    ensures 1000 <= n < 10_000 ==> |Digits(n)| == 4
  {
    if 10 <= n { assert |Digits(n)| == |Digits(n / 10)| + 1; }
    if 100 <= n { assert |Digits(n / 10)| == |Digits(n / 10 / 10)| + 1; }
    if 1000 <= n { assert |Digits(n / 10 / 10)| == |Digits(n / 10 / 10 / 10)| + 1; }
  }

  lemma PadWidth(n: nat)
    ensures n < 100 ==> |Pad(n, 2)| == 2
    ensures n < 10_000 ==> |Pad(n, 4)| == 4
  {
    DigitsWidth(n);
  }

  lemma TwoDigits(n: nat)
    requires n < 100
    ensures |Pad(n, 2)| == 2 && Num(Pad(n, 2)) == Some(n)
  {
    PadWidth(n);
    NumberOfPad(n, 2);
  }

  /** The fields of a date's text are where the reader looks. */
  lemma DateFields(a: Date, rest: string)
    requires Ranged(a) && 0 <= a.y < 10_000
    ensures var s := DateText(a) + rest;
            && |DateText(a)| == 10 && |s| == 10 + |rest|
            && s[0..4] == Pad(a.y, 4) && s[5..7] == Pad(a.m, 2) && s[8..10] == Pad(a.d, 2) && s[10..] == rest
            && Num(s[0..4]) == Some(a.y) && Num(s[5..7]) == Some(a.m) && Num(s[8..10]) == Some(a.d)
  {
    PadWidth(a.y);
    NumberOfPad(a.y, 4);
    TwoDigits(a.m);
    TwoDigits(a.d);
    DateSpliced(Pad(a.y, 4), Pad(a.m, 2), Pad(a.d, 2), rest);
  }

  lemma DateSpliced(y: string, m: string, d: string, rest: string)
    requires |y| == 4 && |m| == 2 && |d| == 2
    ensures var s := y + "-" + m + "-" + d + rest;
            |s| == 10 + |rest| && s[0..4] == y && s[5..7] == m && s[8..10] == d && s[10..] == rest
  {}

  /** Reading back what is printed: a date is its own midnight. */
  lemma DateRead(a: Date)
    requires Ranged(a) && 0 <= a.y < 10_000
    ensures WhenMillis(DateText(a)) == Some(DaysFromCivil(a) * DAY_MILLIS)
  {
    DateFields(a, "");
    assert DateText(a) + "" == DateText(a);
  }

  lemma TimeFields(h: nat, min: nat)
    requires h < 24 && min < 60
    ensures var t := "T" + TimeText(h, min);
            |t| == 6 && t[1..3] == Pad(h, 2) && t[4..6] == Pad(min, 2) && Num(t[1..3]) == Some(h)
                && Num(t[4..6]) == Some(min)
  {
    TwoDigits(h);
    TwoDigits(min);
    Spliced(Pad(h, 2), Pad(min, 2));
  }

  lemma Spliced(x: string, y: string)
    requires |x| == 2 && |y| == 2
    ensures var t := "T" + (x + ":" + y); |t| == 6 && t[1..3] == x && t[4..6] == y
  {}

  /** Text whose fields are where the reader looks. */
  ghost predicate Says(s: string, a: Date, h: nat, min: nat) {
    && |s| == 16 && Num(s[0..4]) == Some(a.y) && Num(s[5..7]) == Some(a.m) && Num(s[8..10]) == Some(a.d)
    && Num(s[11..13]) == Some(h) && Num(s[14..16]) == Some(min)
  }

  lemma MomentSays(a: Date, h: nat, min: nat)
    requires Valid(a) && 0 <= a.y < 10_000 && h < 24 && min < 60
    ensures Says(DateText(a) + ("T" + TimeText(h, min)), a, h, min)
  {
    var t := "T" + TimeText(h, min);
    var s := DateText(a) + t;
    DateFields(a, t);
    TimeFields(h, min);
    assert s[11..13] == s[10..][1..3] == t[1..3];
    assert s[14..16] == s[10..][4..6] == t[4..6];
  }

  function MomentMillis(day: int, h: nat, min: nat): int { day * DAY_MILLIS + (h * 60 + min) * 60_000 }

  lemma SaidRead(s: string, a: Date, h: nat, min: nat)
    requires Valid(a) && a.y >= 0 && Says(s, a, h, min)
    ensures WhenMillis(s) == Some(MomentMillis(DaysFromCivil(a), h, min))
  {
    assert DayMillis(Some(a.y), Some(a.m), Some(a.d)) == Some(DaysFromCivil(a) * DAY_MILLIS);
  }

  lemma MomentParts(day: int, h: int, min: int)
    requires 0 <= h < 24 && 0 <= min < 60
    ensures var secs := (day * DAY_MILLIS + (h * 60 + min) * 60_000) / 1000;
            secs / 86_400 == day && secs % 86_400 / 3600 == h && secs % 86_400 % 3600 / 60 == min
  {
    var rem := h * 3600 + min * 60;
    DivIs(day * DAY_MILLIS + (h * 60 + min) * 60_000, 1000, day * 86_400 + rem);
    DivIs(day * 86_400 + rem, 86_400, day);
    DivIs(rem, 3600, h);
    DivIs(min * 60, 60, min);
  }

  lemma Stamped(day: int, h: nat, min: nat)
    requires Valid(CivilFromDays(day)) && h < 24 && min < 60
    ensures FormatTs(MomentMillis(day, h, min)) == DateText(CivilFromDays(day)) + " " + TimeText(h, min) + " UTC"
  {
    MomentParts(day, h, min);
  }

  lemma MinuteParts(ms: int) returns (day: int, h: nat, min: nat)
    ensures h < 24 && min < 60 && MomentMillis(day, h, min) <= ms < MomentMillis(day, h, min) + 60_000
    ensures day == ms / 1000 / 86_400 && h == ms / 1000 % 86_400 / 3600 && min == ms / 1000 % 86_400 % 3600 / 60
  {
    var secs := ms / 1000;
    day := secs / 86_400;
    var rem := secs % 86_400;
    h, min := rem / 3600, rem % 3600 / 60;
    assert ms == secs * 1000 + ms % 1000;
    assert secs == day * 86_400 + rem;
    assert rem == h * 3600 + rem % 3600 && rem % 3600 == min * 60 + rem % 3600 % 60;
  }

  /** Every stamp, of times before 1970 too: the minute it is in, rounded
      down. */
  lemma StampFloors(ms: int) returns (a: Date, h: nat, min: nat)
    ensures Valid(a) && h < 24 && min < 60
    ensures MomentMillis(DaysFromCivil(a), h, min) <= ms < MomentMillis(DaysFromCivil(a), h, min) + 60_000
    ensures FormatTs(ms) == DateText(a) + " " + TimeText(h, min) + " UTC"
  {
    var day;
    day, h, min := MinuteParts(ms);
    DayRecovered(day);
    a := CivilFromDays(day);
  }

  /** A stored moment prints as the moment it says: `when_millis` and
      `format_ts` agree on every minute of every four-digit year. */
  lemma MomentRoundTrip(a: Date, h: nat, min: nat) returns (ms: int)
    requires Valid(a) && 0 <= a.y < 10_000 && h < 24 && min < 60
    ensures WhenMillis(DateText(a) + ("T" + TimeText(h, min))) == Some(ms)
    ensures FormatTs(ms) == DateText(a) + " " + TimeText(h, min) + " UTC"
  {
    var day := DaysFromCivil(a);
    DateRecovered(a);
    MomentSays(a, h, min);
    SaidRead(DateText(a) + ("T" + TimeText(h, min)), a, h, min);
    Stamped(day, h, min);
    ms := MomentMillis(day, h, min);
  }

  // ---- as a ranking key ----

  /** Two stored days compare as the calendar has them. */
  lemma WhenKeepsOrder(a: Date, b: Date)
    requires Valid(a) && Valid(b) && 0 <= a.y < 10_000 && 0 <= b.y < 10_000
    ensures var s, t := WhenMillis(DateText(a)), WhenMillis(DateText(b));
            s.Some? && t.Some? && (Earlier(a, b) <==> s.value < t.value)
  {
    DateRead(a);
    DateRead(b);
    DaysKeepOrder(a, b);
  }

  /** A stored `when`: a day, with a time of day or without. */
  datatype Moment = Moment(day: Date, time: Option<(nat, nat)>) {
    predicate Storable() {
      Valid(day) && 0 <= day.y < 10_000 && (time.Some? ==> time.value.0 < 24 && time.value.1 < 60)
    }

    function Text(): string
      requires Storable()
    {
      if time.Some? then DateText(day) + ("T" + TimeText(time.value.0, time.value.1)) else DateText(day)
    }

    /** The minute of the day; a day alone is its midnight. */
    function Minute(): nat {
      if time.Some? then time.value.0 * 60 + time.value.1 else 0
    }
  }

  lemma MomentRead(a: Moment)
    requires a.Storable()
    ensures WhenMillis(a.Text()) == Some(DaysFromCivil(a.day) * DAY_MILLIS + a.Minute() * 60_000)
    ensures a.Minute() < 1440
  {
    if a.time.Some? {
      MomentSays(a.day, a.time.value.0, a.time.value.1);
      SaidRead(a.Text(), a.day, a.time.value.0, a.time.value.1);
    } else {
      DateRead(a.day);
    }
  }

  /** Any two stored values compare by their days, and on one day by their
      minutes. */
  lemma MomentsKeepOrder(a: Moment, b: Moment)
    requires a.Storable() && b.Storable()
    ensures var s, t := WhenMillis(a.Text()), WhenMillis(b.Text());
            && s.Some? && t.Some?
            && (s.value < t.value <==> Earlier(a.day, b.day) || (a.day == b.day && a.Minute() < b.Minute()))
  {
    MomentRead(a);
    MomentRead(b);
    DaysKeepOrder(a.day, b.day);
    DaysKeepOrder(b.day, a.day);
  }

  // ---- what the reader lets through ----

  /** The lengths, digits and ranges the reader checks. */
  predicate Readable(s: string) {
    && 10 <= |s| && AllDigits(s[0..4]) && AllDigits(s[5..7]) && AllDigits(s[8..10])
    && 1 <= Number(s[5..7]) <= 12 && 1 <= Number(s[8..10]) <= 31
    && (|s| == 16 ==> AllDigits(s[11..13]) && AllDigits(s[14..16]))
  }

  /** Of every string: it is read exactly when those hold. */
  lemma WhenReads(s: string)
    ensures WhenMillis(s).Some? <==> Readable(s)
  {}

  /** The date the reader takes it to name. */
  function Named(s: string): (a: Date)
    requires Readable(s)
    ensures Ranged(a)
  {
    Date(Number(s[0..4]), Number(s[5..7]), Number(s[8..10]))
  }

  /** What it does not check: the separators, the month's length, the time's
      range, and that nothing follows. */
  predicate Strict(s: string)
    requires Readable(s)
  {
    && s[4] == '-' && s[7] == '-' && Valid(Named(s))
    && (|s| == 10 || (|s| == 16 && s[10] == 'T' && s[13] == ':' && Number(s[11..13]) < 24 && Number(s[14..16]) < 60))
  }

  /** `YYYY-MM-DD` or `YYYY-MM-DDTHH:MM`, of a day there is and a time of it. */
  ghost predicate WellFormed(s: string) {
    exists a: Moment :: a.Storable() && s == a.Text()
  }

  lemma DayTextOf(s: string)
    requires Readable(s) && s[4] == '-' && s[7] == '-'
    ensures DateText(Named(s)) == s[..10]
  {
    PadOfNumber(s[0..4]);
    PadOfNumber(s[5..7]);
    PadOfNumber(s[8..10]);
    assert s[..10] == s[0..4] + [s[4]] + s[5..7] + [s[7]] + s[8..10];
  }

  lemma TimeTextOf(s: string)
    requires Readable(s) && |s| == 16 && s[10] == 'T' && s[13] == ':'
    ensures "T" + TimeText(Number(s[11..13]), Number(s[14..16])) == s[10..]
  {
    PadOfNumber(s[11..13]);
    PadOfNumber(s[14..16]);
    assert s[10..] == [s[10]] + (s[11..13] + [s[13]] + s[14..16]);
  }

  lemma DigitPair(t: string)
    requires |t| == 2 && AllDigits(t)
    ensures Number(t) == (t[0] as int - '0' as int) * 10 + (t[1] as int - '0' as int)
  {
    assert t[..1] == [t[0]];
    assert Number([t[0]]) == Number([t[0]][..0]) * 10 + (t[0] as int - '0' as int);
  }

  lemma FourDigits(t: string)
    requires |t| == 4 && AllDigits(t)
    ensures Number(t) < 10_000
  {
    assert t[..3][..2] == t[..2];
    DigitPair(t[..2]);
  }

  lemma StrictIsWellFormed(s: string)
    requires Readable(s) && Strict(s)
    ensures WellFormed(s)
  {
    DayTextOf(s);
    FourDigits(s[0..4]);
    if |s| == 10 {
      var a := Moment(Named(s), None);
      assert s[..10] == s;
      assert a.Storable() && s == a.Text();
    } else {
      TimeTextOf(s);
      var a := Moment(Named(s), Some((Number(s[11..13]), Number(s[14..16]))));
      assert s == s[..10] + s[10..];
      assert a.Storable() && s == a.Text();
    }
  }

  lemma DayTextShape(a: Date, rest: string)
    requires Ranged(a) && 0 <= a.y < 10_000
    ensures var s := DateText(a) + rest; |s| == 10 + |rest| && s[4] == '-' && s[7] == '-'
  {
    DateFields(a, rest);
  }

  lemma WellFormedIsStrict(s: string, a: Moment)
    requires a.Storable() && s == a.Text()
    ensures Readable(s) && Strict(s)
  {
    var rest := if a.time.Some? then "T" + TimeText(a.time.value.0, a.time.value.1) else "";
    assert s == DateText(a.day) + rest;
    DateFields(a.day, rest);
    DayTextShape(a.day, rest);
    if a.time.Some? {
      TimeFields(a.time.value.0, a.time.value.1);
      MomentSays(a.day, a.time.value.0, a.time.value.1);
      assert s[10] == rest[0] && s[13] == rest[3];
    }
  }

  /** The reader is said to answer nothing on anything malformed. It answers
      on a malformed string exactly when the string passes what it checks and
      fails what it does not. */
  lemma ReadsMalformed(s: string)
    ensures WhenMillis(s).Some? && !WellFormed(s) <==> Readable(s) && !Strict(s)
  {
    WhenReads(s);
    if WellFormed(s) {
      var a: Moment :| a.Storable() && s == a.Text();
      WellFormedIsStrict(s, a);
    } else if Readable(s) && Strict(s) {
      StrictIsWellFormed(s);
    }
  }

  /** Strings that are: other separators, a day April has not, something after
      the day, no time of day. */
  lemma MalformedRead(s: string)
    requires s in ["2021x04y30", "2021-04-31", "2021-04-30T", "2021-04-30T99:99"]
    ensures WhenMillis(s).Some? && !WellFormed(s)
  {
    FieldsOf2021(s);
    DigitPair(s[5..7]);
    DigitPair(s[8..10]);
    if |s| == 16 { DigitPair(s[11..13]); }
    ReadsMalformed(s);
  }

  lemma FieldsOf2021(s: string)
    requires s in ["2021x04y30", "2021-04-31", "2021-04-30T", "2021-04-30T99:99"]
    ensures |s| >= 10 && s[0..4] == "2021" && s[5..7] == "04"
    ensures s[8..10] == (if s == "2021-04-31" then "31" else "30")
    ensures |s| == 16 <==> s == "2021-04-30T99:99"
    ensures |s| == 16 ==> s[11..13] == "99" && s[14..16] == "99"
  {}

  lemma SameMonth(y: int, m: int, d: int, e: int)
    requires 1 <= m <= 12
    ensures DaysFromCivil(Date(y, m, d)) == DaysFromCivil(Date(y, m, e)) + (d - e)
  {}

  lemma NextMonth(y: int, m: int)
    requires 1 <= m < 12
    ensures DaysFromCivil(Date(y, m + 1, 1)) == DaysFromCivil(Date(y, m, DaysInMonth(y, m))) + 1
  {
    TomorrowIsNext(Date(y, m, DaysInMonth(y, m)));
  }

  /** A day the calendar has not is read as one of the next month. */
  lemma PastMonthEnd(y: int, m: int, d: int)
    requires 1 <= m <= 12 && DaysInMonth(y, m) < d <= 31
    ensures m < 12 && Valid(Date(y, m + 1, d - DaysInMonth(y, m)))
    ensures DaysFromCivil(Date(y, m, d)) == DaysFromCivil(Date(y, m + 1, d - DaysInMonth(y, m)))
  {
    NextMonth(y, m);
    SameMonth(y, m, d, DaysInMonth(y, m));
    SameMonth(y, m + 1, d - DaysInMonth(y, m), 1);
  }

  /** So of every month and day the reader lets through: the date comes back
      exactly when the month has the day. */
  lemma KeptIfInMonth(a: Date)
    requires Ranged(a)
    ensures CivilFromDays(DaysFromCivil(a)) == a <==> a.d <= DaysInMonth(a.y, a.m)
  {
    if a.d <= DaysInMonth(a.y, a.m) {
      DateRecovered(a);
    } else {
      PastMonthEnd(a.y, a.m, a.d);
      DateRecovered(Date(a.y, a.m + 1, a.d - DaysInMonth(a.y, a.m)));
    }
  }

  /** As stored text: 31 April reads as 1 May, 31 February as 2 or 3 March. */
  lemma PastMonthEndRead(y: int, m: int, d: int)
    requires 0 <= y < 10_000 && 1 <= m <= 12 && DaysInMonth(y, m) < d <= 31
    ensures m < 12 && Valid(Date(y, m + 1, d - DaysInMonth(y, m)))
    ensures WhenMillis(DateText(Date(y, m, d))) == WhenMillis(DateText(Date(y, m + 1, d - DaysInMonth(y, m))))
  {
    PastMonthEnd(y, m, d);
    DateRead(Date(y, m, d));
    DateRead(Date(y, m + 1, d - DaysInMonth(y, m)));
  }
}
