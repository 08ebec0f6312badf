/**
 The date and the two stamps of a crash record: civil date arithmetic on counted days, and
 the text made of it.
 */
module Civil {

  datatype Date = Date(year: int, month: int, day: int)

  datatype Moment = Moment(date: Date, hour: nat, minute: nat, second: nat)

  /** The date of a count of days since 1970-01-01, by eras of 400 years that begin in March. */
  function CivilDate(days: nat): Date {
    var z := days + 719468;
    var era := z / 146097;
    var doe := z % 146097;
    var yoe := YearOfEra(doe);
    var doy := doe - (365 * yoe + yoe / 4 - yoe / 100);
    var mp := (5 * doy + 2) / 153;
    var day := doy - (153 * mp + 2) / 5 + 1;
    var month := if mp < 10 then mp + 3 else mp - 9;
    Date(yoe + era * 400 + if month <= 2 then 1 else 0, month, day)
  }

  function YearOfEra(doe: int): int {
    (doe - doe / 1460 + doe / 36524 - doe / 146096) / 365
  }

  function At(seconds: nat): Moment {
    var rest := seconds % 86400;
    Moment(CivilDate(seconds / 86400), rest / 3600, rest % 3600 / 60, rest % 60)
  }

  // The proleptic Gregorian calendar, by its own rules

  predicate Leap(year: int) {
    year % 4 == 0 && (year % 100 != 0 || year % 400 == 0)
  }

  function DaysIn(year: int, month: int): int {
    if month == 2 then if Leap(year) then 29 else 28
    else if month == 4 || month == 6 || month == 9 || month == 11 then 30
    else 31
  }

  predicate Valid(d: Date) {
    1 <= d.month <= 12 && 1 <= d.day <= DaysIn(d.year, d.month)
  }

  function NextDay(d: Date): Date {
    if d.day < DaysIn(d.year, d.month) then d.(day := d.day + 1)
    else if d.month < 12 then Date(d.year, d.month + 1, 1)
    else Date(d.year + 1, 1, 1)
  }

  /** The date `n` days after 1970-01-01, a day at a time. */
  function Counted(n: nat): Date {
    if n == 0 then Date(1970, 1, 1) else NextDay(Counted(n - 1))
  }

  function DaysBeforeMonth(year: int, month: nat): int {
    if month <= 1 then 0 else DaysBeforeMonth(year, month - 1) + DaysIn(year, month - 1)
  }

  function LeapsThrough(year: int): int {
    year / 4 - year / 100 + year / 400
  }

  function DaysBeforeYear(year: int): int {
    365 * (year - 1) + LeapsThrough(year - 1)
  }

  /** Days since 1970-01-01, which is day 719162 of the calendar counted from 0001-01-01. */
  function DayNumber(d: Date): int
    requires d.month >= 0
  {
    DaysBeforeYear(d.year) + DaysBeforeMonth(d.year, d.month) + d.day - 1 - 719162
  }

  predicate Before(a: Date, b: Date) {
    || a.year < b.year
    || (a.year == b.year && a.month < b.month)
    || (a.year == b.year && a.month == b.month && a.day < b.day)
  }

  // The year and day of an era

  lemma {:induction false} LeapsStep(year: int)
    ensures LeapsThrough(year) == LeapsThrough(year - 1) + if Leap(year) then 1 else 0
  {
    DivStep(year, 4);
    DivStep(year, 100);
    DivStep(year, 400);
    if year % 400 == 0 {
      Multiple(year, 400, 100);
    }
    if year % 100 == 0 {
      Multiple(year, 100, 4);
    }
  }

  lemma {:induction false} DivStep(n: int, d: int)
    requires d > 1
    ensures n / d == (n - 1) / d + if n % d == 0 then 1 else 0
  {
    if n % d == 0 {
      Divided(n - 1, d, n / d - 1, d - 1);
    } else {
      Divided(n - 1, d, n / d, n % d - 1);
    }
  }

  lemma {:induction false} Multiple(n: int, d: int, e: int)
    requires d > 0 && e > 0 && d % e == 0 && n % d == 0
    ensures n % e == 0
  {
    var k := d / e * (n / d);
    assert n == d * (n / d) == e * (d / e) * (n / d) == e * k;
    Divided(n, e, k, 0);
  }

  lemma {:induction false} Whole(n: int, d: int, k: int, r: int)
    requires d > 0 && n == d * k + r
    ensures n / d == k + r / d && n % d == r % d
  {
    var q, m := r / d, r % d;
    assert n == d * (k + q) + m;
    Divided(n, d, k + q, m);
  }

  lemma {:induction false} Divided(n: int, d: int, q: int, m: int)
    requires 0 <= m < d && n == d * q + m
    ensures n / d == q && n % d == m
  {
    var a := n / d - q;
    assert d * a + n % d == m;
    AtLeast(d, a);
  }

  lemma {:induction false} AtLeast(d: int, a: int)
    requires d > 0
    ensures (a >= 1 ==> d * a >= d) && (a <= -1 ==> d * a <= -d)
  {
  }

  lemma {:induction false} LeapsOfEra(era: nat, yoe: nat)
    requires yoe < 400
    ensures LeapsThrough(400 * era + yoe) == 97 * era + yoe / 4 - yoe / 100
  {
    Whole(400 * era + yoe, 4, 100 * era, yoe);
    Whole(400 * era + yoe, 100, 4 * era, yoe);
    Whole(400 * era + yoe, 400, era, yoe);
  }

  /** The four parts of a day of an era: centuries, groups of four years, years, days. */
  predicate Parts(doe: int, c: int, q: int, s: int, doy: int) {
    && 0 <= c <= 3 && 0 <= q <= 24 && 0 <= s <= 3 && 0 <= doy <= 365
    && doe == 36524 * c + 1461 * q + 365 * s + doy
    && (doy == 365 ==> s == 3 && (q != 24 || c == 3))
  }

  lemma {:induction false} HasParts(doe: int) returns (c: int, q: int, s: int, doy: int)
    requires 0 <= doe < 146097
    ensures Parts(doe, c, q, s, doy)
  {
    c := if doe / 36524 <= 3 then doe / 36524 else 3;
    var inCentury := doe - 36524 * c;
    q := inCentury / 1461;
    var inFour := inCentury % 1461;
    s := if inFour / 365 <= 3 then inFour / 365 else 3;
    doy := inFour - 365 * s;
  }

  lemma {:induction false} PartsGiveYear(doe: int, c: int, q: int, s: int, doy: int)
    requires Parts(doe, c, q, s, doy)
    ensures YearOfEra(doe) == 100 * c + 4 * q + s
  {
    var over := if 24 * c + q + 365 * s + doy >= 1460 then 1 else 0;
    assert doe / 1460 == 25 * c + q + over;
    assert doe / 36524 - doe / 146096 == c;
    assert doe - doe / 1460 + doe / 36524 - doe / 146096 == 365 * (100 * c + 4 * q + s) + doy - over;
  }

  lemma {:induction false} PartsGiveStart(doe: int, c: int, q: int, s: int, doy: int)
    requires Parts(doe, c, q, s, doy)
    ensures var y := 100 * c + 4 * q + s;
            365 * y + y / 4 - y / 100 == doe - doy && (doy == 365 ==> Leap(y + 1))
  {
    var y := 100 * c + 4 * q + s;
    assert y / 4 == 25 * c + q;
    assert y / 100 == c;
  }

  function DayOfEraYear(doe: int): int {
    var yoe := YearOfEra(doe);
    doe - (365 * yoe + yoe / 4 - yoe / 100)
  }

  lemma {:induction false} EraSplit(doe: int)
    requires 0 <= doe < 146097
    ensures 0 <= YearOfEra(doe) < 400 && 0 <= DayOfEraYear(doe) <= 365
    ensures DayOfEraYear(doe) == 365 ==> Leap(YearOfEra(doe) + 1)
  {
    var c, q, s, doy := HasParts(doe);
    PartsGiveYear(doe, c, q, s, doy);
    PartsGiveStart(doe, c, q, s, doy);
  }

  // The month and day of a year that begins in March

  function MonthOf(doy: int): int {
    var mp := (5 * doy + 2) / 153;
    if mp < 10 then mp + 3 else mp - 9
  }

  function DayOf(doy: int): int {
    doy - (153 * ((5 * doy + 2) / 153) + 2) / 5 + 1
  }

  /** Days from the first of March to the first of the month, in a year counted from March. */
  function MarchDays(month: int): int {
    match month
    case 3 => 0 case 4 => 31 case 5 => 61 case 6 => 92 case 7 => 122 case 8 => 153
    case 9 => 184 case 10 => 214 case 11 => 245 case 12 => 275 case 1 => 306 case _ => 337
  }

  lemma {:induction false} MonthSplit(doy: int)
    requires 0 <= doy <= 365
    ensures 1 <= MonthOf(doy) <= 12 && doy == MarchDays(MonthOf(doy)) + DayOf(doy) - 1
    ensures 1 <= DayOf(doy) <= if MonthOf(doy) == 2 then 29 else DaysIn(1, MonthOf(doy))
    ensures MonthOf(doy) == 2 && DayOf(doy) == 29 ==> doy == 365
  {
    var mp := (5 * doy + 2) / 153;
    assert 0 <= mp <= 11;
    assert 153 * mp <= 5 * doy + 2 < 153 * mp + 153;
  }

  lemma {:induction false} MonthStarts(year: int, month: nat)
    requires 1 <= month <= 12
    ensures DaysBeforeMonth(year, month) ==
            if month <= 2 then MarchDays(month) - 306 else MarchDays(month) + 59 + if Leap(year) then 1 else 0
  {
    if month > 1 {
      MonthStarts(year, month - 1);
    }
  }

  lemma {:induction false} LeapOfEra(era: int, yoe: int)
    ensures Leap(400 * era + yoe) <==> Leap(yoe)
  {
    Whole(400 * era + yoe, 4, 100 * era, yoe);
    Whole(400 * era + yoe, 100, 4 * era, yoe);
    Whole(400 * era + yoe, 400, era, yoe);
  }

  // Main results

  /** Every count of days gives a date of the calendar, and its day number is that count. */
  lemma {:induction false} CivilDateIsTheDay(days: nat)
    ensures Valid(CivilDate(days)) && DayNumber(CivilDate(days)) == days
  {
    var z := days + 719468;
    var era, doe := z / 146097, z % 146097;
    EraSplit(doe);
    CivilDateBy(days, era, doe);
    hide CivilDate, YearOfEra, MonthOf, DayOf, Valid, DayNumber, Leap;
    var yoe, doy := YearOfEra(doe), DayOfEraYear(doe);
    assert z == 146097 * era + doe;
    assert doe == 365 * yoe + yoe / 4 - yoe / 100 + doy;
    hide DayOfEraYear;
    DayInYear(era, yoe, doy);
  }

  lemma {:induction false} CivilDateBy(days: nat, era: int, doe: int)
    requires era == (days + 719468) / 146097 && doe == (days + 719468) % 146097
    ensures var doy := DayOfEraYear(doe);
            CivilDate(days) == Date(400 * era + YearOfEra(doe) + if MonthOf(doy) <= 2 then 1 else 0, MonthOf(doy), DayOf(doy))
  {
    hide YearOfEra;
  }

  lemma {:induction false} DayInYear(era: nat, yoe: nat, doy: nat)
    requires yoe < 400 && doy <= 365 && (doy == 365 ==> Leap(yoe + 1))
    ensures var d := Date(400 * era + yoe + if MonthOf(doy) <= 2 then 1 else 0, MonthOf(doy), DayOf(doy));
            Valid(d) && DayNumber(d) == 146097 * era + 365 * yoe + yoe / 4 - yoe / 100 + doy - 719468
  {
    MonthSplit(doy);
    var march := 400 * era + yoe;
    LeapsOfEra(era, yoe);
    LeapsStep(march);
    LeapOfEra(era, yoe + 1);
    if MonthOf(doy) <= 2 {
      MonthStarts(march + 1, MonthOf(doy));
    } else {
      MonthStarts(march, MonthOf(doy));
    }
  }

  lemma {:induction false} MonthsAdd(year: int, a: nat, b: nat)
    requires 1 <= a < b
    ensures DaysBeforeMonth(year, a) + DaysIn(year, a) <= DaysBeforeMonth(year, b)
  {
    if a < b - 1 {
      MonthsAdd(year, a, b - 1);
    }
  }

  lemma {:induction false} YearsAdd(a: int, b: int)
    requires a < b
    ensures DaysBeforeYear(a) + 365 + (if Leap(a) then 1 else 0) <= DaysBeforeYear(b)
  {
    LeapsStep(a);
    assert LeapsThrough(a) <= LeapsThrough(b - 1) by {
      LeapsGrow(a, b - 1);
    }
  }

  lemma {:induction false} LeapsGrow(a: int, b: int)
    requires a <= b
    ensures LeapsThrough(a) <= LeapsThrough(b)
    decreases b - a
  {
    if a < b {
      LeapsStep(b);
      LeapsGrow(a, b - 1);
    }
  }

  /** Day numbers go by the order of dates. */
  lemma {:induction false} DayNumbersAreOrdered(a: Date, b: Date)
    requires Valid(a) && Valid(b) && Before(a, b)
    ensures DayNumber(a) < DayNumber(b)
  {
    if a.year < b.year {
      YearsAdd(a.year, b.year);
      MonthStarts(a.year, 12);
      if a.month < 12 {
        MonthsAdd(a.year, a.month, 12);
      }
      MonthStarts(b.year, b.month);
    } else if a.month < b.month {
      MonthsAdd(a.year, a.month, b.month);
    }
  }

  lemma {:induction false} NextDayIsOneMore(d: Date)
    requires Valid(d)
    ensures Valid(NextDay(d)) && DayNumber(NextDay(d)) == DayNumber(d) + 1
  {
    if d.day == DaysIn(d.year, d.month) && d.month == 12 {
      MonthStarts(d.year, 12);
      LeapsStep(d.year);
    }
  }

  /** Consecutive days give consecutive dates. */
  lemma {:induction false} NextDate(days: nat)
    ensures CivilDate(days + 1) == NextDay(CivilDate(days))
  {
    CivilDateIsTheDay(days);
    CivilDateIsTheDay(days + 1);
    NextDayIsOneMore(CivilDate(days));
    SameDay(NextDay(CivilDate(days)), CivilDate(days + 1));
  }

  lemma {:induction false} SameDay(a: Date, b: Date)
    requires Valid(a) && Valid(b) && DayNumber(a) == DayNumber(b)
    ensures a == b
  {
    if Before(a, b) {
      DayNumbersAreOrdered(a, b);
    } else if Before(b, a) {
      DayNumbersAreOrdered(b, a);
    }
  }

  lemma {:induction false} FirstDate()
    ensures CivilDate(0) == Date(1970, 1, 1)
  {
    hide CivilDate;
    CivilDateIsTheDay(0);
    SameDay(CivilDate(0), Date(1970, 1, 1));
  }

  /** The arithmetic counts as the calendar does, a day at a time from 1970-01-01. */
  lemma {:induction false} CivilDateCounts(days: nat)
    ensures CivilDate(days) == Counted(days)
  {
    hide CivilDate, NextDay;
    if days == 0 {
      FirstDate();
    } else {
      CivilDateCounts(days - 1);
      NextDate(days - 1);
    }
  }

  lemma {:induction false} DatesAreOrdered(a: nat, b: nat)
    requires a < b
    ensures Before(CivilDate(a), CivilDate(b))
  {
    CivilDateIsTheDay(a);
    CivilDateIsTheDay(b);
    if Before(CivilDate(b), CivilDate(a)) {
      DayNumbersAreOrdered(CivilDate(b), CivilDate(a));
    }
  }

  lemma {:induction false} DatesAreOrderedIff(a: nat, b: nat)
    ensures Before(CivilDate(a), CivilDate(b)) <==> a < b
    ensures CivilDate(a) == CivilDate(b) <==> a == b
  {
    hide CivilDate;
    if a < b {
      DatesAreOrdered(a, b);
    } else if b < a {
      DatesAreOrdered(b, a);
    }
  }

  // Stamps

  function Pow10(w: nat): nat {
    if w == 0 then 1 else 10 * Pow10(w - 1)
  }

  function Digit(n: nat): char
    requires n < 10
  {
    '0' + n as char
  }

  /** `n` in decimal, with zeros before it to make at least `width` digits. */
  function Pad(n: nat, width: nat): string
    decreases n, width
  {
    if n == 0 && width == 0 then "" else Pad(n / 10, if width > 0 then width - 1 else 0) + [Digit(n % 10)]
  }

  /** A number of a stamp, and what stands after it. */
  datatype Field = Field(value: nat, width: nat, mark: string)

  function Join(fields: seq<Field>): string {
    if fields == [] then ""
    else Pad(fields[0].value, fields[0].width) + (fields[0].mark + Join(fields[1..]))
  }

  const COMPACT: seq<string> := ["", "", "T", "", "", ".", "Z"]
  const RFC3339: seq<string> := ["-", "-", "T", ":", ":", ".", "Z"]

  function Fields(m: Moment, millis: nat, marks: seq<string>): seq<Field>
    requires |marks| == 7 && m.date.year >= 0 && m.date.month >= 0 && m.date.day >= 0
  {
    [Field(m.date.year, 4, marks[0]), Field(m.date.month, 2, marks[1]), Field(m.date.day, 2, marks[2]),
     Field(m.hour, 2, marks[3]), Field(m.minute, 2, marks[4]), Field(m.second, 2, marks[5]), Field(millis, 3, marks[6])]
  }

  /** Time since the epoch, in nanoseconds; a clock before it counts as at it. */
  function Since(at: int): nat {
    if at < 0 then 0 else at
  }

  function Seconds(at: int): nat {
    Since(at) / 1_000_000_000
  }

  function Millis(at: int): nat {
    Since(at) % 1_000_000_000 / 1_000_000
  }

  function StampFields(at: int, marks: seq<string>): seq<Field>
    requires |marks| == 7
  {
    MomentIsValid(Seconds(at));
    Fields(At(Seconds(at)), Millis(at), marks)
  }

  function Stamp(at: int, marks: seq<string>): string
    requires |marks| == 7
  {
    Join(StampFields(at, marks))
  }

  lemma {:induction false} MomentIsValid(seconds: nat)
    ensures var m := At(seconds);
            m.date.year >= 1970 && Valid(m.date) && m.hour < 24 && m.minute < 60 && m.second < 60
  {
    hide CivilDate;
    FirstDate();
    CivilDateIsTheDay(seconds / 86400);
    DatesAreOrderedIff(0, seconds / 86400);
  }

  // Text and its order

  predicate Less(a: string, b: string) {
    b != "" && (a == "" || a[0] < b[0] || (a[0] == b[0] && Less(a[1..], b[1..])))
  }

  lemma {:induction false} LessIsStrict(a: string, b: string)
    requires Less(a, b)
    ensures !Less(b, a) && a != b
  {
    if a != "" && a[0] == b[0] {
      LessIsStrict(a[1..], b[1..]);
    }
  }

  lemma {:induction false} LessThenAnything(a: string, b: string, u: string, v: string)
    requires |a| == |b| && Less(a, b)
    ensures Less(a + u, b + v)
  {
    assert (a + u)[1..] == a[1..] + u && (b + v)[1..] == b[1..] + v;
    if a[0] == b[0] {
      LessThenAnything(a[1..], b[1..], u, v);
    }
  }

  lemma {:induction false} LessAfterSame(p: string, u: string, v: string)
    requires Less(u, v)
    ensures Less(p + u, p + v)
  {
    if p == "" {
      assert p + u == u && p + v == v;
    } else {
      assert (p + u)[1..] == p[1..] + u && (p + v)[1..] == p[1..] + v;
      LessAfterSame(p[1..], u, v);
    }
  }

  lemma {:induction false} PadLength(n: nat, w: nat)
    requires n < Pow10(w)
    ensures |Pad(n, w)| == w
  {
    if w > 0 {
      PadLength(n / 10, w - 1);
    }
  }

  lemma {:induction false} PadOrder(n: nat, m: nat, w: nat)
    requires n < m < Pow10(w)
    ensures Less(Pad(n, w), Pad(m, w))
  {
    PadLength(n / 10, w - 1);
    PadLength(m / 10, w - 1);
    if n / 10 < m / 10 {
      PadOrder(n / 10, m / 10, w - 1);
      LessThenAnything(Pad(n / 10, w - 1), Pad(m / 10, w - 1), [Digit(n % 10)], [Digit(m % 10)]);
    } else {
      LessAfterSame(Pad(n / 10, w - 1), [Digit(n % 10)], [Digit(m % 10)]);
    }
  }

  /** Fields that make texts of one form: the same widths and marks, and no value too wide. */
  predicate OneForm(a: seq<Field>, b: seq<Field>) {
    && |a| == |b|
    && forall i :: 0 <= i < |a| ==> a[i].width == b[i].width && a[i].mark == b[i].mark && a[i].value < Pow10(a[i].width) && b[i].value < Pow10(a[i].width)
  }

  predicate FirstDiffer(a: seq<Field>, b: seq<Field>, k: nat) {
    k < |a| && k < |b| && a[k].value < b[k].value && forall i :: 0 <= i < k ==> a[i].value == b[i].value
  }

  lemma {:induction false} JoinOrder(a: seq<Field>, b: seq<Field>, k: nat)
    requires OneForm(a, b) && FirstDiffer(a, b, k)
    ensures Less(Join(a), Join(b))
  {
    var w := a[0].width;
    if k == 0 {
      PadLength(a[0].value, w);
      PadLength(b[0].value, w);
      PadOrder(a[0].value, b[0].value, w);
      LessThenAnything(Pad(a[0].value, w), Pad(b[0].value, w), a[0].mark + Join(a[1..]), b[0].mark + Join(b[1..]));
    } else {
      JoinOrder(a[1..], b[1..], k - 1);
      LessAfterSame(a[0].mark, Join(a[1..]), Join(b[1..]));
      LessAfterSame(Pad(a[0].value, w), a[0].mark + Join(a[1..]), b[0].mark + Join(b[1..]));
    }
  }

  // Main results for the stamps

  function MillisSince(at: int): nat {
    Since(at) / 1_000_000
  }

  lemma {:induction false} MillisSplit(at: int)
    ensures MillisSince(at) == 1000 * Seconds(at) + Millis(at) && Millis(at) < 1000
  {
  }

  /** The moments agree on their first `k` numbers, and the first is the earlier by the next one. */
  predicate EarlierAt(x: Moment, y: Moment, k: nat) {
    && (k == 0 ==> x.date.year < y.date.year)
    && (k > 0 ==> x.date.year == y.date.year) && (k == 1 ==> x.date.month < y.date.month)
    && (k > 1 ==> x.date.month == y.date.month) && (k == 2 ==> x.date.day < y.date.day)
    && (k > 2 ==> x.date.day == y.date.day) && (k == 3 ==> x.hour < y.hour)
    && (k > 3 ==> x.hour == y.hour) && (k == 4 ==> x.minute < y.minute)
    && (k > 4 ==> x.minute == y.minute) && (k == 5 ==> x.second < y.second)
    && (k > 5 ==> x.second == y.second)
  }

  predicate Stampable(m: Moment) {
    0 <= m.date.year <= 9999 && Valid(m.date) && m.hour < 24 && m.minute < 60 && m.second < 60
  }

  lemma {:induction false} FieldsDiffer(x: Moment, mx: nat, y: Moment, my: nat, marks: seq<string>, k: nat)
    requires Stampable(x) && Stampable(y) && mx < 1000 && my < 1000 && |marks| == 7 && k <= 6
    requires EarlierAt(x, y, k) && (k == 6 ==> mx < my)
    ensures OneForm(Fields(x, mx, marks), Fields(y, my, marks)) && FirstDiffer(Fields(x, mx, marks), Fields(y, my, marks), k)
  {
    assert Pow10(2) == 100 && Pow10(3) == 1000 && Pow10(4) == 10000;
  }

  lemma {:induction false} ClockDiffers(a: nat, b: nat)
    requires a < b < 86400
    ensures || a / 3600 < b / 3600
            || (a / 3600 == b / 3600 && a % 3600 / 60 < b % 3600 / 60)
            || (a / 3600 == b / 3600 && a % 3600 / 60 == b % 3600 / 60 && a % 60 < b % 60)
  {
  }

  lemma {:induction false} SecondsDiffer(a: nat, b: nat) returns (k: nat)
    requires a < b
    ensures k <= 5 && EarlierAt(At(a), At(b), k)
  {
    hide CivilDate;
    var x, y := At(a), At(b);
    if a / 86400 < b / 86400 {
      DatesAreOrdered(a / 86400, b / 86400);
      k := if x.date.year < y.date.year then 0 else if x.date.month < y.date.month then 1 else 2;
    } else {
      assert a / 86400 == b / 86400 && a % 86400 < b % 86400;
      ClockDiffers(a % 86400, b % 86400);
      k := if x.hour < y.hour then 3 else if x.minute < y.minute then 4 else 5;
    }
  }

  lemma {:induction false} StampsDiffer(a: int, b: int, marks: seq<string>)
    requires |marks| == 7 && MillisSince(a) < MillisSince(b) && At(Seconds(b)).date.year <= 9999
    ensures Less(Stamp(a, marks), Stamp(b, marks))
  {
    MillisSplit(a);
    MillisSplit(b);
    MomentIsValid(Seconds(a));
    MomentIsValid(Seconds(b));
    hide CivilDate;
    var k := 6;
    if Seconds(a) < Seconds(b) {
      k := SecondsDiffer(Seconds(a), Seconds(b));
    }
    hide At;
    FieldsDiffer(At(Seconds(a)), Millis(a), At(Seconds(b)), Millis(b), marks, k);
    JoinOrder(StampFields(a, marks), StampFields(b, marks), k);
  }

  /** Through the year 9999 the stamps sort as text in the order of their times, to the millisecond. */
  lemma {:induction false} StampsSortByTime(a: int, b: int, marks: seq<string>)
    requires |marks| == 7 && At(Seconds(a)).date.year <= 9999 && At(Seconds(b)).date.year <= 9999
    ensures Less(Stamp(a, marks), Stamp(b, marks)) <==> MillisSince(a) < MillisSince(b)
    ensures Stamp(a, marks) == Stamp(b, marks) <==> MillisSince(a) == MillisSince(b)
  {
    hide At;
    if MillisSince(a) < MillisSince(b) {
      StampsDiffer(a, b, marks);
      LessIsStrict(Stamp(a, marks), Stamp(b, marks));
    } else if MillisSince(b) < MillisSince(a) {
      StampsDiffer(b, a, marks);
      LessIsStrict(Stamp(b, marks), Stamp(a, marks));
    } else {
      MillisSplit(a);
      MillisSplit(b);
      NotLessThanItself(Stamp(a, marks));
    }
  }

  lemma {:induction false} NotLessThanItself(s: string)
    ensures !Less(s, s)
  {
    if s != "" {
      NotLessThanItself(s[1..]);
    }
  }

  lemma {:induction false} PadDigits(n: nat, w: nat)
    ensures forall c <- Pad(n, w) :: '0' <= c <= '9'
    decreases n, w
  {
    if n != 0 || w != 0 {
      PadDigits(n / 10, if w > 0 then w - 1 else 0);
    }
  }

  lemma {:induction false} PadIsLonger(n: nat, w: nat)
    requires n >= Pow10(w)
    ensures |Pad(n, w)| > w
  {
    if w > 0 {
      PadIsLonger(n / 10, w - 1);
    }
  }

  function Number(s: string): int {
    if s == "" then 0 else 10 * Number(s[..|s| - 1]) + (s[|s| - 1] as int - '0' as int)
  }

  lemma {:induction false} PadReads(n: nat, w: nat)
    ensures Number(Pad(n, w)) == n
    decreases n, w
  {
    if n != 0 || w != 0 {
      var v := if w > 0 then w - 1 else 0;
      PadReads(n / 10, v);
      assert Pad(n, w)[..|Pad(n, w)| - 1] == Pad(n / 10, v);
    }
  }

  predicate Digits(s: string) {
    s != "" && forall c <- s :: '0' <= c <= '9'
  }

  /** time-offset of section 5.6 of RFC 3339. */
  predicate IsOffset(s: string) {
    s == "Z" || (|s| == 6 && (s[0] == '+' || s[0] == '-') && Digits(s[1..3]) && Number(s[1..3]) <= 23 && s[3] == ':' && Digits(s[4..]) && Number(s[4..]) <= 59)
  }

  /** date-time of section 5.6 of RFC 3339, with an upper-case T and Z; a second may be a leap second. */
  predicate IsDateTime(s: string) {
    && |s| >= 20
    && Digits(s[..4]) && s[4] == '-' && Digits(s[5..7]) && s[7] == '-' && Digits(s[8..10]) && s[10] == 'T'
    && Digits(s[11..13]) && s[13] == ':' && Digits(s[14..16]) && s[16] == ':' && Digits(s[17..19])
    && Valid(Date(Number(s[..4]), Number(s[5..7]), Number(s[8..10])))
    && Number(s[11..13]) <= 23 && Number(s[14..16]) <= 59 && Number(s[17..19]) <= 60
    && (IsOffset(s[19..]) || (s[19] == '.' && exists k :: 20 < k < |s| && Digits(s[20..k]) && IsOffset(s[k..])))
  }

  function Laid(y: string, mo: string, d: string, h: string, mi: string, s: string, ms: string): string {
    y + ("-" + (mo + ("-" + (d + ("T" + (h + (":" + (mi + (":" + (s + ("." + (ms + "Z"))))))))))))
  }

  lemma {:induction false} LaidDate(y: string, mo: string, d: string, h: string, mi: string, s: string, ms: string)
    requires |y| == 4 && |mo| == |d| == |h| == |mi| == |s| == 2 && |ms| == 3
    ensures var t := Laid(y, mo, d, h, mi, s, ms);
            && |t| == 24 && t[..4] == y && t[4] == '-' && t[5..7] == mo && t[7] == '-' && t[8..10] == d && t[10] == 'T'
            && t[11..] == h + (":" + (mi + (":" + (s + ("." + (ms + "Z"))))))
  {
  }

  lemma {:induction false} LaidTime(t: string, h: string, mi: string, s: string, ms: string)
    requires |h| == |mi| == |s| == 2 && |ms| == 3 && |t| == 24
    requires t[11..] == h + (":" + (mi + (":" + (s + ("." + (ms + "Z"))))))
    ensures t[11..13] == h && t[13] == ':' && t[14..16] == mi && t[16] == ':' && t[17..19] == s
    ensures t[19] == '.' && t[20..23] == ms && t[23..] == "Z"
  {
    var u := t[11..];
    assert forall i :: 0 <= i < 13 ==> u[i] == t[11 + i];
    assert u[0..2] == h && u[2] == ':' && u[3..5] == mi && u[5] == ':' && u[6..8] == s;
    assert u[8] == '.' && u[9..12] == ms && u[12] == 'Z';
    assert t[11..13] == u[0..2] && t[14..16] == u[3..5] && t[17..19] == u[6..8] && t[20..23] == u[9..12];
  }

  lemma {:induction false} JoinIsLaid(m: Moment, ms: nat)
    requires m.date.year >= 0 && m.date.month >= 0 && m.date.day >= 0
    ensures Join(Fields(m, ms, RFC3339)) ==
            Laid(Pad(m.date.year, 4), Pad(m.date.month, 2), Pad(m.date.day, 2), Pad(m.hour, 2), Pad(m.minute, 2), Pad(m.second, 2), Pad(ms, 3))
  {
    var f := Fields(m, ms, RFC3339);
    JoinStep(f, 0);
    JoinStep(f, 1);
    JoinStep(f, 2);
    JoinStep(f, 3);
    JoinStep(f, 4);
    JoinStep(f, 5);
    JoinStep(f, 6);
    assert f[0..] == f && "Z" + Join(f[7..]) == "Z";
  }

  lemma {:induction false} JoinStep(f: seq<Field>, i: nat)
    requires i < |f|
    ensures Join(f[i..]) == Pad(f[i].value, f[i].width) + (f[i].mark + Join(f[i + 1..]))
  {
    assert f[i..][1..] == f[i + 1..];
  }

  lemma {:induction false} PadField(n: nat, w: nat)
    requires n < Pow10(w) && w > 0
    ensures |Pad(n, w)| == w && Digits(Pad(n, w)) && Number(Pad(n, w)) == n
  {
    PadLength(n, w);
    PadDigits(n, w);
    PadReads(n, w);
  }

  lemma {:induction false} StampableIsDateTime(m: Moment, ms: nat)
    requires Stampable(m) && ms < 1000
    ensures IsDateTime(Join(Fields(m, ms, RFC3339)))
  {
    assert Pow10(2) == 100 && Pow10(3) == 1000 && Pow10(4) == 10000;
    PadField(m.date.year, 4);
    PadField(m.date.month, 2);
    PadField(m.date.day, 2);
    PadField(m.hour, 2);
    PadField(m.minute, 2);
    PadField(m.second, 2);
    PadField(ms, 3);
    JoinIsLaid(m, ms);
    var y, mo, d, h, mi, s, f := Pad(m.date.year, 4), Pad(m.date.month, 2), Pad(m.date.day, 2), Pad(m.hour, 2), Pad(m.minute, 2), Pad(m.second, 2), Pad(ms, 3);
    LaidIsDateTime(m.date, y, mo, d, h, mi, s, f);
  }

  lemma {:induction false} LaidIsDateTime(date: Date, y: string, mo: string, d: string, h: string, mi: string, s: string, ms: string)
    requires |y| == 4 && |mo| == |d| == |h| == |mi| == |s| == 2 && |ms| == 3
    requires Digits(y) && Digits(mo) && Digits(d) && Digits(h) && Digits(mi) && Digits(s) && Digits(ms)
    requires Valid(date) && date == Date(Number(y), Number(mo), Number(d)) && Number(h) < 24 && Number(mi) < 60 && Number(s) < 60
    ensures IsDateTime(Laid(y, mo, d, h, mi, s, ms))
  {
    var t := Laid(y, mo, d, h, mi, s, ms);
    LaidDate(y, mo, d, h, mi, s, ms);
    LaidTime(t, h, mi, s, ms);
    hide Laid, Number, Valid;
    assert Digits(t[20..23]) && IsOffset(t[23..]);
  }

  /** The other stamp is a date-time of RFC 3339 exactly through the year 9999. */
  lemma {:induction false} StampIsDateTimeIff(at: int)
    ensures IsDateTime(Stamp(at, RFC3339)) <==> At(Seconds(at)).date.year <= 9999
  {
    var m := At(Seconds(at));
    MomentIsValid(Seconds(at));
    MillisSplit(at);
    hide At;
    if m.date.year <= 9999 {
      StampableIsDateTime(m, Millis(at));
    } else {
      LongYear(m, Millis(at));
    }
  }

  lemma {:induction false} LongYear(m: Moment, ms: nat)
    requires m.date.year > 9999 && m.date.month >= 0 && m.date.day >= 0
    ensures !IsDateTime(Join(Fields(m, ms, RFC3339)))
  {
    assert Pow10(4) == 10000;
    PadIsLonger(m.date.year, 4);
    PadDigits(m.date.year, 4);
    JoinIsLaid(m, ms);
    var y := Pad(m.date.year, 4);
    assert Join(Fields(m, ms, RFC3339))[4] == y[4];
    assert y[4] in y;
  }

  /** From the year 10000 the order breaks: all of its stamps sort before all of the year before. */
  lemma {:induction false} Year10000SortsBefore9999(a: int, b: int)
    requires At(Seconds(a)).date.year == 9999 && At(Seconds(b)).date.year == 10000
    ensures MillisSince(a) < MillisSince(b) && Less(Stamp(b, COMPACT), Stamp(a, COMPACT))
  {
    MillisSplit(a);
    MillisSplit(b);
    MomentIsValid(Seconds(a));
    MomentIsValid(Seconds(b));
    hide CivilDate;
    if Seconds(b) <= Seconds(a) {
      DatesAreOrderedIff(Seconds(a) / 86400, Seconds(b) / 86400);
    }
    FirstOf9999();
    FirstOf10000();
  }

  lemma {:induction false} FirstOf9999()
    ensures |Pad(9999, 4)| > 0 && Pad(9999, 4)[0] == '9'
  {
    assert Pad(9999, 4) == Pad(999, 3) + "9";
    assert Pad(999, 3) == Pad(99, 2) + "9";
    assert Pad(99, 2) == Pad(9, 1) + "9";
    assert Pad(9, 1) == "9";
  }

  lemma {:induction false} FirstOf10000()
    ensures |Pad(10000, 4)| > 0 && Pad(10000, 4)[0] == '1'
  {
    assert Pad(10000, 4) == Pad(1000, 3) + "0";
    assert Pad(1000, 3) == Pad(100, 2) + "0";
    assert Pad(100, 2) == Pad(10, 1) + "0";
    assert Pad(10, 1) == Pad(1, 0) + "0";
    assert Pad(1, 0) == "1";
  }
}
