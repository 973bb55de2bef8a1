/** The timestamps of the database (`formatTime` and `parseTime`, internal/store/store.go):
    UTC instants written as RFC 3339 text with trailing fractional zeros removed. */
module Timestamp {
  import opened Wrappers
  import opened Text

  const NANOS := 1_000_000_000
  const DAY_SECONDS := 86_400

  /** Days in the years 0000 to 9999 of the proleptic Gregorian calendar. */
  const DAYS := 3_652_425

  /** Nanoseconds since 0000-01-01T00:00:00Z, before the year 10000. */
  type Instant = t: int | 0 <= t < DAYS * DAY_SECONDS * NANOS witness 0

  // ------------------------------------------------------------------ the calendar

  predicate IsLeap(year: nat) {
    year % 4 == 0 && (year % 100 != 0 || year % 400 == 0)
  }

  function DaysBeforeYear(year: nat): nat {
    365 * year + (year + 3) / 4 - (year + 99) / 100 + (year + 399) / 400
  }

  lemma YearLength(year: nat)
    ensures DaysBeforeYear(year + 1) == DaysBeforeYear(year) + (if IsLeap(year) then 366 else 365)
  {
    Steps4(year);
    Steps100(year);
    Steps400(year);
    Divides(year);
  }

  lemma Divides(year: nat)
    ensures year % 100 == 0 ==> year % 4 == 0
    ensures year % 400 == 0 ==> year % 100 == 0
  {
    assert year == 4 * (25 * (year / 100)) + year % 100;
    assert year == 100 * (4 * (year / 400)) + year % 400;
  }

  /** `(n + k - 1) / k` counts the multiples of `k` below `n`. */
  lemma Steps4(n: nat)
    ensures (n + 4) / 4 - (n + 3) / 4 == if n % 4 == 0 then 1 else 0
  {
    var q, r := n / 4, n % 4;
    assert n == 4 * q + r && r < 4;
    assert (n + 4) / 4 == q + 1;
    assert (n + 3) / 4 == if r == 0 then q else q + 1;
  }

  lemma Steps100(n: nat)
    ensures (n + 100) / 100 - (n + 99) / 100 == if n % 100 == 0 then 1 else 0
  {
    var q, r := n / 100, n % 100;
    assert n == 100 * q + r && r < 100;
    assert (n + 100) / 100 == q + 1;
    assert (n + 99) / 100 == if r == 0 then q else q + 1;
  }

  lemma Steps400(n: nat)
    ensures (n + 400) / 400 - (n + 399) / 400 == if n % 400 == 0 then 1 else 0
  {
    var q, r := n / 400, n % 400;
    assert n == 400 * q + r && r < 400;
    assert (n + 400) / 400 == q + 1;
    assert (n + 399) / 400 == if r == 0 then q else q + 1;
  }

  function YearFrom(day: nat, year: nat): (y: nat)
    requires DaysBeforeYear(year) <= day
    ensures DaysBeforeYear(y) <= day < DaysBeforeYear(y + 1)
    decreases day - DaysBeforeYear(year)
  {
    YearLength(year);
    if day < DaysBeforeYear(year + 1) then year else YearFrom(day, year + 1)
  }

  lemma {:induction false} YearsGrow(y: nat, z: nat)
    requires y <= z
    ensures DaysBeforeYear(y) <= DaysBeforeYear(z)
    decreases z - y
  {
    if y < z {
      YearLength(y);
      YearsGrow(y + 1, z);
    }
  }

  /** Days of the year before month `m`; month 13 is the next year's January. */
  function DaysBeforeMonth(leap: bool, m: nat): nat
    requires 1 <= m <= 13
  {
    var march := if leap then 60 else 59;
    match m
    case 1 => 0
    case 2 => 31
    case 3 => march
    case 4 => march + 31
    case 5 => march + 61
    case 6 => march + 92
    case 7 => march + 122
    case 8 => march + 153
    case 9 => march + 184
    case 10 => march + 214
    case 11 => march + 245
    case 12 => march + 275
    case 13 => march + 306
  }

  /** Thirty days has September, ... */
  lemma MonthLength(leap: bool, m: nat)
    requires 1 <= m <= 12
    ensures DaysBeforeMonth(leap, m + 1) - DaysBeforeMonth(leap, m)
         == [31, if leap then 29 else 28, 31, 30, 31, 30, 31, 31, 30, 31, 30, 31][m - 1]
    ensures DaysBeforeMonth(leap, 1) == 0 && DaysBeforeMonth(leap, 13) == if leap then 366 else 365
  {
  }

  function MonthFrom(leap: bool, day: nat, m: nat): (r: nat)
    requires 1 <= m <= 12 && DaysBeforeMonth(leap, m) <= day < DaysBeforeMonth(leap, 13)
    ensures 1 <= r <= 12 && DaysBeforeMonth(leap, r) <= day < DaysBeforeMonth(leap, r + 1)
    decreases 12 - m
  {
    if day < DaysBeforeMonth(leap, m + 1) then m else MonthFrom(leap, day, m + 1)
  }

  lemma {:induction false} MonthsGrow(leap: bool, m: nat, n: nat)
    requires 1 <= m <= n <= 13
    ensures DaysBeforeMonth(leap, m) <= DaysBeforeMonth(leap, n)
    decreases n - m
  {
    if m < n {
      MonthsGrow(leap, m + 1, n);
    }
  }

  /** A broken-down UTC time; months and days count from 1. */
  datatype Civil = Civil(year: nat, month: nat, day: nat, hour: nat, minute: nat, second: nat) {
    predicate Valid() {
      && year < 10000 && 1 <= month <= 12 && hour < 24 && minute < 60 && second < 60
      && 1 <= day && DaysBeforeMonth(IsLeap(year), month) + day <= DaysBeforeMonth(IsLeap(year), month + 1)
    }

    function DayNumber(): nat
      requires Valid()
    {
      DaysBeforeYear(year) + DaysBeforeMonth(IsLeap(year), month) + day - 1
    }

    function ClockSeconds(): (s: nat)
      requires Valid()
      ensures s < DAY_SECONDS
    {
      hour * 3600 + minute * 60 + second
    }

    function Seconds(): nat
      requires Valid()
    {
      DayNumber() * DAY_SECONDS + ClockSeconds()
    }
  }

  function YearOf(day: nat): (year: nat)
    requires day < DAYS
    ensures year < 10000 && DaysBeforeYear(year) <= day < DaysBeforeYear(year) + (if IsLeap(year) then 366 else 365)
  {
    var year := YearFrom(day, 0);
    YearLength(year);
    YearsGrow(10000, if year < 10000 then 10000 else year);
    year
  }

  /** Year, month and day of the month. */
  function DateOf(day: nat): (d: (nat, nat, nat))
    requires day < DAYS
    ensures var (year, month, dayOfMonth) := d;
            var c := Civil(year, month, dayOfMonth, 0, 0, 0);
            c.Valid() && c.DayNumber() == day
  {
    var year := YearOf(day);
    var leap, yearDay := IsLeap(year), day - DaysBeforeYear(year);
    var month := MonthFrom(leap, yearDay, 1);
    (year, month, yearDay - DaysBeforeMonth(leap, month) + 1)
  }

  function CivilOf(seconds: nat): (c: Civil)
    requires seconds < DAYS * DAY_SECONDS
    ensures c.Valid() && c.Seconds() == seconds
  {
    var day, clock := seconds / DAY_SECONDS, seconds % DAY_SECONDS;
    var (year, month, dayOfMonth) := DateOf(day);
    ClockFields(clock);
    Civil(year, month, dayOfMonth, clock / 3600, clock / 60 % 60, clock % 60)
  }

  lemma ClockFields(clock: nat)
    requires clock < DAY_SECONDS
    ensures clock / 3600 < 24
    ensures clock == clock / 3600 * 3600 + clock / 60 % 60 * 60 + clock % 60
  {
    assert clock / 60 / 60 == clock / 3600;
  }

  predicate DateLess(a: Civil, b: Civil) {
    a.year < b.year || (a.year == b.year && (a.month < b.month || (a.month == b.month && a.day < b.day)))
  }

  predicate SameDate(a: Civil, b: Civil) {
    a.year == b.year && a.month == b.month && a.day == b.day
  }

  predicate ClockLess(a: Civil, b: Civil) {
    a.hour < b.hour || (a.hour == b.hour && (a.minute < b.minute || (a.minute == b.minute && a.second < b.second)))
  }

  /** Earlier in the calendar, field by field. */
  predicate CivilLess(a: Civil, b: Civil) {
    DateLess(a, b) || (SameDate(a, b) && ClockLess(a, b))
  }

  lemma CivilTotal(a: Civil, b: Civil)
    ensures a == b || CivilLess(a, b) || CivilLess(b, a)
  {
  }

  lemma DateLessIsEarlier(a: Civil, b: Civil)
    requires a.Valid() && b.Valid() && DateLess(a, b)
    ensures a.DayNumber() < b.DayNumber()
  {
    YearLength(a.year);
    MonthsGrow(IsLeap(a.year), a.month + 1, 13);
    assert DaysBeforeMonth(IsLeap(a.year), 13) == if IsLeap(a.year) then 366 else 365;
    hide DaysBeforeYear, DaysBeforeMonth, IsLeap;
    if a.year < b.year {
      YearsGrow(a.year + 1, b.year);
    } else if a.month < b.month {
      MonthsGrow(IsLeap(a.year), a.month + 1, b.month);
    }
  }

  lemma CivilLessIsEarlier(a: Civil, b: Civil)
    requires a.Valid() && b.Valid() && CivilLess(a, b)
    ensures a.Seconds() < b.Seconds()
  {
    if DateLess(a, b) {
      DateLessIsEarlier(a, b);
    }
    hide DaysBeforeYear, DaysBeforeMonth, IsLeap;
  }

  lemma CivilOfMonotone(s: nat, t: nat)
    requires s < t < DAYS * DAY_SECONDS
    ensures CivilLess(CivilOf(s), CivilOf(t))
  {
    CivilTotal(CivilOf(s), CivilOf(t));
    if CivilLess(CivilOf(t), CivilOf(s)) {
      CivilLessIsEarlier(CivilOf(t), CivilOf(s));
    }
  }

  // ------------------------------------------------------------------ formatting

  /** The digits of a fraction of `width` places without their trailing zeros. */
  function FractionDigits(fraction: nat, width: nat): (s: string)
    ensures AllDigits(s) && |s| <= width
  {
    if fraction == 0 || width == 0 then ""
    else if fraction % 10 == 0 then FractionDigits(fraction / 10, width - 1)
    else Pad(fraction, width)
  }

  function Fraction(nanos: nat): string {
    if nanos == 0 then "" else "." + FractionDigits(nanos, 9)
  }

  /** A civil time followed by the rest of its timestamp. */
  function CivilText(c: Civil, tail: string): string {
    Pad(c.year, 4) + (['-'] + (Pad(c.month, 2) + (['-'] + (Pad(c.day, 2) + (['T'] +
    (Pad(c.hour, 2) + ([':'] + (Pad(c.minute, 2) + ([':'] + (Pad(c.second, 2) + tail))))))))))
  }

  function FormatTime(t: Instant): string {
    CivilText(CivilOf(t / NANOS), Fraction(t % NANOS) + "Z")
  }

  /** A date and time of day is written with dashes, a T, colons and a Z, in fields of fixed width. */
  lemma FormatsCivil(c: Civil)
    requires c.Valid()
    ensures c.Seconds() < DAYS * DAY_SECONDS
    ensures FormatTime(c.Seconds() * NANOS)
         == Pad(c.year, 4) + ("-" + (Pad(c.month, 2) + ("-" + (Pad(c.day, 2) + ("T" +
            (Pad(c.hour, 2) + (":" + (Pad(c.minute, 2) + (":" + (Pad(c.second, 2) + "Z"))))))))))
  {
    hide Pad, DaysBeforeMonth, DaysBeforeYear;
    CivilInRange(c);
    CivilIsUnique(c);
    assert c.Seconds() * NANOS / NANOS == c.Seconds() && c.Seconds() * NANOS % NANOS == 0;
    assert Fraction(0) + "Z" == "Z";
  }

  lemma CivilInRange(c: Civil)
    requires c.Valid()
    ensures c.Seconds() < DAYS * DAY_SECONDS
  {
    var leap := IsLeap(c.year);
    MonthsGrow(leap, c.month + 1, 13);
    YearLength(c.year);
    YearsGrow(c.year + 1, 10000);
    assert DaysBeforeYear(10000) == DAYS;
    assert c.DayNumber() < DAYS;
  }

  /** A moment has one date and time of day. */
  lemma CivilIsUnique(c: Civil)
    requires c.Valid() && c.Seconds() < DAYS * DAY_SECONDS
    ensures CivilOf(c.Seconds()) == c
  {
    var d := CivilOf(c.Seconds());
    CivilTotal(c, d);
    if CivilLess(c, d) {
      CivilLessIsEarlier(c, d);
    } else if CivilLess(d, c) {
      CivilLessIsEarlier(d, c);
    }
  }

  lemma EpochFields()
    ensures var epoch := Civil(1970, 1, 1, 0, 0, 0);
            epoch.Valid() && epoch.Seconds() == 719_528 * DAY_SECONDS
  {
    hide DaysBeforeYear, DaysBeforeMonth, IsLeap, Civil.Valid, Civil.Seconds;
    NewYear(1970);
    EpochYear();
  }

  lemma NewYear(year: nat)
    requires year < 10000
    ensures var c := Civil(year, 1, 1, 0, 0, 0);
            c.Valid() && c.Seconds() == DaysBeforeYear(year) * DAY_SECONDS
  {
    hide DaysBeforeYear, DaysBeforeMonth, IsLeap;
    MonthLength(IsLeap(year), 1);
  }

  lemma EpochYear()
    ensures DaysBeforeYear(1970) == 719_528
  {
  }

  lemma EpochJoins()
    ensures "1970" + ("-" + ("01" + ("-" + ("01" + ("T" + ("00" + (":" + ("00" + (":" + ("00" + "Z"))))))))))
         == "1970-01-01T00:00:00Z"
  {
    assert ":" + ("00" + "Z") == ":00Z";
    assert ":" + ("00" + ":00Z") == ":00:00Z";
    assert "T" + ("00" + ":00:00Z") == "T00:00:00Z";
    assert "-" + ("01" + "T00:00:00Z") == "-01T00:00:00Z";
    assert "-" + ("01" + "-01T00:00:00Z") == "-01-01T00:00:00Z";
    assert "1970" + "-01-01T00:00:00Z" == "1970-01-01T00:00:00Z";
  }

  lemma PadTwo(d: nat)
    requires d < 10
    ensures Pad(d, 2) == ['0', Digit(d)]
  {
    assert Pad(d / 10, 1) == Pad(0, 0) + [Digit(0)];
  }

  lemma PadYear()
    ensures Pad(1970, 4) == "1970"
  {
    assert Pad(1, 1) == "1";
    assert Pad(19, 2) == Pad(1, 1) + [Digit(9)] == "19";
    assert Pad(197, 3) == Pad(19, 2) + [Digit(7)] == "197";
    assert Pad(1970, 4) == Pad(197, 3) + [Digit(0)];
  }

  /** Unix time begins in 1970. */
  lemma EpochText()
    ensures FormatTime(719_528 * DAY_SECONDS * NANOS) == "1970-01-01T00:00:00Z"
  {
    hide FormatTime, Pad, DaysBeforeMonth, DaysBeforeYear, IsLeap, Civil.Valid, Civil.Seconds;
    var epoch := Civil(1970, 1, 1, 0, 0, 0);
    EpochFields();
    FormatsCivil(epoch);
    PadYear();
    PadTwo(0);
    PadTwo(1);
    assert Pad(0, 2) == "00" && Pad(1, 2) == "01";
    EpochJoins();
  }

  // ------------------------------------------------------------------ parsing

  /** A numeral of exactly `width` digits. */
  function Field(s: string, width: nat): Option<(nat, string)> {
    if |s| < width || !AllDigits(s[..width]) then None else Some((Value(s[..width], width), s[width..]))
  }

  function Separator(s: string, c: char): Option<string> {
    if |s| > 0 && s[0] == c then Some(s[1..]) else None
  }

  function ParseCivil(s: string): Option<(Civil, string)> {
    var (year, s) :- Field(s, 4);
    var s :- Separator(s, '-');
    var (month, s) :- Field(s, 2);
    var s :- Separator(s, '-');
    var (day, s) :- Field(s, 2);
    var s :- Separator(s, 'T');
    var (hour, s) :- Field(s, 2);
    var s :- Separator(s, ':');
    var (minute, s) :- Field(s, 2);
    var s :- Separator(s, ':');
    var (second, s) :- Field(s, 2);
    var c := Civil(year, month, day, hour, minute, second);
    if c.Valid() then Some((c, s)) else None
  }

  /** Nothing, or a point and one to nine digits, then the letter Z. */
  function ParseFraction(s: string): Option<nat> {
    if s == "Z" then Some(0)
    else if 3 <= |s| <= 11 && s[0] == '.' && s[|s| - 1] == 'Z' && AllDigits(s[1..|s| - 1]) then
      Some(Value(s[1..|s| - 1], 9))
    else None
  }

  function ParseTime(s: string): Option<Instant> {
    var (c, s) :- ParseCivil(s);
    var nanos :- ParseFraction(s);
    var t := c.Seconds() * NANOS + nanos;
    if t < DAYS * DAY_SECONDS * NANOS then Some(t) else None
  }

  // ------------------------------------------------------------------ round trip

  lemma FieldPad(n: nat, width: nat, tail: string)
    requires n < Pow10(width)
    ensures Field(Pad(n, width) + tail, width) == Some((n, tail))
  {
    var s := Pad(n, width) + tail;
    assert s[..width] == Pad(n, width) && s[width..] == tail;
    ValuePad(n, width, width);
  }

  lemma SeparatorCons(c: char, tail: string)
    ensures Separator([c] + tail, c) == Some(tail)
  {
  }

  lemma {:induction false} ValueFractionDigits(fraction: nat, width: nat)
    requires width <= 9 && fraction < Pow10(width)
    ensures Value(FractionDigits(fraction, width), 9) == fraction * Pow10(9 - width)
    ensures fraction != 0 ==> FractionDigits(fraction, width) != ""
  {
    if fraction != 0 && width != 0 {
      if fraction % 10 == 0 {
        ValueFractionDigits(fraction / 10, width - 1);
        assert Pow10(9 - (width - 1)) == 10 * Pow10(9 - width);
        Distribute(fraction / 10, 0, Pow10(9 - width));
      } else {
        ValuePad(fraction, width, 9);
      }
    }
  }

  lemma CivilRoundTrip(c: Civil, tail: string)
    requires c.Valid()
    ensures ParseCivil(CivilText(c, tail)) == Some((c, tail))
  {
    var s5 := Pad(c.second, 2) + tail;
    var s4 := Pad(c.minute, 2) + ([':'] + s5);
    var s3 := Pad(c.hour, 2) + ([':'] + s4);
    var s2 := Pad(c.day, 2) + (['T'] + s3);
    var s1 := Pad(c.month, 2) + (['-'] + s2);
    FieldPad(c.year, 4, ['-'] + s1);
    FieldPad(c.month, 2, ['-'] + s2);
    FieldPad(c.day, 2, ['T'] + s3);
    FieldPad(c.hour, 2, [':'] + s4);
    FieldPad(c.minute, 2, [':'] + s5);
    FieldPad(c.second, 2, tail);
    SeparatorCons('-', s1);
    SeparatorCons('-', s2);
    SeparatorCons('T', s3);
    SeparatorCons(':', s4);
    SeparatorCons(':', s5);
  }

  lemma FractionRoundTrip(nanos: nat)
    requires nanos < NANOS
    ensures ParseFraction(Fraction(nanos) + "Z") == Some(nanos)
  {
    if nanos != 0 {
      var digits, s := FractionDigits(nanos, 9), Fraction(nanos) + "Z";
      ValueFractionDigits(nanos, 9);
      assert s[1..|s| - 1] == digits;
    }
  }

  /** `parseTime` undoes `formatTime`. */
  lemma RoundTrip(t: Instant)
    ensures ParseTime(FormatTime(t)) == Some(t)
  {
    var tail := Fraction(t % NANOS) + "Z";
    CivilRoundTrip(CivilOf(t / NANOS), tail);
    FractionRoundTrip(t % NANOS);
    SplitInstant(t);
    ParseParts(FormatTime(t), CivilOf(t / NANOS), tail, t % NANOS, t);
  }

  lemma ParseParts(s: string, c: Civil, tail: string, nanos: nat, t: Instant)
    requires ParseCivil(s) == Some((c, tail)) && ParseFraction(tail) == Some(nanos)
    requires c.Valid() && t == c.Seconds() * NANOS + nanos
    ensures ParseTime(s) == Some(t)
  {
    hide ParseCivil, ParseFraction, DaysBeforeYear, DaysBeforeMonth;
  }

  lemma SplitInstant(t: Instant)
    ensures t / NANOS < DAYS * DAY_SECONDS && t == t / NANOS * NANOS + t % NANOS
  {
  }

  lemma FormatInjective(a: Instant, b: Instant)
    ensures FormatTime(a) == FormatTime(b) <==> a == b
  {
    RoundTrip(a);
    RoundTrip(b);
  }

  // ------------------------------------------------------------------ text order against time order

  lemma FieldLess(a: nat, b: nat, width: nat, s: string, t: string)
    requires a < Pow10(width) && b < Pow10(width)
    requires a < b || (a == b && TextLess(s, t))
    ensures TextLess(Pad(a, width) + s, Pad(b, width) + t)
  {
    TextLessAppend(Pad(a, width), Pad(b, width), s, t);
    if a < b {
      PadLess(a, b, width);
    }
  }

  lemma SeparatorLess(c: char, s: string, t: string)
    ensures TextLess([c] + s, [c] + t) <==> TextLess(s, t)
  {
    TextLessAppend([c], [c], s, t);
    TextLessTotal([c], [c]);
  }

  /** The fields of a timestamp are written from the most to the least significant. */
  lemma CivilTextLess(a: Civil, b: Civil, s: string, t: string)
    requires a.Valid() && b.Valid() && CivilLess(a, b)
    ensures TextLess(CivilText(a, s), CivilText(b, t))
  {
    hide TextLess, Pad;
    var s5, t5 := Pad(a.second, 2) + s, Pad(b.second, 2) + t;
    var s4, t4 := Pad(a.minute, 2) + ([':'] + s5), Pad(b.minute, 2) + ([':'] + t5);
    var s3, t3 := Pad(a.hour, 2) + ([':'] + s4), Pad(b.hour, 2) + ([':'] + t4);
    var s2, t2 := Pad(a.day, 2) + (['T'] + s3), Pad(b.day, 2) + (['T'] + t3);
    var s1, t1 := Pad(a.month, 2) + (['-'] + s2), Pad(b.month, 2) + (['-'] + t2);
    SeparatorLess(':', s5, t5);
    SeparatorLess(':', s4, t4);
    SeparatorLess('T', s3, t3);
    SeparatorLess('-', s2, t2);
    SeparatorLess('-', s1, t1);
    if a.year < b.year {
      FieldLess(a.year, b.year, 4, ['-'] + s1, ['-'] + t1);
    } else {
      if a.month < b.month {
        FieldLess(a.month, b.month, 2, ['-'] + s2, ['-'] + t2);
      } else {
        if a.day < b.day {
          FieldLess(a.day, b.day, 2, ['T'] + s3, ['T'] + t3);
        } else {
          if a.hour < b.hour {
            FieldLess(a.hour, b.hour, 2, [':'] + s4, [':'] + t4);
          } else {
            if a.minute < b.minute {
              FieldLess(a.minute, b.minute, 2, [':'] + s5, [':'] + t5);
            } else {
              FieldLess(a.second, b.second, 2, s, t);
              FieldLess(a.minute, b.minute, 2, [':'] + s5, [':'] + t5);
            }
            FieldLess(a.hour, b.hour, 2, [':'] + s4, [':'] + t4);
          }
          FieldLess(a.day, b.day, 2, ['T'] + s3, ['T'] + t3);
        }
        FieldLess(a.month, b.month, 2, ['-'] + s2, ['-'] + t2);
      }
      FieldLess(a.year, b.year, 4, ['-'] + s1, ['-'] + t1);
    }
  }

  /** Equal civil times leave the order to what follows them. */
  lemma CivilTextTie(c: Civil, s: string, t: string)
    requires c.Valid()
    ensures TextLess(CivilText(c, s), CivilText(c, t)) <==> TextLess(s, t)
  {
    var s5, t5 := Pad(c.second, 2) + s, Pad(c.second, 2) + t;
    var s4, t4 := Pad(c.minute, 2) + ([':'] + s5), Pad(c.minute, 2) + ([':'] + t5);
    var s3, t3 := Pad(c.hour, 2) + ([':'] + s4), Pad(c.hour, 2) + ([':'] + t4);
    var s2, t2 := Pad(c.day, 2) + (['T'] + s3), Pad(c.day, 2) + (['T'] + t3);
    var s1, t1 := Pad(c.month, 2) + (['-'] + s2), Pad(c.month, 2) + (['-'] + t2);
    PadTie(c.year, 4, ['-'] + s1, ['-'] + t1);
    SeparatorLess('-', s1, t1);
    PadTie(c.month, 2, ['-'] + s2, ['-'] + t2);
    SeparatorLess('-', s2, t2);
    PadTie(c.day, 2, ['T'] + s3, ['T'] + t3);
    SeparatorLess('T', s3, t3);
    PadTie(c.hour, 2, [':'] + s4, [':'] + t4);
    SeparatorLess(':', s4, t4);
    PadTie(c.minute, 2, [':'] + s5, [':'] + t5);
    SeparatorLess(':', s5, t5);
    PadTie(c.second, 2, s, t);
  }

  lemma PadTie(n: nat, width: nat, s: string, t: string)
    ensures TextLess(Pad(n, width) + s, Pad(n, width) + t) <==> TextLess(s, t)
  {
    TextLessAppend(Pad(n, width), Pad(n, width), s, t);
    TextLessTotal(Pad(n, width), Pad(n, width));
  }

  /** Two digit strings that differ before either ends compare as the numbers they begin. */
  lemma {:induction false} DigitsLess(x: string, y: string, s: string, t: string, width: nat)
    requires AllDigits(x) && AllDigits(y) && |x| <= width && |y| <= width
    requires !(x <= y) && !(y <= x)
    ensures TextLess(x + s, y + t) <==> Value(x, width) < Value(y, width)
    decreases |x|
  {
    assert (x + s)[1..] == x[1..] + s && (y + t)[1..] == y[1..] + t;
    var p := Pow10(width - 1);
    if x[0] == y[0] {
      assert x == [x[0]] + x[1..] && y == [y[0]] + y[1..];
      DigitsLess(x[1..], y[1..], s, t, width - 1);
    } else {
      ValueBound(x[1..], width - 1);
      ValueBound(y[1..], width - 1);
      LeadingDigit(DigitValue(x[0]), DigitValue(y[0]), Value(x[1..], width - 1), Value(y[1..], width - 1), p);
    }
  }

  lemma LeadingDigit(d: nat, e: nat, v: nat, w: nat, p: nat)
    requires d != e && v < p && w < p
    ensures d * p + v < e * p + w <==> d < e
  {
    if d < e {
      ScaleStep(d, e, p);
    } else {
      ScaleStep(e, d, p);
    }
  }

  /** Within one second a fraction sorts before a later one unless its digits begin the later digits:
      the shorter text then ends in Z, which sorts after every digit and after the point. */
  lemma FractionOrder(m: nat, n: nat)
    requires m < n < NANOS
    ensures TextLess(Fraction(m) + "Z", Fraction(n) + "Z") <==> !(FractionDigits(m, 9) <= FractionDigits(n, 9))
  {
    hide FractionDigits, Fraction, Value, TextLess, AllDigits, Pad;
    var x, y := FractionDigits(m, 9), FractionDigits(n, 9);
    if m == 0 {
      WholeSecondLater(n);
      assert "" <= y;
    } else {
      ValueFractionDigits(m, 9);
      ValueFractionDigits(n, 9);
      FractionText(m);
      FractionText(n);
      SeparatorLess('.', x + "Z", y + "Z");
      DigitsOrder(x, y);
    }
  }

  lemma FractionText(m: nat)
    requires 0 < m < NANOS
    ensures Fraction(m) + "Z" == ['.'] + (FractionDigits(m, 9) + "Z")
  {
    hide FractionDigits;
  }

  /** A whole second sorts after the fractions that follow it. */
  lemma WholeSecondLater(n: nat)
    requires 0 < n < NANOS
    ensures FractionDigits(0, 9) == "" && !TextLess(Fraction(0) + "Z", Fraction(n) + "Z")
  {
    assert Fraction(0) + "Z" == "Z" && (Fraction(n) + "Z")[0] == '.';
    hide Pad;
  }

  lemma DigitsOrder(x: string, y: string)
    requires AllDigits(x) && AllDigits(y) && |x| <= 9 && |y| <= 9 && Value(x, 9) < Value(y, 9)
    ensures TextLess(x + "Z", y + "Z") <==> !(x <= y)
  {
    hide Value, TextLess;
    if x <= y {
      PrefixSortsAfter(x, y);
    } else {
      if y <= x {
        PrefixValue(y, x, 9);
      }
      DigitsLess(x, y, "Z", "Z", 9);
    }
  }

  lemma PrefixSortsAfter(x: string, y: string)
    requires AllDigits(y) && x <= y
    ensures !TextLess(x + "Z", y + "Z")
  {
    var rest := y[|x|..];
    assert y + "Z" == x + (rest + "Z");
    TextLessAppend(x, x, "Z", rest + "Z");
    TextLessTotal(x, x);
    TextLessTotal("Z", "Z");
  }

  lemma {:induction false} PrefixValue(x: string, y: string, width: nat)
    requires AllDigits(x) && AllDigits(y) && |y| <= width && x <= y
    ensures Value(x, width) <= Value(y, width)
    decreases |x|
  {
    if x != [] {
      assert x[1..] <= y[1..];
      PrefixValue(x[1..], y[1..], width - 1);
    }
  }

  /** Text comparison is time comparison for two instants, except exactly when they lie in the same
      second and the fractional digits of the earlier are a prefix of those of the later. */
  lemma TextOrderIsTimeOrder(a: Instant, b: Instant)
    requires a < b
    ensures TextLess(FormatTime(a), FormatTime(b))
       <==> (a / NANOS != b / NANOS || !(FractionDigits(a % NANOS, 9) <= FractionDigits(b % NANOS, 9)))
  {
    var s, t := Fraction(a % NANOS) + "Z", Fraction(b % NANOS) + "Z";
    SplitInstant(a);
    SplitInstant(b);
    if a / NANOS != b / NANOS {
      CivilOfMonotone(a / NANOS, b / NANOS);
      CivilTextLess(CivilOf(a / NANOS), CivilOf(b / NANOS), s, t);
    } else {
      CivilTextTie(CivilOf(a / NANOS), s, t);
      FractionOrder(a % NANOS, b % NANOS);
    }
  }

  /** The sufficient condition of section 5.1 of RFC 3339, with different seconds as a second one. */
  lemma SameDigitsSortAsTimes(a: Instant, b: Instant)
    requires a / NANOS != b / NANOS || |FractionDigits(a % NANOS, 9)| == |FractionDigits(b % NANOS, 9)|
    ensures TextLess(FormatTime(a), FormatTime(b)) <==> a < b
  {
    TextLessTotal(FormatTime(a), FormatTime(b));
    if a < b {
      EarlierSortsFirst(a, b);
    } else if b < a {
      EarlierSortsFirst(b, a);
    }
  }

  lemma EarlierSortsFirst(a: Instant, b: Instant)
    requires a < b
    requires a / NANOS != b / NANOS || |FractionDigits(a % NANOS, 9)| == |FractionDigits(b % NANOS, 9)|
    ensures TextLess(FormatTime(a), FormatTime(b))
  {
    TextOrderIsTimeOrder(a, b);
    SplitInstant(a);
    SplitInstant(b);
    if a / NANOS == b / NANOS {
      SameLengthFractions(a % NANOS, b % NANOS);
    }
  }

  lemma SameLengthFractions(m: nat, n: nat)
    requires m < NANOS && n < NANOS && m != n && |FractionDigits(m, 9)| == |FractionDigits(n, 9)|
    ensures !(FractionDigits(m, 9) <= FractionDigits(n, 9))
  {
    var x, y := FractionDigits(m, 9), FractionDigits(n, 9);
    assert x <= y ==> x == y;
    ValueFractionDigits(m, 9);
    ValueFractionDigits(n, 9);
  }
}
