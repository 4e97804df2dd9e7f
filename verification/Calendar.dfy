/**
 The civil-date arithmetic behind X-Amz-Date, against the Gregorian calendar
 as stated by its month lengths and leap-year rule.
 */
module Calendar {
  import opened Basics

  /** Integer division as Rust's `/` computes it, truncating toward zero. */
  function TruncDiv(a: int, b: int): int
    requires b > 0
  {
    if a >= 0 then a / b else -((-a) / b)
  }

  function DaysFromCivil(year: int, month: int, day: int): int {
    var y := if month <= 2 then year - 1 else year;
    var era := TruncDiv(if y >= 0 then y else y - 399, 400);
    var yoe := y - era * 400;
    var doy := TruncDiv(153 * (month + (if month > 2 then -3 else 9)) + 2, 5) + day - 1;
    var doe := yoe * 365 + TruncDiv(yoe, 4) - TruncDiv(yoe, 100) + doy;
    era * 146097 + doe - 719468
  }

  function YearOfEra(doe: int): int {
    TruncDiv(doe - TruncDiv(doe, 1460) + TruncDiv(doe, 36524) - TruncDiv(doe, 146096), 365)
  }

  function CivilFromDays(days: int): (int, int, int) {
    var z := days + 719468;
    var era := TruncDiv(if z >= 0 then z else z - 146096, 146097);
    var doe := z - era * 146097;
    var yoe := YearOfEra(doe);
    var y := yoe + era * 400;
    var doy := doe - (365 * yoe + TruncDiv(yoe, 4) - TruncDiv(yoe, 100));
    var mp := TruncDiv(5 * doy + 2, 153);
    var day := doy - TruncDiv(153 * mp + 2, 5) + 1;
    var month := mp + (if mp < 10 then 3 else -9);
    (if month <= 2 then y + 1 else y, month, day)
  }

  // ----------------------------------------------------- the Gregorian calendar

  predicate IsLeap(year: int) {
    year % 4 == 0 && (year % 100 != 0 || year % 400 == 0)
  }

  function MonthLength(year: int, month: int): int {
    if month == 2 then (if IsLeap(year) then 29 else 28)
    else if month in {4, 6, 9, 11} then 30 else 31
  }

  predicate ValidDate(year: int, month: int, day: int) {
    1 <= month <= 12 && 1 <= day <= MonthLength(year, month)
  }

  function NextDay(year: int, month: int, day: int): (int, int, int) {
    if day < MonthLength(year, month) then (year, month, day + 1)
    else if month < 12 then (year, month + 1, 1)
    else (year + 1, 1, 1)
  }

  // --------------------------------------------------------------- closed forms

  /** Days before March 1 of the y-th year, counted from March 1 of year 0. */
  function YearStart(y: int): int { 365 * y + y / 4 - y / 100 + y / 400 }

  function MonthStart(mp: int): int { (153 * mp + 2) / 5 }

  lemma EraSplit(y: int)
    ensures TruncDiv(if y >= 0 then y else y - 399, 400) == y / 400
    ensures YearStart(y) == (y / 400) * 146097 + 365 * (y % 400) + (y % 400) / 4 - (y % 400) / 100
  {
    var era, yoe := y / 400, y % 400;
    assert y == 400 * era + yoe;
    if y < 0 { assert (399 - y) / 400 == -era; }
    assert y / 4 == 100 * era + yoe / 4;
    assert y / 100 == 4 * era + yoe / 100;
  }

  /** The day number is the year's start plus the month's start plus the day. */
  lemma DaysFromCivilClosed(year: int, month: int, day: int)
    requires 1 <= month <= 12
    ensures var y := if month <= 2 then year - 1 else year;
            var mp := if month > 2 then month - 3 else month + 9;
            DaysFromCivil(year, month, day) == YearStart(y) + MonthStart(mp) + day - 1 - 719468
  {
    EraSplit(if month <= 2 then year - 1 else year);
  }

  lemma YearLength(y: int)
    ensures YearStart(y + 1) - YearStart(y) == if IsLeap(y + 1) then 366 else 365
  {
    var z := y + 1;
    assert z / 4 - y / 4 == if z % 4 == 0 then 1 else 0;
    assert z / 100 - y / 100 == if z % 100 == 0 then 1 else 0;
    assert z / 400 - y / 400 == if z % 400 == 0 then 1 else 0;
  }

  lemma MonthStarts()
    ensures MonthStart(0) == 0 && MonthStart(1) == 31 && MonthStart(2) == 61 && MonthStart(3) == 92
    ensures MonthStart(4) == 122 && MonthStart(5) == 153 && MonthStart(6) == 184 && MonthStart(7) == 214
    ensures MonthStart(8) == 245 && MonthStart(9) == 275 && MonthStart(10) == 306 && MonthStart(11) == 337
  {
  }

  // ---------------------------------------------------------------- main results

  /** One calendar day is one day number, in every year, and the epoch is day 0. */
  lemma NextDayIsSuccessor(year: int, month: int, day: int)
    requires ValidDate(year, month, day)
    ensures var (y, m, d) := NextDay(year, month, day);
            ValidDate(y, m, d) && DaysFromCivil(y, m, d) == DaysFromCivil(year, month, day) + 1
    ensures DaysFromCivil(1970, 1, 1) == 0
  {
    hide DaysFromCivil;
    var (y, m, d) := NextDay(year, month, day);
    DaysFromCivilClosed(year, month, day);
    DaysFromCivilClosed(y, m, d);
    DaysFromCivilClosed(1970, 1, 1);
    MonthStarts();
    YearLength(year - 1);
    hide YearStart;
    EpochYear();
    hide MonthStart;
  }

  lemma EpochYear()
    ensures YearStart(1969) == 719162
  {
  }

  /** The year-of-era formula, for a day written by century c, four-year block q, year r and day doy. */
  lemma YearOfEraFormula(c: int, q: int, r: int, doy: int)
    requires 0 <= c <= 3 && 0 <= q <= 24 && 0 <= r <= 3 && 0 <= doy <= 365
    requires doy == 365 ==> r == 3 && (q == 24 ==> c == 3)
    ensures YearOfEra(36524 * c + 1461 * q + 365 * r + doy) == 100 * c + 4 * q + r
  {
    var doe := 36524 * c + 1461 * q + 365 * r + doy;
    var f := if 24 * c + q + 365 * r + doy >= 1460 then 1 else 0;
    FourYearBlocks(25 * c + q, 24 * c + q + 365 * r + doy);
    Centuries(c, 1461 * q + 365 * r + doy);
    assert doe == 1460 * (25 * c + q) + (24 * c + q + 365 * r + doy);
    YearsOf365(100 * c + 4 * q + r, doy - f);
  }

  lemma FourYearBlocks(blocks: int, t: int)
    requires 0 <= blocks && 0 <= t < 2920
    ensures (1460 * blocks + t) / 1460 == blocks + (if t >= 1460 then 1 else 0)
  {
  }

  lemma Centuries(c: int, t: int)
    requires 0 <= c <= 3 && 0 <= t <= 36524 && (t == 36524 ==> c == 3)
    ensures (36524 * c + t) / 36524 - (36524 * c + t) / 146096 == c
  {
  }

  lemma YearsOf365(years: int, day: int)
    requires 0 <= years && 0 <= day < 365
    ensures (365 * years + day) / 365 == years
  {
  }

  /** Every day of the 400-year era falls in exactly one of its years. */
  lemma YearOfEraCorrect(doe: int)
    requires 0 <= doe < 146097
    ensures var y := YearOfEra(doe);
            && 0 <= y < 400
            && 365 * y + y / 4 - y / 100 <= doe
            && doe - (365 * y + y / 4 - y / 100) <= (if IsLeap(y + 1) then 365 else 364)
  {
    hide YearOfEra, IsLeap;
    var c, q, r, doy := EraDigits(doe);
    YearOfEraFormula(c, q, r, doy);
    var y := 100 * c + 4 * q + r;
    assert y / 4 == 25 * c + q && y / 100 == c;
    if doy == 365 { LeapDayYear(c, q); }
  }

  /** A day of the era by century, four-year block, year and day. */
  lemma EraDigits(doe: int) returns (c: int, q: int, r: int, doy: int)
    requires 0 <= doe < 146097
    ensures 0 <= c <= 3 && 0 <= q <= 24 && 0 <= r <= 3 && 0 <= doy <= 365
    ensures doy == 365 ==> r == 3 && (q == 24 ==> c == 3)
    ensures doe == 36524 * c + 1461 * q + 365 * r + doy
  {
    c := if doe / 36524 <= 3 then doe / 36524 else 3;
    var inCentury := doe - 36524 * c;
    q := inCentury / 1461;
    var inBlock := inCentury - 1461 * q;
    r := if inBlock / 365 <= 3 then inBlock / 365 else 3;
    doy := inBlock - 365 * r;
  }

  lemma LeapDayYear(c: int, q: int)
    requires 0 <= c <= 3 && 0 <= q <= 24 && (q == 24 ==> c == 3)
    ensures IsLeap(100 * c + 4 * q + 4)
  {
    var y := 100 * c + 4 * q + 4;
    assert y % 4 == 0;
    if q == 24 { assert y == 400; } else { assert y % 100 == 4 * (q + 1); }
  }

  /** A year of the era and a day in it are recovered from the day of the era. */
  lemma YearOfEraInverse(y: int, doy: int)
    requires 0 <= y < 400 && 0 <= doy <= (if IsLeap(y + 1) then 365 else 364)
    ensures YearOfEra(365 * y + y / 4 - y / 100 + doy) == y
  {
    var c, q, r := y / 100, (y % 100) / 4, y % 4;
    assert y == 100 * c + 4 * q + r;
    assert y / 4 == 25 * c + q;
    YearOfEraFormula(c, q, r, doy);
  }

  lemma MonthOfDay(doy: int)
    requires 0 <= doy <= 365
    ensures var mp := (5 * doy + 2) / 153;
            0 <= mp <= 11 && MonthStart(mp) <= doy < MonthStart(mp + 1)
  {
  }

  lemma MonthOfDayInverse(mp: int, doy: int)
    requires 0 <= mp <= 11 && MonthStart(mp) <= doy < MonthStart(mp + 1)
    ensures (5 * doy + 2) / 153 == mp
  {
  }

  lemma DayInMonth(year: int, month: int, doy: int)
    requires 1 <= month <= 12
    requires var mp := if month > 2 then month - 3 else month + 9;
             && MonthStart(mp) <= doy < MonthStart(mp + 1)
             && (month == 2 ==> doy <= (if IsLeap(year) then 365 else 364))
    ensures ValidDate(year, month, doy - MonthStart(if month > 2 then month - 3 else month + 9) + 1)
  {
    MonthStarts();
  }

  lemma EraOfDay(z: int, era: int, doe: int)
    requires 0 <= doe < 146097 && z == 146097 * era + doe
    ensures TruncDiv(if z >= 0 then z else z - 146096, 146097) == era
  {
    if z < 0 {
      assert 146096 - z == 146097 * (-era) + (146096 - doe);
      assert (146096 - z) / 146097 == -era;
    }
  }

  /** The leap rule and the start of a year, by era and year of era. */
  lemma EraAndYear(era: int, yoe: int)
    requires 0 <= yoe < 400
    ensures YearStart(yoe + era * 400) == era * 146097 + 365 * yoe + yoe / 4 - yoe / 100
    ensures IsLeap(yoe + era * 400 + 1) == IsLeap(yoe + 1)
  {
    var y := yoe + era * 400;
    assert y / 4 == 100 * era + yoe / 4 && y / 100 == 4 * era + yoe / 100 && y / 400 == era;
    LeapPeriodic(yoe + 1, era);
  }

  lemma Mod4(w: int, k: int)
    ensures (w + 4 * k) % 4 == w % 4
  {
  }

  lemma Mod100(w: int, k: int)
    ensures (w + 100 * k) % 100 == w % 100
  {
  }

  lemma Mod400(w: int, k: int)
    ensures (w + 400 * k) % 400 == w % 400
  {
  }

  lemma LeapPeriodic(w: int, era: int)
    ensures IsLeap(w + era * 400) == IsLeap(w)
  {
    Mod4(w, 100 * era);
    Mod100(w, 4 * era);
    Mod400(w, era);
  }

  /** What the conversion computes for day `doy` of year `yoe` of an era. */
  lemma CivilFromDaysAt(era: int, yoe: int, doy: int)
    requires 0 <= yoe < 400 && 0 <= doy <= (if IsLeap(yoe + 1) then 365 else 364)
    ensures var mp := (5 * doy + 2) / 153;
            var month := if mp < 10 then mp + 3 else mp - 9;
            var y := yoe + era * 400;
            CivilFromDays(era * 146097 + 365 * yoe + yoe / 4 - yoe / 100 + doy - 719468)
            == (if month <= 2 then y + 1 else y, month, doy - MonthStart(mp) + 1)
  {
    hide YearOfEra, IsLeap, CivilFromDays, TruncDiv;
    var doe := 365 * yoe + yoe / 4 - yoe / 100 + doy;
    EraDayRange(yoe, doy);
    YearOfEraInverse(yoe, doy);
    EraOfDay(era * 146097 + doe, era, doe);
    CivilFromEra(era, doe, yoe, doy);
  }

  lemma CivilFromEra(era: int, doe: int, yoe: int, doy: int)
    requires 0 <= yoe < 400 && 0 <= doy <= 365 && doe == 365 * yoe + yoe / 4 - yoe / 100 + doy
    requires YearOfEra(doe) == yoe
    requires var z := era * 146097 + doe; TruncDiv(if z >= 0 then z else z - 146096, 146097) == era
    ensures var mp := (5 * doy + 2) / 153;
            var month := if mp < 10 then mp + 3 else mp - 9;
            var y := yoe + era * 400;
            CivilFromDays(era * 146097 + doe - 719468)
            == (if month <= 2 then y + 1 else y, month, doy - MonthStart(mp) + 1)
  {
    hide YearOfEra;
    assert TruncDiv(yoe, 4) == yoe / 4 && TruncDiv(yoe, 100) == yoe / 100;
  }

  /** Every integer is the day number of the valid date it converts to. */
  lemma CivilRoundTrip(days: int)
    ensures var (y, m, d) := CivilFromDays(days);
            ValidDate(y, m, d) && DaysFromCivil(y, m, d) == days
  {
    hide CivilFromDays, DaysFromCivil, YearOfEra;
    var z := days + 719468;
    var era, doe := z / 146097, z % 146097;
    YearOfEraCorrect(doe);
    var yoe := YearOfEra(doe);
    var doy := doe - (365 * yoe + yoe / 4 - yoe / 100);
    CivilFromDaysAt(era, yoe, doy);
    EraAndYear(era, yoe);
    MonthOfDay(doy);
    var (year, month, day) := CivilFromDays(days);
    DayInMonth(year, month, doy);
    DaysFromCivilClosed(year, month, day);
    hide IsLeap, YearStart, MonthStart;
  }

  lemma DayOfYearInRange(year: int, month: int, day: int)
    requires ValidDate(year, month, day)
    ensures var y := if month <= 2 then year - 1 else year;
            var mp := if month > 2 then month - 3 else month + 9;
            var doy := MonthStart(mp) + day - 1;
            MonthStart(mp) <= doy < MonthStart(mp + 1) && doy <= (if IsLeap(y + 1) then 365 else 364)
  {
    MonthStarts();
  }

  /** Every valid date is the date its day number converts to. */
  lemma DateRoundTrip(year: int, month: int, day: int)
    requires ValidDate(year, month, day)
    ensures CivilFromDays(DaysFromCivil(year, month, day)) == (year, month, day)
  {
    hide CivilFromDays, DaysFromCivil, YearOfEra;
    var y := if month <= 2 then year - 1 else year;
    var mp := if month > 2 then month - 3 else month + 9;
    var doy := MonthStart(mp) + day - 1;
    DayOfYearInRange(year, month, day);
    DaysFromCivilClosed(year, month, day);
    var days := DaysFromCivil(year, month, day);
    var era, yoe := y / 400, y % 400;
    EraAndYear(era, yoe);
    CivilFromDaysAt(era, yoe, doy);
    MonthOfDayInverse(mp, doy);
    hide IsLeap, YearStart, MonthStart;
  }

  lemma EraDayRange(yoe: int, doy: int)
    requires 0 <= yoe < 400 && 0 <= doy <= (if IsLeap(yoe + 1) then 365 else 364)
    ensures 0 <= 365 * yoe + yoe / 4 - yoe / 100 + doy < 146097
  {
  }

  // ------------------------------------------------------------- X-Amz-Date

  /** A two-digit, zero-padded decimal. */
  function Two(n: int): (t: Text)
    requires 0 <= n < 100
  {
    [0x30 + n / 10, 0x30 + n % 10]
  }

  function Four(n: int): Text
    requires 0 <= n < 10000
  {
    Two(n / 100) + Two(n % 100)
  }

  function DigitsValue(t: Text): Option<nat> {
    if t == [] then Some(0) else
      var front := DigitsValue(t[..|t| - 1]);
      var last := t[|t| - 1];
      if front.Some? && 0x30 <= last <= 0x39 then Some(10 * front.value + (last - 0x30)) else None
  }

  /** `str::parse::<u64>`: digits, with an optional leading plus sign. */
  function ParseNumber(t: Text): Option<nat> {
    var digits := if t != [] && t[0] == 0x2B then t[1..] else t;
    if digits == [] then None else DigitsValue(digits)
  }

  /** The day count is cast to u64 before the multiplication. */
  function EpochMs(year: nat, month: nat, day: nat, hour: nat, minute: nat, second: nat): nat {
    ((DaysFromCivil(year, month, day) % U64) * 86400 + hour * 3600 + minute * 60 + second) * 1000
  }

  function ParseAmzDate(t: Text): Option<nat> {
    if |t| != 16 || t[15] != 0x5A then None else
      var year := ParseNumber(t[0..4]);
      var month := ParseNumber(t[4..6]);
      var day := ParseNumber(t[6..8]);
      var hour := ParseNumber(t[9..11]);
      var minute := ParseNumber(t[11..13]);
      var second := ParseNumber(t[13..15]);
      if year.None? || month.None? || day.None? || hour.None? || minute.None? || second.None? then None
      else Some(EpochMs(year.value, month.value, day.value, hour.value, minute.value, second.value))
  }

  /** The first millisecond of the year 10000. */
  const END_OF_RANGE: nat := 253402300800000

  lemma YearInRange(ms: nat)
    requires ms < END_OF_RANGE
    ensures var (y, m, d) := CivilFromDays(ms / 86400000); 1970 <= y < 10000 && ValidDate(y, m, d)
  {
    hide CivilFromDays, DaysFromCivil;
    var days := ms / 86400000;
    CivilRoundTrip(days);
    var (y, m, d) := CivilFromDays(days);
    DaysFromCivilClosed(y, m, d);
    DayOfYearInRange(y, m, d);
    var yy := if m <= 2 then y - 1 else y;
    assert YearStart(yy) <= days + 719468 <= YearStart(yy) + 365;
    assert days + 719468 < 3652365 + 60 && days >= 0;
    MonthStarts();
  }

  function PrintAmzDate(ms: nat): (t: Text)
    requires ms < END_OF_RANGE
    ensures |t| == 16
  {
    YearInRange(ms);
    var total := ms / 1000;
    assert total / 86400 == ms / 86400000;
    var s := total % 86400;
    var (year, month, day) := CivilFromDays(total / 86400);
    Four(year) + Two(month) + Two(day) + [0x54] + Two(s / 3600) + Two((s % 3600) / 60) + Two(s % 60) + [0x5A]
  }

  lemma ParseTwo(n: int)
    requires 0 <= n < 100
    ensures ParseNumber(Two(n)) == Some(n)
  {
    var t := Two(n);
    assert t[..1] == [0x30 + n / 10] && t[..1][..0] == [];
    assert DigitsValue(t[..1]) == Some(n / 10);
  }

  lemma ParseFour(n: int)
    requires 0 <= n < 10000
    ensures ParseNumber(Four(n)) == Some(n)
  {
    var t := Four(n);
    var a, b := n / 100, n % 100;
    assert t[..3][..2] == Two(a) && t[..3] == t[..|t| - 1];
    ParseTwo(a);
    assert DigitsValue(Two(a)) == Some(a);
    assert DigitsValue(t[..3]) == Some(10 * a + b / 10);
    assert DigitsValue(t) == Some(10 * (10 * a + b / 10) + b % 10);
  }

  /** Parsing a printed time gives it back, rounded down to the second, for 1970 through 9999. */
  lemma AmzDateRoundTrip(ms: nat)
    requires ms < END_OF_RANGE
    ensures ParseAmzDate(PrintAmzDate(ms)) == Some(ms / 1000 * 1000)
  {
    hide CivilFromDays, DaysFromCivil, ParseAmzDate, Four, Two, EpochMs;
    var total := ms / 1000;
    var days, s := total / 86400, total % 86400;
    assert days == ms / 86400000;
    YearInRange(ms);
    CivilRoundTrip(days);
    var (year, month, day) := CivilFromDays(days);
    ParseFields(year, month, day, s / 3600, (s % 3600) / 60, s % 60);
    EpochMsOfDay(year, month, day, s);
    assert total == days * 86400 + s;
  }

  lemma EpochMsOfDay(year: nat, month: nat, day: nat, s: nat)
    requires s < 86400 && 0 <= DaysFromCivil(year, month, day) < U64
    ensures EpochMs(year, month, day, s / 3600, (s % 3600) / 60, s % 60)
            == (DaysFromCivil(year, month, day) * 86400 + s) * 1000
  {
    hide DaysFromCivil;
    assert s == 3600 * (s / 3600) + 60 * ((s % 3600) / 60) + s % 60;
  }

  lemma ParseFields(year: int, month: int, day: int, hour: int, minute: int, second: int)
    requires 0 <= year < 10000 && 0 <= month < 100 && 0 <= day < 100
    requires 0 <= hour < 100 && 0 <= minute < 100 && 0 <= second < 100
    ensures ParseAmzDate(Four(year) + Two(month) + Two(day) + [0x54] + Two(hour) + Two(minute) + Two(second) + [0x5A])
            == Some(EpochMs(year, month, day, hour, minute, second))
  {
    hide EpochMs, ParseNumber;
    ParseFour(year);
    ParseTwo(month);
    ParseTwo(day);
    ParseTwo(hour);
    ParseTwo(minute);
    ParseTwo(second);
    var t := Four(year) + Two(month) + Two(day) + [0x54] + Two(hour) + Two(minute) + Two(second) + [0x5A];
    assert t[0..4] == Four(year) && t[4..6] == Two(month) && t[6..8] == Two(day);
    assert t[9..11] == Two(hour) && t[11..13] == Two(minute) && t[13..15] == Two(second);
  }
}
