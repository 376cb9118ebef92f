/** File timestamps: RFC 3339 text to epoch seconds through the closed civil-days form, against
    a calendar that steps one day at a time. */
module CivilDays {
  import opened Bytes

  // ------------------------------------------------------- the calendar

  datatype Date = Date(year: int, month: int, day: int)

  predicate Leap(y: int) {
    y % 4 == 0 && (y % 100 != 0 || y % 400 == 0)
  }

  function MonthLength(y: int, m: int): int {
    if m == 2 then (if Leap(y) then 29 else 28)
    else if m == 4 || m == 6 || m == 9 || m == 11 then 30
    else 31
  }

  function YearLength(y: int): int {
    if Leap(y) then 366 else 365
  }

  predicate IsDate(d: Date) {
    1 <= d.month <= 12 && 1 <= d.day <= MonthLength(d.year, d.month)
  }

  /** The next calendar day. */
  function NextDay(d: Date): (n: Date)
    requires IsDate(d)
    ensures IsDate(n)
  {
    if d.day < MonthLength(d.year, d.month) then d.(day := d.day + 1)
    else if d.month < 12 then Date(d.year, d.month + 1, 1)
    else Date(d.year + 1, 1, 1)
  }

  function Advance(d: Date, n: nat): (e: Date)
    requires IsDate(d)
    ensures IsDate(e)
    decreases n
  {
    if n == 0 then d else Advance(NextDay(d), n - 1)
  }

  function Epoch(): (d: Date)
    ensures IsDate(d)
  {
    Date(1970, 1, 1)
  }

  // ------------------------------------------------------- the closed form

  /** Days before 1 March of `y`, counted from 1 March of year 0, era by era. */
  function MarchDays(y: int): int {
    var era := y / 400;
    var yearOfEra := y - era * 400;
    era * 146097 + yearOfEra * 365 + yearOfEra / 4 - yearOfEra / 100
  }

  /** Days since 1970-01-01. */
  function Days(d: Date): int {
    var y := if d.month <= 2 then d.year - 1 else d.year;
    var monthIndex := if d.month > 2 then d.month - 3 else d.month + 9;
    MarchDays(y) + (153 * monthIndex + 2) / 5 + d.day - 1 - 719468
  }

  lemma EraQuarters(y: int, era: int, yoe: int)
    requires y == era * 400 + yoe && 0 <= yoe < 400
    ensures y / 4 == era * 100 + yoe / 4
  {
  }

  lemma EraCenturies(y: int, era: int, yoe: int)
    requires y == era * 400 + yoe && 0 <= yoe < 400
    ensures y / 100 == era * 4 + yoe / 100
  {
  }

  /** The era arithmetic is the plain count of leap days. */
  lemma MarchDaysPlain(y: int)
    ensures MarchDays(y) == 365 * y + y / 4 - y / 100 + y / 400
  {
    var era, yoe := y / 400, y % 400;
    EraQuarters(y, era, yoe);
    EraCenturies(y, era, yoe);
  }

  /** A quotient grows exactly when the next number is a multiple. */
  lemma QuotientStep(y: int, k: int)
    requires k > 1
    ensures (y + 1) / k == y / k + (if (y + 1) % k == 0 then 1 else 0)
  {
    var q, r := y / k, y % k;
    assert y + 1 == k * q + (r + 1);
    if r + 1 == k {
      assert y + 1 == k * (q + 1);
      QuotientIs(y + 1, k, q + 1, 0);
    } else {
      QuotientIs(y + 1, k, q, r + 1);
    }
  }

  lemma QuotientIs(n: int, k: int, q: int, r: int)
    requires k > 1 && n == k * q + r && 0 <= r < k
    ensures n / k == q && n % k == r
  {
    var p := n / k;
    assert n == k * p + n % k;
    assert p < q ==> k * (p + 1) <= k * q;
    assert q < p ==> k * (q + 1) <= k * p;
  }

  lemma CenturyIsQuarter(y: int)
    ensures y % 400 == 0 ==> y % 100 == 0
    ensures y % 100 == 0 ==> y % 4 == 0
  {
    if y % 100 == 0 {
      QuotientIs(y, 4, 25 * (y / 100), 0);
    }
    if y % 400 == 0 {
      QuotientIs(y, 100, 4 * (y / 400), 0);
    }
  }

  lemma MarchYear(y: int)
    ensures MarchDays(y + 1) == MarchDays(y) + YearLength(y + 1)
  {
    MarchDaysPlain(y);
    MarchDaysPlain(y + 1);
    QuotientStep(y, 4);
    QuotientStep(y, 100);
    QuotientStep(y, 400);
    CenturyIsQuarter(y + 1);
  }

  /** One calendar day is one day of the closed form, in every year. */
  lemma NextDayCounts(d: Date)
    requires IsDate(d)
    ensures Days(NextDay(d)) == Days(d) + 1
  {
    if d.day == MonthLength(d.year, d.month) {
      if d.month == 2 {
        MarchFollows(d.year, d.day);
      } else if d.month == 12 {
        JanuaryFollows(d.year);
      } else {
        MonthFollows(d.year, d.month, d.day);
      }
    }
  }

  /** February is the last month of the closed form's year. */
  lemma MarchFollows(y: int, last: int)
    requires last == MonthLength(y, 2)
    ensures Days(Date(y, 3, 1)) == Days(Date(y, 2, last)) + 1
  {
    MarchYear(y - 1);
  }

  lemma JanuaryFollows(y: int)
    ensures Days(Date(y + 1, 1, 1)) == Days(Date(y, 12, 31)) + 1
  {
  }

  lemma MonthFollows(y: int, m: int, last: int)
    requires 1 <= m < 12 && m != 2 && last == MonthLength(y, m)
    ensures Days(Date(y, m + 1, 1)) == Days(Date(y, m, last)) + 1
  {
  }

  lemma {:induction false} AdvanceCounts(d: Date, n: nat)
    requires IsDate(d)
    ensures Days(Advance(d, n)) == Days(d) + n
    decreases n
  {
    if n > 0 {
      NextDayCounts(d);
      AdvanceCounts(NextDay(d), n - 1);
    }
  }

  // ------------------------------------------------------- order

  predicate Earlier(a: Date, b: Date) {
    a.year < b.year || (a.year == b.year && (a.month < b.month || (a.month == b.month && a.day < b.day)))
  }

  lemma FirstOfNextMonth(y: int, m: int)
    requires 1 <= m < 12
    ensures Days(Date(y, m + 1, 1)) == Days(Date(y, m, 1)) + MonthLength(y, m)
  {
    NextDayCounts(Date(y, m, MonthLength(y, m)));
  }

  lemma LastMonth(y: int)
    ensures Days(Date(y + 1, 1, 1)) == Days(Date(y, 12, 1)) + MonthLength(y, 12)
  {
    NextDayCounts(Date(y, 12, 31));
  }

  lemma {:induction false} LaterMonth(y: int, m: int, n: int)
    requires 1 <= m < n <= 12
    ensures Days(Date(y, m, 1)) + MonthLength(y, m) <= Days(Date(y, n, 1))
    decreases n
  {
    FirstOfNextMonth(y, n - 1);
    if m < n - 1 {
      LaterMonth(y, m, n - 1);
    }
  }

  /** A date is in its month. */
  lemma DayOfMonth(d: Date)
    requires IsDate(d)
    ensures Days(d) == Days(Date(d.year, d.month, 1)) + d.day - 1
  {
  }

  lemma {:induction false} YearStarts(y: int, k: nat)
    ensures Days(Date(y + k, 1, 1)) >= Days(Date(y, 1, 1)) + 365 * k
    ensures k > 0 ==> Days(Date(y + k, 1, 1)) >= Days(Date(y, 1, 1)) + YearLength(y)
    decreases k
  {
    if k > 0 {
      YearStarts(y, k - 1);
      NextYear(y + k - 1);
    }
  }

  lemma NextYear(y: int)
    ensures Days(Date(y + 1, 1, 1)) == Days(Date(y, 1, 1)) + YearLength(y)
  {
    MarchYear(y - 1);
  }

  lemma WithinYear(d: Date)
    requires IsDate(d)
    ensures 0 <= Days(d) - Days(Date(d.year, 1, 1)) < YearLength(d.year)
  {
    DayOfMonth(d);
    MonthWithinYear(d.year, d.month);
  }

  lemma MonthWithinYear(y: int, m: int)
    requires 1 <= m <= 12
    ensures Days(Date(y, 1, 1)) <= Days(Date(y, m, 1))
    ensures Days(Date(y, m, 1)) + MonthLength(y, m) <= Days(Date(y, 1, 1)) + YearLength(y)
  {
    if m > 1 {
      LaterMonth(y, 1, m);
    }
    BeforeNextYear(y, m);
    NextYear(y);
  }

  lemma BeforeNextYear(y: int, m: int)
    requires 1 <= m <= 12
    ensures Days(Date(y, m, 1)) + MonthLength(y, m) <= Days(Date(y + 1, 1, 1))
  {
    LastMonth(y);
    if m < 12 {
      LaterMonth(y, m, 12);
    }
  }

  /** The closed form orders dates as the calendar does. */
  lemma DaysAreMonotone(a: Date, b: Date)
    requires IsDate(a) && IsDate(b)
    ensures Days(a) < Days(b) <==> Earlier(a, b)
    ensures Days(a) == Days(b) <==> a == b
  {
    if Earlier(a, b) {
      EarlierCountsLess(a, b);
    } else if Earlier(b, a) {
      EarlierCountsLess(b, a);
    }
  }

  lemma EarlierCountsLess(a: Date, b: Date)
    requires IsDate(a) && IsDate(b) && Earlier(a, b)
    ensures Days(a) < Days(b)
  {
    if a.year < b.year {
      EarlierYear(a, b);
    } else if a.month < b.month {
      EarlierMonth(a, b);
    }
  }

  lemma EarlierYear(a: Date, b: Date)
    requires IsDate(a) && IsDate(b) && a.year < b.year
    ensures Days(a) < Days(b)
  {
    WithinYear(a);
    YearStarts(a.year, b.year - a.year);
    WithinYear(b);
  }

  lemma EarlierMonth(a: Date, b: Date)
    requires IsDate(a) && IsDate(b) && a.year == b.year && a.month < b.month
    ensures Days(a) < Days(b)
  {
    DayOfMonth(a);
    DayOfMonth(b);
    LaterMonth(a.year, a.month, b.month);
  }

  /** The closed form is the number of single-day steps between a date and 1970-01-01, for every
      date of every year, before or after. */
  lemma DaysAreSteps(d: Date, epoch: Date)
    requires IsDate(d) && epoch == Epoch()
    ensures Days(d) >= 0 ==> Advance(epoch, Days(d)) == d
    ensures Days(d) <= 0 ==> Advance(d, -Days(d)) == epoch
  {
    EpochIsDayZero(epoch);
    if Days(d) >= 0 {
      StepsReach(epoch, d, Days(d));
    }
    if Days(d) <= 0 {
      StepsReach(d, epoch, -Days(d));
    }
  }

  lemma EpochIsDayZero(epoch: Date)
    requires epoch == Epoch()
    ensures Days(epoch) == 0
  {
  }

  lemma StepsReach(a: Date, b: Date, n: nat)
    requires IsDate(a) && IsDate(b) && Days(b) == Days(a) + n
    ensures Advance(a, n) == b
  {
    AdvanceCounts(a, n);
    DaysAreMonotone(Advance(a, n), b);
  }

  // ------------------------------------------------------- seconds

  datatype Time = Time(date: Date, hour: int, minute: int, second: int)

  predicate IsTime(t: Time) {
    IsDate(t.date) && 0 <= t.hour < 24 && 0 <= t.minute < 60 && 0 <= t.second < 60
  }

  /** A time as RFC 3339 may write it: a leap second is the second 60. */
  predicate IsStamp(t: Time) {
    IsDate(t.date) && 0 <= t.hour < 24 && 0 <= t.minute < 60 && 0 <= t.second <= 60
  }

  function Seconds(t: Time): int {
    Days(t.date) * 86400 + t.hour * 3600 + t.minute * 60 + t.second
  }

  predicate EarlierTime(a: Time, b: Time) {
    || Earlier(a.date, b.date)
    || (a.date == b.date
        && (a.hour < b.hour || (a.hour == b.hour && (a.minute < b.minute || (a.minute == b.minute && a.second < b.second)))))
  }

  /** Epoch seconds order UTC timestamps. */
  lemma SecondsAreMonotone(a: Time, b: Time)
    requires IsTime(a) && IsTime(b)
    ensures Seconds(a) < Seconds(b) <==> EarlierTime(a, b)
  {
    DaysAreMonotone(a.date, b.date);
    assert 0 <= Seconds(a) - Days(a.date) * 86400 < 86400;
    assert 0 <= Seconds(b) - Days(b.date) * 86400 < 86400;
    if Days(a.date) < Days(b.date) {
      assert (Days(a.date) + 1) * 86400 <= Days(b.date) * 86400;
    } else if Days(b.date) < Days(a.date) {
      assert (Days(b.date) + 1) * 86400 <= Days(a.date) * 86400;
    }
  }

  // ------------------------------------------------------- the parser

  predicate Digit(c: char) {
    '0' <= c <= '9'
  }

  function DigitsValue(s: string): Option<nat> {
    if s == "" then Some(0)
    else if !Digit(s[|s| - 1]) then None
    else match DigitsValue(s[..|s| - 1])
      case None => None
      case Some(v) => Some(v * 10 + (s[|s| - 1] as int - '0' as int))
  }

  /** A signed decimal: an optional sign and at least one digit. */
  function ParseInt(s: string): Option<int> {
    var digits := if s != "" && (s[0] == '+' || s[0] == '-') then s[1..] else s;
    if digits == "" then None
    else match DigitsValue(digits)
      case None => None
      case Some(v) => var n: int := v; Some(if s[0] == '-' then -n else n)
  }

  /** The position of the first dash, or the length. */
  function Dash(s: string): (n: nat)
    ensures n <= |s|
  {
    if s == "" || s[0] == '-' then 0 else 1 + Dash(s[1..])
  }

  /** The three fields before, between and after the first two dashes; what a third dash would
      cut off is not read. */
  function DateFields(date: string): Option<(int, int, int)> {
    var a := Dash(date);
    if a == |date| then None
    else
      var rest := date[a + 1..];
      var b := Dash(rest);
      if b == |rest| then None
      else
        var last := rest[b + 1..];
        var y, m, d := ParseInt(date[..a]), ParseInt(rest[..b]), ParseInt(last[..Dash(last)]);
        if y.Some? && m.Some? && d.Some? then Some((y.value, m.value, d.value)) else None
  }

  /** An instant as the program can hold it: not before 1970. */
  function Held(instant: int): Option<nat> {
    if instant >= 0 then Some(instant) else None
  }

  /** Reads fixed columns and ignores whatever follows the seconds. */
  function ParseEpoch(text: string): Option<nat> {
    if |text| < 19 then None
    else
      var fields := DateFields(text[..10]);
      var h, mi, s := ParseInt(text[11..13]), ParseInt(text[14..16]), ParseInt(text[17..19]);
      if fields.None? || h.None? || mi.None? || s.None? then None
      else
        var (y, m, d) := fields.value;
        Held(Seconds(Time(Date(y, m, d), h.value, mi.value, s.value)))
  }

  function DigitChar(n: int): (c: char)
    requires 0 <= n < 10
    ensures Digit(c) && c as int - '0' as int == n
  {
    ('0' as int + n) as char
  }

  function Two(n: int): (s: string)
    requires 0 <= n < 100
    ensures |s| == 2 && Digit(s[0]) && Digit(s[1])
  {
    [DigitChar(n / 10), DigitChar(n % 10)]
  }

  function Four(n: int): (s: string)
    requires 0 <= n < 10000
    ensures |s| == 4
  {
    Two(n / 100) + Two(n % 100)
  }

  lemma TwoParses(n: int)
    requires 0 <= n < 100
    ensures ParseInt(Two(n)) == Some(n) && Dash(Two(n)) == 2
  {
    var s := Two(n);
    assert s[..1][..0] == "" && DigitsValue(s[..1]) == Some(n / 10);
    assert s[1..][1..] == "" && Dash(s[1..]) == 1;
  }

  lemma FourParses(n: int)
    requires 0 <= n < 10000
    ensures ParseInt(Four(n)) == Some(n)
  {
    var s := Four(n);
    var a := n / 100;
    assert s[..3][..2] == Two(a) && s[..3] == Two(a) + [DigitChar(n % 100 / 10)];
    TwoParses(a);
    assert DigitsValue(Two(a)) == Some(a);
    assert DigitsValue(s[..3]) == Some(a * 10 + n % 100 / 10);
  }

  lemma {:induction false} DashAfter(p: string, rest: string)
    requires forall i :: 0 <= i < |p| ==> p[i] != '-'
    ensures Dash(p + rest) == |p| + Dash(rest)
  {
    if p == "" {
      assert p + rest == rest;
    } else {
      assert (p + rest)[1..] == p[1..] + rest;
      DashAfter(p[1..], rest);
    }
  }

  function DateText(d: Date): string
    requires IsDate(d) && 0 <= d.year < 10000
  {
    Four(d.year) + "-" + Two(d.month) + "-" + Two(d.day)
  }

  lemma DateParses(d: Date, s: string)
    requires IsDate(d) && 0 <= d.year < 10000 && s == DateText(d)
    ensures DateFields(s) == Some((d.year, d.month, d.day))
  {
    var y, m, dd := Four(d.year), Two(d.month), Two(d.day);
    var rest := m + "-" + dd;
    YearColumn(d.year, s, y, rest);
    FourParses(d.year);
    TwoParses(d.month);
    TwoParses(d.day);
    MonthColumn(m, dd, rest);
    assert dd[..2] == dd;
  }

  lemma YearColumn(year: int, s: string, y: string, rest: string)
    requires 0 <= year < 10000 && y == Four(year) && s == y + "-" + rest
    ensures Dash(s) == 4 && s[..4] == y && s[5..] == rest
  {
    assert s == y + ("-" + rest);
    DashAfter(y, "-" + rest);
  }

  lemma MonthColumn(m: string, dd: string, rest: string)
    requires |m| == 2 && Digit(m[0]) && Digit(m[1]) && rest == m + "-" + dd
    ensures Dash(rest) == 2 && rest[..2] == m && rest[3..] == dd
  {
    assert rest == m + ("-" + dd);
    DashAfter(m, "-" + dd);
  }

  /** The columns of an RFC 3339 timestamp, then anything. */
  function TimeText(t: Time, suffix: string): string
    requires IsStamp(t) && 0 <= t.date.year < 10000
  {
    DateText(t.date) + ("T" + Two(t.hour) + ":" + Two(t.minute) + ":" + Two(t.second) + suffix)
  }

  /** Every well-formed timestamp parses to the epoch seconds of its columns, or to nothing
      before 1970; the zone designator behind them plays no part. */
  lemma TimestampParses(t: Time, suffix: string)
    requires IsStamp(t) && 0 <= t.date.year < 10000
    ensures ParseEpoch(TimeText(t, suffix)) == Held(Seconds(t))
  {
    var text := TimeText(t, suffix);
    var d := DateText(t.date);
    var clock := "T" + Two(t.hour) + ":" + Two(t.minute) + ":" + Two(t.second) + suffix;
    assert text == d + clock && |d| == 10;
    assert text[..10] == d;
    DateParses(t.date, d);
    ClockColumns(t.hour, t.minute, t.second, suffix, clock);
    assert text[11..13] == clock[1..3] && text[14..16] == clock[4..6] && text[17..19] == clock[7..9];
    TwoParses(t.hour);
    TwoParses(t.minute);
    TwoParses(t.second);
  }

  lemma ClockColumns(h: int, m: int, s: int, suffix: string, clock: string)
    requires 0 <= h < 100 && 0 <= m < 100 && 0 <= s < 100
    requires clock == "T" + Two(h) + ":" + Two(m) + ":" + Two(s) + suffix
    ensures |clock| >= 9 && clock[1..3] == Two(h) && clock[4..6] == Two(m) && clock[7..9] == Two(s)
  {
  }

  // ------------------------------------------------------- the zone

  /** `Z`, or a signed number of hours and minutes. */
  datatype Zone = Zulu | Offset(west: bool, hours: int, minutes: int)

  predicate IsZone(z: Zone) {
    z.Offset? ==> 0 <= z.hours < 24 && 0 <= z.minutes < 60
  }

  function ZoneText(z: Zone): string
    requires IsZone(z)
  {
    match z
    case Zulu => "Z"
    case Offset(west, hours, minutes) => (if west then "-" else "+") + Two(hours) + ":" + Two(minutes)
  }

  /** Minutes east of UTC. */
  function ZoneMinutes(z: Zone): int {
    match z
    case Zulu => 0
    case Offset(west, hours, minutes) => if west then -(hours * 60 + minutes) else hours * 60 + minutes
  }

  /** The instant a timestamp names, in epoch seconds. */
  function Instant(t: Time, z: Zone): int {
    Seconds(t) - ZoneMinutes(z) * 60
  }

  /** The parser reads a timestamp, fraction and zone included, as the instant it names if and only
      if its offset is zero, or both the instant and the columns are before 1970. */
  lemma OffsetExact(t: Time, fraction: string, z: Zone)
    requires IsStamp(t) && 0 <= t.date.year < 10000 && IsZone(z)
    ensures ParseEpoch(TimeText(t, fraction + ZoneText(z))) == Held(Instant(t, z))
      <==> ZoneMinutes(z) == 0 || (Seconds(t) < 0 && Instant(t, z) < 0)
  {
    TimestampParses(t, fraction + ZoneText(z));
    HeldExact(ParseEpoch(TimeText(t, fraction + ZoneText(z))), Seconds(t), ZoneMinutes(z), Instant(t, z));
  }

  lemma HeldExact(parsed: Option<nat>, seconds: int, minutes: int, instant: int)
    requires parsed == Held(seconds) && instant == seconds - minutes * 60
    ensures parsed == Held(instant) <==> minutes == 0 || (seconds < 0 && instant < 0)
  {
  }

  /** Five in the morning five hours east is midnight UTC, and read as five. */
  lemma EastIsMisread(t: Time, z: Zone)
    requires t == Time(Date(1970, 1, 1), 5, 0, 0) && z == Offset(false, 5, 0)
    ensures ParseEpoch(TimeText(t, ZoneText(z))) == Some(18000) && Instant(t, z) == 0
  {
    TimestampParses(t, ZoneText(z));
    EpochIsDayZero(t.date);
  }

  /** Half an hour before 1970 one hour west is half past midnight UTC, and not read at all. */
  lemma WestIsRefused(t: Time, z: Zone)
    requires t == Time(Date(1969, 12, 31), 23, 30, 0) && z == Offset(true, 1, 0)
    ensures ParseEpoch(TimeText(t, ZoneText(z))) == None && Instant(t, z) == 1800
  {
    TimestampParses(t, ZoneText(z));
    NextDayCounts(t.date);
    EpochIsDayZero(NextDay(t.date));
  }
}
