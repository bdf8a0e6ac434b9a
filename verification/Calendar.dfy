/** Timestamps: the text the broker stores, the instant it means, and why comparing the texts compares the instants. */
module Calendar {
  import opened JsonText
  import opened Options

  // ----- the calendar -----

  predicate Leap(y: nat) { y % 4 == 0 && (y % 100 != 0 || y % 400 == 0) }

  function YearDays(y: nat): nat { if Leap(y) then 366 else 365 }

  function MonthDays(y: nat, m: nat): nat {
    if m == 2 then (if Leap(y) then 29 else 28)
    else if m == 4 || m == 6 || m == 9 || m == 11 then 30 else 31
  }

  /** Days from the start of year 1. */
  function DaysBeforeYear(y: nat): nat {
    if y <= 1 then 0 else DaysBeforeYear(y - 1) + YearDays(y - 1)
  }

  function DaysBeforeMonth(y: nat, m: nat): nat {
    if m <= 1 then 0 else DaysBeforeMonth(y, m - 1) + MonthDays(y, m - 1)
  }

  datatype Stamp = Stamp(year: nat, month: nat, day: nat, hour: nat, minute: nat, second: nat)

  predicate Sound(t: Stamp) {
    && t.year >= 1 && 1 <= t.month <= 12 && 1 <= t.day <= MonthDays(t.year, t.month)
    && t.hour < 24 && t.minute < 60 && t.second < 60
  }

  /** A time with a four-digit year. */
  predicate Valid(t: Stamp) { Sound(t) && 1000 <= t.year <= 9999 }

  function Days(y: nat, m: nat, d: nat): int { DaysBeforeYear(y) + DaysBeforeMonth(y, m) + d - 1 }

  function SecondOfDay(t: Stamp): nat { 3600 * t.hour + 60 * t.minute + t.second }

  function Seconds(t: Stamp): int { 86400 * Days(t.year, t.month, t.day) + SecondOfDay(t) }

  lemma Fourth(n: nat)
    requires n >= 1
    ensures n / 4 == (n - 1) / 4 + if n % 4 == 0 then 1 else 0
  {
  }

  lemma Hundredth(n: nat)
    requires n >= 1
    ensures n / 100 == (n - 1) / 100 + if n % 100 == 0 then 1 else 0
  {
  }

  lemma FourHundredth(n: nat)
    requires n >= 1
    ensures n / 400 == (n - 1) / 400 + if n % 400 == 0 then 1 else 0
  {
  }

  lemma Multiples(n: nat)
    ensures n % 400 == 0 ==> n % 100 == 0
    ensures n % 100 == 0 ==> n % 4 == 0
  {
    if n % 400 == 0 { assert n == 100 * (4 * (n / 400)); }
    if n % 100 == 0 { assert n == 4 * (25 * (n / 100)); }
  }

  /** The twelve months, and which Februaries have a 29th. */
  lemma MonthTable(y: nat, m: nat)
    requires 1 <= m <= 12
    ensures var february := if (y % 4 == 0 && y % 100 != 0) || y % 400 == 0 then 29 else 28;
            MonthDays(y, m) == [31, february, 31, 30, 31, 30, 31, 31, 30, 31, 30, 31][m - 1]
  {
    Multiples(y);
  }

  /** The closed form of the day count. */
  lemma {:induction false} DayCount(y: nat)
    requires y >= 1
    ensures DaysBeforeYear(y) == 365 * (y - 1) + (y - 1) / 4 - (y - 1) / 100 + (y - 1) / 400
  {
    if y == 1 {
    } else {
      DayCount(y - 1);
      Fourth(y - 1); Hundredth(y - 1); FourHundredth(y - 1); Multiples(y - 1);
    }
  }

  lemma {:induction false} LaterYear(a: nat, b: nat)
    requires 1 <= a < b
    ensures DaysBeforeYear(a) + YearDays(a) <= DaysBeforeYear(b)
  {
    if a + 1 == b {
    } else {
      LaterYear(a, b - 1);
    }
  }

  lemma {:induction false} LaterMonth(y: nat, a: nat, b: nat)
    requires 1 <= a < b
    ensures DaysBeforeMonth(y, a) + MonthDays(y, a) <= DaysBeforeMonth(y, b)
  {
    if a + 1 == b {
    } else {
      LaterMonth(y, a, b - 1);
    }
  }

  lemma TwelveMonths(y: nat)
    ensures DaysBeforeMonth(y, 13) == YearDays(y)
  {
    var feb := 31 + MonthDays(y, 2);
    assert DaysBeforeMonth(y, 2) == 31;
    assert DaysBeforeMonth(y, 3) == feb;
    assert DaysBeforeMonth(y, 4) == feb + 31;
    assert DaysBeforeMonth(y, 5) == feb + 61;
    assert DaysBeforeMonth(y, 6) == feb + 92;
    assert DaysBeforeMonth(y, 7) == feb + 122;
    assert DaysBeforeMonth(y, 8) == feb + 153;
    assert DaysBeforeMonth(y, 9) == feb + 184;
    assert DaysBeforeMonth(y, 10) == feb + 214;
    assert DaysBeforeMonth(y, 11) == feb + 245;
    assert DaysBeforeMonth(y, 12) == feb + 275;
    assert DaysBeforeMonth(y, 13) == feb + 306;
  }

  lemma WithinYear(t: Stamp)
    requires Valid(t)
    ensures DaysBeforeMonth(t.year, t.month) + t.day <= YearDays(t.year)
  {
    TwelveMonths(t.year);
    LaterMonth(t.year, t.month, 13);
  }

  // ----- calendar order is instant order -----

  predicate DateBefore(a: Stamp, b: Stamp) {
    a.year < b.year || (a.year == b.year && (a.month < b.month || (a.month == b.month && a.day < b.day)))
  }

  predicate ClockBefore(a: Stamp, b: Stamp) {
    a.hour < b.hour || (a.hour == b.hour && (a.minute < b.minute || (a.minute == b.minute && a.second < b.second)))
  }

  predicate SameDate(a: Stamp, b: Stamp) { a.year == b.year && a.month == b.month && a.day == b.day }

  predicate Earlier(a: Stamp, b: Stamp) {
    DateBefore(a, b) || (SameDate(a, b) && ClockBefore(a, b))
  }

  lemma EarlierDate(a: Stamp, b: Stamp)
    requires Valid(a) && Valid(b) && DateBefore(a, b)
    ensures Days(a.year, a.month, a.day) + 1 <= Days(b.year, b.month, b.day)
  {
    WithinYear(a);
    if a.year < b.year { LaterYear(a.year, b.year); }
    else if a.month < b.month { LaterMonth(a.year, a.month, b.month); }
  }

  lemma SecondsInDay(t: Stamp)
    requires Valid(t)
    ensures SecondOfDay(t) < 86400
  {
  }

  lemma EarlierClock(a: Stamp, b: Stamp)
    requires Valid(a) && Valid(b)
    ensures ClockBefore(a, b) <==> SecondOfDay(a) < SecondOfDay(b)
  {
  }

  lemma BeforeIsEarlier(a: Stamp, b: Stamp)
    requires Valid(a) && Valid(b)
    ensures Earlier(a, b) <==> Seconds(a) < Seconds(b)
    ensures a == b <==> Seconds(a) == Seconds(b)
  {
    EarlierClock(a, b);
    EarlierClock(b, a);
    SecondsInDay(a);
    SecondsInDay(b);
    if DateBefore(a, b) { EarlierDate(a, b); }
    else if DateBefore(b, a) { EarlierDate(b, a); }
  }

  // ----- the stored text -----

  // SQLite compares stored texts code point by code point, which for this alphabet is the order of `Before`.

  const DIGITS := "0123456789"

  function Digits(n: nat, w: nat): (s: string)
    ensures |s| == w
  {
    if w == 0 then "" else Digits(n / 10, w - 1) + [DIGITS[n % 10]]
  }

  function Pow10(w: nat): nat { if w == 0 then 1 else 10 * Pow10(w - 1) }

  function Date(t: Stamp): (s: string)
    ensures |s| == 10
  {
    Digits(t.year, 4) + "-" + Digits(t.month, 2) + "-" + Digits(t.day, 2)
  }

  function Clock(t: Stamp): (s: string)
    ensures |s| == 9
  {
    Digits(t.hour, 2) + ":" + Digits(t.minute, 2) + ":" + Digits(t.second, 2) + "Z"
  }

  /** `%Y-%m-%dT%H:%M:%SZ` */
  function Print(t: Stamp): (s: string)
    ensures |s| == 20
  {
    Date(t) + "T" + Clock(t)
  }

  lemma {:induction false} JoinBefore(p: string, q: string, a: string, b: string)
    requires |p| == |q|
    ensures Before(p + a, q + b) <==> Before(p, q) || (p == q && Before(a, b))
  {
    if p == "" {
      assert p + a == a && q + b == b;
    } else {
      assert (p + a)[1..] == p[1..] + a && (q + b)[1..] == q[1..] + b;
      JoinBefore(p[1..], q[1..], a, b);
    }
  }

  lemma {:induction false} Irreflexive(a: string)
    ensures !Before(a, a)
  {
    if a == "" {
    } else {
      Irreflexive(a[1..]);
    }
  }

  lemma DigitOrder(a: nat, b: nat)
    requires a < 10 && b < 10
    ensures Before([DIGITS[a]], [DIGITS[b]]) <==> a < b
    ensures DIGITS[a] == DIGITS[b] <==> a == b
  {
    assert forall i, j :: 0 <= i < j < 10 ==> DIGITS[i] < DIGITS[j];
  }

  lemma AppendSame(p: string, q: string, c: char, d: char)
    requires |p| == |q|
    ensures p + [c] == q + [d] <==> p == q && c == d
  {
    assert (p + [c])[..|p|] == p && (q + [d])[..|q|] == q;
    assert (p + [c])[|p|] == c && (q + [d])[|q|] == d;
  }

  lemma {:induction false} NumberOrder(a: nat, b: nat, w: nat)
    requires a < Pow10(w) && b < Pow10(w)
    ensures Before(Digits(a, w), Digits(b, w)) <==> a < b
    ensures Digits(a, w) == Digits(b, w) <==> a == b
  {
    if w == 0 {
    } else {
      NumberOrder(a / 10, b / 10, w - 1);
      DigitOrder(a % 10, b % 10);
      JoinBefore(Digits(a / 10, w - 1), Digits(b / 10, w - 1), [DIGITS[a % 10]], [DIGITS[b % 10]]);
      AppendSame(Digits(a / 10, w - 1), Digits(b / 10, w - 1), DIGITS[a % 10], DIGITS[b % 10]);
    }
  }

  /** A field, then the rest: the field decides unless it is the same. */
  lemma FieldFirst(a: nat, b: nat, w: nat, sep: string, x: string, y: string)
    requires a < Pow10(w) && b < Pow10(w)
    ensures Before(Digits(a, w) + sep + x, Digits(b, w) + sep + y) <==> a < b || (a == b && Before(x, y))
  {
    NumberOrder(a, b, w);
    Irreflexive(sep);
    JoinBefore(Digits(a, w), Digits(b, w), sep + x, sep + y);
    JoinBefore(sep, sep, x, y);
    assert Digits(a, w) + sep + x == Digits(a, w) + (sep + x);
    assert Digits(b, w) + sep + y == Digits(b, w) + (sep + y);
  }

  lemma Small()
    ensures Pow10(2) == 100 && Pow10(4) == 10000
  {
    assert Pow10(3) == 1000;
  }

  lemma DateSplit(t: Stamp)
    ensures Date(t) == Digits(t.year, 4) + "-" + (Digits(t.month, 2) + "-" + Digits(t.day, 2))
  {
  }

  lemma DateOrder(a: Stamp, b: Stamp)
    requires Valid(a) && Valid(b)
    ensures Before(Date(a), Date(b)) <==> DateBefore(a, b)
    ensures Date(a) == Date(b) ==> !Before(Date(a), Date(b)) && !Before(Date(b), Date(a))
  {
    Small();
    FieldFirst(a.year, b.year, 4, "-", Digits(a.month, 2) + "-" + Digits(a.day, 2), Digits(b.month, 2) + "-" + Digits(b.day, 2));
    FieldFirst(a.month, b.month, 2, "-", Digits(a.day, 2), Digits(b.day, 2));
    NumberOrder(a.day, b.day, 2);
    DateSplit(a); DateSplit(b);
    Irreflexive(Date(a));
  }

  lemma ClockSplit(t: Stamp)
    ensures Clock(t) == Digits(t.hour, 2) + ":" + (Digits(t.minute, 2) + ":" + (Digits(t.second, 2) + "Z" + ""))
  {
  }

  lemma ClockOrder(a: Stamp, b: Stamp)
    requires Valid(a) && Valid(b)
    ensures Before(Clock(a), Clock(b)) <==> ClockBefore(a, b)
  {
    Small();
    var za, zb := Digits(a.second, 2) + "Z" + "", Digits(b.second, 2) + "Z" + "";
    FieldFirst(a.hour, b.hour, 2, ":", Digits(a.minute, 2) + ":" + za, Digits(b.minute, 2) + ":" + zb);
    FieldFirst(a.minute, b.minute, 2, ":", za, zb);
    FieldFirst(a.second, b.second, 2, "Z", "", "");
    ClockSplit(a); ClockSplit(b);
  }

  lemma DateSame(a: Stamp, b: Stamp)
    requires Valid(a) && Valid(b)
    ensures Date(a) == Date(b) <==> SameDate(a, b)
  {
    DateOrder(a, b);
    DateOrder(b, a);
  }

  lemma PrintJoins(t: Stamp)
    ensures |Date(t)| == 10 && Print(t) == Date(t) + ("T" + Clock(t))
  {
  }

  /** The date decides unless it is the same. */
  lemma DateFirst(a: Stamp, b: Stamp)
    ensures Before(Print(a), Print(b)) <==> Before(Date(a), Date(b)) || (Date(a) == Date(b) && Before(Clock(a), Clock(b)))
  {
    var sep := "T";
    PrintJoins(a); PrintJoins(b);
    Irreflexive(sep);
    JoinBefore(sep, sep, Clock(a), Clock(b));
    JoinBefore(Date(a), Date(b), sep + Clock(a), sep + Clock(b));
  }

  lemma TextOrder(a: Stamp, b: Stamp)
    requires Valid(a) && Valid(b)
    ensures Before(Print(a), Print(b)) <==> Earlier(a, b)
  {
    DateFirst(a, b);
    DateOrder(a, b);
    DateSame(a, b);
    ClockOrder(a, b);
  }

  // ----- reading it back -----

  function DigitValue(c: char): (n: nat)
    requires '0' <= c <= '9'
    ensures n < 10 && DIGITS[n] == c
  {
    assert forall i :: 0 <= i < 10 ==> DIGITS[i] as int == 48 + i;
    c as int - 48
  }

  function Number(s: string): Option<nat> {
    if s == "" then Some(0)
    else match Number(s[..|s| - 1])
      case Some(n) => if '0' <= s[|s| - 1] <= '9' then Some(10 * n + DigitValue(s[|s| - 1])) else None
      case None => None
  }

  lemma DigitBack(d: nat)
    requires d < 10
    ensures '0' <= DIGITS[d] <= '9' && DigitValue(DIGITS[d]) == d
  {
    assert forall i :: 0 <= i < 10 ==> DIGITS[i] as int == 48 + i;
  }

  lemma {:induction false} NumberBack(n: nat, w: nat)
    requires n < Pow10(w)
    ensures Number(Digits(n, w)) == Some(n)
  {
    if w == 0 {
    } else {
      NumberBack(n / 10, w - 1);
      var s := Digits(n, w);
      assert s[..|s| - 1] == Digits(n / 10, w - 1) && s[|s| - 1] == DIGITS[n % 10];
      DigitBack(n % 10);
    }
  }

  /** `parse_time` on the texts the broker writes: fixed widths, and every field in its range. */
  function Parse(s: string): Option<Stamp> {
    if |s| != 20 || s[4] != '-' || s[7] != '-' || s[10] != 'T' || s[13] != ':' || s[16] != ':' || s[19] != 'Z' then None
    else match (Number(s[..4]), Number(s[5..7]), Number(s[8..10]), Number(s[11..13]), Number(s[14..16]), Number(s[17..19]))
      case (Some(y), Some(mo), Some(d), Some(h), Some(mi), Some(sec)) =>
        var t := Stamp(y, mo, d, h, mi, sec);
        if Valid(t) then Some(t) else None
      case _ => None
  }

  lemma DateFields(t: Stamp)
    ensures var s := Date(t);
            s[..4] == Digits(t.year, 4) && s[4] == '-' && s[5..7] == Digits(t.month, 2) && s[7] == '-'
            && s[8..10] == Digits(t.day, 2)
  {
  }

  lemma ClockFields(t: Stamp)
    ensures var s := Clock(t);
            s[..2] == Digits(t.hour, 2) && s[2] == ':' && s[3..5] == Digits(t.minute, 2) && s[5] == ':'
            && s[6..8] == Digits(t.second, 2) && s[8] == 'Z'
  {
  }

  lemma PrintDate(t: Stamp)
    ensures var s := Print(t);
            && s[..4] == Digits(t.year, 4) && s[5..7] == Digits(t.month, 2) && s[8..10] == Digits(t.day, 2)
            && s[4] == '-' && s[7] == '-' && s[10] == 'T'
  {
    var s := Print(t);
    DateFields(t);
    assert s[..10] == Date(t);
    assert s[..4] == s[..10][..4] && s[5..7] == s[..10][5..7] && s[8..10] == s[..10][8..10];
  }

  lemma PrintClock(t: Stamp)
    ensures var s := Print(t);
            && s[11..13] == Digits(t.hour, 2) && s[14..16] == Digits(t.minute, 2) && s[17..19] == Digits(t.second, 2)
            && s[13] == ':' && s[16] == ':' && s[19] == 'Z'
  {
    var s := Print(t);
    ClockFields(t);
    assert s[11..20] == Clock(t);
    assert s[11..13] == s[11..20][..2] && s[14..16] == s[11..20][3..5] && s[17..19] == s[11..20][6..8];
  }

  lemma PrintFields(t: Stamp)
    ensures var s := Print(t);
            && s[..4] == Digits(t.year, 4) && s[5..7] == Digits(t.month, 2) && s[8..10] == Digits(t.day, 2)
            && s[11..13] == Digits(t.hour, 2) && s[14..16] == Digits(t.minute, 2) && s[17..19] == Digits(t.second, 2)
            && s[4] == '-' && s[7] == '-' && s[10] == 'T' && s[13] == ':' && s[16] == ':' && s[19] == 'Z'
  {
    PrintDate(t);
    PrintClock(t);
  }

  /** What the broker writes it reads back. */
  lemma ReadBack(t: Stamp)
    requires Valid(t)
    ensures Parse(Print(t)) == Some(t)
  {
    PrintFields(t);
    Small();
    NumberBack(t.year, 4); NumberBack(t.month, 2); NumberBack(t.day, 2);
    NumberBack(t.hour, 2); NumberBack(t.minute, 2); NumberBack(t.second, 2);
  }

  /** For four-digit years the order of the stored texts is the order of the instants they mean. */
  lemma TextOrderIsTimeOrder(a: Stamp, b: Stamp)
    requires Valid(a) && Valid(b)
    ensures Before(Print(a), Print(b)) <==> Seconds(a) < Seconds(b)
    ensures Print(a) == Print(b) <==> Seconds(a) == Seconds(b)
  {
    TextOrder(a, b);
    BeforeIsEarlier(a, b);
    ReadBack(a); ReadBack(b);
  }

  // ----- adding a lifetime -----

  function YearAt(days: nat, y: nat): nat
    decreases days
  {
    if days < YearDays(y) then y else YearAt(days - YearDays(y), y + 1)
  }

  lemma {:induction false} YearAtRight(days: nat, y: nat)
    requires y >= 1
    ensures var r := YearAt(days, y);
            y <= r && DaysBeforeYear(r) <= DaysBeforeYear(y) + days < DaysBeforeYear(r) + YearDays(r)
    decreases days
  {
    if days < YearDays(y) {
    } else {
      YearAtRight(days - YearDays(y), y + 1);
    }
  }

  function MonthAt(y: nat, days: nat, m: nat): nat
    decreases days
  {
    if m >= 12 || days < MonthDays(y, m) then m else MonthAt(y, days - MonthDays(y, m), m + 1)
  }

  lemma {:induction false} MonthAtRight(y: nat, days: nat, m: nat)
    requires 1 <= m <= 12 && DaysBeforeMonth(y, m) + days < YearDays(y)
    ensures var r := MonthAt(y, days, m);
            m <= r <= 12 && DaysBeforeMonth(y, r) <= DaysBeforeMonth(y, m) + days < DaysBeforeMonth(y, r) + MonthDays(y, r)
    decreases days
  {
    TwelveMonths(y);
    if m == 12 || days < MonthDays(y, m) {
    } else {
      MonthAtRight(y, days - MonthDays(y, m), m + 1);
    }
  }

  lemma ClockParts(sec: nat)
    requires sec < 86400
    ensures sec / 3600 < 24 && sec % 3600 / 60 < 60 && sec % 60 < 60
    ensures 3600 * (sec / 3600) + 60 * (sec % 3600 / 60) + sec % 60 == sec
  {
    var h, r := sec / 3600, sec % 3600;
    assert sec == 3600 * h + r;
    assert r == 60 * (r / 60) + r % 60;
    assert sec % 60 == r % 60;
  }

  /** The calendar time `days` after the first day and `sec` seconds into the day. */
  function AtTime(days: nat, sec: nat): Stamp
    requires sec < 86400
  {
    var y := YearAt(days, 1);
    YearAtRight(days, 1);
    var rest := days - DaysBeforeYear(y);
    var m := MonthAt(y, rest, 1);
    MonthAtRight(y, rest, 1);
    Stamp(y, m, rest - DaysBeforeMonth(y, m) + 1, sec / 3600, sec % 3600 / 60, sec % 60)
  }

  lemma AtTimeRight(days: nat, sec: nat)
    requires sec < 86400
    ensures Sound(AtTime(days, sec)) && Seconds(AtTime(days, sec)) == 86400 * days + sec
  {
    YearAtRight(days, 1);
    var y := YearAt(days, 1);
    MonthAtRight(y, days - DaysBeforeYear(y), 1);
    ClockParts(sec);
  }

  /** The calendar time at an instant. */
  function AtSecond(n: nat): Stamp { AtTime(n / 86400, n % 86400) }

  /** Every instant has a calendar time, and it means that instant. */
  lemma AtSecondRight(n: nat)
    ensures Sound(AtSecond(n)) && Seconds(AtSecond(n)) == n
  {
    AtTimeRight(n / 86400, n % 86400);
  }

  /** `parse_time(created) + timedelta(seconds=ttl)`. */
  function Plus(t: Stamp, ttl: nat): Stamp
    requires Sound(t)
  {
    AtSecond(Seconds(t) + ttl)
  }

  lemma TextsAgree(now: Stamp, x: Stamp)
    requires Valid(now) && Valid(x)
    ensures Parse(Print(x)) == Some(x) && Parse(Print(now)) == Some(now)
    ensures !Before(Print(now), Print(x)) <==> Seconds(now) >= Seconds(x)
  {
    ReadBack(x);
    ReadBack(now);
    TextOrderIsTimeOrder(now, x);
  }

  lemma PlusRight(t: Stamp, ttl: nat)
    requires Sound(t)
    ensures Sound(Plus(t, ttl)) && Seconds(Plus(t, ttl)) == Seconds(t) + ttl
  {
    AtSecondRight(Seconds(t) + ttl);
  }

  /** The SQL test on the stored texts and the test on the parsed times agree: both say whether the lifetime, carried
      over days, months and leap years, has passed. */
  lemma ExpiryTestsAgree(created: Stamp, ttl: nat, now: Stamp)
    requires Valid(created) && Valid(now) && Valid(Plus(created, ttl))
    ensures var e := Print(Plus(created, ttl));
            && Parse(e).Some? && Parse(Print(now)) == Some(now)
            && Seconds(Parse(e).value) == Seconds(created) + ttl
            && (!Before(Print(now), e) <==> Seconds(now) >= Seconds(Parse(e).value))
  {
    PlusRight(created, ttl);
    TextsAgree(now, Plus(created, ttl));
  }
}
