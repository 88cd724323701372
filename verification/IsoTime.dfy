/** Timestamps as the notifier stores them: `datetime.isoformat()` text in UTC, compared as text. */
module IsoTime {
  import opened Prelude

  /** The fields of an aware UTC `datetime`. */
  datatype Civil = Civil(year: nat, month: nat, day: nat, hour: nat, minute: nat, second: nat, micro: nat)

  predicate IsLeap(year: nat) {
    year % 4 == 0 && (year % 100 != 0 || year % 400 == 0)
  }

  function DaysIn(year: nat, month: nat): nat {
    if month == 2 then (if IsLeap(year) then 29 else 28)
    else if month == 4 || month == 6 || month == 9 || month == 11 then 30
    else 31
  }

  predicate Valid(c: Civil) {
    && 1 <= c.year <= 9999 && 1 <= c.month <= 12 && 1 <= c.day <= DaysIn(c.year, c.month)
    && c.hour < 24 && c.minute < 60 && c.second < 60 && c.micro < 1_000_000
  }

  function DaysBeforeMonth(year: nat, month: nat): nat {
    if month <= 1 then 0 else DaysBeforeMonth(year, month - 1) + DaysIn(year, month - 1)
  }

  function DaysBeforeYear(year: nat): nat {
    if year <= 1 then 0 else DaysBeforeYear(year - 1) + DaysBeforeMonth(year - 1, 13)
  }

  function DayNumber(c: Civil): nat {
    DaysBeforeYear(c.year) + DaysBeforeMonth(c.year, c.month) + c.day
  }

  /** Microseconds since the start of year 1. */
  function Instant(c: Civil): Time {
    (((DayNumber(c) * 24 + c.hour) * 60 + c.minute) * 60 + c.second) * 1_000_000 + c.micro
  }

  // ---- The text

  function Pad(n: nat, width: nat): (s: string)
    ensures |s| == width
  {
    if width == 0 then "" else Pad(n / 10, width - 1) + [('0' as int + n % 10) as char]
  }

  function Pow10(n: nat): nat {
    if n == 0 then 1 else 10 * Pow10(n - 1)
  }

  /** The fraction is left out when it is zero. */
  function Tail(micro: nat): string {
    (if micro == 0 then "" else "." + Pad(micro, 6)) + "+00:00"
  }

  /** `isoformat()`. */
  function Iso(c: Civil): string {
    Pad(c.year, 4) + ("-" + (Pad(c.month, 2) + ("-" + (Pad(c.day, 2) + ("T" + (Pad(c.hour, 2) + (":" + (Pad(c.minute, 2)
      + (":" + (Pad(c.second, 2) + Tail(c.micro)))))))))))
  }

  /** The byte-wise order SQLite compares text in. */
  predicate TextLess(a: string, b: string) {
    if b == [] then false
    else if a == [] then true
    else a[0] < b[0] || (a[0] == b[0] && TextLess(a[1..], b[1..]))
  }

  lemma {:induction false} LessSplits(x: string, y: string, u: string, v: string)
    requires |x| == |y|
    ensures TextLess(x + u, y + v) <==> TextLess(x, y) || (x == y && TextLess(u, v))
  {
    if x == [] {
      assert x + u == u && y + v == v;
    } else {
      LessSplits(x[1..], y[1..], u, v);
      assert (x + u)[1..] == x[1..] + u && (y + v)[1..] == y[1..] + v;
      assert x == [x[0]] + x[1..] && y == [y[0]] + y[1..];
    }
  }

  /** Padded numbers compare like the numbers. */
  lemma {:induction false} PadOrders(m: nat, n: nat, width: nat)
    requires m < Pow10(width) && n < Pow10(width)
    ensures TextLess(Pad(m, width), Pad(n, width)) <==> m < n
    ensures Pad(m, width) == Pad(n, width) <==> m == n
  {
    if width > 0 {
      PadOrders(m / 10, n / 10, width - 1);
      var p, q := [('0' as int + m % 10) as char], [('0' as int + n % 10) as char];
      LessSplits(Pad(m / 10, width - 1), Pad(n / 10, width - 1), p, q);
      assert TextLess(p, q) <==> m % 10 < n % 10 by {
        assert p[1..] == [] && q[1..] == [];
      }
      assert Pad(m, width)[..width - 1] == Pad(m / 10, width - 1)
             && Pad(n, width)[..width - 1] == Pad(n / 10, width - 1);
      assert Pad(m, width)[width - 1] == p[0] && Pad(n, width)[width - 1] == q[0];
    }
  }

  lemma TailOrders(m: nat, n: nat)
    requires m < 1_000_000 && n < 1_000_000
    ensures TextLess(Tail(m), Tail(n)) <==> m < n
  {
    assert Pow10(6) == 1_000_000 by {
      assert Pow10(3) == 1_000;
    }
    PadOrders(m, n, 6);
    NotLessItself("+00:00");
    if m > 0 && n > 0 {
      LessSplits("." + Pad(m, 6), "." + Pad(n, 6), "+00:00", "+00:00");
      LessSplits(".", ".", Pad(m, 6), Pad(n, 6));
      NotLessItself(".");
    } else {
      assert Tail(0)[0] == '+';
      assert m > 0 ==> Tail(m)[0] == '.';
      assert n > 0 ==> Tail(n)[0] == '.';
      NotLessItself(Tail(m));
    }
  }

  lemma {:induction false} NotLessItself(s: string)
    ensures !TextLess(s, s)
  {
    if s != [] {
      NotLessItself(s[1..]);
    }
  }

  /** One field and its separator in front of the rest. */
  lemma FieldOrders(m: nat, n: nat, width: nat, c: char, u: string, v: string)
    requires m < Pow10(width) && n < Pow10(width)
    ensures TextLess(Pad(m, width) + ([c] + u), Pad(n, width) + ([c] + v)) <==> m < n || (m == n && TextLess(u, v))
  {
    PadOrders(m, n, width);
    LessSplits(Pad(m, width), Pad(n, width), [c] + u, [c] + v);
    LessSplits([c], [c], u, v);
    NotLessItself([c]);
  }

  /** The order of the fields, most significant first. */
  predicate Before(a: Civil, b: Civil) {
    a.year < b.year || (a.year == b.year
                        && (a.month < b.month
                            || (a.month == b.month && (a.day < b.day || (a.day == b.day && TimeBefore(a, b))))))
  }

  predicate TimeBefore(a: Civil, b: Civil) {
    a.hour < b.hour || (a.hour == b.hour && (a.minute < b.minute || (a.minute == b.minute
      && (a.second < b.second || (a.second == b.second && a.micro < b.micro)))))
  }

  function TimeText(c: Civil): string {
    Pad(c.hour, 2) + (":" + (Pad(c.minute, 2) + (":" + (Pad(c.second, 2) + Tail(c.micro)))))
  }

  lemma TimeTextOrders(a: Civil, b: Civil)
    requires Valid(a) && Valid(b)
    ensures TextLess(TimeText(a), TimeText(b)) <==> TimeBefore(a, b)
  {
    assert Pow10(2) == 100;
    var s, t := Pad(a.second, 2) + Tail(a.micro), Pad(b.second, 2) + Tail(b.micro);
    FieldOrders(a.hour, b.hour, 2, ':', Pad(a.minute, 2) + (":" + s), Pad(b.minute, 2) + (":" + t));
    FieldOrders(a.minute, b.minute, 2, ':', s, t);
    PadOrders(a.second, b.second, 2);
    LessSplits(Pad(a.second, 2), Pad(b.second, 2), Tail(a.micro), Tail(b.micro));
    TailOrders(a.micro, b.micro);
  }

  lemma IsoOrders(a: Civil, b: Civil)
    requires Valid(a) && Valid(b)
    ensures TextLess(Iso(a), Iso(b)) <==> Before(a, b)
  {
    assert Pow10(2) == 100 && Pow10(4) == 10_000;
    TimeTextOrders(a, b);
    var d, e := Pad(a.day, 2) + ("T" + TimeText(a)), Pad(b.day, 2) + ("T" + TimeText(b));
    FieldOrders(a.year, b.year, 4, '-', Pad(a.month, 2) + ("-" + d), Pad(b.month, 2) + ("-" + e));
    FieldOrders(a.month, b.month, 2, '-', d, e);
    FieldOrders(a.day, b.day, 2, 'T', TimeText(a), TimeText(b));
  }

  // ---- The calendar

  lemma {:induction false} MonthsAscend(year: nat, m: nat, n: nat)
    requires 1 <= m < n
    ensures DaysBeforeMonth(year, m) + DaysIn(year, m) <= DaysBeforeMonth(year, n)
  {
    if m < n - 1 {
      MonthsAscend(year, m, n - 1);
    }
  }

  lemma {:induction false} YearsAscend(x: nat, y: nat)
    requires 1 <= x < y
    ensures DaysBeforeYear(x) + DaysBeforeMonth(x, 13) <= DaysBeforeYear(y)
  {
    if x < y - 1 {
      YearsAscend(x, y - 1);
    }
  }

  lemma DayFits(c: Civil)
    requires Valid(c)
    ensures 1 <= DaysBeforeMonth(c.year, c.month) + c.day <= DaysBeforeMonth(c.year, 13)
  {
    MonthsAscend(c.year, c.month, 13);
  }

  lemma DaysOrder(a: Civil, b: Civil)
    requires Valid(a) && Valid(b)
    requires a.year < b.year || (a.year == b.year && (a.month < b.month || (a.month == b.month && a.day < b.day)))
    ensures DayNumber(a) < DayNumber(b)
  {
    if a.year < b.year {
      YearsAscend(a.year, b.year);
      DayFits(a);
      DayFits(b);
    } else if a.month < b.month {
      MonthsAscend(a.year, a.month, b.month);
    }
  }

  function OfDay(c: Civil): nat {
    ((c.hour * 60 + c.minute) * 60 + c.second) * 1_000_000 + c.micro
  }

  lemma InstantSplits(c: Civil)
    requires Valid(c)
    ensures Instant(c) == DayNumber(c) * DAY + OfDay(c) && OfDay(c) < DAY
  {
  }

  lemma BeforeMeansEarlier(a: Civil, b: Civil)
    requires Valid(a) && Valid(b) && Before(a, b)
    ensures Instant(a) < Instant(b)
  {
    InstantSplits(a);
    InstantSplits(b);
    if (a.year, a.month, a.day) != (b.year, b.month, b.day) {
      DaysOrder(a, b);
      assert DayNumber(a) * DAY + DAY <= DayNumber(b) * DAY;
    }
  }

  /** The text comparison in `prune` is the comparison of the instants, with and without microseconds. */
  lemma TextOrderIsTimeOrder(a: Civil, b: Civil)
    requires Valid(a) && Valid(b)
    ensures TextLess(Iso(a), Iso(b)) <==> Instant(a) < Instant(b)
  {
    IsoOrders(a, b);
    if Before(a, b) {
      BeforeMeansEarlier(a, b);
    } else if Before(b, a) {
      BeforeMeansEarlier(b, a);
    }
  }
}
