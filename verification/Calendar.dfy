/** Instants are what the Gregorian calendar says: days follow one another, 86400 seconds apart. */
module Calendar {
  import opened Message

  const SECOND := 1_000_000_000
  const DAY := 86400 * SECOND

  // ---------- The calendar ----------

  predicate Leap(year: nat)
  {
    year % 4 == 0 && (year % 100 != 0 || year % 400 == 0)
  }

  function MonthLength(year: nat, month: nat): (days: nat)
    requires 1 <= month <= 12
    ensures 28 <= days <= 31
  {
    match month
    case 2 => if Leap(year) then 29 else 28
    case 4 => 30
    case 6 => 30
    case 9 => 30
    case 11 => 30
    case _ => 31
  }

  /** A date and a time that exist. */
  predicate Exists(c: Civil)
  {
    && 1 <= c.month <= 12 && 1 <= c.day <= MonthLength(c.year, c.month)
    && c.hour < 24 && c.minute < 60 && c.second < 60 && c.nano < SECOND
  }

  /** The same time on the next day. */
  function NextDay(c: Civil): (d: Civil)
    requires Exists(c)
    ensures Exists(d)
  {
    if c.day < MonthLength(c.year, c.month) then c.(day := c.day + 1)
    else if c.month < 12 then c.(month := c.month + 1, day := 1)
    else c.(year := c.year + 1, month := 1, day := 1)
  }

  /** Calendar order: by year, month, day, hour, minute, second and nanosecond. */
  predicate Earlier(a: Civil, b: Civil)
  {
    if a.year != b.year then a.year < b.year
    else if a.month != b.month then a.month < b.month
    else if a.day != b.day then a.day < b.day
    else if a.hour != b.hour then a.hour < b.hour
    else if a.minute != b.minute then a.minute < b.minute
    else if a.second != b.second then a.second < b.second
    else a.nano < b.nano
  }

  // ---------- Days ----------

  /** The time of day, in nanoseconds since midnight. */
  function TimeOfDay(c: Civil): (t: nat)
    ensures Exists(c) ==> t < DAY
  {
    ((c.hour * 60 + c.minute) * 60 + c.second) * SECOND + c.nano
  }

  /** An instant is a number of days and a time of day. */
  lemma DayAndTime(c: Civil)
    ensures c.Instant() == DayNumber(c.year, c.month, c.day) * DAY + TimeOfDay(c)
  {
    hide DayNumber;
  }

  /** How many leap days the years before `year` have had, a year beginning in March. */
  function LeapDays(year: int): int
  {
    year / 4 - year / 100 + year / 400
  }

  lemma FloorStep(x: int, q: int)
    requires q > 0
    ensures x / q - (x - 1) / q == if x % q == 0 then 1 else 0
  {
    var a, r := x / q, x % q;
    if r == 0 {
      FloorIs(x - 1, q, a - 1, q - 1);
    } else {
      FloorIs(x - 1, q, a, r - 1);
    }
  }

  lemma FloorIs(x: int, q: int, a: int, r: int)
    requires q > 0 && x == q * a + r && 0 <= r < q
    ensures x / q == a
  {
    var d := x / q - a;
    assert q * d == r - x % q;
    if d > 0 {
      AtLeast(q, d);
    } else if d < 0 {
      AtLeast(q, -d);
    }
  }

  lemma AtLeast(q: int, d: int)
    requires q > 0 && d > 0
    ensures q * d >= q
  {
  }

  lemma LeapStep(year: nat)
    ensures LeapDays(year) - LeapDays(year - 1) == if Leap(year) then 1 else 0
  {
    FloorStep(year, 4);
    FloorStep(year, 100);
    FloorStep(year, 400);
    Divides(year, 100, 4);
    Divides(year, 400, 100);
  }

  /** A multiple of a multiple is a multiple. */
  lemma Divides(x: nat, big: nat, small: nat)
    requires small > 0 && big > 0 && (big, small) in {(100, 4), (400, 100)}
    ensures x % big == 0 ==> x % small == 0
  {
    if x % big == 0 {
      var k := big / small;
      var q := x / big;
      assert x == big * q && big == small * k;
      assert x == small * (k * q);
      FloorIs(x, small, k * q, 0);
      assert x % small == 0;
    }
  }

  /** The days before month m of a year that begins in March. */
  function DaysBefore(m: nat): nat
  {
    (153 * m + 2) / 5
  }

  /** The day number, by the parts of a year that begins in March. */
  lemma DayParts(year: nat, month: nat, day: nat)
    requires 1 <= month <= 12
    ensures var y := if month <= 2 then year - 1 else year;
            var m := if month <= 2 then month + 9 else month - 3;
            DayNumber(year, month, day) == 365 * y + LeapDays(y) + DaysBefore(m) + day - 1
  {
    assert (month + 9) % 12 == if month <= 2 then month + 9 else month - 3;
  }

  lemma MonthTable()
    ensures DaysBefore(0) == 0 && DaysBefore(1) == 31 && DaysBefore(2) == 61 && DaysBefore(3) == 92
    ensures DaysBefore(4) == 122 && DaysBefore(5) == 153 && DaysBefore(6) == 184 && DaysBefore(7) == 214
    ensures DaysBefore(8) == 245 && DaysBefore(9) == 275 && DaysBefore(10) == 306 && DaysBefore(11) == 337
  {
  }

  /** From the first of one month to the first of the next it is the length of the month. */
  lemma NextMonth(year: nat, month: nat)
    requires 1 <= month <= 12
    ensures (if month < 12 then DayNumber(year, month + 1, 1) else DayNumber(year + 1, 1, 1))
            == DayNumber(year, month, 1) + MonthLength(year, month)
  {
    hide DayNumber, DaysBefore, LeapDays, Leap;
    DayParts(year, month, 1);
    if month < 12 {
      DayParts(year, month + 1, 1);
    } else {
      DayParts(year + 1, 1, 1);
    }
    LeapStep(year);
    MonthTable();
  }

  /** Within a month, day numbers follow the days. */
  lemma DayInMonth(year: nat, month: nat, day: nat)
    ensures DayNumber(year, month, day) == DayNumber(year, month, 1) + day - 1
  {
  }

  /** The day number counts days. */
  lemma NextDayNumber(c: Civil)
    requires Exists(c)
    ensures var d := NextDay(c); DayNumber(d.year, d.month, d.day) == DayNumber(c.year, c.month, c.day) + 1
  {
    NextMonth(c.year, c.month);
    DayInMonth(c.year, c.month, c.day);
    DayInMonth(c.year, c.month, c.day + 1);
    hide DayNumber;
  }

  lemma SameTime(c: Civil)
    requires Exists(c)
    ensures TimeOfDay(NextDay(c)) == TimeOfDay(c)
  {
  }

  /** For every date, the same time on the next day is exactly 86400 seconds later. */
  lemma NextDayInstant(c: Civil)
    requires Exists(c)
    ensures NextDay(c).Instant() == c.Instant() + DAY
  {
    NextDayNumber(c);
    SameTime(c);
    DayAndTime(c);
    DayAndTime(NextDay(c));
    hide DayNumber, TimeOfDay, NextDay;
  }

  /** Fixed points: the count starts on the first of March of year 0, and the Unix epoch is where it is known to be. */
  lemma Anchors()
    ensures DayNumber(0, 3, 1) == 0
    ensures DayNumber(1970, 1, 1) == 719468
    ensures DayNumber(2016, 6, 22) == 719468 + 16974
  {
  }

  // ---------- Order ----------

  /** Months counted from year 0. */
  function MonthIndex(year: nat, month: nat): int
  {
    12 * year + month
  }

  /** A later month begins after every day of an earlier one. */
  lemma {:induction false} LaterMonth(year: nat, month: nat, day: nat, year': nat, month': nat)
    requires 1 <= month <= 12 && 1 <= month' <= 12 && day <= MonthLength(year, month)
    requires MonthIndex(year, month) < MonthIndex(year', month')
    ensures DayNumber(year, month, day) < DayNumber(year', month', 1)
    decreases MonthIndex(year', month') - MonthIndex(year, month)
  {
    hide DayNumber;
    NextMonth(year, month);
    DayInMonth(year, month, day);
    var y, m := if month < 12 then year else year + 1, if month < 12 then month + 1 else 1;
    if MonthIndex(y, m) < MonthIndex(year', month') {
      LaterMonth(y, m, 1, year', month');
    } else {
      assert y == year' && m == month';
    }
  }

  /** Within a day, earlier is less. */
  lemma TimeOrder(a: Civil, b: Civil)
    requires Exists(a) && Exists(b) && a.year == b.year && a.month == b.month && a.day == b.day
    ensures Earlier(a, b) <==> TimeOfDay(a) < TimeOfDay(b)
  {
  }

  /** An earlier day has a smaller number. */
  lemma DayOrder(a: Civil, b: Civil)
    requires Exists(a) && Exists(b) && Earlier(a, b) && !(a.year == b.year && a.month == b.month && a.day == b.day)
    ensures DayNumber(a.year, a.month, a.day) < DayNumber(b.year, b.month, b.day)
  {
    hide DayNumber, MonthLength;
    DayInMonth(a.year, a.month, a.day);
    DayInMonth(b.year, b.month, b.day);
    if a.year != b.year || a.month != b.month {
      assert MonthIndex(a.year, a.month) < MonthIndex(b.year, b.month);
      LaterMonth(a.year, a.month, a.day, b.year, b.month);
    }
  }

  lemma DaysApart(p: int, q: int, t: nat, u: nat)
    requires p < q && t < DAY
    ensures p * DAY + t < q * DAY + u
  {
  }

  lemma EarlierInstant(a: Civil, b: Civil)
    requires Exists(a) && Exists(b) && Earlier(a, b)
    ensures a.Instant() < b.Instant()
  {
    DayAndTime(a);
    DayAndTime(b);
    hide DayNumber;
    if a.year == b.year && a.month == b.month && a.day == b.day {
      TimeOrder(a, b);
    } else {
      DayOrder(a, b);
      hide TimeOfDay, Earlier;
      DaysApart(DayNumber(a.year, a.month, a.day), DayNumber(b.year, b.month, b.day), TimeOfDay(a), TimeOfDay(b));
    }
  }

  /** Instants are in calendar order. */
  lemma InstantOrder(a: Civil, b: Civil)
    requires Exists(a) && Exists(b)
    ensures Earlier(a, b) <==> a.Instant() < b.Instant()
    ensures a == b <==> a.Instant() == b.Instant()
  {
    assert Earlier(a, b) || Earlier(b, a) || a == b;
    if Earlier(a, b) {
      EarlierInstant(a, b);
    } else if Earlier(b, a) {
      EarlierInstant(b, a);
    }
  }

  // ---------- Expiry ----------

  /** The same time a number of days later. */
  function DaysLater(c: Civil, days: nat): (d: Civil)
    requires Exists(c)
    ensures Exists(d)
    decreases days
  {
    if days == 0 then c else DaysLater(NextDay(c), days - 1)
  }

  lemma {:induction false} DaysLaterInstant(c: Civil, days: nat)
    requires Exists(c)
    ensures DaysLater(c, days).Instant() == c.Instant() + days * DAY
    decreases days
  {
    hide DayNumber, NextDay, Exists;
    if days > 0 {
      NextDayInstant(c);
      DaysLaterInstant(NextDay(c), days - 1);
    }
  }

  /** The date at a time of day, in nanoseconds since midnight. */
  function AtTime(c: Civil, t: nat): (d: Civil)
    requires Exists(c) && t < DAY
    ensures Exists(d) && d.year == c.year && d.month == c.month && d.day == c.day && TimeOfDay(d) == t
  {
    var seconds := t / SECOND;
    var minutes := seconds / 60;
    c.(hour := minutes / 60, minute := minutes % 60, second := seconds % 60, nano := t % SECOND)
  }

  /** Whole days, and what is left over. */
  function Days(t: nat): nat
  {
    t / DAY
  }

  function Rest(t: nat): (r: nat)
    ensures r < DAY
  {
    t % DAY
  }

  lemma DaysAndRest(t: nat)
    ensures t == Days(t) * DAY + Rest(t)
  {
  }

  /** The date that lies a span later: whole days on the calendar, and the rest on the clock. */
  function Later(c: Civil, span: nat): (d: Civil)
    requires Exists(c)
    ensures Exists(d)
  {
    var t := TimeOfDay(c) + span;
    AtTime(DaysLater(c, Days(t)), Rest(t))
  }

  lemma AtTimeInstant(c: Civil, t: nat)
    requires Exists(c) && t < DAY
    ensures AtTime(c, t).Instant() == c.Instant() - TimeOfDay(c) + t
  {
    DayAndTime(c);
    DayAndTime(AtTime(c, t));
    hide DayNumber, TimeOfDay, AtTime;
  }

  lemma LaterInstant(c: Civil, span: nat)
    requires Exists(c)
    ensures Later(c, span).Instant() == c.Instant() + span
  {
    hide Days, Rest, TimeOfDay, DaysLater, DayNumber, AtTime, Civil.Instant;
    var t := TimeOfDay(c) + span;
    DaysLaterInstant(c, Days(t));
    SameTimeLater(c, Days(t));
    AtTimeInstant(DaysLater(c, Days(t)), Rest(t));
    DaysAndRest(t);
  }

  lemma {:induction false} SameTimeLater(c: Civil, days: nat)
    requires Exists(c)
    ensures TimeOfDay(DaysLater(c, days)) == TimeOfDay(c)
    decreases days
  {
    if days > 0 {
      SameTime(c);
      SameTimeLater(NextDay(c), days - 1);
    }
  }

  /**
   * A message is expired at a date if and only if that date is after the one that
   * lies Lifespan after its creation; with a negative lifespan it is expired from
   * its creation on.
   */
  lemma ExpiredIff(m: Signed, now: Civil)
    requires Exists(m.created) && Exists(now)
    ensures m.lifespan >= 0 ==> (m.Expired(now.Instant()) <==> Earlier(Later(m.created, m.lifespan), now))
    ensures m.lifespan < 0 && !Earlier(now, m.created) ==> m.Expired(now.Instant())
  {
    if m.lifespan >= 0 {
      LaterInstant(m.created, m.lifespan);
      InstantOrder(Later(m.created, m.lifespan), now);
    } else {
      InstantOrder(now, m.created);
    }
    hide Earlier, Later, DayNumber;
  }
}
