/**
 Where the day and the month of an instant begin in Lagos, which is an hour ahead of UTC the year round. Instants are
 seconds since the start of 1970 in UTC.
 */
module Calendar {
  const DAY := 86_400
  const LAGOS := 3_600

  // Dafny's modulus and division are never negative in the remainder, so they round towards the past.
  function DayStart(now: int): (start: int)
    ensures start <= now < start + DAY
  {
    now - (now + LAGOS) % DAY
  }

  // The month that is k months after January 1970.
  function MonthLength(k: int): (days: int)
    ensures 28 <= days <= 31
  {
    var year := 1970 + k / 12;
    var leap := year % 4 == 0 && (year % 100 != 0 || year % 400 == 0);
    [31, if leap then 29 else 28, 31, 30, 31, 30, 31, 31, 30, 31, 30, 31][k % 12]
  }

  // The number of days from the first of January 1970 to the first of that month.
  function MonthBegin(k: int): int
    decreases if k < 0 then -k else k
  {
    if k == 0 then 0 else if k > 0 then MonthBegin(k - 1) + MonthLength(k - 1) else MonthBegin(k + 1) - MonthLength(k)
  }

  // The month a day is in.
  function MonthOf(day: int): (k: int)
    ensures MonthBegin(k) <= day < MonthBegin(k + 1)
  {
    if day >= 0 then MonthUp(day, 0) else MonthDown(day, -1)
  }

  function MonthUp(day: int, from: int): (k: int)
    requires MonthBegin(from) <= day
    ensures MonthBegin(k) <= day < MonthBegin(k + 1)
    decreases day - MonthBegin(from)
  {
    hide MonthBegin;
    MonthFollows(from);
    if day < MonthBegin(from + 1) then from else MonthUp(day, from + 1)
  }

  function MonthDown(day: int, from: int): (k: int)
    requires day < MonthBegin(from + 1)
    ensures MonthBegin(k) <= day < MonthBegin(k + 1)
    decreases MonthBegin(from + 1) - day
  {
    hide MonthBegin;
    MonthFollows(from);
    if MonthBegin(from) <= day then from else MonthDown(day, from - 1)
  }

  lemma {:induction false} MonthFollows(k: int)
    ensures MonthBegin(k + 1) == MonthBegin(k) + MonthLength(k) > MonthBegin(k)
  {
    hide MonthLength;
  }

  function MonthStart(now: int): (start: int)
    ensures start <= now
  {
    MonthBegin(MonthOf((now + LAGOS) / DAY)) * DAY - LAGOS
  }

  lemma {:induction false} MonthsInOrder(j: int, k: int)
    requires j <= k
    ensures MonthBegin(j) <= MonthBegin(k)
    decreases k - j
  {
    if j < k {
      MonthFollows(j);
      MonthsInOrder(j + 1, k);
    }
  }

  // Midnight in Lagos is an hour before midnight in UTC.
  lemma {:induction false} DaysBeginAtLagosMidnight(now: int)
    ensures (DayStart(now) + 3_600) % 86_400 == 0 && DayStart(now) <= now < DayStart(now) + 86_400
  {
    var d := (now + LAGOS) / DAY;
    assert DayStart(now) + LAGOS == d * DAY;
  }

  // The first of January 1970 is day zero.
  lemma {:induction false} EpochIsDayZero(k: int)
    ensures MonthBegin(k) == 0 <==> k == 0
  {
    if k > 0 { MonthsInOrder(1, k); MonthFollows(0); }
    if k < 0 { MonthsInOrder(k + 1, 0); MonthFollows(k); }
  }

  lemma {:induction false} TwelveMonths(k: int)
    ensures MonthBegin(k + 12) == MonthBegin(k) + MonthLength(k) + MonthLength(k + 1) + MonthLength(k + 2) + MonthLength(k + 3)
                                  + MonthLength(k + 4) + MonthLength(k + 5) + MonthLength(k + 6) + MonthLength(k + 7)
                                  + MonthLength(k + 8) + MonthLength(k + 9) + MonthLength(k + 10) + MonthLength(k + 11)
  {
    hide MonthBegin, MonthLength;
    MonthFollows(k);
    MonthFollows(k + 1);
    MonthFollows(k + 2);
    MonthFollows(k + 3);
    MonthFollows(k + 4);
    MonthFollows(k + 5);
    MonthFollows(k + 6);
    MonthFollows(k + 7);
    MonthFollows(k + 8);
    MonthFollows(k + 9);
    MonthFollows(k + 10);
    MonthFollows(k + 11);
  }

  predicate Leap(year: int) {
    (year % 4 == 0 && year % 100 != 0) || year % 400 == 0
  }

  lemma {:induction false} Twelves(k: int, q: int, j: int)
    requires k == 12 * q && 0 <= j < 12
    ensures (k + j) / 12 == q && (k + j) % 12 == j
  {
  }

  lemma {:induction false} MonthInYear(k: int, year: int, j: int)
    requires k == 12 * (year - 1970) && 0 <= j < 12
    ensures MonthLength(k + j) == if j == 1 then if Leap(year) then 29 else 28 else if j == 3 || j == 5 || j == 8 || j == 10 then 30 else 31
  {
    Twelves(k, year - 1970, j);
  }

  // A year has 365 days, or 366 when it is divisible by four and not by a hundred, or by four hundred; and its months
  // are those on the wall.
  lemma {:induction false} YearsHaveTheirDays(year: int)
    ensures var k := 12 * (year - 1970);
            MonthBegin(k + 12) - MonthBegin(k) == if Leap(year) then 366 else 365
  {
    hide *;
    var k := 12 * (year - 1970);
    TwelveMonths(k);
    MonthInYear(k, year, 0);
    MonthInYear(k, year, 1);
    MonthInYear(k, year, 2);
    MonthInYear(k, year, 3);
    MonthInYear(k, year, 4);
    MonthInYear(k, year, 5);
    MonthInYear(k, year, 6);
    MonthInYear(k, year, 7);
    MonthInYear(k, year, 8);
    MonthInYear(k, year, 9);
    MonthInYear(k, year, 10);
    MonthInYear(k, year, 11);
  }

  // An instant is not before midnight of a day exactly when its own day is not.
  lemma {:induction false} DayNumbers(now: int, day: int)
    ensures day * DAY - LAGOS <= now <==> day <= (now + LAGOS) / DAY
  {
    var m := (now + LAGOS) / DAY;
    assert now + LAGOS == m * DAY + (now + LAGOS) % DAY;
  }

  lemma {:induction false} MonthsOfDays(day: int, j: int)
    ensures MonthBegin(j) <= day <==> MonthBegin(j) <= MonthBegin(MonthOf(day))
  {
    var k := MonthOf(day);
    hide MonthBegin, MonthOf;
    if j <= k {
      MonthsInOrder(j, k);
    } else {
      MonthsInOrder(k + 1, j);
    }
  }

  // A month begins on its own first day, and an instant not before that is in that month or a later one.
  lemma {:induction false} MonthsOfInstants(now: int, at: int)
    ensures MonthStart(now) <= at <==> MonthStart(now) <= MonthStart(at)
  {
    var first := MonthBegin(MonthOf((now + LAGOS) / DAY));
    DayNumbers(at, first);
    MonthsOfDays((at + LAGOS) / DAY, MonthOf((now + LAGOS) / DAY));
    hide MonthBegin, MonthOf;
  }

  lemma {:induction false} MonthIsUnique(day: int, k: int)
    ensures MonthOf(day) == k <==> MonthBegin(k) <= day < MonthBegin(k + 1)
    ensures MonthBegin(MonthOf(day)) == MonthBegin(k) <==> MonthOf(day) == k
  {
    var j := MonthOf(day);
    MonthFollows(k);
    MonthFollows(j);
    hide MonthBegin, MonthOf, MonthLength;
    if j < k { MonthsInOrder(j + 1, k); }
    if j > k { MonthsInOrder(k + 1, j); }
  }

  // The instants of a month are those from its start until its days are over.
  lemma {:induction false} MonthHasItsInstants(now: int, at: int)
    ensures var k := MonthOf((now + LAGOS) / DAY);
            MonthStart(at) == MonthStart(now) <==> MonthStart(now) <= at < MonthStart(now) + MonthLength(k) * DAY
  {
    var day, k := (at + LAGOS) / DAY, MonthOf((now + LAGOS) / DAY);
    MonthIsUnique(day, k);
    MonthFollows(k);
    assert MonthBegin(k + 1) * DAY == MonthBegin(k) * DAY + MonthLength(k) * DAY;
    DayNumbers(at, MonthBegin(k));
    DayNumbers(at, MonthBegin(k + 1));
    hide MonthBegin, MonthOf, MonthLength;
  }

  // The two windows over which allowances are counted.
  datatype Period = Daily | Monthly

  function PeriodStart(period: Period, now: int): (start: int)
    ensures start <= now
  {
    match period
    case Daily => DayStart(now)
    case Monthly => MonthStart(now)
  }

  // An instant not before the start of a period is in that period or a later one.
  lemma {:induction false} PeriodsInOrder(period: Period, now: int, at: int)
    ensures PeriodStart(period, now) <= at <==> PeriodStart(period, now) <= PeriodStart(period, at)
  {
    match period
    case Daily =>
    case Monthly => MonthsOfInstants(now, at);
  }
}
