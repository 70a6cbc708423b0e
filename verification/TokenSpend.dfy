/**
 Two views of one cost. The dashboard sums a week of token counts and converts the sum to kobo once; the media report
 converts each day on its own. Both divide integers, rounding down.
 */
module TokenSpend {
  import opened Wrappers

  function Sum(days: seq<nat>): nat {
    if days == [] then 0 else Sum(days[..|days| - 1]) + days[|days| - 1]
  }

  // ---------- the dashboard ----------

  // adminMetrics: a rate that is not set prices everything at zero.
  method WeeklySpend(days: seq<nat>, tokensPerNGN: int) returns (weekTokens: nat, spendKobo: nat)
    ensures weekTokens == Sum(days)
    ensures spendKobo == WeekKobo(days, tokensPerNGN)
  {
    weekTokens := 0;
    for i := 0 to |days|
      invariant weekTokens == Sum(days[..i])
    {
      assert days[..i + 1][..i] == days[..i];
      weekTokens := weekTokens + days[i];
    }
    assert days[..|days|] == days;
    spendKobo := 0;
    if tokensPerNGN > 0 {
      spendKobo := weekTokens * 100 / tokensPerNGN;
    }
  }

  function WeekKobo(days: seq<nat>, tokensPerNGN: int): nat {
    if tokensPerNGN > 0 then Sum(days) * 100 / tokensPerNGN else 0
  }

  // ---------- the report ----------

  // tokenSpendLabel prices a day only when there is something to price and a rate to price it with.
  datatype Label = Money(kobo: nat, tokens: nat) | Plain(tokens: nat)

  function SpendLabel(tokens: nat, tokensPerNGN: int): Label {
    if tokensPerNGN > 0 && tokens > 0 then Money(tokens * 100 / tokensPerNGN, tokens) else Plain(tokens)
  }

  function LabelKobo(l: Label): nat {
    match l
    case Money(kobo, _) => kobo
    case Plain(_) => 0
  }

  function DailyKobo(days: seq<nat>, tokensPerNGN: int): nat {
    if days == [] then 0
    else DailyKobo(days[..|days| - 1], tokensPerNGN) + LabelKobo(SpendLabel(days[|days| - 1], tokensPerNGN))
  }

  // What the daily divisions throw away, in units of 1/rate kobo.
  function Remainders(days: seq<nat>, rate: int): nat
    requires rate > 0
  {
    if days == [] then 0 else Remainders(days[..|days| - 1], rate) + days[|days| - 1] * 100 % rate
  }

  function ActiveDays(days: seq<nat>): nat {
    if days == [] then 0 else ActiveDays(days[..|days| - 1]) + (if days[|days| - 1] > 0 then 1 else 0)
  }

  // Three facts of arithmetic, kept apart so that no proof below multiplies two unknowns on its own.
  lemma {:induction false} Distribute(a: int, b: int, c: int)
    ensures (a + b) * c == a * c + b * c
  {
  }

  lemma {:induction false} AtLeast(k: int, c: int)
    requires k >= 1 && c >= 0
    ensures k * c >= c
  {
    Distribute(k - 1, 1, c);
    assert (k - 1) * c >= 0;
  }

  lemma {:induction false} QuotientUnique(x: int, q: int, r: int, rate: int)
    requires 0 <= r < rate && x == q * rate + r
    ensures x / rate == q && x % rate == r
  {
    var p, s := x / rate, x % rate;
    assert x == p * rate + s;
    if q > p {
      Distribute(q - p, p, rate);
      AtLeast(q - p, rate);
    } else if p > q {
      Distribute(p - q, q, rate);
      AtLeast(p - q, rate);
    }
  }

  lemma {:induction false} SplitKobo(days: seq<nat>, rate: int)
    requires rate > 0
    ensures Sum(days) * 100 == DailyKobo(days, rate) * rate + Remainders(days, rate)
    ensures Remainders(days, rate) <= ActiveDays(days) * (rate - 1)
  {
    if days != [] {
      var front, last := days[..|days| - 1], days[|days| - 1];
      SplitKobo(front, rate);
      DayKobo(last, rate);
      Distribute(DailyKobo(front, rate), LabelKobo(SpendLabel(last, rate)), rate);
      Distribute(ActiveDays(front), 1, rate - 1);
    }
  }

  lemma {:induction false} DayKobo(tokens: nat, rate: int)
    requires rate > 0
    ensures tokens * 100 == LabelKobo(SpendLabel(tokens, rate)) * rate + tokens * 100 % rate
    ensures tokens * 100 % rate <= if tokens > 0 then rate - 1 else 0
  {
    if tokens == 0 {
      QuotientUnique(0, 0, 0, rate);
    }
  }

  lemma {:induction false} DivideOut(a: nat, b: nat, rate: int)
    requires rate > 0
    ensures (a * rate + b) / rate == a + b / rate
  {
    Distribute(a, b / rate, rate);
    QuotientUnique(a * rate + b, a + b / rate, b % rate, rate);
  }

  lemma {:induction false} DivBound(b: nat, k: nat, rate: int)
    requires rate > 0 && k >= 1 && b <= k * (rate - 1)
    ensures 0 <= b / rate <= k - 1
  {
    var q := b / rate;
    if q >= k {
      Distribute(q - k, k, rate);
      if q > k { AtLeast(q - k, rate); }
    }
  }

  // The gap is exactly what the daily divisions threw away, converted to whole kobo.
  lemma {:induction false} GapIsRemainders(days: seq<nat>, rate: int)
    requires rate > 0
    ensures WeekKobo(days, rate) == DailyKobo(days, rate) + Remainders(days, rate) / rate
  {
    SplitKobo(days, rate);
    DivideOut(DailyKobo(days, rate), Remainders(days, rate), rate);
  }

  /** The dashboard is never below the report, and above it by at most one kobo less than the number of days that used
      any tokens, hence by at most n-1 over n days. */
  lemma {:induction false} WeekMinusDays(days: seq<nat>, rate: int)
    requires rate > 0
    ensures ActiveDays(days) >= 1 ==> 0 <= WeekKobo(days, rate) - DailyKobo(days, rate) <= ActiveDays(days) - 1 <= |days| - 1
    ensures ActiveDays(days) == 0 ==> WeekKobo(days, rate) == DailyKobo(days, rate) == 0
  {
    GapIsRemainders(days, rate);
    ActiveDaysBound(days);
    if ActiveDays(days) >= 1 {
      RemaindersBound(days, rate);
    } else {
      NoTokens(days, rate);
    }
  }

  lemma {:induction false} RemaindersBound(days: seq<nat>, rate: int)
    requires rate > 0 && ActiveDays(days) >= 1
    ensures 0 <= Remainders(days, rate) / rate <= ActiveDays(days) - 1
  {
    var r, k := Remainders(days, rate), ActiveDays(days);
    SplitKobo(days, rate);
    assert r <= k * (rate - 1);
    DivBound(r, k, rate);
  }

  lemma {:induction false} ActiveDaysBound(days: seq<nat>)
    ensures ActiveDays(days) <= |days|
  {
    if days != [] { ActiveDaysBound(days[..|days| - 1]); }
  }

  lemma {:induction false} NoTokens(days: seq<nat>, rate: int)
    requires rate > 0 && ActiveDays(days) == 0
    ensures WeekKobo(days, rate) == DailyKobo(days, rate) == 0
  {
    QuotientUnique(0, 0, 0, rate);
    if days != [] {
      NoTokens(days[..|days| - 1], rate);
      SumZero(days);
    }
  }

  lemma {:induction false} SumZero(days: seq<nat>)
    requires ActiveDays(days) == 0
    ensures Sum(days) == 0
  {
    if days != [] { SumZero(days[..|days| - 1]); }
  }

  function Repeat(t: nat, n: nat): seq<nat> {
    if n == 0 then [] else Repeat(t, n - 1) + [t]
  }

  lemma {:induction false} RepeatSums(t: nat, n: nat, rate: int)
    requires rate > 0
    ensures |Repeat(t, n)| == n && Sum(Repeat(t, n)) == n * t
    ensures DailyKobo(Repeat(t, n), rate) == n * LabelKobo(SpendLabel(t, rate))
  {
    if n > 0 {
      RepeatSums(t, n - 1, rate);
      assert Repeat(t, n)[..n - 1] == Repeat(t, n - 1);
      Distribute(n - 1, 1, t);
      Distribute(n - 1, 1, LabelKobo(SpendLabel(t, rate)));
    }
  }

  /** The bound is reached for every number of days: n tokens on each of n days at 100n+1 tokens per naira show as zero
      kobo every day and n-1 kobo for the week. */
  lemma {:induction false} GapIsTight(n: nat)
    requires n >= 1
    ensures var days := Repeat(n, n); var rate := 100 * n + 1;
            |days| == n && DailyKobo(days, rate) == 0 && WeekKobo(days, rate) == n - 1
  {
    var rate := 100 * n + 1;
    RepeatSums(n, n, rate);
    QuotientUnique(n * 100, 0, n * 100, rate);
    assert n * n * 100 == (n - 1) * rate + (rate - n);
    QuotientUnique(n * n * 100, n - 1, rate - n, rate);
  }

  // ---------- the bars ----------

  predicate IsPeak(days: seq<nat>, peak: nat) {
    && (forall i :: 0 <= i < |days| ==> days[i] <= peak)
    && (peak > 0 ==> peak in days)
  }

  method Peak(days: seq<nat>) returns (peak: nat)
    ensures IsPeak(days, peak)
  {
    peak := 0;
    for i := 0 to |days|
      invariant forall k :: 0 <= k < i ==> days[k] <= peak
      invariant peak > 0 ==> peak in days[..i]
    {
      if days[i] > peak {
        peak := days[i];
      }
      assert days[i] in days[..i + 1];
    }
    assert days[..|days|] == days;
  }

  const PLOT_HEIGHT: real := 82.0

  function BarHeight(tokens: nat, peak: nat): real {
    var scaled := if peak > 0 then tokens as real / peak as real * PLOT_HEIGHT else 0.0;
    if scaled < 1.0 && tokens > 0 then 1.0 else scaled
  }

  predicate Spike(tokens: nat, peak: nat) {
    peak > 0 && tokens > 0 && tokens as real >= peak as real * 0.8
  }

  /** Bars never leave the plot, keep the order of the counts, are invisible only on days without tokens, and highlighting
      is upward closed and includes every peak day. */
  lemma {:induction false} BarsKeepOrder(days: seq<nat>, peak: nat, i: nat, j: nat)
    requires IsPeak(days, peak) && i < |days| && j < |days| && days[i] <= days[j]
    ensures 0.0 <= BarHeight(days[i], peak) <= BarHeight(days[j], peak) <= PLOT_HEIGHT
    ensures BarHeight(days[i], peak) == 0.0 <==> days[i] == 0
    ensures Spike(days[i], peak) ==> Spike(days[j], peak)
    ensures days[j] == peak > 0 ==> Spike(days[j], peak)
  {
    if peak > 0 {
      Ratios(days[i] as real, days[j] as real, peak as real);
    }
  }

  lemma {:induction false} Ratios(x: real, y: real, p: real)
    requires 0.0 <= x <= y <= p && p > 0.0
    ensures 0.0 <= x / p <= y / p <= 1.0
    ensures x > 0.0 ==> x / p > 0.0
  {
    var a, b := x / p, y / p;
    assert a * p == x && b * p == y;
    assert (b - a) * p >= 0.0 && (1.0 - b) * p >= 0.0;
  }

  // A kobo is a hundredth of a naira's tokens, rounded down; without a rate nothing is priced.
  lemma {:induction false} PricedInWholeKobo(days: seq<nat>, tokens: nat, tokensPerNGN: int)
    ensures tokensPerNGN <= 0 ==> WeekKobo(days, tokensPerNGN) == 0 && SpendLabel(tokens, tokensPerNGN) == Plain(tokens)
    ensures tokensPerNGN > 0 ==>
              && WeekKobo(days, tokensPerNGN) * tokensPerNGN <= 100 * Sum(days) < (WeekKobo(days, tokensPerNGN) + 1) * tokensPerNGN
              && (tokens == 0 ==> SpendLabel(tokens, tokensPerNGN) == Plain(0))
              && (tokens > 0 ==> var l := SpendLabel(tokens, tokensPerNGN);
                                 l.Money? && l.tokens == tokens
                                 && l.kobo * tokensPerNGN <= 100 * tokens < (l.kobo + 1) * tokensPerNGN)
  {
    if tokensPerNGN > 0 {
      Floors(Sum(days) * 100, tokensPerNGN);
      Floors(tokens * 100, tokensPerNGN);
    }
    hide Sum;
  }

  lemma {:induction false} Floors(x: nat, rate: int)
    requires rate > 0
    ensures x / rate * rate <= x < (x / rate + 1) * rate
  {
    Distribute(x / rate, 1, rate);
  }

  // The busiest day fills the plot of 82 units, the others are in proportion but for one unit that any day with tokens has, and a
  // day with four fifths of the busiest is highlighted.
  lemma {:induction false} BarsAreInProportion(tokens: nat, peak: nat)
    requires tokens <= peak && peak > 0
    ensures BarHeight(peak, peak) == 82.0
    ensures var scaled := tokens as real / peak as real * 82.0;
            BarHeight(tokens, peak) == if tokens > 0 && scaled < 1.0 then 1.0 else scaled
    ensures Spike(tokens, peak) <==> 5 * tokens >= 4 * peak
  {
    assert peak as real / peak as real == 1.0;
    assert 5 * tokens >= 4 * peak <==> 5.0 * tokens as real >= 4.0 * peak as real;
  }
}
