/** Exponential backoff with a cap and jitter, in 64-bit durations. */
module Backoff {

  const MILLISECOND := 1000000

  const LIMIT: int := 0x8000_0000_0000_0000

  type Duration = d: int | -LIMIT <= d < LIMIT

  /** The part of a retry policy that shapes the wait. */
  datatype Shape = Shape(initial: Duration, cap: Duration, multiplier: real, jitter: bool, fraction: real)

  function Power(m: real, n: nat): real {
    if n == 0 then 1.0 else m * Power(m, n - 1)
  }

  /** The fraction is dropped, towards zero. */
  function Truncated(x: real): int {
    if x >= 0.0 then x.Floor else -((-x).Floor)
  }

  /** Converting a number that does not fit gives whatever the platform makes of it: `spill`. */
  function Whole(x: real, spill: Duration): Duration {
    var n := Truncated(x);
    if -LIMIT <= n < LIMIT then n else spill
  }

  function Initial(s: Shape): (r: Duration)
    ensures r > 0
  {
    if s.initial <= 0 then 10 * MILLISECOND else s.initial
  }

  function Cap(s: Shape): (r: Duration)
    ensures r > 0
  {
    if s.cap <= 0 then 250 * MILLISECOND else s.cap
  }

  function Multiplier(s: Shape): (r: real)
    ensures r > 0.0
  {
    if s.multiplier <= 0.0 then 2.0 else s.multiplier
  }

  /** The uncapped exponential. */
  function Base(s: Shape, attempt: int): real {
    Initial(s) as real * Power(Multiplier(s), if attempt <= 1 then 0 else attempt - 1)
  }

  /** The wait before jitter. */
  function Wait(s: Shape, attempt: int, spill: Duration): Duration {
    var n := Whole(Base(s, attempt), spill);
    if n > Cap(s) then Cap(s) else n
  }

  /** What a draw from zero to one adds to or takes off a wait. */
  function Offset(draw: real, wait: real, fraction: real): real {
    (draw * 2.0 - 1.0) * (wait * fraction)
  }

  /** A wait with its fraction added, and with it taken off. */
  function Top(wait: real, fraction: real): real {
    wait * (1.0 + fraction)
  }

  function Bottom(wait: real, fraction: real): real {
    wait * (1.0 - fraction)
  }

  /** An offset of at most the fraction of the wait, either way. */
  predicate Within(offset: real, wait: real, fraction: real) {
    || Bottom(wait, fraction) <= wait + offset <= Top(wait, fraction)
    || Top(wait, fraction) <= wait + offset <= Bottom(wait, fraction)
  }

  function NotNegative(d: Duration): (r: Duration)
    ensures r >= 0
  {
    if d < 0 then 0 else d
  }

  function Jittered(wait: Duration, jitter: bool, offset: real, spill: Duration): Duration {
    NotNegative(if jitter then Whole(wait as real + offset, spill) else wait)
  }

  /** The wait before the next attempt, given the offset that was drawn. */
  function Delay(s: Shape, attempt: int, offset: real, spill: Duration): Duration {
    Jittered(Wait(s, attempt, spill), s.jitter && s.fraction > 0.0, offset, spill)
  }

  // ---- What is waited ----------------------------------------------------------------------------

  /** The first retry waits the initial backoff, cut at the cap; ten and 250 milliseconds unless set. */
  lemma FirstWait(s: Shape, attempt: int, spill: Duration)
    requires attempt <= 1
    ensures var initial, cap := if s.initial <= 0 then 10000000 else s.initial,
                                if s.cap <= 0 then 250000000 else s.cap;
      && Base(s, attempt) == initial as real
      && Wait(s, attempt, spill) == if initial < cap then initial else cap
  {
  }

  /** Each further attempt multiplies the uncapped exponential; by two unless set. */
  lemma BaseMultiplies(s: Shape, attempt: int)
    requires attempt >= 1
    ensures Base(s, attempt + 1) == Base(s, attempt) * (if s.multiplier <= 0.0 then 2.0 else s.multiplier)
  {
    var m, n := Multiplier(s), attempt - 1;
    assert Power(m, n + 1) == m * Power(m, n);
    assert Initial(s) as real * (m * Power(m, n)) == (Initial(s) as real * Power(m, n)) * m;
  }

  /** While it fits, the wait is the whole part of the exponential, or the cap if that is less. */
  lemma WaitExactly(s: Shape, attempt: int, spill: Duration)
    requires Fits(s, attempt)
    ensures var w := Wait(s, attempt, spill);
      && w <= Cap(s)
      && (w < Cap(s) ==> w as real <= Base(s, attempt) < w as real + 1.0)
      && (w == Cap(s) ==> w as real <= Base(s, attempt))
  {
    BasePositive(s, attempt);
  }

  /** Without jitter the delay is the wait; with it, the whole part of the wait moved by the offset, and
      none where that is negative. */
  lemma DelayExactly(s: Shape, attempt: int, offset: real, spill: Duration)
    requires 0 <= Wait(s, attempt, spill)
    ensures var w, d := Wait(s, attempt, spill), Delay(s, attempt, offset, spill);
      && (!s.jitter || s.fraction <= 0.0 ==> d == w)
      && (s.jitter && s.fraction > 0.0 && 0.0 <= w as real + offset < LIMIT as real ==>
            d as real <= w as real + offset < d as real + 1.0)
      && (s.jitter && s.fraction > 0.0 && -(LIMIT as real) <= w as real + offset < 0.0 ==> d == 0)
  {
  }

  /** Draws spread evenly from the whole fraction off to the whole fraction on. */
  lemma DrawsSpread(draw: real, wait: real, fraction: real)
    ensures Offset(0.0, wait, fraction) == -(wait * fraction)
    ensures Offset(1.0, wait, fraction) == wait * fraction
    ensures Offset(draw, wait, fraction) == Offset(0.0, wait, fraction) + draw * (2.0 * (wait * fraction))
  {
    var x := wait * fraction;
    assert (draw * 2.0 - 1.0) * x == draw * (2.0 * x) - x;
  }

  // ---- Bounds ----------------------------------------------------------------------------------

  lemma {:induction false} PowerPositive(m: real, n: nat)
    requires m > 0.0
    ensures Power(m, n) > 0.0
  {
    if n > 0 {
      PowerPositive(m, n - 1);
    }
  }

  lemma BasePositive(s: Shape, attempt: int)
    ensures Base(s, attempt) > 0.0
  {
    var n := if attempt <= 1 then 0 else attempt - 1;
    PowerPositive(Multiplier(s), n);
    Widen(Initial(s) as real, Power(Multiplier(s), n), Power(Multiplier(s), n));
  }

  /** The uncapped exponential fits a duration. */
  predicate Fits(s: Shape, attempt: int) {
    Base(s, attempt) < LIMIT as real
  }

  /** Whatever the platform does with numbers that do not fit, the cap holds; where they fit, the wait
      is the exponential cut at the cap, and never negative. */
  lemma WaitBounds(s: Shape, attempt: int, spill: Duration)
    ensures Wait(s, attempt, spill) <= Cap(s)
    ensures Wait(s, attempt, spill) < 0 ==> Wait(s, attempt, spill) == spill
    ensures Fits(s, attempt) ==> 0 <= Wait(s, attempt, spill)
  {
    BasePositive(s, attempt);
  }

  lemma TruncatedGrows(x: real, y: real)
    requires 0.0 <= x <= y
    ensures 0 <= Truncated(x) <= Truncated(y)
  {
  }

  /** With a multiplier of at least one, waiting never gets shorter while the exponential fits. */
  lemma WaitGrows(s: Shape, attempt: int, spill: Duration)
    requires Multiplier(s) >= 1.0 && attempt >= 1 && Fits(s, attempt + 1)
    ensures Wait(s, attempt, spill) <= Wait(s, attempt + 1, spill)
  {
    BasePositive(s, attempt);
    BaseGrows(s, attempt);
    TruncatedGrows(Base(s, attempt), Base(s, attempt + 1));
  }

  lemma BaseGrows(s: Shape, attempt: int)
    requires Multiplier(s) >= 1.0 && attempt >= 1
    ensures Base(s, attempt) <= Base(s, attempt + 1)
  {
    var m, n := Multiplier(s), attempt - 1;
    var lower, upper := Power(m, n), Power(m, n + 1);
    assert 0.0 < lower <= upper by { PowerGrows(m, n); }
    Widen(Initial(s) as real, lower, upper);
    assert Base(s, attempt) == Initial(s) as real * lower;
    assert Base(s, attempt + 1) == Initial(s) as real * upper;
  }

  lemma PowerGrows(m: real, n: nat)
    requires m >= 1.0
    ensures 0.0 < Power(m, n) <= Power(m, n + 1)
  {
    PowerPositive(m, n);
    Scales(Power(m, n), m);
  }

  /**
   * The condition is needed: on a platform where a number that does not fit converts to a negative
   * one, the wait collapses to nothing from the first attempt whose exponential does not fit.
   */
  lemma WaitCollapses(s: Shape, attempt: int, offset: real, spill: Duration)
    requires !Fits(s, attempt) && spill < 0 && 0.0 <= s.fraction <= 1.0
    requires Within(offset, Wait(s, attempt, spill) as real, s.fraction)
    ensures Delay(s, attempt, offset, spill) == 0
  {
    Spilled(s, attempt, spill);
    OffsetBelow(offset, spill as real, s.fraction);
    JitterNone(spill, s.jitter && s.fraction > 0.0, offset, spill);
  }

  lemma Spilled(s: Shape, attempt: int, spill: Duration)
    requires !Fits(s, attempt) && spill < 0
    ensures Wait(s, attempt, spill) == spill
  {
  }

  lemma JitterNone(wait: Duration, jitter: bool, offset: real, spill: Duration)
    requires wait < 0 && spill < 0 && wait as real + offset <= 0.0
    ensures Jittered(wait, jitter, offset, spill) == 0
  {
  }

  /** Jitter adds at most its fraction, so the cap holds up to that fraction for every input. */
  lemma DelayBounds(s: Shape, attempt: int, offset: real, spill: Duration)
    requires 0.0 <= s.fraction <= 1.0 && Within(offset, Wait(s, attempt, spill) as real, s.fraction)
    ensures 0 <= Delay(s, attempt, offset, spill)
    ensures Delay(s, attempt, offset, spill) as real <= Top(Cap(s) as real, s.fraction)
  {
    WaitBounds(s, attempt, spill);
    Capped(Wait(s, attempt, spill), Cap(s), s.jitter && s.fraction > 0.0, offset, spill, s.fraction);
  }

  lemma Capped(wait: Duration, cap: Duration, jitter: bool, offset: real, spill: Duration, fraction: real)
    requires wait <= cap && 0 < cap && 0.0 <= fraction <= 1.0 && Within(offset, wait as real, fraction)
    requires wait < 0 ==> wait == spill
    ensures Jittered(wait, jitter, offset, spill) as real <= Top(cap as real, fraction)
  {
    if wait < 0 {
      OffsetBelow(offset, wait as real, fraction);
      JitterNone(wait, jitter, offset, spill);
      OffsetAbove(0.0, 0.0, cap as real, fraction);
    } else {
      OffsetAbove(offset, wait as real, cap as real, fraction);
      JitterCeiling(wait, jitter, offset, spill, Top(cap as real, fraction));
    }
  }

  /** A number too large to convert exceeds every duration it could turn into. */
  lemma JitterCeiling(wait: Duration, jitter: bool, offset: real, spill: Duration, hi: real)
    requires 0.0 <= wait as real <= hi && 0.0 <= wait as real + offset <= hi
    ensures Jittered(wait, jitter, offset, spill) as real <= hi
  {
  }

  /** Where nothing overflows, jitter also takes off at most its fraction. */
  lemma DelayFloor(s: Shape, attempt: int, offset: real, spill: Duration)
    requires 0.0 <= s.fraction <= 1.0 && Within(offset, Wait(s, attempt, spill) as real, s.fraction)
    requires Fits(s, attempt) && Top(Cap(s) as real, s.fraction) < LIMIT as real
    ensures Delay(s, attempt, offset, spill) as real > Bottom(Wait(s, attempt, spill) as real, s.fraction) - 1.0
  {
    WaitBounds(s, attempt, spill);
    Floored(Wait(s, attempt, spill), Cap(s), s.jitter && s.fraction > 0.0, offset, spill, s.fraction);
  }

  lemma Floored(wait: Duration, cap: Duration, jitter: bool, offset: real, spill: Duration, fraction: real)
    requires 0 <= wait <= cap && 0.0 <= fraction <= 1.0 && Within(offset, wait as real, fraction)
    requires Top(cap as real, fraction) < LIMIT as real
    ensures Jittered(wait, jitter, offset, spill) as real > Bottom(wait as real, fraction) - 1.0
  {
    OffsetAbove(offset, wait as real, cap as real, fraction);
    JitterFloor(wait, jitter, offset, spill, Bottom(wait as real, fraction));
  }

  lemma JitterFloor(wait: Duration, jitter: bool, offset: real, spill: Duration, lo: real)
    requires lo <= wait as real && lo <= wait as real + offset && 0.0 <= wait as real + offset < LIMIT as real
    ensures Jittered(wait, jitter, offset, spill) as real > lo - 1.0
  {
  }

  // ---- Real arithmetic -------------------------------------------------------------------------

  lemma Scales(x: real, m: real)
    requires x > 0.0 && m >= 1.0
    ensures m * x >= x
  {
    assert m * x - x == (m - 1.0) * x;
  }

  lemma Widen(k: real, a: real, b: real)
    requires k > 0.0 && 0.0 < a <= b
    ensures 0.0 < k * a <= k * b
  {
    assert k * b - k * a == k * (b - a);
  }

  lemma Spread(draw: real, x: real)
    requires 0.0 <= draw <= 1.0
    ensures x >= 0.0 ==> -x <= (draw * 2.0 - 1.0) * x <= x
    ensures x <= 0.0 ==> x <= (draw * 2.0 - 1.0) * x <= -x
  {
    if x >= 0.0 {
      Monotone(0.0, draw, x);
      Monotone(draw, 1.0, x);
    }
    if x <= 0.0 {
      NotPositive(x, draw);
      NotPositive(x, 1.0 - draw);
    }
  }

  /** Whatever is drawn, the offset of a wait is within the fraction. */
  lemma DrawsAreWithin(draw: real, wait: real, fraction: real)
    requires 0.0 <= draw <= 1.0 && fraction >= 0.0
    ensures Within(Offset(draw, wait, fraction), wait, fraction)
  {
    var spread := wait * fraction;
    var x := (draw * 2.0 - 1.0) * spread;
    assert Top(wait, fraction) == wait + spread;
    assert Bottom(wait, fraction) == wait - spread;
    assert -spread <= x <= spread || spread <= x <= -spread by { Spread(draw, spread); }
    assert Offset(draw, wait, fraction) == x;
  }

  lemma Part(w: real, f: real)
    requires w >= 0.0 && 0.0 <= f <= 1.0
    ensures 0.0 <= w * f <= w
  {
    Monotone(0.0, f, w);
    Monotone(f, 1.0, w);
  }

  /** Where a wait below the cap can get to. */
  lemma OffsetAbove(offset: real, w: real, cap: real, f: real)
    requires 0.0 <= w <= cap && 0.0 <= f <= 1.0 && Within(offset, w, f)
    ensures 0.0 <= w + offset <= Top(cap, f) && w <= Top(cap, f)
    ensures Bottom(w, f) <= w && Bottom(w, f) <= w + offset
  {
    Part(w, f);
    Monotone(w, cap, 1.0 + f);
  }

  lemma OffsetBelow(offset: real, w: real, f: real)
    requires w <= 0.0 && 0.0 <= f <= 1.0 && Within(offset, w, f)
    ensures w + offset <= 0.0
  {
    assert Top(w, f) <= 0.0 by { NotPositive(w, 1.0 + f); }
    assert Bottom(w, f) <= 0.0 by { NotPositive(w, 1.0 - f); }
  }

  lemma NotPositive(a: real, b: real)
    requires a <= 0.0 && b >= 0.0
    ensures a * b <= 0.0
  {
  }

  lemma Monotone(a: real, b: real, k: real)
    requires a <= b && k >= 0.0
    ensures a * k <= b * k
  {
    assert b * k - a * k == (b - a) * k;
  }
}
