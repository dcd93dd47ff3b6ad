/** The speed ramps of the encoder: the profile value for each position of a
    cyclic counter over a window of `5 * modification_len` characters. */
module Ramp {
  import opened Settings

  /** The number of counter steps in one ramp cycle. */
  function Window(len: int): int {
    5 * len
  }

  /** Rust's `i32` division by 2, which truncates toward zero. */
  function Half(n: int): int {
    if n >= 0 then n / 2 else -((-n) / 2)
  }

  /** The counter after one more character: it wraps to 0 when it reaches `n`. */
  function Advance(counter: int, n: int): int {
    if counter + 1 == n then 0 else counter + 1
  }

  /** Neither ramp denominator, `N - 1` and `N / 2 - 1`, is ever zero for `N = 5 * len`. */
  lemma DenominatorsNonZero(len: int)
    ensures Window(len) - 1 != 0
    ensures Half(Window(len)) - 1 != 0
  {
  }

  /** The profile value for counter position `c` (the `match` over the modification). */
  function SpeedAt(m: SpeedModification, c: int, len: int, lo: real, hi: real): real
    requires m != NoModification
  {
    DenominatorsNonZero(len);
    var n := Window(len);
    var h := Half(n);
    var d := hi - lo;
    match m
    case Speedup => d / (n - 1) as real * c as real + lo
    case Slowing => hi - d / (n - 1) as real * c as real
    case Zigzag =>
      if c < h then d / (h - 1) as real * c as real + lo
      else hi - d / (h - 1) as real * (c - h) as real
  }

  /** For a window of at least one character the counter stays in `[0, N)` and
      wraps to 0 exactly after `N - 1`. */
  lemma AdvanceInWindow(c: int, len: int)
    requires len >= 1 && 0 <= c < Window(len)
    ensures 0 <= Advance(c, Window(len)) < Window(len)
    ensures Advance(c, Window(len)) == 0 <==> c == Window(len) - 1
    ensures c < Window(len) - 1 ==> Advance(c, Window(len)) == c + 1
  {
  }

  lemma MulSign(k: int, n: int)
    requires n > 0
    ensures k >= 1 ==> k * n >= n
    ensures k <= -1 ==> k * n <= -n
  {
    if k >= 1 {
      assert k * n == (k - 1) * n + n;
      assert (k - 1) * n >= 0;
    } else if k <= -1 {
      assert k * n == (k + 1) * n - n;
      assert (k + 1) * n <= 0;
    }
  }

  /** Euclidean division has one quotient and one remainder. */
  lemma DivModUnique(a: int, n: int, q: int, r: int)
    requires n > 0 && 0 <= r < n && a == q * n + r
    ensures a % n == r && a / n == q
  {
    var q', r' := a / n, a % n;
    assert a == q' * n + r';
    MulSign(q - q', n);
    assert (q - q') * n == r' - r;
  }

  /** Counting from 0, the counter after `i` characters is `i mod N`. */
  lemma AdvanceIsMod(i: nat, len: int)
    requires len >= 1
    ensures Advance(i % Window(len), Window(len)) == (i + 1) % Window(len)
  {
    var n := Window(len);
    var q, r := i / n, i % n;
    assert i == q * n + r;
    if r + 1 == n {
      assert i + 1 == (q + 1) * n + 0;
      DivModUnique(i + 1, n, q + 1, 0);
    } else {
      DivModUnique(i + 1, n, q, r + 1);
    }
  }

  /** A fraction `c / k` of the way from `lo` to `hi` lies between them. */
  lemma FractionInRange(lo: real, hi: real, c: int, k: int)
    requires lo <= hi && 0 < k && 0 <= c <= k
    ensures lo <= (hi - lo) / k as real * c as real + lo <= hi
    ensures lo <= hi - (hi - lo) / k as real * c as real <= hi
  {
    var kr, cr := k as real, c as real;
    var step := (hi - lo) / kr;
    assert 0.0 <= step;
    assert step * kr == hi - lo;
    ScaleMonotone(step, 0.0, cr);
    ScaleMonotone(step, cr, kr);
    var x := step * cr;
    assert 0.0 <= x <= hi - lo;
  }

  lemma ScaleMonotone(a: real, b: real, c: real)
    requires 0.0 <= a && b <= c
    ensures a * b <= a * c
  {
    assert a * c - a * b == a * (c - b);
  }

  /** Speedup runs from `lo` at counter 0 up to `hi` at counter `N - 1`, never
      leaving `[lo, hi]`; Slowing is its mirror image. */
  lemma LinearRamps(c: int, len: int, lo: real, hi: real)
    requires len >= 1 && lo <= hi && 0 <= c < Window(len)
    ensures lo <= SpeedAt(Speedup, c, len, lo, hi) <= hi
    ensures lo <= SpeedAt(Slowing, c, len, lo, hi) <= hi
    ensures SpeedAt(Slowing, c, len, lo, hi) == lo + hi - SpeedAt(Speedup, c, len, lo, hi)
    ensures SpeedAt(Speedup, 0, len, lo, hi) == lo && SpeedAt(Speedup, Window(len) - 1, len, lo, hi) == hi
    ensures SpeedAt(Slowing, 0, len, lo, hi) == hi && SpeedAt(Slowing, Window(len) - 1, len, lo, hi) == lo
  {
    var n := Window(len);
    FractionInRange(lo, hi, c, n - 1);
    var step := (hi - lo) / (n - 1) as real;
    assert step * (n - 1) as real == hi - lo;
  }

  /** Zigzag climbs from `lo` at counter 0 to `hi` at `N/2 - 1` and restarts at
      `hi` at `N/2`. */
  lemma ZigzagTurns(len: int, lo: real, hi: real)
    requires len >= 1
    ensures SpeedAt(Zigzag, 0, len, lo, hi) == lo
    ensures SpeedAt(Zigzag, Half(Window(len)) - 1, len, lo, hi) == hi
    ensures SpeedAt(Zigzag, Half(Window(len)), len, lo, hi) == hi
  {
    var h := Half(Window(len));
    assert h >= 2;
    var step := (hi - lo) / (h - 1) as real;
    assert step * (h - 1) as real == hi - lo;
  }

  /** For an even window length Zigzag stays in `[lo, hi]` and is back at `lo`
      at counter `N - 1`. */
  lemma ZigzagEvenInRange(c: int, len: int, lo: real, hi: real)
    requires len >= 1 && len % 2 == 0 && lo <= hi && 0 <= c < Window(len)
    ensures lo <= SpeedAt(Zigzag, c, len, lo, hi) <= hi
    ensures SpeedAt(Zigzag, Window(len) - 1, len, lo, hi) == lo
  {
    var n := Window(len);
    var h := Half(n);
    assert n == 2 * h && h >= 2;
    if c < h {
      FractionInRange(lo, hi, c, h - 1);
    } else {
      FractionInRange(lo, hi, c - h, h - 1);
    }
    ZigzagEvenEnd(len, lo, hi);
  }

  lemma ZigzagEvenEnd(len: int, lo: real, hi: real)
    requires len >= 1 && len % 2 == 0
    ensures SpeedAt(Zigzag, Window(len) - 1, len, lo, hi) == lo
  {
    var n := Window(len);
    var h := Half(n);
    assert n == 2 * h && h >= 2;
    assert n - 1 - h == h - 1 && n - 1 >= h;
    var step := (hi - lo) / (h - 1) as real;
    assert step * (h - 1) as real == hi - lo;
  }

  /** For a non-positive `len` the Zigzag starts on its descending branch:
      at `max` for length 0 and above `max` for a negative length. */
  lemma ZigzagNonPositiveStart(len: int, lo: real, hi: real)
    requires len <= 0 && lo < hi
    ensures len == 0 ==> SpeedAt(Zigzag, 0, len, lo, hi) == hi
    ensures len < 0 ==> SpeedAt(Zigzag, 0, len, lo, hi) > hi
  {
    var h := Half(Window(len));
    assert h <= 0;
    if len < 0 {
      assert h < 0;
      var q := (hi - lo) / (h - 1) as real;
      assert q < 0.0;
      assert q * (0 - h) as real < 0.0;
    }
  }

  /** For an odd window length the last Zigzag value falls below `lo`: the
      descent uses the denominator `N/2 - 1` over the `N/2 + 1` remaining steps. */
  lemma ZigzagOddUndershoots(len: int, lo: real, hi: real)
    requires len >= 1 && len % 2 == 1 && lo < hi
    ensures SpeedAt(Zigzag, Window(len) - 1, len, lo, hi) < lo
  {
    var n := Window(len);
    var h := Half(n);
    assert n == 2 * h + 1;
    var step := (hi - lo) / (h - 1) as real;
    assert step > 0.0;
    assert step * (h - 1) as real == hi - lo;
    assert step * h as real == step * (h - 1) as real + step;
  }

  /** With a one-character window, `lo` 100 and `hi` 110, Zigzag's fifth value is 90. */
  lemma ZigzagOddExample()
    ensures SpeedAt(Zigzag, 4, 1, 100.0, 110.0) == 90.0
  {
  }
}
