/** Shared vocabulary: an Option type for Python's `None`/raised errors, real-valued helpers
    for Python's `min`, `max`, `abs` and `round`, and the "sum and count of the positive entries"
    accumulation that two of the factor loops perform. */
module Common {

  datatype Option<+T> = None | Some(value: T)

  function Min(a: real, b: real): (r: real)
    ensures r <= a && r <= b
    ensures r == a || r == b
  {
    if a <= b then a else b
  }

  function Max(a: real, b: real): (r: real)
    ensures r >= a && r >= b
    ensures r == a || r == b
  {
    if a >= b then a else b
  }

  function Abs(x: real): (r: real)
    ensures r >= 0.0
    ensures r == x || r == -x
  {
    if x >= 0.0 then x else -x
  }

  /** pandas' `head(10)`: the ten most recent rows (the first ten of the log), or all of them. */
  function Recent<T>(log: seq<T>): (r: seq<T>)
    ensures |r| == if |log| < 10 then |log| else 10
    ensures r == log[..|r|]
  {
    if |log| < 10 then log else log[..10]
  }

  /** Python's `max(lo, min(x, hi))`. */
  function Clamp(x: real, lo: real, hi: real): (r: real)
    requires lo <= hi
    ensures lo <= r <= hi
    ensures lo <= x <= hi ==> r == x
    ensures x < lo ==> r == lo
    ensures x > hi ==> r == hi
  {
    Max(lo, Min(x, hi))
  }

  /** Sum of the entries of `xs` that are strictly positive. */
  function SumPositive(xs: seq<real>): real
  {
    if xs == [] then 0.0
    else SumPositive(xs[..|xs| - 1]) + (if xs[|xs| - 1] > 0.0 then xs[|xs| - 1] else 0.0)
  }

  /** Number of entries of `xs` that are strictly positive. */
  function CountPositive(xs: seq<real>): (n: nat)
    ensures n <= |xs|
  {
    if xs == [] then 0
    else CountPositive(xs[..|xs| - 1]) + (if xs[|xs| - 1] > 0.0 then 1 else 0)
  }

  lemma {:induction false} CountPositiveZero(xs: seq<real>)
    ensures CountPositive(xs) == 0 <==> forall i :: 0 <= i < |xs| ==> xs[i] <= 0.0
    ensures CountPositive(xs) == 0 ==> SumPositive(xs) == 0.0
  {
    if xs != [] {
      var init := xs[..|xs| - 1];
      CountPositiveZero(init);
      assert forall i :: 0 <= i < |init| ==> init[i] == xs[i];
    }
  }

  /** Rounds `y` to an integer, exact halves going to the even neighbour. */
  function HalfEvenUnits(y: real): (k: int)
    ensures -0.5 <= k as real - y <= 0.5
  {
    var n := y.Floor;
    var frac := y - n as real;
    if frac > 0.5 then n + 1
    else if frac < 0.5 then n
    else if n % 2 == 0 then n else n + 1
  }

  /** Python's `round(x, places)` on a real, with `scale` = 10^places: the nearest multiple of
      1/scale, exact halves going to the even neighbour. */
  function RoundHalfEven(x: real, scale: nat): (r: real)
    requires scale > 0
  {
    (HalfEvenUnits(x * (scale as real)) as real) / (scale as real)
  }

  /** Rounding never crosses an integer bound. */
  lemma HalfEvenUnitsBounds(y: real, lo: int, hi: int)
    requires lo as real <= y <= hi as real
    ensures lo <= HalfEvenUnits(y) <= hi
  {
    var n := y.Floor;
    assert lo <= n;
    assert y - n as real > 0.0 ==> n < hi;
  }

  /** Rounding is off by at most half a unit in the last place, and it never crosses a bound
      that is itself a multiple of 1/scale: so rounding a clamped value keeps it clamped. */
  lemma RoundHalfEvenBounds(x: real, scale: nat, lo: int, hi: int)
    requires scale > 0
    requires lo as real <= x * (scale as real) <= hi as real
    ensures lo as real <= RoundHalfEven(x, scale) * (scale as real) <= hi as real
    ensures -0.5 <= (RoundHalfEven(x, scale) - x) * (scale as real) <= 0.5
  {
    HalfEvenUnitsBounds(x * (scale as real), lo, hi);
    DivMulCancel(HalfEvenUnits(x * (scale as real)) as real, scale as real);
    assert RoundHalfEven(x, scale) * (scale as real) == HalfEvenUnits(x * (scale as real)) as real;
    Distribute(RoundHalfEven(x, scale), x, scale as real);
  }

  lemma Distribute(r: real, x: real, s: real)
    ensures (r - x) * s == r * s - x * s
  {
  }

  lemma DivMulCancel(k: real, s: real)
    requires s > 0.0
    ensures (k / s) * s == k
  {
  }
}
