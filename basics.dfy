/** Numeric building blocks shared by both projection scripts: an optional value,
    whole-number powers for compound growth, `max`/`min` and the sum of a list. */
module Basics {

  datatype Option<T> = None | Some(value: T)

  /** `x` raised to the whole power `n`: the model of `(1 + rate) ** i`. */
  function Pow(x: real, n: nat): real
  {
    if n == 0 then 1.0 else x * Pow(x, n - 1)
  }

  /** A non-negative rate never shrinks an amount: `(1 + r) ** n >= 1`. */
  lemma {:induction false} PowAtLeastOne(x: real, n: nat)
    requires x >= 1.0
    ensures Pow(x, n) >= 1.0
  {
    if n > 0 {
      PowAtLeastOne(x, n - 1);
      assert x * Pow(x, n - 1) >= 1.0 * Pow(x, n - 1);
    }
  }

  /** The factor an amount grows by in a year at `rate`: `1 + rate`. */
  function GrowthFactor(rate: real): real { 1.0 + rate }

  /** A year's growth on `amount` at `rate`. */
  function GrowthOn(amount: real, rate: real): real { amount * rate }

  /** `amount` after a year's growth at `rate`: the amount plus its growth. */
  function Grown(amount: real, rate: real): real { amount + GrowthOn(amount, rate) }

  /** Growth at a rate of at least -100% never turns an amount negative. */
  lemma GrownNonnegative(amount: real, rate: real)
    requires amount >= 0.0 && rate >= -1.0
    ensures Grown(amount, rate) >= 0.0
  {
    assert GrowthOn(amount, rate) >= -amount;
  }

  /** Dividing a non-negative amount by a divisor of at least one never
      increases it, and a positive amount over a divisor above one shrinks. */
  lemma DivideShrinks(amount: real, divisor: real)
    requires amount >= 0.0 && divisor >= 1.0
    ensures 0.0 <= amount / divisor <= amount
    ensures amount > 0.0 && divisor > 1.0 ==> amount / divisor < amount
  {
    var q := amount / divisor;
    assert amount == q * divisor;
    assert q >= 0.0;
    assert amount - q == q * (divisor - 1.0);
    assert q * (divisor - 1.0) >= 0.0;
    if amount > 0.0 && divisor > 1.0 {
      assert q > 0.0;
      assert q * (divisor - 1.0) > 0.0;
      assert q < amount;
    }
  }

  /** `amount` after `n` years of growth at `rate`: `amount * (1 + rate) ** n`. */
  function Compounded(amount: real, rate: real, n: nat): real { amount * Pow(GrowthFactor(rate), n) }

  /** One more year of growth on a compounded amount compounds it once more. */
  lemma CompoundOnce(amount: real, rate: real, n: nat)
    requires n > 0
    ensures Grown(Compounded(amount, rate, n - 1), rate) == Compounded(amount, rate, n)
  {
    assert Pow(GrowthFactor(rate), n) == GrowthFactor(rate) * Pow(GrowthFactor(rate), n - 1);
  }

  /** What is left of `amount` after tax at `rate`. */
  function AfterTax(amount: real, rate: real): real { amount * (1.0 - rate) }

  /** A lookup table from whole-number keys to amounts, as a list of
      entries: the model of a dictionary literal with integer keys. */
  datatype Table = Empty | Entry(key: int, value: real, rest: Table)

  /** `dict.get(k)`: the value of the first entry with key `k`, if any. */
  function Lookup(t: Table, k: int): Option<real>
  {
    match t
    case Empty => None
    case Entry(key, value, rest) => if key == k then Some(value) else Lookup(rest, k)
  }

  /** The keys of `t` are `first`, `first + 1`, ..., `last`, in order. */
  predicate Covers(t: Table, first: int, last: int)
  {
    match t
    case Empty => first == last + 1
    case Entry(key, _, rest) => key == first && Covers(rest, first + 1, last)
  }

  /** No value in `t` is below `m`. */
  predicate AtLeast(t: Table, m: real)
  {
    match t
    case Empty => true
    case Entry(_, value, rest) => value >= m && AtLeast(rest, m)
  }

  /** A table covering `first` to `last` has an entry exactly for the keys
      in that range. */
  lemma {:induction false} LookupCovers(t: Table, first: int, last: int, k: int)
    requires Covers(t, first, last)
    ensures first <= last + 1
    ensures Lookup(t, k).Some? <==> first <= k <= last
  {
    if t.Entry? {
      LookupCovers(t.rest, first + 1, last, k);
    }
  }

  /** Whatever a table with no value below `m` returns is at least `m`. */
  lemma {:induction false} LookupAtLeast(t: Table, m: real, k: int)
    requires AtLeast(t, m)
    ensures Lookup(t, k).Some? ==> Lookup(t, k).value >= m
  {
    if t.Entry? {
      LookupAtLeast(t.rest, m, k);
    }
  }

  /** Python's two-argument `max`. */
  function Max(a: real, b: real): (m: real)
    ensures m >= a && m >= b
    ensures m == a || m == b
  {
    if a >= b then a else b
  }

  /** Python's two-argument `min`. */
  function Min(a: real, b: real): (m: real)
    ensures m <= a && m <= b
    ensures m == a || m == b
  {
    if a <= b then a else b
  }

  /** Python's `sum` over a list of amounts. */
  function Sum(xs: seq<real>): real
  {
    if xs == [] then 0.0 else xs[0] + Sum(xs[1..])
  }

  lemma {:induction false} SumNonnegative(xs: seq<real>)
    requires forall k :: 0 <= k < |xs| ==> xs[k] >= 0.0
    ensures Sum(xs) >= 0.0
  {
    if xs != [] {
      SumNonnegative(xs[1..]);
    }
  }

  /** With no negative entry, every entry is bounded by the total. */
  lemma {:induction false} SumBoundsEach(xs: seq<real>, k: nat)
    requires forall j :: 0 <= j < |xs| ==> xs[j] >= 0.0
    requires k < |xs|
    ensures xs[k] <= Sum(xs)
  {
    SumNonnegative(xs[1..]);
    if k > 0 {
      SumBoundsEach(xs[1..], k - 1);
    }
  }

  /** Sum of a list with every entry multiplied by `c`. */
  function Scaled(xs: seq<real>, c: real): (ys: seq<real>)
    ensures |ys| == |xs|
    ensures forall k :: 0 <= k < |xs| ==> ys[k] == xs[k] * c
  {
    seq(|xs|, k requires 0 <= k < |xs| => xs[k] * c)
  }

  /** Scaling every entry scales the total: annualising or inflating line
      items one by one gives the same total as doing it to their sum. */
  lemma {:induction false} SumScaled(xs: seq<real>, c: real)
    ensures Sum(Scaled(xs, c)) == Sum(xs) * c
  {
    if xs != [] {
      forall k | 0 <= k < |xs| - 1
        ensures Scaled(xs, c)[1..][k] == Scaled(xs[1..], c)[k]
      {
      }
      assert Scaled(xs, c)[1..] == Scaled(xs[1..], c);
      SumScaled(xs[1..], c);
    }
  }
}
