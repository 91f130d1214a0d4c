/** Python's built-in `round` applied to an exact quotient `n / d`: the nearest integer,
    and on a tie (a remainder of exactly one half) the even one. */
module Rounding {

  /** `r` is a nearest integer to `n / d`, the even one when two are equally near. */
  predicate NearestEven(n: int, d: int, r: int)
    requires d > 0
  {
    2 * (n - r * d) <= d && 2 * (r * d - n) <= d &&
    ((2 * (n - r * d) == d || 2 * (r * d - n) == d) ==> r % 2 == 0)
  }

  function RoundHalfEven(n: int, d: int): (r: int)
    requires d > 0
    ensures NearestEven(n, d, r)
  {
    var q := n / d;
    var rem := n % d;
    assert n == q * d + rem;
    assert (q + 1) * d == q * d + d;
    if 2 * rem < d then q
    else if 2 * rem > d then q + 1
    else if q % 2 == 0 then q
    else q + 1
  }

  /** There is only one such integer, so `RoundHalfEven` is the rounding and not some
      rounding. */
  lemma NearestEvenUnique(n: int, d: int, r: int, r': int)
    requires d > 0 && NearestEven(n, d, r) && NearestEven(n, d, r')
    ensures r == r'
    decreases if r < r' then 0 else 1
  {
    if r < r' {
      var x, y := r * d, r' * d;
      assert 2 * (n - x) <= d && 2 * (y - n) <= d;
      NextMultiple(r, r', d);
      assert false;
    } else if r' < r {
      NearestEvenUnique(n, d, r', r);
    }
  }

  /** Multiples of `d` at most `d` apart come from neighbouring factors. */
  lemma NextMultiple(r: int, r': int, d: int)
    requires d > 0 && r < r' && r' * d - r * d <= d
    ensures r' == r + 1 && r' * d == r * d + d
  {
    var t := r' - r;
    assert r' * d == r * d + t * d;
    if t >= 2 {
      assert false;
    }
  }

  /** A whole quotient is its own rounding. */
  lemma RoundWhole(k: int, d: int)
    requires d > 0
    ensures RoundHalfEven(k * d, d) == k
  {
    assert NearestEven(k * d, d, k);
    NearestEvenUnique(k * d, d, k, RoundHalfEven(k * d, d));
  }
}
