/** The JavaScript numeric helpers the pipeline relies on, stated on exact
    reals: Math.round, Number.prototype.toFixed(2) read back as a number,
    and the Math.max/Math.min clamp. */
module JsMath {

  /** Math.round: the nearest integer, halves rounded toward +infinity. */
  function Round(x: real): (r: int)
    ensures r as real - 0.5 <= x < r as real + 0.5
  {
    (x + 0.5).Floor
  }

  /** Rounding never leaves an integer interval that holds its argument. */
  lemma RoundWithin(x: real, lo: int, hi: int)
    requires lo as real <= x <= hi as real
    ensures lo <= Round(x) <= hi
  {
  }

  /** x.toFixed(2) counted in hundredths: halves rounded away from zero. */
  function Hundredths(x: real): (k: int)
    ensures -0.5 <= k as real - x * 100.0 <= 0.5
    ensures x >= 0.0 ==> k >= 0
  {
    if x >= 0.0 then Round(x * 100.0) else -Round(-x * 100.0)
  }

  /** The value of x.toFixed(2): a whole number of hundredths within half a
      hundredth of x. */
  function ToFixed2(x: real): (r: real)
    ensures -0.005 <= r - x <= 0.005
    ensures r * 100.0 == Hundredths(x) as real
    ensures x >= 0.0 ==> r >= 0.0
  {
    Hundredths(x) as real / 100.0
  }

  /** Two decimals of a value held between two whole hundredths stay between them. */
  lemma ToFixed2Within(x: real, lo: int, hi: int)
    requires 0 <= lo <= hi
    requires lo as real / 100.0 <= x <= hi as real / 100.0
    ensures lo as real / 100.0 <= ToFixed2(x) <= hi as real / 100.0
  {
    RoundWithin(x * 100.0, lo, hi);
  }

  /** Math.max(lo, Math.min(hi, x)). */
  function Clamp(lo: real, hi: real, x: real): (r: real)
    ensures lo <= hi ==> lo <= r <= hi
    ensures lo <= x <= hi ==> r == x
    ensures x < lo ==> r == lo
    ensures lo <= hi && hi < x ==> r == hi
  {
    var capped := if hi < x then hi else x;
    if lo > capped then lo else capped
  }
}
