/** `percent_change` (server/reports/utils.py): the change from a previous
    to a current amount as a percentage with two decimal places. The result
    is held in hundredths of a percent, so 100.00 is 10000. */
module Reports {

  /** num / den rounded to the nearest integer, ties to the even one:
      `Decimal.quantize` under the default context rounding. */
  function RoundHalfEven(num: int, den: int): (q: int)
    requires den > 0
    ensures 2 * (q * den - num) <= den && 2 * (num - q * den) <= den
    ensures 2 * (q * den - num) == den || 2 * (num - q * den) == den ==> q % 2 == 0
  {
    var f := num / den;
    var rem := num % den;
    if 2 * rem < den then f
    else if 2 * rem > den then f + 1
    else if f % 2 == 0 then f
    else f + 1
  }

  /** A non-zero multiple of a positive number is at least that number in size. */
  lemma MultipleBound(d: int, den: int)
    requires den > 0
    ensures d >= 1 ==> d * den >= den
    ensures d <= -1 ==> d * den <= -den
  {
  }

  /** Only one integer is that close, so RoundHalfEven is the nearest one. */
  lemma RoundHalfEvenExact(num: int, den: int, k: int)
    requires den > 0 && num == k * den
    ensures RoundHalfEven(num, den) == k
  {
    var q := RoundHalfEven(num, den);
    assert q * den - num == (q - k) * den;
    MultipleBound(q - k, den);
  }

  /** `percent_change(current, previous)` in hundredths of a percent. */
  function PercentChange(current: int, previous: int): (r: int)
  {
    if previous == 0 then (if current > 0 then 10000 else 0)
    else if previous > 0 then RoundHalfEven((current - previous) * 10000, previous)
    else RoundHalfEven(-(current - previous) * 10000, -previous)
  }

  /** With a previous amount, the result is (current − previous) / previous
      × 100 to within half a hundredth: |r·p − (c − p)·10000| ≤ |p| / 2. */
  lemma PercentChangeRounding(current: int, previous: int)
    requires previous != 0
    ensures var r := PercentChange(current, previous);
            var err := r * previous - (current - previous) * 10000;
            2 * err <= (if previous > 0 then previous else -previous)
            && -2 * err <= (if previous > 0 then previous else -previous)
  {
    var n := (current - previous) * 10000;
    if previous > 0 {
      var q := RoundHalfEven(n, previous);
      assert 2 * (q * previous - n) <= previous && 2 * (n - q * previous) <= previous;
    } else {
      var q := RoundHalfEven(-n, -previous);
      assert 2 * (q * -previous - -n) <= -previous && 2 * (-n - q * -previous) <= -previous;
      assert q * -previous == -(q * previous);
    }
  }

  /** Without a previous amount: 100.00 for a positive current amount, 0.00
      otherwise. */
  lemma PercentChangeFromZero(current: int)
    ensures PercentChange(current, 0) == (if current > 0 then 10000 else 0)
  {
  }

  /** No change gives 0.00. */
  lemma PercentChangeUnchanged(x: int)
    requires x != 0
    ensures PercentChange(x, x) == 0
  {
    if x > 0 {
      RoundHalfEvenExact(0, x, 0);
    } else {
      RoundHalfEvenExact(0, -x, 0);
    }
  }

  /** Doubling a positive amount gives 100.00. */
  lemma PercentChangeDoubled(x: int)
    requires x > 0
    ensures PercentChange(2 * x, x) == 10000
  {
    RoundHalfEvenExact(x * 10000, x, 10000);
  }

  /** The division is by the signed previous amount: going from −x to −2x
      is a change of −x relative to −x, i.e. +100.00. */
  lemma PercentChangeNegativePrevious(x: int)
    requires x > 0
    ensures PercentChange(-2 * x, -x) == 10000
  {
    RoundHalfEvenExact(x * 10000, x, 10000);
  }
}
