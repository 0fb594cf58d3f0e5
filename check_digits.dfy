/**
 * The weighted modulo-11 check digit that validates both the CPF and the CNPJ
 * (validador.py:29-41 and 63-75), with one parameterised definition for the
 * two weight tables of each document.
 */
module CheckDigits {

  /**
   * `sum(digits[i] * weights[i] for i in range(n))`: the first `n` digits,
   * each multiplied by the weight at the same position.
   */
  function WeightedSum(digits: seq<int>, weights: seq<int>, n: nat): int
    requires n <= |digits| && n <= |weights|
    decreases n
  {
    if n == 0 then 0 else WeightedSum(digits, weights, n - 1) + digits[n - 1] * weights[n - 1]
  }

  /**
   * The check digit of the digits that `weights` covers: `11 - (sum % 11)`,
   * replaced by 0 when that is 10 or 11. Python's `%` floors and Dafny's is
   * Euclidean; the two agree because the divisor 11 is positive.
   */
  function CheckDigit(digits: seq<int>, weights: seq<int>): (d: int)
    requires |weights| <= |digits|
    ensures 0 <= d <= 9
    ensures var r := WeightedSum(digits, weights, |weights|) % 11;
            d == if r < 2 then 0 else 11 - r
  {
    var d := 11 - WeightedSum(digits, weights, |weights|) % 11;
    if d >= 10 then 0 else d
  }

  /**
   * What a modulo-11 check digit is, independently of how it is computed: a
   * decimal digit that makes `sum + c` a multiple of 11, or 0 when the digit
   * that would do so is 10 (the sum leaves remainder 1).
   */
  predicate IsCheckDigit(sum: int, c: int) {
    0 <= c <= 9 && ((sum + c) % 11 == 0 || (sum % 11 == 1 && c == 0))
  }

  /** The computed check digit is the one and only digit that satisfies the definition. */
  lemma CheckDigitIsUnique(digits: seq<int>, weights: seq<int>, c: int)
    requires |weights| <= |digits|
    ensures c == CheckDigit(digits, weights) <==> IsCheckDigit(WeightedSum(digits, weights, |weights|), c)
  {
    var s := WeightedSum(digits, weights, |weights|);
    ClampIsCheckDigit(s, c);
  }

  /** The clamped `11 - s % 11` is the only digit meeting the definition for the sum `s`. */
  lemma ClampIsCheckDigit(s: int, c: int)
    ensures c == (var d := 11 - s % 11; if d >= 10 then 0 else d) <==> IsCheckDigit(s, c)
  {
    var q, r := s / 11, s % 11;
    assert s == 11 * q + r;
    assert (s + c) % 11 == (r + c) % 11 by {
      assert s + c == 11 * q + (r + c);
    }
  }

  /** The sum depends only on the first `n` digits. */
  lemma {:induction false} WeightedSumPrefix(a: seq<int>, b: seq<int>, weights: seq<int>, n: nat)
    requires n <= |a| && n <= |b| && n <= |weights|
    requires a[..n] == b[..n]
    ensures WeightedSum(a, weights, n) == WeightedSum(b, weights, n)
  {
    if n > 0 {
      assert a[n - 1] == a[..n][n - 1] == b[..n][n - 1] == b[n - 1];
      assert a[..n - 1] == a[..n][..n - 1];
      assert b[..n - 1] == b[..n][..n - 1];
      WeightedSumPrefix(a, b, weights, n - 1);
    }
  }

  /** The sum of the first `n` weights. */
  function WeightTotal(weights: seq<int>, n: nat): int
    requires n <= |weights|
  {
    if n == 0 then 0 else WeightTotal(weights, n - 1) + weights[n - 1]
  }

  /** When every digit is the same value `v`, the weighted sum is `v` times the total weight. */
  lemma {:induction false} WeightedSumConstant(digits: seq<int>, weights: seq<int>, n: nat, v: int)
    requires n <= |digits| && n <= |weights|
    requires forall i :: 0 <= i < n ==> digits[i] == v
    ensures WeightedSum(digits, weights, n) == v * WeightTotal(weights, n)
  {
    if n > 0 {
      WeightedSumConstant(digits, weights, n - 1, v);
      assert v * WeightTotal(weights, n) == v * WeightTotal(weights, n - 1) + v * weights[n - 1];
    }
  }

  /** With decimal digits and non-negative weights, the sum lies between 0 and nine times the total weight. */
  lemma {:induction false} WeightedSumBounds(digits: seq<int>, weights: seq<int>, n: nat)
    requires n <= |digits| && n <= |weights|
    requires forall i :: 0 <= i < n ==> 0 <= digits[i] <= 9 && 0 <= weights[i]
    ensures 0 <= WeightedSum(digits, weights, n) <= 9 * WeightTotal(weights, n)
  {
    if n > 0 {
      WeightedSumBounds(digits, weights, n - 1);
      assert 0 <= digits[n - 1] * weights[n - 1] <= 9 * weights[n - 1];
    }
  }
}
