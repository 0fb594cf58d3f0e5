/**
 * Properties of the three validators that relate several calls or a whole
 * class of inputs: the exact shapes each one accepts, masking invariance, the
 * repeated-digit rule, and that the check digits are determined by the
 * digits before them.
 */
module ValidadorProperties {
  import opened DigitText
  import opened CheckDigits
  import opened Registry
  import opened Validador

  /** `n` copies of the character `c`. */
  function Repeat(c: char, n: nat): (r: string)
    ensures |r| == n
    ensures forall i :: 0 <= i < n ==> r[i] == c
  {
    seq(n, _ => c)
  }

  // ---------------------------------------------------------------------------
  // Formats
  // ---------------------------------------------------------------------------

  /** `validar_cep` accepts eight digits, or five digits, a hyphen and three digits, and nothing else. */
  lemma CepShape(s: string)
    ensures ValidarCep(Str(s)) == Returned(
      || (|s| == 8 && AllDigits(s))
      || (|s| == 9 && AllDigits(s[..5]) && s[5] == '-' && AllDigits(s[6..])))
  {
    CepMaskParts(s);
    FitsRun(s, 8);
  }

  /** A string of neither CPF shape is rejected before any digit is looked at; in particular every length but 11 and 14. */
  lemma CpfRejectsOtherShapes(s: string)
    ensures !Fits(s, CPF_MASK) && !Fits(s, CPF_BARE) ==> ValidarCpf(Str(s)) == Returned(false)
    ensures |s| != 11 && |s| != 14 ==> ValidarCpf(Str(s)) == Returned(false)
  {
  }

  /** A string of neither CNPJ shape is rejected before any digit is looked at; in particular every length but 14 and 18. */
  lemma CnpjRejectsOtherShapes(s: string)
    ensures !Fits(s, CNPJ_MASK) && !Fits(s, CNPJ_BARE) ==> ValidarCnpj(Str(s)) == Returned(false)
    ensures |s| != 14 && |s| != 18 ==> ValidarCnpj(Str(s)) == Returned(false)
  {
  }

  // ---------------------------------------------------------------------------
  // Masking invariance
  // ---------------------------------------------------------------------------

  /** The masked and the bare form of the same eight digits give the same answer: true. */
  lemma CepMaskingInvariance(d: string)
    requires |d| == 8 && AllDigits(d)
    ensures ValidarCep(Str(CepMasked(d))) == ValidarCep(Str(d)) == Returned(true)
  {
    CepMaskOf(d);
    FitsRun(d, 8);
  }

  /** The masked and the bare form of the same eleven digits give the same answer. */
  lemma CpfMaskingInvariance(d: string)
    requires |d| == 11 && AllDigits(d)
    ensures ValidarCpf(Str(CpfMasked(d))) == ValidarCpf(Str(d))
  {
    CpfMaskOf(d);
    FitsRun(d, 11);
  }

  /** The masked and the bare form of the same fourteen digits give the same answer. */
  lemma CnpjMaskingInvariance(d: string)
    requires |d| == 14 && AllDigits(d)
    ensures ValidarCnpj(Str(CnpjMasked(d))) == ValidarCnpj(Str(d))
  {
    CnpjMaskOf(d);
    FitsRun(d, 14);
  }

  // ---------------------------------------------------------------------------
  // Repeated digits
  // ---------------------------------------------------------------------------

  /** Eleven copies of one digit, bare or masked, are not a CPF. */
  lemma CpfRejectsRepeated(c: char)
    requires IsDigit(c)
    ensures ValidarCpf(Str(Repeat(c, 11))) == Returned(false)
    ensures ValidarCpf(Str(CpfMasked(Repeat(c, 11)))) == Returned(false)
  {
    var d := Repeat(c, 11);
    CpfMaskingInvariance(d);
    FitsRun(d, 11);
    SingleCharSet(d);
  }

  /** Fourteen copies of one digit, bare or masked, are not a CNPJ. */
  lemma CnpjRejectsRepeated(c: char)
    requires IsDigit(c)
    ensures ValidarCnpj(Str(Repeat(c, 14))) == Returned(false)
    ensures ValidarCnpj(Str(CnpjMasked(Repeat(c, 14)))) == Returned(false)
  {
    var d := Repeat(c, 14);
    CnpjMaskingInvariance(d);
    FitsRun(d, 14);
    SingleCharSet(d);
  }

  /**
   * Without the repeated-digit rule every CPF made of one repeated digit would
   * pass: both of its check digits equal the repeated digit.
   */
  lemma RepeatedCpfPassesCheckDigits(c: char)
    requires IsDigit(c)
    ensures var ds := DigitValues(Repeat(c, 11));
      && ds[9] == CheckDigit(ds, CPF_WEIGHTS_1)
      && ds[10] == CheckDigit(ds, CPF_WEIGHTS_2)
  {
    var ds := DigitValues(Repeat(c, 11));
    var v := DigitValue(c);
    assert forall i :: 0 <= i < 11 ==> ds[i] == v;
    CpfWeightTotals();
    ConstantDigitsCheckDigit(ds, CPF_WEIGHTS_1, v, 5);
    ConstantDigitsCheckDigit(ds, CPF_WEIGHTS_2, v, 6);
  }

  /**
   * When the weights add up to one less than a multiple of 11, a run of one
   * digit `v` has `v` itself as its check digit.
   */
  lemma ConstantDigitsCheckDigit(ds: seq<int>, w: seq<int>, v: int, k: int)
    requires |w| <= |ds| && 0 <= v <= 9
    requires forall i :: 0 <= i < |w| ==> ds[i] == v
    requires WeightTotal(w, |w|) == 11 * k - 1
    ensures CheckDigit(ds, w) == v
  {
    WeightedSumConstant(ds, w, |w|, v);
    assert WeightedSum(ds, w, |w|) == 11 * (k * v) - v;
    ElevenMultipleMinus(k * v, v);
  }

  lemma ElevenMultipleMinus(k: int, v: int)
    requires 0 <= v <= 9
    ensures (11 * k - v) % 11 == if v == 0 then 0 else 11 - v
  {
    if v > 0 {
      assert 11 * k - v == 11 * (k - 1) + (11 - v);
    }
  }

  lemma CpfWeightTotals()
    ensures |CPF_WEIGHTS_1| == 9 && WeightTotal(CPF_WEIGHTS_1, 9) == 54
    ensures |CPF_WEIGHTS_2| == 10 && WeightTotal(CPF_WEIGHTS_2, 10) == 65
  {
    assert CPF_WEIGHTS_1 == [10, 9, 8, 7, 6, 5, 4, 3, 2];
    assert CPF_WEIGHTS_2 == [11, 10, 9, 8, 7, 6, 5, 4, 3, 2];
  }

  // ---------------------------------------------------------------------------
  // The check digits are determined by the digits before them
  // ---------------------------------------------------------------------------

  /** Among the digit strings that differ only in the first check digit, at most one is accepted. */
  lemma FirstCheckDigitDetermined(d: string, w1: seq<int>, w2: seq<int>, c: char)
    requires |w1| < |w2| < |d| && AllDigits(d)
    requires DigitsAccepted(d, w1, w2)
    requires IsDigit(c) && c != d[|w1|]
    ensures !DigitsAccepted(d[|w1| := c], w1, w2)
  {
    var e := d[|w1| := c];
    assert DigitValues(e)[..|w1|] == DigitValues(d)[..|w1|];
    WeightedSumPrefix(DigitValues(e), DigitValues(d), w1, |w1|);
  }

  /** Among the digit strings that differ only in the last digit, at most one is accepted. */
  lemma LastCheckDigitDetermined(d: string, w1: seq<int>, w2: seq<int>, c: char)
    requires |w1| < |w2| && |d| == |w2| + 1 && AllDigits(d)
    requires DigitsAccepted(d, w1, w2)
    requires IsDigit(c) && c != d[|w2|]
    ensures !DigitsAccepted(d[..|w2|] + [c], w1, w2)
  {
    var e := d[..|w2|] + [c];
    assert DigitValues(e)[..|w2|] == DigitValues(d)[..|w2|];
    assert DigitValues(e)[..|w1|] == DigitValues(d)[..|w1|];
    WeightedSumPrefix(DigitValues(e), DigitValues(d), w1, |w1|);
    WeightedSumPrefix(DigitValues(e), DigitValues(d), w2, |w2|);
  }

  /** Replacing the last character of a non-empty string by `c` leaves its other digits in front of `c`. */
  lemma NormalizeReplaceLast(s: string, c: char)
    requires |s| > 0 && IsDigit(s[|s| - 1]) && IsDigit(c)
    ensures Normalize(s) == Normalize(s[..|s| - 1]) + [s[|s| - 1]]
    ensures Normalize(s[..|s| - 1] + [c]) == Normalize(s[..|s| - 1]) + [c]
  {
    assert s == s[..|s| - 1] + [s[|s| - 1]];
    NormalizeAppend(s[..|s| - 1], [s[|s| - 1]]);
    NormalizeAppend(s[..|s| - 1], [c]);
    NormalizeDigits([s[|s| - 1]]);
    NormalizeDigits([c]);
  }

  /** Changing only the final character of an accepted CPF to any other digit makes it rejected. */
  lemma CpfLastDigitDetermined(s: string, c: char)
    requires |s| > 0 && ValidarCpf(Str(s)) == Returned(true)
    requires IsDigit(c) && c != s[|s| - 1]
    ensures ValidarCpf(Str(s[..|s| - 1] + [c])) == Returned(false)
  {
    assert CpfAccepted(s);
    var t := s[..|s| - 1] + [c];
    if Fits(s, CPF_MASK) {
      CpfMaskParts(s);
      assert IsDigit(s[12..][1]);
    } else {
      FitsRun(s, 11);
    }
    NormalizeReplaceLast(s, c);
    var d := Normalize(s);
    CpfFormatDigits(s);
    if CpfAccepted(t) {
      CpfFormatDigits(t);
      assert Normalize(t) == d[..10] + [c];
      LastCheckDigitDetermined(d, CPF_WEIGHTS_1, CPF_WEIGHTS_2, c);
      assert false;
    }
  }

  /** Changing only the final character of an accepted CNPJ to any other digit makes it rejected. */
  lemma CnpjLastDigitDetermined(s: string, c: char)
    requires |s| > 0 && ValidarCnpj(Str(s)) == Returned(true)
    requires IsDigit(c) && c != s[|s| - 1]
    ensures ValidarCnpj(Str(s[..|s| - 1] + [c])) == Returned(false)
  {
    assert CnpjAccepted(s);
    var t := s[..|s| - 1] + [c];
    if Fits(s, CNPJ_MASK) {
      CnpjMaskParts(s);
      assert IsDigit(s[16..][1]);
    } else {
      FitsRun(s, 14);
    }
    NormalizeReplaceLast(s, c);
    var d := Normalize(s);
    CnpjFormatDigits(s);
    if CnpjAccepted(t) {
      CnpjFormatDigits(t);
      assert Normalize(t) == d[..13] + [c];
      LastCheckDigitDetermined(d, CNPJ_WEIGHTS_1, CNPJ_WEIGHTS_2, c);
      assert false;
    }
  }
}
