/**
 * The three string checks with the anchors of validador.py read exactly as
 * Python's `re` module reads them. Outside multiline mode `$` matches at the
 * end of the string and also just before a final newline, so each pattern
 * accepts its text followed by one `"\n"`; the mask is then stripped with
 * `re.sub(r'[^0-9]', '', ...)`, which drops that newline as well. Module
 * Validador models the exact formats the comments of validador.py describe;
 * this module models the code as written and shows where the two differ.
 */
module ValidadorAsWritten {
  import opened DigitText
  import opened Registry
  import opened Validador
  import opened ValidadorProperties
  import ValidadorExamples

  /** `s` ends in one newline character. */
  predicate EndsInNewline(s: string) {
    |s| > 0 && s[|s| - 1] == '\n'
  }

  /** The anchored pattern `p` under Python's `$`: the whole of `s`, or all of `s` but one final newline. */
  predicate RegexMatches(s: string, p: string)
    ensures Fits(s, p) ==> RegexMatches(s, p)
    ensures RegexMatches(s, p) ==> |s| == |p| || |s| == |p| + 1
  {
    Fits(s, p) || (EndsInNewline(s) && Fits(s[..|s| - 1], p))
  }

  /** `validar_cep` as written, once the argument is known to be a string; it accepts whatever the exact check accepts. */
  predicate CepAcceptedAsWritten(s: string)
    ensures CepAccepted(s) ==> CepAcceptedAsWritten(s)
  {
    RegexMatches(s, CEP_MASK) || RegexMatches(s, CEP_BARE)
  }

  /** `validar_cpf` as written, once the argument is known to be a string; it accepts whatever the exact check accepts. */
  predicate CpfAcceptedAsWritten(s: string)
    ensures CpfAccepted(s) ==> CpfAcceptedAsWritten(s)
  {
    if !(RegexMatches(s, CPF_MASK) || RegexMatches(s, CPF_BARE)) then false
    else
      FormatDigitsAsWritten(s, CPF_MASK, CPF_BARE);
      CpfFormatDigits(if Fits(s, CPF_MASK) || Fits(s, CPF_BARE) then s else s[..|s| - 1]);
      DigitsAccepted(Normalize(s), CPF_WEIGHTS_1, CPF_WEIGHTS_2)
  }

  /** `validar_cnpj` as written, once the argument is known to be a string; it accepts whatever the exact check accepts. */
  predicate CnpjAcceptedAsWritten(s: string)
    ensures CnpjAccepted(s) ==> CnpjAcceptedAsWritten(s)
  {
    if !(RegexMatches(s, CNPJ_MASK) || RegexMatches(s, CNPJ_BARE)) then false
    else
      FormatDigitsAsWritten(s, CNPJ_MASK, CNPJ_BARE);
      CnpjFormatDigits(if Fits(s, CNPJ_MASK) || Fits(s, CNPJ_BARE) then s else s[..|s| - 1]);
      DigitsAccepted(Normalize(s), CNPJ_WEIGHTS_1, CNPJ_WEIGHTS_2)
  }

  /** `validar_cep` as written: a CEP, or a CEP followed by one newline. */
  function ValidarCepAsWritten(v: Value): (r: Outcome)
    ensures !v.Str? <==> r == ValueError(TYPE_MESSAGE)
    ensures v.Str? ==> r == Returned(IsCepText(v.s) || (EndsInNewline(v.s) && IsCepText(v.s[..|v.s| - 1])))
  {
    match v
    case Str(s) =>
      CepAsWrittenIff(s);
      Returned(CepAcceptedAsWritten(s))
    case _ => ValueError(TYPE_MESSAGE)
  }

  /** `validar_cpf` as written: a valid CPF, or a valid CPF followed by one newline. */
  function ValidarCpfAsWritten(v: Value): (r: Outcome)
    ensures !v.Str? <==> r == ValueError(TYPE_MESSAGE)
    ensures v.Str? ==> r == Returned(IsCpfText(v.s) || (EndsInNewline(v.s) && IsCpfText(v.s[..|v.s| - 1])))
  {
    match v
    case Str(s) =>
      CpfAsWrittenIff(s);
      Returned(CpfAcceptedAsWritten(s))
    case _ => ValueError(TYPE_MESSAGE)
  }

  /** `validar_cnpj` as written: a valid CNPJ, or a valid CNPJ followed by one newline. */
  function ValidarCnpjAsWritten(v: Value): (r: Outcome)
    ensures !v.Str? <==> r == ValueError(TYPE_MESSAGE)
    ensures v.Str? ==> r == Returned(IsCnpjText(v.s) || (EndsInNewline(v.s) && IsCnpjText(v.s[..|v.s| - 1])))
  {
    match v
    case Str(s) =>
      CnpjAsWrittenIff(s);
      Returned(CnpjAcceptedAsWritten(s))
    case _ => ValueError(TYPE_MESSAGE)
  }

  /** Stripping the non-digits drops a final newline. */
  lemma NormalizeChomp(s: string)
    requires EndsInNewline(s)
    ensures Normalize(s) == Normalize(s[..|s| - 1])
  {
    var t := s[..|s| - 1];
    assert s == t + ['\n'] + [];
    NormalizeAfterSeparator(t, '\n', []);
  }

  /** Matching either pattern by the trailing-newline rule leaves the digits of the text before the newline. */
  lemma FormatDigitsAsWritten(s: string, mask: string, bare: string)
    requires RegexMatches(s, mask) || RegexMatches(s, bare)
    ensures !(Fits(s, mask) || Fits(s, bare)) ==> EndsInNewline(s) && Normalize(s) == Normalize(s[..|s| - 1])
    ensures !(Fits(s, mask) || Fits(s, bare)) ==> Fits(s[..|s| - 1], mask) || Fits(s[..|s| - 1], bare)
  {
    if !(Fits(s, mask) || Fits(s, bare)) {
      NormalizeChomp(s);
    }
  }

  /** A string that ends in a newline fits none of the patterns, which hold only digits and separators. */
  lemma NewlineFitsNoPattern(s: string, p: string)
    requires EndsInNewline(s) && '\n' !in p
    ensures !Fits(s, p)
  {
    if |s| == |p| {
      assert !Matches(s[|s| - 1], p[|s| - 1]) by {
        assert p[|s| - 1] in p;
      }
    }
  }

  lemma CepAsWrittenIff(s: string)
    ensures CepAcceptedAsWritten(s) <==> IsCepText(s) || (EndsInNewline(s) && IsCepText(s[..|s| - 1]))
  {
    CepAcceptedIff(s);
    if EndsInNewline(s) {
      CepAcceptedIff(s[..|s| - 1]);
    }
  }

  lemma CpfAsWrittenIff(s: string)
    ensures CpfAcceptedAsWritten(s) <==> IsCpfText(s) || (EndsInNewline(s) && IsCpfText(s[..|s| - 1]))
  {
    CpfAcceptedIff(s);
    if EndsInNewline(s) {
      var t := s[..|s| - 1];
      CpfAcceptedIff(t);
      NewlineFitsNoPattern(s, CPF_MASK);
      NewlineFitsNoPattern(s, CPF_BARE);
      NormalizeChomp(s);
    }
  }

  lemma CnpjAsWrittenIff(s: string)
    ensures CnpjAcceptedAsWritten(s) <==> IsCnpjText(s) || (EndsInNewline(s) && IsCnpjText(s[..|s| - 1]))
  {
    CnpjAcceptedIff(s);
    if EndsInNewline(s) {
      var t := s[..|s| - 1];
      CnpjAcceptedIff(t);
      NewlineFitsNoPattern(s, CNPJ_MASK);
      NewlineFitsNoPattern(s, CNPJ_BARE);
      NormalizeChomp(s);
    }
  }

  /** The as-written CEP check accepts a masked CEP with a newline after it; the exact one rejects it. */
  lemma CepTrailingNewline()
    ensures ValidarCepAsWritten(Str("01001-000\n")) == Returned(true)
    ensures ValidarCep(Str("01001-000\n")) == Returned(false)
  {
    var s := "01001-000\n";
    assert s[..|s| - 1] == "01001-000";
    ValidadorExamples.CepMasked01001000();
    CepMaskingInvariance("01001000");
    CepShape(s);
  }

  /** The as-written CPF check accepts a valid masked CPF with a newline after it; the exact one rejects it. */
  lemma CpfTrailingNewline()
    ensures ValidarCpfAsWritten(Str("111.444.777-35\n")) == Returned(true)
    ensures ValidarCpf(Str("111.444.777-35\n")) == Returned(false)
  {
    var s := "111.444.777-35\n";
    ChompLiteral(s, "111.444.777-35");
    ValidadorExamples.Cpf11144477735Accepted();
    DroppedNewlineIsCpf(s);
    CpfNewlineRejected();
  }

  lemma CpfNewlineRejected()
    ensures ValidarCpf(Str("111.444.777-35\n")) == Returned(false)
  {
    CpfRejectsOtherShapes("111.444.777-35\n");
  }

  /** The as-written CNPJ check accepts a valid bare CNPJ with a newline after it; the exact one rejects it. */
  lemma CnpjTrailingNewline()
    ensures ValidarCnpjAsWritten(Str("06990590000123\n")) == Returned(true)
    ensures ValidarCnpj(Str("06990590000123\n")) == Returned(false)
  {
    var s := "06990590000123\n";
    ChompLiteral(s, "06990590000123");
    ValidadorExamples.Cnpj06990590000123Accepted();
    DroppedNewlineIsCnpj(s);
    CnpjNewlineRejected();
  }

  lemma CnpjNewlineRejected()
    ensures ValidarCnpj(Str("06990590000123\n")) == Returned(false)
  {
    CnpjRejectsOtherShapes("06990590000123\n");
  }

  /** A literal with a newline appended ends in it, and dropping it gives the literal back. */
  lemma ChompLiteral(s: string, t: string)
    requires s == t + "\n"
    ensures EndsInNewline(s) && s[..|s| - 1] == t
  {
  }

  /** As written, any accepted CPF text is still accepted with a newline after it. */
  lemma DroppedNewlineIsCpf(s: string)
    requires EndsInNewline(s) && ValidarCpf(Str(s[..|s| - 1])) == Returned(true)
    ensures ValidarCpfAsWritten(Str(s)) == Returned(true)
  {
  }

  /** As written, any accepted CNPJ text is still accepted with a newline after it. */
  lemma DroppedNewlineIsCnpj(s: string)
    requires EndsInNewline(s) && ValidarCnpj(Str(s[..|s| - 1])) == Returned(true)
    ensures ValidarCnpjAsWritten(Str(s)) == Returned(true)
  {
  }
}
