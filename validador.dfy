/**
 * The `Validador` class of validador.py: three stateless checks of Brazilian
 * document strings. The class has no fields, so each method is a function of
 * its argument; `validar_cep`, `validar_cpf` and `validar_cnpj` take any Python
 * value and either return a boolean or raise `ValueError` when the value is
 * not a `str`.
 */
module Validador {
  import opened DigitText
  import opened CheckDigits
  import opened Registry

  /** The dynamically typed argument the Python methods accept. */
  datatype Value =
    | Str(s: string)
    | Int(i: int)
    | Bool(b: bool)
    | NoneValue
    | Float(x: real)
    | List(items: seq<Value>)
    | Dict(entries: seq<(Value, Value)>)

  /** A returned boolean, or the `ValueError` raised by the type guard. */
  datatype Outcome = Returned(valid: bool) | ValueError(message: string)

  const TYPE_MESSAGE: string := "O valor fornecido deve ser do tipo texto (str)."

  /** `^\d{5}-?\d{3}$` as its two alternatives. */
  const CEP_MASK: string := "#####-###"
  const CEP_BARE: string := Run(8)

  /** `(^\d{3}\.\d{3}\.\d{3}-\d{2}$)|(^\d{11}$)`. */
  const CPF_MASK: string := "###.###.###-##"
  const CPF_BARE: string := Run(11)

  /** `(^\d{2}\.\d{3}\.\d{3}/\d{4}-\d{2}$)|(^\d{14}$)`. */
  const CNPJ_MASK: string := "##.###.###/####-##"
  const CNPJ_BARE: string := Run(14)

  /** The weights `top - i` for `i in range(n)`. */
  function Descending(top: int, n: nat): (w: seq<int>)
    ensures |w| == n
    ensures forall i :: 0 <= i < n ==> w[i] == top - i
  {
    seq(n, i => top - i)
  }

  /** The CPF weights `10 - i` and `11 - i` of the two generator expressions. */
  const CPF_WEIGHTS_1: seq<int> := Descending(10, 9)
  const CPF_WEIGHTS_2: seq<int> := Descending(11, 10)

  /** `pesos_d1` and `pesos_d2`. */
  const CNPJ_WEIGHTS_1: seq<int> := [5, 4, 3, 2, 9, 8, 7, 6, 5, 4, 3, 2]
  const CNPJ_WEIGHTS_2: seq<int> := [6, 5, 4, 3, 2, 9, 8, 7, 6, 5, 4, 3, 2]

  /** The weights the code uses are the registries' weights: 2, 3, ... from the right, cycling through 2..9 for the CNPJ. */
  lemma WeightTablesAgree()
    ensures CPF_WEIGHTS_1 == CPF_TABLE_1 && CPF_WEIGHTS_2 == CPF_TABLE_2
    ensures CNPJ_WEIGHTS_1 == CNPJ_TABLE_1 && CNPJ_WEIGHTS_2 == CNPJ_TABLE_2
  {
  }

  // ---------------------------------------------------------------------------
  // The string-level checks, step by step as the methods perform them
  // ---------------------------------------------------------------------------

  /** `validar_cep` once the argument is known to be a string. */
  predicate CepAccepted(s: string)
    ensures CepAccepted(s) ==> |Normalize(s)| == 8
  {
    CepFormatDigits(s);
    Fits(s, CEP_MASK) || Fits(s, CEP_BARE)
  }

  /**
   * The checks after the mask has been stripped, common to CPF and CNPJ: reject
   * a single repeated digit, then compare the digit after the first `|w1|`
   * positions and the digit after the first `|w2|` positions with their check digits.
   */
  predicate DigitsAccepted(numeros: string, w1: seq<int>, w2: seq<int>)
    requires |w1| < |w2| < |numeros|
    ensures DigitsAccepted(numeros, w1, w2) <==>
      && !AllSame(numeros)
      && DigitValue(numeros[|w1|]) == CheckDigit(DigitValues(numeros), w1)
      && DigitValue(numeros[|w2|]) == CheckDigit(DigitValues(numeros), w2)
  {
    SingleCharSet(numeros);
    if |CharSet(numeros)| == 1 then false
    else
      var d1 := CheckDigit(DigitValues(numeros), w1);
      if DigitValue(numeros[|w1|]) != d1 then false
      else
        var d2 := CheckDigit(DigitValues(numeros), w2);
        DigitValue(numeros[|w2|]) == d2
  }

  /** `validar_cpf` once the argument is known to be a string. */
  predicate CpfAccepted(s: string)
    ensures CpfAccepted(s) ==> |Normalize(s)| == 11 && !AllSame(Normalize(s))
  {
    if !(Fits(s, CPF_MASK) || Fits(s, CPF_BARE)) then false
    else
      CpfFormatDigits(s);
      DigitsAccepted(Normalize(s), CPF_WEIGHTS_1, CPF_WEIGHTS_2)
  }

  /** `validar_cnpj` once the argument is known to be a string. */
  predicate CnpjAccepted(s: string)
    ensures CnpjAccepted(s) ==> |Normalize(s)| == 14 && !AllSame(Normalize(s))
  {
    if !(Fits(s, CNPJ_MASK) || Fits(s, CNPJ_BARE)) then false
    else
      CnpjFormatDigits(s);
      DigitsAccepted(Normalize(s), CNPJ_WEIGHTS_1, CNPJ_WEIGHTS_2)
  }

  // ---------------------------------------------------------------------------
  // The three methods, with the type guard
  // ---------------------------------------------------------------------------

  function ValidarCep(v: Value): (r: Outcome)
    ensures !v.Str? <==> r == ValueError(TYPE_MESSAGE)
    ensures v.Str? ==> r == Returned(IsCepText(v.s))
  {
    match v
    case Str(s) => CepAcceptedIff(s); Returned(CepAccepted(s))
    case _ => ValueError(TYPE_MESSAGE)
  }

  function ValidarCpf(v: Value): (r: Outcome)
    ensures !v.Str? <==> r == ValueError(TYPE_MESSAGE)
    ensures v.Str? ==> r == Returned(IsCpfText(v.s))
  {
    match v
    case Str(s) => CpfAcceptedIff(s); Returned(CpfAccepted(s))
    case _ => ValueError(TYPE_MESSAGE)
  }

  function ValidarCnpj(v: Value): (r: Outcome)
    ensures !v.Str? <==> r == ValueError(TYPE_MESSAGE)
    ensures v.Str? ==> r == Returned(IsCnpjText(v.s))
  {
    match v
    case Str(s) => CnpjAcceptedIff(s); Returned(CnpjAccepted(s))
    case _ => ValueError(TYPE_MESSAGE)
  }

  // ---------------------------------------------------------------------------
  // What stripping the mask leaves
  // ---------------------------------------------------------------------------

  /** A bare pattern takes exactly the digit strings of its length, and stripping leaves them as they are. */
  lemma FitsRun(s: string, n: nat)
    ensures Fits(s, Run(n)) <==> |s| == n && AllDigits(s)
    ensures AllDigits(s) ==> Normalize(s) == s
  {
    if AllDigits(s) {
      NormalizeDigits(s);
    }
  }

  /** The masked CEP pattern, position by position. */
  lemma CepMaskParts(s: string)
    ensures Fits(s, CEP_MASK) <==>
      |s| == 9 && AllDigits(s[..5]) && s[5] == '-' && AllDigits(s[6..])
  {
    if |s| == 9 && AllDigits(s[..5]) && s[5] == '-' && AllDigits(s[6..]) {
      forall i | 0 <= i < 9 ensures Matches(s[i], CEP_MASK[i]) {
        if i < 5 { assert s[i] == s[..5][i]; }
        else if 6 <= i { assert s[i] == s[6..][i - 6]; }
      }
    }
  }

  /** Stripping a masked CEP keeps its two digit groups, and re-masking them gives it back. */
  lemma CepStrip(s: string)
    requires |s| == 9 && AllDigits(s[..5]) && s[5] == '-' && AllDigits(s[6..])
    ensures Normalize(s) == s[..5] + s[6..]
    ensures s == CepMasked(Normalize(s))
  {
    assert s == s[..5] + [s[5]] + s[6..];
    NormalizeAfterSeparator(s[..5], s[5], s[6..]);
    NormalizeDigits(s[..5]);
    var d := s[..5] + s[6..];
    assert d[..5] == s[..5] && d[5..] == s[6..];
  }

  /** The canonical masked layout of eight digits fits the pattern and strips back to them. */
  lemma CepMaskOf(d: string)
    requires |d| == 8 && AllDigits(d)
    ensures Fits(CepMasked(d), CEP_MASK) && Normalize(CepMasked(d)) == d
  {
    var m := CepMasked(d);
    assert m[..5] == d[..5] && m[6..] == d[5..] && m[5] == '-';
    CepMaskParts(m);
    CepStrip(m);
    assert d[..5] + d[5..] == d;
  }

  /** The masked CPF pattern, position by position. */
  lemma CpfMaskParts(s: string)
    ensures Fits(s, CPF_MASK) <==>
      && |s| == 14
      && AllDigits(s[..3]) && s[3] == '.' && AllDigits(s[4..7]) && s[7] == '.'
      && AllDigits(s[8..11]) && s[11] == '-' && AllDigits(s[12..])
  {
    if && |s| == 14
       && AllDigits(s[..3]) && s[3] == '.' && AllDigits(s[4..7]) && s[7] == '.'
       && AllDigits(s[8..11]) && s[11] == '-' && AllDigits(s[12..])
    {
      forall i | 0 <= i < 14 ensures Matches(s[i], CPF_MASK[i]) {
        if i < 3 { assert s[i] == s[..3][i]; }
        else if 4 <= i < 7 { assert s[i] == s[4..7][i - 4]; }
        else if 8 <= i < 11 { assert s[i] == s[8..11][i - 8]; }
        else if 12 <= i { assert s[i] == s[12..][i - 12]; }
      }
    }
  }

  /** Stripping a masked CPF keeps its four digit groups, and re-masking them gives it back. */
  lemma CpfStrip(s: string)
    requires && |s| == 14
             && AllDigits(s[..3]) && s[3] == '.' && AllDigits(s[4..7]) && s[7] == '.'
             && AllDigits(s[8..11]) && s[11] == '-' && AllDigits(s[12..])
    ensures Normalize(s) == s[..3] + s[4..7] + s[8..11] + s[12..]
    ensures s == CpfMasked(Normalize(s))
  {
    assert s == s[..3] + [s[3]] + s[4..7] + [s[7]] + s[8..11] + [s[11]] + s[12..];
    NormalizeAfterSeparator(s[..3] + [s[3]] + s[4..7] + [s[7]] + s[8..11], s[11], s[12..]);
    NormalizeAfterSeparator(s[..3] + [s[3]] + s[4..7], s[7], s[8..11]);
    NormalizeAfterSeparator(s[..3], s[3], s[4..7]);
    NormalizeDigits(s[..3]);
    CpfRelayout(s);
  }

  lemma CpfRelayout(s: string)
    requires |s| == 14 && s[3] == '.' && s[7] == '.' && s[11] == '-'
    ensures s == CpfMasked(s[..3] + s[4..7] + s[8..11] + s[12..])
  {
    var d := s[..3] + s[4..7] + s[8..11] + s[12..];
    assert d[..3] == s[..3] && d[3..6] == s[4..7] && d[6..9] == s[8..11] && d[9..] == s[12..];
  }

  /** The canonical masked layout of eleven digits fits the pattern and strips back to them. */
  lemma CpfMaskOf(d: string)
    requires |d| == 11 && AllDigits(d)
    ensures Fits(CpfMasked(d), CPF_MASK) && Normalize(CpfMasked(d)) == d
  {
    CpfMaskFits(d);
    CpfMaskStrips(d);
  }

  lemma CpfMaskFits(d: string)
    requires |d| == 11 && AllDigits(d)
    ensures Fits(CpfMasked(d), CPF_MASK)
  {
    var m := CpfMasked(d);
    CpfMaskedGroups(d);
    assert AllDigits(m[..3]) && AllDigits(m[4..7]) && AllDigits(m[8..11]) && AllDigits(m[12..]);
    CpfMaskParts(m);
  }

  lemma CpfMaskStrips(d: string)
    requires |d| == 11 && AllDigits(d)
    ensures Normalize(CpfMasked(d)) == d
  {
    var m := CpfMasked(d);
    CpfMaskedGroups(d);
    assert AllDigits(m[..3]) && AllDigits(m[4..7]) && AllDigits(m[8..11]) && AllDigits(m[12..]);
    CpfStrip(m);
    CpfGroupsJoin(d);
  }

  lemma CpfGroupsJoin(d: string)
    requires |d| == 11
    ensures d[..3] + d[3..6] + d[6..9] + d[9..] == d
  {
  }

  lemma CpfMaskedGroups(d: string)
    requires |d| == 11
    ensures var m := CpfMasked(d);
      && |m| == 14
      && m[..3] == d[..3] && m[4..7] == d[3..6] && m[8..11] == d[6..9] && m[12..] == d[9..]
      && m[3] == '.' && m[7] == '.' && m[11] == '-'
  {
  }

  /** The masked CNPJ pattern, position by position. */
  lemma CnpjMaskParts(s: string)
    ensures Fits(s, CNPJ_MASK) <==>
      && |s| == 18
      && AllDigits(s[..2]) && s[2] == '.' && AllDigits(s[3..6]) && s[6] == '.'
      && AllDigits(s[7..10]) && s[10] == '/' && AllDigits(s[11..15]) && s[15] == '-'
      && AllDigits(s[16..])
  {
    if && |s| == 18
       && AllDigits(s[..2]) && s[2] == '.' && AllDigits(s[3..6]) && s[6] == '.'
       && AllDigits(s[7..10]) && s[10] == '/' && AllDigits(s[11..15]) && s[15] == '-'
       && AllDigits(s[16..])
    {
      forall i | 0 <= i < 18 ensures Matches(s[i], CNPJ_MASK[i]) {
        if i < 2 { assert s[i] == s[..2][i]; }
        else if 3 <= i < 6 { assert s[i] == s[3..6][i - 3]; }
        else if 7 <= i < 10 { assert s[i] == s[7..10][i - 7]; }
        else if 11 <= i < 15 { assert s[i] == s[11..15][i - 11]; }
        else if 16 <= i { assert s[i] == s[16..][i - 16]; }
      }
    }
  }

  /** Stripping a masked CNPJ keeps its five digit groups, and re-masking them gives it back. */
  lemma CnpjStrip(s: string)
    requires && |s| == 18
             && AllDigits(s[..2]) && s[2] == '.' && AllDigits(s[3..6]) && s[6] == '.'
             && AllDigits(s[7..10]) && s[10] == '/' && AllDigits(s[11..15]) && s[15] == '-'
             && AllDigits(s[16..])
    ensures Normalize(s) == s[..2] + s[3..6] + s[7..10] + s[11..15] + s[16..]
    ensures s == CnpjMasked(Normalize(s))
  {
    var front := s[..2] + [s[2]] + s[3..6] + [s[6]] + s[7..10];
    assert s == front + [s[10]] + s[11..15] + [s[15]] + s[16..];
    NormalizeAfterSeparator(front + [s[10]] + s[11..15], s[15], s[16..]);
    NormalizeAfterSeparator(front, s[10], s[11..15]);
    NormalizeAfterSeparator(s[..2] + [s[2]] + s[3..6], s[6], s[7..10]);
    NormalizeAfterSeparator(s[..2], s[2], s[3..6]);
    NormalizeDigits(s[..2]);
    CnpjRelayout(s);
  }

  lemma CnpjRelayout(s: string)
    requires |s| == 18 && s[2] == '.' && s[6] == '.' && s[10] == '/' && s[15] == '-'
    ensures s == CnpjMasked(s[..2] + s[3..6] + s[7..10] + s[11..15] + s[16..])
  {
    var d := s[..2] + s[3..6] + s[7..10] + s[11..15] + s[16..];
    assert d[..2] == s[..2] && d[2..5] == s[3..6] && d[5..8] == s[7..10] && d[8..12] == s[11..15] && d[12..] == s[16..];
  }

  /** The canonical masked layout of fourteen digits fits the pattern and strips back to them. */
  lemma CnpjMaskOf(d: string)
    requires |d| == 14 && AllDigits(d)
    ensures Fits(CnpjMasked(d), CNPJ_MASK) && Normalize(CnpjMasked(d)) == d
  {
    CnpjMaskedGroups(d);
    CnpjMaskFits(d);
    CnpjMaskStrips(d);
  }

  lemma CnpjMaskFits(d: string)
    requires |d| == 14 && AllDigits(d)
    ensures Fits(CnpjMasked(d), CNPJ_MASK)
  {
    var m := CnpjMasked(d);
    CnpjMaskedGroups(d);
    assert AllDigits(m[..2]) && AllDigits(m[3..6]) && AllDigits(m[7..10]) && AllDigits(m[11..15]) && AllDigits(m[16..]);
    CnpjMaskParts(m);
  }

  lemma CnpjMaskStrips(d: string)
    requires |d| == 14 && AllDigits(d)
    ensures Normalize(CnpjMasked(d)) == d
  {
    var m := CnpjMasked(d);
    CnpjMaskedGroups(d);
    assert AllDigits(m[..2]) && AllDigits(m[3..6]) && AllDigits(m[7..10]) && AllDigits(m[11..15]) && AllDigits(m[16..]);
    CnpjStrip(m);
    CnpjGroupsJoin(d);
  }

  lemma CnpjGroupsJoin(d: string)
    requires |d| == 14
    ensures d[..2] + d[2..5] + d[5..8] + d[8..12] + d[12..] == d
  {
  }

  lemma CnpjMaskedGroups(d: string)
    requires |d| == 14
    ensures var m := CnpjMasked(d);
      && |m| == 18
      && m[..2] == d[..2] && m[3..6] == d[2..5] && m[7..10] == d[5..8]
      && m[11..15] == d[8..12] && m[16..] == d[12..]
      && m[2] == '.' && m[6] == '.' && m[10] == '/' && m[15] == '-'
  {
  }

  /** Either CEP format leaves exactly eight digits. */
  lemma CepFormatDigits(s: string)
    ensures Fits(s, CEP_MASK) || Fits(s, CEP_BARE) ==> |Normalize(s)| == 8
  {
    if Fits(s, CEP_MASK) { CepMaskParts(s); CepStrip(s); } else { FitsRun(s, 8); }
  }

  /** Either CPF format leaves exactly eleven digits. */
  lemma CpfFormatDigits(s: string)
    requires Fits(s, CPF_MASK) || Fits(s, CPF_BARE)
    ensures |Normalize(s)| == 11
  {
    if Fits(s, CPF_MASK) { CpfMaskParts(s); CpfStrip(s); } else { FitsRun(s, 11); }
  }

  /** Either CNPJ format leaves exactly fourteen digits. */
  lemma CnpjFormatDigits(s: string)
    requires Fits(s, CNPJ_MASK) || Fits(s, CNPJ_BARE)
    ensures |Normalize(s)| == 14
  {
    if Fits(s, CNPJ_MASK) { CnpjMaskParts(s); CnpjStrip(s); } else { FitsRun(s, 14); }
  }

  // ---------------------------------------------------------------------------
  // The model agrees with the registry definitions
  // ---------------------------------------------------------------------------

  /** After the format check, the repeated-digit and check-digit steps accept exactly the registry numbers. */
  lemma DigitsAcceptedIff(d: string, w1: seq<int>, w2: seq<int>)
    requires |w2| == |w1| + 1 && |d| == |w2| + 1 && AllDigits(d)
    ensures DigitsAccepted(d, w1, w2) <==> IsRegistryNumber(d, w1, w2)
  {
    SingleCharSet(d);
    CheckDigitIsUnique(DigitValues(d), w1, DigitValue(d[|w1|]));
    CheckDigitIsUnique(DigitValues(d), w2, DigitValue(d[|w2|]));
  }

  lemma CepAcceptedIff(s: string)
    ensures CepAccepted(s) <==> IsCepText(s)
  {
    FitsRun(s, 8);
    if Fits(s, CEP_MASK) {
      CepMaskParts(s);
      CepStrip(s);
      var d := Normalize(s);
      assert |d| == 8 && AllDigits(d) && s == CepMasked(d);
    } else if Fits(s, CEP_BARE) {
      assert |s| == 8 && AllDigits(s) && s == s;
    }
    if IsCepText(s) {
      var d :| |d| == 8 && AllDigits(d) && (s == d || s == CepMasked(d));
      if s != d { CepMaskOf(d); }
    }
  }

  lemma CpfAcceptedIff(s: string)
    ensures CpfAccepted(s) <==> IsCpfText(s)
  {
    if CpfAccepted(s) { CpfAcceptedSound(s); }
    if IsCpfText(s) { CpfAcceptedComplete(s); }
  }

  /** Whatever the CPF steps accept is a registry number, bare or in its canonical mask. */
  lemma CpfAcceptedSound(s: string)
    requires CpfAccepted(s)
    ensures IsCpfText(s)
  {
    WeightTablesAgree();
    var d := Normalize(s);
    CpfFormatDigits(s);
    DigitsAcceptedIff(d, CPF_WEIGHTS_1, CPF_WEIGHTS_2);
    if Fits(s, CPF_MASK) {
      CpfMaskParts(s);
      CpfStrip(s);
      assert IsCpfNumber(d) && s == CpfMasked(d);
    } else {
      FitsRun(s, 11);
      assert IsCpfNumber(d) && s == d;
    }
  }

  /** Every registry number, bare or in its canonical mask, passes the CPF steps. */
  lemma CpfAcceptedComplete(s: string)
    requires IsCpfText(s)
    ensures CpfAccepted(s)
  {
    WeightTablesAgree();
    var d :| IsCpfNumber(d) && (s == d || s == CpfMasked(d));
    if s == d {
      FitsRun(s, 11);
    } else {
      CpfMaskOf(d);
    }
    DigitsAcceptedIff(d, CPF_WEIGHTS_1, CPF_WEIGHTS_2);
  }

  lemma CnpjAcceptedIff(s: string)
    ensures CnpjAccepted(s) <==> IsCnpjText(s)
  {
    if CnpjAccepted(s) { CnpjAcceptedSound(s); }
    if IsCnpjText(s) { CnpjAcceptedComplete(s); }
  }

  /** Whatever the CNPJ steps accept is a registry number, bare or in its canonical mask. */
  lemma CnpjAcceptedSound(s: string)
    requires CnpjAccepted(s)
    ensures IsCnpjText(s)
  {
    WeightTablesAgree();
    var d := Normalize(s);
    CnpjFormatDigits(s);
    DigitsAcceptedIff(d, CNPJ_WEIGHTS_1, CNPJ_WEIGHTS_2);
    if Fits(s, CNPJ_MASK) {
      CnpjMaskParts(s);
      CnpjStrip(s);
      assert IsCnpjNumber(d) && s == CnpjMasked(d);
    } else {
      FitsRun(s, 14);
      assert IsCnpjNumber(d) && s == d;
    }
  }

  /** Every registry number, bare or in its canonical mask, passes the CNPJ steps. */
  lemma CnpjAcceptedComplete(s: string)
    requires IsCnpjText(s)
    ensures CnpjAccepted(s)
  {
    WeightTablesAgree();
    var d :| IsCnpjNumber(d) && (s == d || s == CnpjMasked(d));
    if s == d {
      FitsRun(s, 14);
    } else {
      CnpjMaskOf(d);
    }
    DigitsAcceptedIff(d, CNPJ_WEIGHTS_1, CNPJ_WEIGHTS_2);
  }
}
