/**
 * Reference definitions of the three Brazilian document texts, written from
 * the rules of the registries rather than from the validator's steps: the
 * canonical masked layout of each number, the fixed weight tables, and the
 * modulo-11 condition every check digit must meet. The model in module
 * Validador is proved equal to these definitions.
 */
module Registry {
  import opened DigitText
  import opened CheckDigits

  /**
   * The modulo-11 weights of the registries, read from the rightmost covered
   * position leftwards: 2, 3, 4, ... and, once `2 + cycle - 1` is reached,
   * back to 2. The CPF never wraps (its weights run up to 11); the CNPJ
   * cycles through 2..9.
   */
  function RegistryWeights(n: nat, cycle: nat): (w: seq<int>)
    requires cycle > 0
    ensures |w| == n
  {
    seq(n, i requires 0 <= i < n => 2 + (n - 1 - i) % cycle)
  }

  /** Weights of the CPF's first and second check digits. */
  const CPF_TABLE_1: seq<int> := RegistryWeights(9, 10)
  const CPF_TABLE_2: seq<int> := RegistryWeights(10, 10)

  /** Weights of the CNPJ's first and second check digits. */
  const CNPJ_TABLE_1: seq<int> := RegistryWeights(12, 8)
  const CNPJ_TABLE_2: seq<int> := RegistryWeights(13, 8)

  /** The four tables written out. */
  lemma RegistryTables()
    ensures CPF_TABLE_1 == [10, 9, 8, 7, 6, 5, 4, 3, 2]
    ensures CPF_TABLE_2 == [11, 10, 9, 8, 7, 6, 5, 4, 3, 2]
    ensures CNPJ_TABLE_1 == [5, 4, 3, 2, 9, 8, 7, 6, 5, 4, 3, 2]
    ensures CNPJ_TABLE_2 == [6, 5, 4, 3, 2, 9, 8, 7, 6, 5, 4, 3, 2]
  {
  }

  /** A CEP's eight digits written `NNNNN-NNN`. */
  function CepMasked(d: string): string
    requires |d| == 8
  {
    d[..5] + "-" + d[5..]
  }

  /** A CPF's eleven digits written `NNN.NNN.NNN-NN`. */
  function CpfMasked(d: string): string
    requires |d| == 11
  {
    d[..3] + "." + d[3..6] + "." + d[6..9] + "-" + d[9..]
  }

  /** A CNPJ's fourteen digits written `NN.NNN.NNN/NNNN-NN`. */
  function CnpjMasked(d: string): string
    requires |d| == 14
  {
    d[..2] + "." + d[2..5] + "." + d[5..8] + "/" + d[8..12] + "-" + d[12..]
  }

  /**
   * A registry number checked by two modulo-11 digits: every character is a
   * digit, not all of them are equal, the digit after the positions `table1`
   * covers is the check digit of those positions, and the last digit is the
   * check digit of everything before it under `table2`.
   */
  predicate IsRegistryNumber(d: string, table1: seq<int>, table2: seq<int>) {
    && |table2| == |table1| + 1
    && |d| == |table2| + 1
    && AllDigits(d)
    && !AllSame(d)
    && IsCheckDigit(WeightedSum(DigitValues(d), table1, |table1|), DigitValue(d[|table1|]))
    && IsCheckDigit(WeightedSum(DigitValues(d), table2, |table2|), DigitValue(d[|table2|]))
  }

  predicate IsCpfNumber(d: string) {
    IsRegistryNumber(d, CPF_TABLE_1, CPF_TABLE_2)
  }

  predicate IsCnpjNumber(d: string) {
    IsRegistryNumber(d, CNPJ_TABLE_1, CNPJ_TABLE_2)
  }

  /** `s` is a CEP: eight digits, bare or masked. */
  ghost predicate IsCepText(s: string) {
    exists d :: |d| == 8 && AllDigits(d) && (s == d || s == CepMasked(d))
  }

  /** `s` is a valid CPF, bare or masked. */
  ghost predicate IsCpfText(s: string) {
    exists d :: IsCpfNumber(d) && (s == d || s == CpfMasked(d))
  }

  /** `s` is a valid CNPJ, bare or masked. */
  ghost predicate IsCnpjText(s: string) {
    exists d :: IsCnpjNumber(d) && (s == d || s == CnpjMasked(d))
  }
}
