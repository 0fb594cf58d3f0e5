/**
 * The cases of test_validador.py, stated as lemmas about the model: every
 * string the tests expect to be accepted is accepted, every one they expect
 * to be rejected is rejected, and every non-string value they pass raises
 * `ValueError`.
 */
module ValidadorExamples {
  import opened DigitText
  import opened CheckDigits
  import opened Registry
  import opened Validador
  import opened ValidadorProperties

  // ---------------------------------------------------------------------------
  // CEP
  // ---------------------------------------------------------------------------

  lemma CepValidExamples()
    ensures ValidarCep(Str("01001-000")) == Returned(true)
    ensures ValidarCep(Str("01001000")) == Returned(true)
    ensures ValidarCep(Str("20040-002")) == Returned(true)
    ensures ValidarCep(Str("20040002")) == Returned(true)
  {
    Cep01001000Accepted();
    Cep20040002Accepted();
  }

  lemma Cep01001000Accepted()
    ensures ValidarCep(Str("01001-000")) == Returned(true)
    ensures ValidarCep(Str("01001000")) == Returned(true)
  {
    CepMasked01001000();
    CepMaskingInvariance("01001000");
  }

  lemma Cep20040002Accepted()
    ensures ValidarCep(Str("20040-002")) == Returned(true)
    ensures ValidarCep(Str("20040002")) == Returned(true)
  {
    CepMasked20040002();
    CepMaskingInvariance("20040002");
  }

  lemma CepInvalidExamples()
    ensures ValidarCep(Str("01001-00")) == Returned(false)
    ensures ValidarCep(Str("01001-0000")) == Returned(false)
    ensures ValidarCep(Str("0100A-000")) == Returned(false)
    ensures ValidarCep(Str("01001.000")) == Returned(false)
    ensures ValidarCep(Str("1234567")) == Returned(false)
  {
    var a := "01001-00";
    CepShape(a);
    assert !IsDigit(a[5]);
    CepShape("01001-0000");
    var b := "0100A-000";
    CepShape(b);
    assert !IsDigit(b[..5][4]);
    var c := "01001.000";
    CepShape(c);
    assert !IsDigit(c[5]);
    CepShape("1234567");
  }

  lemma CepTypeExamples()
    ensures ValidarCep(Int(12345678)) == ValueError(TYPE_MESSAGE)
    ensures ValidarCep(NoneValue) == ValueError(TYPE_MESSAGE)
    ensures ValidarCep(List([Str("01001-000")])) == ValueError(TYPE_MESSAGE)
  {
  }

  // ---------------------------------------------------------------------------
  // CPF
  // ---------------------------------------------------------------------------

  /** A digit string with one digit unlike the first, whose two sums make its check positions check digits, is a registry number. */
  lemma RegistryNumberOf(d: string, t1: seq<int>, t2: seq<int>, k: nat, s1: int, s2: int)
    requires |t2| == |t1| + 1 && |d| == |t2| + 1 && AllDigits(d)
    requires k < |d| && d[k] != d[0]
    requires WeightedSum(DigitValues(d), t1, |t1|) == s1 && IsCheckDigit(s1, DigitValue(d[|t1|]))
    requires WeightedSum(DigitValues(d), t2, |t2|) == s2 && IsCheckDigit(s2, DigitValue(d[|t2|]))
    ensures IsRegistryNumber(d, t1, t2)
  {
    assert !AllSame(d) by { assert d[k] != d[0]; }
  }

  /** A number that meets the registry's definition is accepted bare and masked. */
  lemma CpfNumberAccepted(d: string)
    requires IsCpfNumber(d)
    ensures ValidarCpf(Str(d)) == Returned(true)
    ensures ValidarCpf(Str(CpfMasked(d))) == Returned(true)
  {
    assert IsCpfNumber(d) && d == d;
    assert IsCpfNumber(d) && CpfMasked(d) == CpfMasked(d);
  }

  lemma Cpf11144477735()
    ensures IsCpfNumber("11144477735")
  {
    var d := "11144477735";
    Cpf11144477735Values();
    RegistryTables();
    Cpf11144477735Sums();
    assert |CPF_TABLE_1| == 9 && |CPF_TABLE_2| == 10;
    assert WeightedSum(DigitValues(d), CPF_TABLE_1, 9) == 162;
    assert WeightedSum(DigitValues(d), CPF_TABLE_2, 10) == 204;
    RegistryNumberOf(d, CPF_TABLE_1, CPF_TABLE_2, 3, 162, 204);
  }

  lemma Cpf11144477735Values()
    ensures DigitValues("11144477735") == [1, 1, 1, 4, 4, 4, 7, 7, 7, 3, 5]
  {
  }

  lemma Cpf11144477735Sums()
    ensures WeightedSum([1, 1, 1, 4, 4, 4, 7, 7, 7, 3, 5], [10, 9, 8, 7, 6, 5, 4, 3, 2], 9) == 162
    ensures WeightedSum([1, 1, 1, 4, 4, 4, 7, 7, 7, 3, 5], [11, 10, 9, 8, 7, 6, 5, 4, 3, 2], 10) == 204
  {
    var t1 := [10, 9, 8, 7, 6, 5, 4, 3, 2];
    var t2 := [11, 10, 9, 8, 7, 6, 5, 4, 3, 2];
    var ds := [1, 1, 1, 4, 4, 4, 7, 7, 7, 3, 5];
    assert WeightedSum(ds, t1, 1) == 10;
    assert WeightedSum(ds, t1, 2) == 19;
    assert WeightedSum(ds, t1, 3) == 27;
    assert WeightedSum(ds, t1, 4) == 55;
    assert WeightedSum(ds, t1, 5) == 79;
    assert WeightedSum(ds, t1, 6) == 99;
    assert WeightedSum(ds, t1, 7) == 127;
    assert WeightedSum(ds, t1, 8) == 148;
    assert WeightedSum(ds, t2, 1) == 11;
    assert WeightedSum(ds, t2, 2) == 21;
    assert WeightedSum(ds, t2, 3) == 30;
    assert WeightedSum(ds, t2, 4) == 62;
    assert WeightedSum(ds, t2, 5) == 90;
    assert WeightedSum(ds, t2, 6) == 114;
    assert WeightedSum(ds, t2, 7) == 149;
    assert WeightedSum(ds, t2, 8) == 177;
    assert WeightedSum(ds, t2, 9) == 198;
  }

  lemma Cpf52998224725()
    ensures IsCpfNumber("52998224725")
  {
    var d := "52998224725";
    Cpf52998224725Values();
    RegistryTables();
    Cpf52998224725Sums();
    assert |CPF_TABLE_1| == 9 && |CPF_TABLE_2| == 10;
    assert WeightedSum(DigitValues(d), CPF_TABLE_1, 9) == 295;
    assert WeightedSum(DigitValues(d), CPF_TABLE_2, 10) == 347;
    RegistryNumberOf(d, CPF_TABLE_1, CPF_TABLE_2, 1, 295, 347);
  }

  lemma Cpf52998224725Values()
    ensures DigitValues("52998224725") == [5, 2, 9, 9, 8, 2, 2, 4, 7, 2, 5]
  {
  }

  lemma Cpf52998224725Sums()
    ensures WeightedSum([5, 2, 9, 9, 8, 2, 2, 4, 7, 2, 5], [10, 9, 8, 7, 6, 5, 4, 3, 2], 9) == 295
    ensures WeightedSum([5, 2, 9, 9, 8, 2, 2, 4, 7, 2, 5], [11, 10, 9, 8, 7, 6, 5, 4, 3, 2], 10) == 347
  {
    var t1 := [10, 9, 8, 7, 6, 5, 4, 3, 2];
    var t2 := [11, 10, 9, 8, 7, 6, 5, 4, 3, 2];
    var ds := [5, 2, 9, 9, 8, 2, 2, 4, 7, 2, 5];
    assert WeightedSum(ds, t1, 1) == 50;
    assert WeightedSum(ds, t1, 2) == 68;
    assert WeightedSum(ds, t1, 3) == 140;
    assert WeightedSum(ds, t1, 4) == 203;
    assert WeightedSum(ds, t1, 5) == 251;
    assert WeightedSum(ds, t1, 6) == 261;
    assert WeightedSum(ds, t1, 7) == 269;
    assert WeightedSum(ds, t1, 8) == 281;
    assert WeightedSum(ds, t2, 1) == 55;
    assert WeightedSum(ds, t2, 2) == 75;
    assert WeightedSum(ds, t2, 3) == 156;
    assert WeightedSum(ds, t2, 4) == 228;
    assert WeightedSum(ds, t2, 5) == 284;
    assert WeightedSum(ds, t2, 6) == 296;
    assert WeightedSum(ds, t2, 7) == 306;
    assert WeightedSum(ds, t2, 8) == 322;
    assert WeightedSum(ds, t2, 9) == 343;
  }

  lemma CpfValidExamples()
    ensures ValidarCpf(Str("111.444.777-35")) == Returned(true)
    ensures ValidarCpf(Str("11144477735")) == Returned(true)
    ensures ValidarCpf(Str("529.982.247-25")) == Returned(true)
    ensures ValidarCpf(Str("52998224725")) == Returned(true)
  {
    Cpf11144477735Accepted();
    Cpf52998224725Accepted();
  }

  lemma Cpf11144477735Accepted()
    ensures ValidarCpf(Str("111.444.777-35")) == Returned(true)
    ensures ValidarCpf(Str("11144477735")) == Returned(true)
  {
    CpfMasked11144477735();
    Cpf11144477735();
    CpfNumberAccepted("11144477735");
  }

  lemma Cpf52998224725Accepted()
    ensures ValidarCpf(Str("529.982.247-25")) == Returned(true)
    ensures ValidarCpf(Str("52998224725")) == Returned(true)
  {
    CpfMasked52998224725();
    Cpf52998224725();
    CpfNumberAccepted("52998224725");
  }

  lemma CpfInvalidExamples()
    ensures ValidarCpf(Str("111.444.777-36")) == Returned(false)
    ensures ValidarCpf(Str("111.111.111-11")) == Returned(false)
    ensures ValidarCpf(Str("111.444.777-3")) == Returned(false)
    ensures ValidarCpf(Str("111.444.777-350")) == Returned(false)
    ensures ValidarCpf(Str("111/444/777-35")) == Returned(false)
    ensures ValidarCpf(Str("A11.444.777-35")) == Returned(false)
  {
    CpfWrongCheckDigit();
    CpfRepeated();
    CpfRejectsOtherShapes("111.444.777-3");
    CpfRejectsOtherShapes("111.444.777-350");
    CpfWrongSeparators();
    CpfLetter();
  }

  lemma CpfWrongCheckDigit()
    ensures ValidarCpf(Str("111.444.777-36")) == Returned(false)
  {
    var s := "111.444.777-35";
    assert s[..|s| - 1] + ['6'] == "111.444.777-36";
    Cpf11144477735Accepted();
    CpfLastDigitDetermined(s, '6');
  }

  lemma CpfRepeated()
    ensures ValidarCpf(Str("111.111.111-11")) == Returned(false)
  {
    assert Repeat('1', 11) == "11111111111";
    CpfMasked11111111111();
    CpfRejectsRepeated('1');
  }

  lemma CpfWrongSeparators()
    ensures ValidarCpf(Str("111/444/777-35")) == Returned(false)
  {
    var s := "111/444/777-35";
    assert !Matches(s[3], CPF_MASK[3]);
    CpfRejectsOtherShapes(s);
  }

  lemma CpfLetter()
    ensures ValidarCpf(Str("A11.444.777-35")) == Returned(false)
  {
    var s := "A11.444.777-35";
    assert !Matches(s[0], CPF_MASK[0]);
    CpfRejectsOtherShapes(s);
  }

  lemma CpfTypeExamples()
    ensures ValidarCpf(Int(11144477735)) == ValueError(TYPE_MESSAGE)
    ensures ValidarCpf(Bool(false)) == ValueError(TYPE_MESSAGE)
    ensures ValidarCpf(Dict([(Str("cpf"), Str("111.444.777-35"))])) == ValueError(TYPE_MESSAGE)
  {
  }

  // ---------------------------------------------------------------------------
  // CNPJ
  // ---------------------------------------------------------------------------

  /** A number that meets the registry's definition is accepted bare and masked. */
  lemma CnpjNumberAccepted(d: string)
    requires IsCnpjNumber(d)
    ensures ValidarCnpj(Str(d)) == Returned(true)
    ensures ValidarCnpj(Str(CnpjMasked(d))) == Returned(true)
  {
    assert IsCnpjNumber(d) && d == d;
    assert IsCnpjNumber(d) && CnpjMasked(d) == CnpjMasked(d);
  }

  lemma Cnpj06990590000123()
    ensures IsCnpjNumber("06990590000123")
  {
    Cnpj06990590000123Number("06990590000123");
  }

  lemma Cnpj06990590000123Number(d: string)
    requires d == "06990590000123"
    ensures IsCnpjNumber(d)
  {
    Cnpj06990590000123Digits();
    Cnpj06990590000123Checks(d);
    RegistryNumberOf(d, CNPJ_TABLE_1, CNPJ_TABLE_2, 1, 174, 217);
  }

  lemma Cnpj06990590000123Checks(d: string)
    requires d == "06990590000123"
    ensures |d| == 14 && AllDigits(d) && d[1] != d[0]
    ensures IsCheckDigit(174, DigitValue(d[12])) && IsCheckDigit(217, DigitValue(d[13]))
  {
  }

  lemma Cnpj06990590000123Digits()
    ensures WeightedSum(DigitValues("06990590000123"), CNPJ_TABLE_1, |CNPJ_TABLE_1|) == 174
    ensures WeightedSum(DigitValues("06990590000123"), CNPJ_TABLE_2, |CNPJ_TABLE_2|) == 217
  {
    Cnpj06990590000123Values();
    RegistryTables();
    Cnpj06990590000123Sums();
    assert |CNPJ_TABLE_1| == 12 && |CNPJ_TABLE_2| == 13;
  }

  lemma Cnpj06990590000123Values()
    ensures DigitValues("06990590000123") == [0, 6, 9, 9, 0, 5, 9, 0, 0, 0, 0, 1, 2, 3]
  {
  }

  lemma Cnpj06990590000123Sums()
    ensures WeightedSum([0, 6, 9, 9, 0, 5, 9, 0, 0, 0, 0, 1, 2, 3], [5, 4, 3, 2, 9, 8, 7, 6, 5, 4, 3, 2], 12) == 174
    ensures WeightedSum([0, 6, 9, 9, 0, 5, 9, 0, 0, 0, 0, 1, 2, 3], [6, 5, 4, 3, 2, 9, 8, 7, 6, 5, 4, 3, 2], 13) == 217
  {
    var t1 := [5, 4, 3, 2, 9, 8, 7, 6, 5, 4, 3, 2];
    var t2 := [6, 5, 4, 3, 2, 9, 8, 7, 6, 5, 4, 3, 2];
    var ds := [0, 6, 9, 9, 0, 5, 9, 0, 0, 0, 0, 1, 2, 3];
    assert WeightedSum(ds, t1, 1) == 0;
    assert WeightedSum(ds, t1, 2) == 24;
    assert WeightedSum(ds, t1, 3) == 51;
    assert WeightedSum(ds, t1, 4) == 69;
    assert WeightedSum(ds, t1, 5) == 69;
    assert WeightedSum(ds, t1, 6) == 109;
    assert WeightedSum(ds, t1, 7) == 172;
    assert WeightedSum(ds, t1, 8) == 172;
    assert WeightedSum(ds, t1, 9) == 172;
    assert WeightedSum(ds, t1, 10) == 172;
    assert WeightedSum(ds, t1, 11) == 172;
    assert WeightedSum(ds, t2, 1) == 0;
    assert WeightedSum(ds, t2, 2) == 30;
    assert WeightedSum(ds, t2, 3) == 66;
    assert WeightedSum(ds, t2, 4) == 93;
    assert WeightedSum(ds, t2, 5) == 93;
    assert WeightedSum(ds, t2, 6) == 138;
    assert WeightedSum(ds, t2, 7) == 210;
    assert WeightedSum(ds, t2, 8) == 210;
    assert WeightedSum(ds, t2, 9) == 210;
    assert WeightedSum(ds, t2, 10) == 210;
    assert WeightedSum(ds, t2, 11) == 210;
    assert WeightedSum(ds, t2, 12) == 213;
  }

  lemma Cnpj00000000000191()
    ensures IsCnpjNumber("00000000000191")
  {
    var d := "00000000000191";
    Cnpj00000000000191Values();
    RegistryTables();
    Cnpj00000000000191Sums();
    assert |CNPJ_TABLE_1| == 12 && |CNPJ_TABLE_2| == 13;
    assert WeightedSum(DigitValues(d), CNPJ_TABLE_1, 12) == 2;
    assert WeightedSum(DigitValues(d), CNPJ_TABLE_2, 13) == 21;
    RegistryNumberOf(d, CNPJ_TABLE_1, CNPJ_TABLE_2, 11, 2, 21);
  }

  lemma Cnpj00000000000191Values()
    ensures DigitValues("00000000000191") == [0, 0, 0, 0, 0, 0, 0, 0, 0, 0, 0, 1, 9, 1]
  {
  }

  lemma Cnpj00000000000191Sums()
    ensures WeightedSum([0, 0, 0, 0, 0, 0, 0, 0, 0, 0, 0, 1, 9, 1], [5, 4, 3, 2, 9, 8, 7, 6, 5, 4, 3, 2], 12) == 2
    ensures WeightedSum([0, 0, 0, 0, 0, 0, 0, 0, 0, 0, 0, 1, 9, 1], [6, 5, 4, 3, 2, 9, 8, 7, 6, 5, 4, 3, 2], 13) == 21
  {
    var t1 := [5, 4, 3, 2, 9, 8, 7, 6, 5, 4, 3, 2];
    var t2 := [6, 5, 4, 3, 2, 9, 8, 7, 6, 5, 4, 3, 2];
    var ds := [0, 0, 0, 0, 0, 0, 0, 0, 0, 0, 0, 1, 9, 1];
    assert WeightedSum(ds, t1, 1) == 0;
    assert WeightedSum(ds, t1, 2) == 0;
    assert WeightedSum(ds, t1, 3) == 0;
    assert WeightedSum(ds, t1, 4) == 0;
    assert WeightedSum(ds, t1, 5) == 0;
    assert WeightedSum(ds, t1, 6) == 0;
    assert WeightedSum(ds, t1, 7) == 0;
    assert WeightedSum(ds, t1, 8) == 0;
    assert WeightedSum(ds, t1, 9) == 0;
    assert WeightedSum(ds, t1, 10) == 0;
    assert WeightedSum(ds, t1, 11) == 0;
    assert WeightedSum(ds, t2, 1) == 0;
    assert WeightedSum(ds, t2, 2) == 0;
    assert WeightedSum(ds, t2, 3) == 0;
    assert WeightedSum(ds, t2, 4) == 0;
    assert WeightedSum(ds, t2, 5) == 0;
    assert WeightedSum(ds, t2, 6) == 0;
    assert WeightedSum(ds, t2, 7) == 0;
    assert WeightedSum(ds, t2, 8) == 0;
    assert WeightedSum(ds, t2, 9) == 0;
    assert WeightedSum(ds, t2, 10) == 0;
    assert WeightedSum(ds, t2, 11) == 0;
    assert WeightedSum(ds, t2, 12) == 3;
  }

  lemma CnpjValidExamples()
    ensures ValidarCnpj(Str("06.990.590/0001-23")) == Returned(true)
    ensures ValidarCnpj(Str("06990590000123")) == Returned(true)
    ensures ValidarCnpj(Str("00.000.000/0001-91")) == Returned(true)
    ensures ValidarCnpj(Str("00000000000191")) == Returned(true)
  {
    Cnpj06990590000123Accepted();
    Cnpj00000000000191Accepted();
  }

  lemma Cnpj06990590000123Accepted()
    ensures ValidarCnpj(Str("06.990.590/0001-23")) == Returned(true)
    ensures ValidarCnpj(Str("06990590000123")) == Returned(true)
  {
    CnpjMaskedGroups("06990590000123");
    CnpjMasked06990590000123();
    Cnpj06990590000123();
    CnpjNumberAccepted("06990590000123");
  }

  lemma Cnpj00000000000191Accepted()
    ensures ValidarCnpj(Str("00.000.000/0001-91")) == Returned(true)
    ensures ValidarCnpj(Str("00000000000191")) == Returned(true)
  {
    CnpjMaskedGroups("00000000000191");
    CnpjMasked00000000000191();
    Cnpj00000000000191();
    CnpjNumberAccepted("00000000000191");
  }

  lemma CnpjInvalidExamples()
    ensures ValidarCnpj(Str("06.990.590/0001-24")) == Returned(false)
    ensures ValidarCnpj(Str("00.000.000/0000-00")) == Returned(false)
    ensures ValidarCnpj(Str("06.990.590/0001-2")) == Returned(false)
    ensures ValidarCnpj(Str("06.990.590/0001-230")) == Returned(false)
    ensures ValidarCnpj(Str("06-990-590/0001.23")) == Returned(false)
    ensures ValidarCnpj(Str("06.990.590/000A-23")) == Returned(false)
  {
    CnpjWrongCheckDigit();
    CnpjRepeated();
    CnpjRejectsOtherShapes("06.990.590/0001-2");
    CnpjRejectsOtherShapes("06.990.590/0001-230");
    CnpjWrongSeparators();
    CnpjLetter();
  }

  lemma CnpjWrongCheckDigit()
    ensures ValidarCnpj(Str("06.990.590/0001-24")) == Returned(false)
  {
    var s := "06.990.590/0001-23";
    assert s[..|s| - 1] + ['4'] == "06.990.590/0001-24";
    Cnpj06990590000123Accepted();
    CnpjLastDigitDetermined(s, '4');
  }

  lemma CnpjRepeated()
    ensures ValidarCnpj(Str("00.000.000/0000-00")) == Returned(false)
  {
    assert Repeat('0', 14) == "00000000000000";
    CnpjMasked00000000000000();
    CnpjRejectsRepeated('0');
  }

  lemma CnpjWrongSeparators()
    ensures ValidarCnpj(Str("06-990-590/0001.23")) == Returned(false)
  {
    var s := "06-990-590/0001.23";
    assert !Matches(s[2], CNPJ_MASK[2]);
    CnpjRejectsOtherShapes(s);
  }

  lemma CnpjLetter()
    ensures ValidarCnpj(Str("06.990.590/000A-23")) == Returned(false)
  {
    var s := "06.990.590/000A-23";
    assert !Matches(s[14], CNPJ_MASK[14]);
    CnpjRejectsOtherShapes(s);
  }

  lemma CnpjTypeExamples()
    ensures ValidarCnpj(Int(6990590000123)) == ValueError(TYPE_MESSAGE)
    ensures ValidarCnpj(Bool(true)) == ValueError(TYPE_MESSAGE)
    ensures ValidarCnpj(Float(3.14)) == ValueError(TYPE_MESSAGE)
  {
  }

  // ---------------------------------------------------------------------------
  // The canonical masks of the literals above
  // ---------------------------------------------------------------------------

  lemma CpfMasked11144477735()
    ensures CpfMasked("11144477735") == "111.444.777-35"
  {
    var d := "11144477735";
    assert d[..3] == "111" && d[3..6] == "444" && d[6..9] == "777" && d[9..] == "35";
  }

  lemma CpfMasked52998224725()
    ensures CpfMasked("52998224725") == "529.982.247-25"
  {
    var d := "52998224725";
    assert d[..3] == "529" && d[3..6] == "982" && d[6..9] == "247" && d[9..] == "25";
  }

  lemma CpfMasked11111111111()
    ensures CpfMasked("11111111111") == "111.111.111-11"
  {
    var d := "11111111111";
    assert d[..3] == "111" && d[3..6] == "111" && d[6..9] == "111" && d[9..] == "11";
  }

  lemma CnpjMasked06990590000123()
    ensures CnpjMasked("06990590000123") == "06.990.590/0001-23"
  {
    var d := "06990590000123";
    assert d[..2] == "06" && d[2..5] == "990" && d[5..8] == "590" && d[8..12] == "0001" && d[12..] == "23";
  }

  lemma CnpjMasked00000000000191()
    ensures CnpjMasked("00000000000191") == "00.000.000/0001-91"
  {
    var d := "00000000000191";
    assert d[..2] == "00" && d[2..5] == "000" && d[5..8] == "000" && d[8..12] == "0001" && d[12..] == "91";
  }

  lemma CnpjMasked00000000000000()
    ensures CnpjMasked("00000000000000") == "00.000.000/0000-00"
  {
    var d := "00000000000000";
    assert d[..2] == "00" && d[2..5] == "000" && d[5..8] == "000" && d[8..12] == "0000" && d[12..] == "00";
  }

  lemma CepMasked01001000()
    ensures CepMasked("01001000") == "01001-000"
  {
    var d := "01001000";
    assert d[..5] == "01001" && d[5..] == "000";
  }

  lemma CepMasked20040002()
    ensures CepMasked("20040002") == "20040-002"
  {
    var d := "20040002";
    assert d[..5] == "20040" && d[5..] == "002";
  }
}
