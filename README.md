# Validador: CEP, CPF and CNPJ checks in Dafny

`validador.py` defines one class without state, `Validador`. It has three methods that check Brazilian document strings:

- `validar_cep` takes a postal code (CEP). It must be eight digits, or five digits, a hyphen and three digits.
- `validar_cpf` takes an individual taxpayer number (CPF). It accepts eleven digits, bare or masked as `NNN.NNN.NNN-NN`. Then it drops the mask and rejects a number whose digits are all equal. Finally it checks the two modulo-11 check digits, computed with the weights 10..2 and 11..2.
- `validar_cnpj` does the same for a company number (CNPJ). It takes fourteen digits, bare or masked as `NN.NNN.NNN/NNNN-NN`, with the weight tables `5,4,3,2,9,8,7,6,5,4,3,2` and `6,5,4,3,2,9,8,7,6,5,4,3,2`.

Each method takes any Python value. It raises `ValueError("O valor fornecido deve ser do tipo texto (str).")` when the value is not a `str`, and otherwise returns a boolean.

The project has seven modules:

- `DigitText` (`digit_text.dfy`) holds the character machinery:
  - ASCII digits, and the value of a digit;
  - fixed-shape format patterns, which stand in for the anchored regular expressions;
  - `re.sub(r'[^0-9]', '', s)` as `Normalize`;
  - `set(s)` as `CharSet`.
- `CheckDigits` (`check_digits.dfy`) holds the weighted sum and the clamped `11 - sum % 11` check digit.
  - It also has an independent definition of a modulo-11 check digit, and proves the two agree.
- `Registry` (`registry.dfy`) holds reference definitions, written from the rules of the documents rather than from the code's steps:
  - the canonical masked layout;
  - the weight tables, derived from the rule "weights 2, 3, ... from the rightmost digit", no wrap for the CPF and cycling through 2..9 for the CNPJ;
  - the condition every check digit meets;
  - `IsCepText`, `IsCpfText` and `IsCnpjText`: "a valid number, bare or in its canonical mask".
- `Validador` (`validador.dfy`) models the three methods step by step, with the type guard.
  - `Value` is the dynamically typed argument.
  - `Outcome` is either a returned boolean or the `ValueError`.
  - Each method's contract states that its result is the reference definition.
- `ValidadorProperties` (`properties.dfy`) proves properties over many calls:
  - the exact accepted shapes;
  - masking invariance;
  - the repeated-digit rule, and why it is needed;
  - the check digits are determined by the digits before them.
- `ValidadorExamples` (`examples_tests.dfy`) states every case of `test_validador.py` as a lemma.
- `ValidadorAsWritten` (`as_written.dfy`) models the anchors the way Python's `re` reads them (see Findings).

## Model

| member | source | states |
|---|---|---|
| `Validador.ValidarCep` | validador.py:4-12 | A non-string raises `ValueError` with the fixed message, and every string returns. The result is true exactly when the string is eight digits, bare or masked `NNNNN-NNN`. |
| `Validador.ValidarCpf` | validador.py:14-43 | A non-string raises `ValueError`, and every string returns. The result is true exactly when the string is a registry CPF number, bare or in its canonical mask. |
| `Validador.ValidarCnpj` | validador.py:45-77 | A non-string raises `ValueError`, and every string returns. The result is true exactly when the string is a registry CNPJ number, bare or in its canonical mask. |
| `Validador.CepAccepted` | validador.py:9-12 | A string that passes the CEP format test has exactly eight digits. |
| `Validador.CepFormatDigits` | validador.py:9 | Either CEP format, masked or bare, leaves exactly eight digits. |
| `Validador.CpfAccepted` | validador.py:19-43 | A string that passes every CPF step has eleven digits, and they are not all equal. |
| `Validador.CnpjAccepted` | validador.py:50-77 | A string that passes every CNPJ step has fourteen digits, and they are not all equal. |
| `Validador.DigitsAccepted` | validador.py:25-41 | The digits pass exactly when they are not all equal and each check digit equals the check digit computed from the digits before it. |
| `Validador.DigitsAcceptedIff` | validador.py:25-41 | For digit text of the right length, the repeated-digit test and the two check-digit comparisons accept exactly the numbers that meet the registry definition. |
| `Validador.CepAcceptedIff` | validador.py:8-12 | The format test of the CEP holds exactly for the CEP texts. |
| `Validador.CpfAcceptedIff` | validador.py:18-43 | The CPF steps accept exactly the CPF texts. |
| `Validador.CpfAcceptedSound` | validador.py:18-43 | Whatever the CPF steps accept is a valid number, bare or in its canonical mask. |
| `Validador.CpfAcceptedComplete` | validador.py:18-43 | Every valid CPF, bare or masked, passes every CPF step. |
| `Validador.CnpjAcceptedIff` | validador.py:49-77 | The CNPJ steps accept exactly the CNPJ texts. |
| `Validador.CnpjAcceptedSound` | validador.py:49-77 | Whatever the CNPJ steps accept is a valid number, bare or in its canonical mask. |
| `Validador.CnpjAcceptedComplete` | validador.py:49-77 | Every valid CNPJ, bare or masked, passes every CNPJ step. |
| `Validador.WeightTablesAgree` | validador.py:30-61 | The weights the code uses, `10 - i` and `11 - i` for the CPF and `pesos_d1`, `pesos_d2` for the CNPJ, are the registry tables derived from the rule. |
| `Registry.RegistryTables` | validador.py:60-61 | The rule yields 10..2 and 11..2 for the CPF, and for the CNPJ the lists 5,4,3,2,9,8,7,6,5,4,3,2 and 6,5,4,3,2,9,8,7,6,5,4,3,2 of `pesos_d1` and `pesos_d2`. |
| `Validador.FitsRun` | validador.py:19 | `^\d{n}$` holds exactly for the `n`-character strings of digits, and stripping non-digits leaves them as they are. |
| `Validador.CepMaskParts` | validador.py:9 | The masked CEP pattern holds exactly for nine characters: five digits, `-`, three digits. |
| `Validador.CepStrip` | validador.py:9 | Stripping a masked CEP keeps both digit groups, and masking them again gives the text back. |
| `Validador.CepMaskOf` | validador.py:9 | The canonical mask of any eight digits fits the pattern and strips back to those digits. |
| `Validador.CpfMaskParts` | validador.py:19 | The masked CPF pattern holds exactly for 14 characters: digit groups of 3, 3, 3 and 2, separated by `.`, `.` and `-`. |
| `Validador.CpfStrip` | validador.py:22-23 | Stripping a masked CPF gives its four digit groups in order, and masking them again gives the text back. |
| `Validador.CpfMaskOf` | validador.py:19-23 | The canonical mask of any eleven digits fits the pattern and strips back to those digits. |
| `Validador.CpfFormatDigits` | validador.py:19-23 | Either CPF format leaves exactly eleven digits to check, so every index the checks use exists. |
| `Validador.CnpjMaskParts` | validador.py:50 | The masked CNPJ pattern holds exactly for 18 characters: digit groups of 2, 3, 3, 4 and 2, separated by `.`, `.`, `/` and `-`. |
| `Validador.CnpjStrip` | validador.py:53-54 | Stripping a masked CNPJ gives its five digit groups in order, and masking them again gives the text back. |
| `Validador.CnpjMaskOf` | validador.py:50-54 | The canonical mask of any fourteen digits fits the pattern and strips back to those digits. |
| `Validador.CnpjFormatDigits` | validador.py:50-54 | Either CNPJ format leaves exactly fourteen digits to check. |
| `DigitText.DigitValue` | validador.py:30-33 | `int(c)` of a digit character is in 0..9, and it is that digit's position after `'0'`. |
| `DigitText.DigitValues` | validador.py:30 | For digit text, every value `int(numeros[i])` is in 0..9, and writing the values back as digits gives the string. |
| `DigitText.CharSet` | validador.py:26 | `set(s)` holds exactly the characters that occur in `s`. |
| `DigitText.Fits` | validador.py:19 | A string fitting a format pattern has the pattern's length, each of its non-digit characters is the pattern's literal at that place, and a pattern without digit slots fits only itself. |
| `DigitText.Normalize` | validador.py:23 | The result is all digits and no longer than the input. A character is in it exactly when it is a digit of the input. |
| `DigitText.NormalizeAppend` | validador.py:23 | Removing non-digits commutes with concatenation. |
| `DigitText.NormalizeAfterSeparator` | validador.py:23 | A separator is dropped, and the digits after it are kept in order. |
| `DigitText.NormalizeDigits` | validador.py:23 | A string of digits is left unchanged. |
| `DigitText.SingleCharSet` | validador.py:26-27 | On a non-empty string, `len(set(s)) == 1` holds exactly when every character equals the first. |
| `CheckDigits.CheckDigit` | validador.py:30-32 | The check digit is in 0..9, and it equals `0 if r < 2 else 11 - r`, where `r` is the weighted sum mod 11. |
| `CheckDigits.CheckDigitIsUnique` | validador.py:29-41 | The computed digit is the one digit `c` for which `sum + c` is a multiple of 11, or 0 when that digit would be 10. Both directions are proved. |
| `CheckDigits.ClampIsCheckDigit` | validador.py:31-32 | The clamp `0 if 11 - s % 11 >= 10 else 11 - s % 11` meets the modulo-11 definition, and is the only digit that does. |
| `CheckDigits.WeightedSumBounds` | validador.py:30 | For digits in 0..9 and non-negative weights, the weighted sum lies between 0 and 9 times the total weight. |
| `CheckDigits.WeightedSumPrefix` | validador.py:37 | The weighted sum reads only the digits it covers. |
| `CheckDigits.WeightedSumConstant` | validador.py:30 | When all digits have one value `v`, the sum is `v` times the total weight. |
| `ValidadorProperties.CepShape` | validador.py:9-12 | `validar_cep` returns true exactly for eight digits, or five digits, `-`, three digits. |
| `ValidadorProperties.CpfRejectsOtherShapes` | validador.py:19-20 | Every string in neither CPF format returns false, and so does every string whose length is not 11 or 14. |
| `ValidadorProperties.CnpjRejectsOtherShapes` | validador.py:50-51 | Every string in neither CNPJ format returns false, and so does every string whose length is not 14 or 18. |
| `ValidadorProperties.CepMaskingInvariance` | validador.py:9 | The bare and masked forms of any eight digits are both accepted. |
| `ValidadorProperties.CpfMaskingInvariance` | validador.py:19-23 | The bare and masked forms of the same eleven digits give the same answer. |
| `ValidadorProperties.CnpjMaskingInvariance` | validador.py:50-54 | The bare and masked forms of the same fourteen digits give the same answer. |
| `ValidadorProperties.CpfRejectsRepeated` | validador.py:25-27 | Eleven copies of one digit return false, bare and masked. |
| `ValidadorProperties.CnpjRejectsRepeated` | validador.py:56-58 | Fourteen copies of one digit return false, bare and masked. |
| `ValidadorProperties.RepeatedCpfPassesCheckDigits` | validador.py:25-41 | Eleven copies of the same digit pass both check-digit comparisons, so only the repeated-digit rule rejects them. |
| `ValidadorProperties.ConstantDigitsCheckDigit` | validador.py:29-32 | If the weights sum to one less than a multiple of 11, then `v, v, ..., v` has check digit `v`. |
| `ValidadorProperties.FirstCheckDigitDetermined` | validador.py:29-34 | For fixed leading digits, at most one value of the first check digit is accepted. |
| `ValidadorProperties.LastCheckDigitDetermined` | validador.py:36-41 | For fixed leading digits, at most one value of the last check digit is accepted. |
| `ValidadorProperties.CpfLastDigitDetermined` | validador.py:36-43 | Changing the final character of an accepted CPF to any other digit makes it rejected, bare or masked. |
| `ValidadorProperties.CnpjLastDigitDetermined` | validador.py:70-77 | Changing the final character of an accepted CNPJ to any other digit makes it rejected, bare or masked. |
| `ValidadorExamples.Cep01001000Accepted` | test_validador.py:12-13 | `01001-000` and `01001000` are accepted. |
| `ValidadorExamples.Cep20040002Accepted` | test_validador.py:14-15 | `20040-002` and `20040002` are accepted. |
| `ValidadorExamples.CepValidExamples` | test_validador.py:11-18 | The four CEPs the tests expect to be accepted are accepted. |
| `ValidadorExamples.CepInvalidExamples` | test_validador.py:20-28 | The five malformed CEPs are rejected. |
| `ValidadorExamples.CepTypeExamples` | test_validador.py:30-37 | An int, `None` and a list raise `ValueError`. |
| `ValidadorExamples.RegistryNumberOf` | validador.py:25-41 | Digit text that has two different digits, and whose two weighted sums each have the matching digit as check digit, meets the registry definition. |
| `ValidadorExamples.CpfNumberAccepted` | validador.py:14-43 | Any number meeting the CPF definition is accepted, bare and masked. |
| `ValidadorExamples.Cpf11144477735` | test_validador.py:43-44 | `11144477735` meets the CPF definition: check digits 3 and 5. |
| `ValidadorExamples.Cpf52998224725` | test_validador.py:45-46 | `52998224725` meets the CPF definition: check digits 2 and 5. |
| `ValidadorExamples.Cpf11144477735Accepted` | test_validador.py:43-44 | `111.444.777-35` and `11144477735` are accepted. |
| `ValidadorExamples.Cpf52998224725Accepted` | test_validador.py:45-46 | `529.982.247-25` and `52998224725` are accepted. |
| `ValidadorExamples.CpfValidExamples` | test_validador.py:42-49 | The four CPFs the tests expect to be accepted are accepted. |
| `ValidadorExamples.CpfWrongCheckDigit` | test_validador.py:52 | `111.444.777-36` is rejected. |
| `ValidadorExamples.CpfRepeated` | test_validador.py:53 | `111.111.111-11` is rejected. |
| `ValidadorExamples.CpfWrongSeparators` | test_validador.py:56 | `111/444/777-35` is rejected. |
| `ValidadorExamples.CpfLetter` | test_validador.py:57 | `A11.444.777-35` is rejected. |
| `ValidadorExamples.CpfInvalidExamples` | test_validador.py:51-60 | The six CPFs the tests expect to be rejected are rejected. |
| `ValidadorExamples.CpfTypeExamples` | test_validador.py:62-69 | An int, `False` and a dict raise `ValueError`. |
| `ValidadorExamples.CnpjNumberAccepted` | validador.py:45-77 | Any number meeting the CNPJ definition is accepted, bare and masked. |
| `ValidadorExamples.Cnpj06990590000123` | test_validador.py:75-76 | `06990590000123` meets the CNPJ definition: check digits 2 and 3. |
| `ValidadorExamples.Cnpj00000000000191` | test_validador.py:77-78 | `00000000000191` meets the CNPJ definition: check digits 9 and 1. |
| `ValidadorExamples.Cnpj06990590000123Accepted` | test_validador.py:75-76 | `06.990.590/0001-23` and `06990590000123` are accepted. |
| `ValidadorExamples.Cnpj00000000000191Accepted` | test_validador.py:77-78 | `00.000.000/0001-91` and `00000000000191` are accepted. |
| `ValidadorExamples.CnpjValidExamples` | test_validador.py:74-81 | The four CNPJs the tests expect to be accepted are accepted. |
| `ValidadorExamples.CnpjWrongCheckDigit` | test_validador.py:84 | `06.990.590/0001-24` is rejected. |
| `ValidadorExamples.CnpjRepeated` | test_validador.py:85 | `00.000.000/0000-00` is rejected. |
| `ValidadorExamples.CnpjWrongSeparators` | test_validador.py:88 | `06-990-590/0001.23` is rejected. |
| `ValidadorExamples.CnpjLetter` | test_validador.py:89 | `06.990.590/000A-23` is rejected. |
| `ValidadorExamples.CnpjInvalidExamples` | test_validador.py:83-92 | The six CNPJs the tests expect to be rejected are rejected. |
| `ValidadorExamples.CnpjTypeExamples` | test_validador.py:94-101 | An int, `True` and a float raise `ValueError`. |
| `ValidadorAsWritten.RegexMatches` | validador.py:9 | Python's reading of an anchored pattern accepts every exact fit, and only strings of the pattern's length or one character longer. |
| `ValidadorAsWritten.CepAcceptedAsWritten` | validador.py:9-12 | Every text the exact CEP check accepts is accepted as written too. |
| `ValidadorAsWritten.CpfAcceptedAsWritten` | validador.py:19-43 | Every text the exact CPF steps accept is accepted as written too. |
| `ValidadorAsWritten.CnpjAcceptedAsWritten` | validador.py:50-77 | Every text the exact CNPJ steps accept is accepted as written too. |
| `ValidadorAsWritten.ValidarCepAsWritten` | validador.py:9-12 | With `$` read as Python reads it, the check accepts a CEP text, and also a CEP text followed by one newline. |
| `ValidadorAsWritten.ValidarCpfAsWritten` | validador.py:19-23 | With `$` read as Python reads it, the check accepts a valid CPF text, and also one followed by a single newline. |
| `ValidadorAsWritten.ValidarCnpjAsWritten` | validador.py:50-54 | With `$` read as Python reads it, the check accepts a valid CNPJ text, and also one followed by a single newline. |
| `ValidadorAsWritten.CepAsWrittenIff` | validador.py:9 | The as-written CEP pattern test holds exactly for CEP texts, with or without one final newline. |
| `ValidadorAsWritten.CpfAsWrittenIff` | validador.py:19-23 | The as-written CPF steps accept exactly the valid CPF texts, with or without one final newline. |
| `ValidadorAsWritten.CnpjAsWrittenIff` | validador.py:50-54 | The as-written CNPJ steps accept exactly the valid CNPJ texts, with or without one final newline. |
| `ValidadorAsWritten.NormalizeChomp` | validador.py:23 | Stripping non-digits also drops a final newline. |
| `ValidadorAsWritten.DroppedNewlineIsCpf` | validador.py:19-23 | As written, any accepted CPF text followed by a newline is accepted too. |
| `ValidadorAsWritten.DroppedNewlineIsCnpj` | validador.py:50-54 | As written, any accepted CNPJ text followed by a newline is accepted too. |
| `ValidadorAsWritten.CepTrailingNewline` | validador.py:9 | `"01001-000\n"` is accepted as written, and the exact-format model rejects it. |
| `ValidadorAsWritten.CpfTrailingNewline` | validador.py:19 | `"111.444.777-35\n"` is accepted as written, and the exact-format model rejects it. |
| `ValidadorAsWritten.CnpjTrailingNewline` | validador.py:50 | `"06990590000123\n"` is accepted as written, and the exact-format model rejects it. |

## Findings

| source | as written | input that shows it | evidently intended | confidence | as-written member | corrected member |
|---|---|---|---|---|---|---|
| validador.py:9 | `re.match(r'^\d{5}-?\d{3}$', cep)`. Outside multiline mode, `$` also matches just before a final `\n`. | `"01001-000\n"` returns `True` | The exact format named in the comment at validador.py:8: nothing after the last digit (`\Z` or `re.fullmatch`) | medium, not executed | `ValidadorAsWritten.CepTrailingNewline` | `Validador.ValidarCep` |
| validador.py:19 | Both alternatives end in `$`. `re.sub(r'[^0-9]', '', cpf)` then drops the newline, so the checksum runs on the eleven digits. | `"111.444.777-35\n"` returns `True` | The exact format named in the comment at validador.py:18 | medium, not executed | `ValidadorAsWritten.CpfTrailingNewline` | `Validador.ValidarCpf` |
| validador.py:50 | The same `$` rule and newline removal as for the CPF. | `"06990590000123\n"` returns `True` | The exact format named in the comment at validador.py:49 | medium, not executed | `ValidadorAsWritten.CnpjTrailingNewline` | `Validador.ValidarCnpj` |

The rest of the model uses the exact formats, which are the ones the comments describe. `ValidadorAsWritten` keeps the code's reading and states it in full, for every input, in `ValidarCepAsWritten`, `ValidarCpfAsWritten` and `ValidarCnpjAsWritten`.

## Left out

- `servico_correios.py`: `ServicoCorreios.valida_cep_api` makes an HTTP request to a remote CEP directory. `validador.py` neither imports nor calls it, so this model has no remote existence check. This revision's `validar_cep` makes no remote call.
- Unicode digits: in Python 3 string patterns, `\d` matches every Unicode decimal digit, such as Arabic-Indic `٠`..`٩` or fullwidth digits. The model reads a digit slot as ASCII `'0'`..`'9'` only. On such input the code differs:
  - `validar_cep` returns `True` where the model returns false.
  - `validar_cpf` and `validar_cnpj` pass the format test, but `re.sub(r'[^0-9]', ...)` then removes those characters. Checking the shortened string can index past its end and raise `IndexError`. The model has no such outcome.
- Dynamic typing: `Value` lists the kinds of argument the tests use: str, int, bool, `None`, float, list and dict. Any value that is not `Str` behaves the same way, so other Python types are left out. So are subclasses of `str`, which `isinstance` would accept.
- Floating point: a float argument is a `real` here. It only ever reaches the type guard.
- Integer arithmetic: Python's `%` floors and Dafny's is Euclidean. The two agree for the positive divisor 11, and the weighted sums are never negative, so no wrap-around or sign handling is needed.
- Test plumbing: the pytest fixture and the parametrisation in `test_validador.py` are left out. Each parametrised case is a lemma in `ValidadorExamples`.
