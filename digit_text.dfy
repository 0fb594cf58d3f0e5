/**
 * Character-level machinery shared by the three validators of validador.py:
 * ASCII digits, the fixed-shape format patterns that stand in for the regular
 * expressions, the removal of every non-digit (`re.sub(r'[^0-9]', '', s)`),
 * and the set of distinct characters of a string (`set(numeros)`).
 */
module DigitText {

  /** A slot of a format pattern that must hold one decimal digit (`\d`). */
  const HOLE: char := '#'

  predicate IsDigit(c: char) {
    '0' <= c <= '9'
  }

  predicate AllDigits(s: string) {
    forall i :: 0 <= i < |s| ==> IsDigit(s[i])
  }

  /** Python's `int(c)` on a one-character digit string. */
  function DigitValue(c: char): (v: int)
    ensures IsDigit(c) ==> 0 <= v <= 9
    ensures IsDigit(c) ==> c == ('0' as int + v) as char
  {
    c as int - '0' as int
  }

  /** The integer value of every character of a digit string, position by position. */
  function DigitValues(s: string): (ds: seq<int>)
    ensures |ds| == |s|
    ensures forall i :: 0 <= i < |s| ==> ds[i] == DigitValue(s[i])
    ensures AllDigits(s) ==> forall i :: 0 <= i < |s| ==> 0 <= ds[i] <= 9 && s[i] == ('0' as int + ds[i]) as char
  {
    seq(|s|, i requires 0 <= i < |s| => DigitValue(s[i]))
  }

  /** The pattern `\d{n}`: `n` digit slots. */
  function Run(n: nat): (p: string)
    ensures |p| == n
    ensures forall i :: 0 <= i < n ==> p[i] == HOLE
  {
    seq(n, _ => HOLE)
  }

  /** One character against one pattern slot: a HOLE takes any digit, anything else itself. */
  predicate Matches(c: char, slot: char) {
    if slot == HOLE then IsDigit(c) else c == slot
  }

  /**
   * `s` has exactly the shape of pattern `p`: the anchored regular expression
   * obtained by reading each HOLE of `p` as `\d` and every other character literally.
   */
  predicate Fits(s: string, p: string)
    ensures Fits(s, p) ==> |s| == |p| && forall i :: 0 <= i < |s| && !IsDigit(s[i]) ==> s[i] == p[i]
    ensures Fits(s, p) && HOLE !in p ==> s == p
  {
    |s| == |p| && forall i :: 0 <= i < |s| ==> Matches(s[i], p[i])
  }

  /** `re.sub(r'[^0-9]', '', s)`: the digits of `s`, in order. */
  function Normalize(s: string): (r: string)
    ensures AllDigits(r)
    ensures |r| <= |s|
    ensures forall c :: c in r <==> c in s && IsDigit(c)
  {
    if s == [] then []
    else (if IsDigit(s[0]) then [s[0]] else []) + Normalize(s[1..])
  }

  /** Removing the non-digits commutes with concatenation. */
  lemma {:induction false} NormalizeAppend(a: string, b: string)
    ensures Normalize(a + b) == Normalize(a) + Normalize(b)
  {
    if a == [] {
      assert a + b == b;
    } else {
      assert (a + b)[0] == a[0];
      assert (a + b)[1..] == a[1..] + b;
      NormalizeAppend(a[1..], b);
    }
  }

  /** A separator is dropped and the digits after it are kept. */
  lemma NormalizeAfterSeparator(a: string, c: char, b: string)
    requires !IsDigit(c) && AllDigits(b)
    ensures Normalize(a + [c] + b) == Normalize(a) + b
  {
    calc {
      Normalize(a + [c] + b);
      { NormalizeAppend(a + [c], b); }
      Normalize(a + [c]) + Normalize(b);
      { NormalizeAppend(a, [c]); }
      Normalize(a) + Normalize([c]) + Normalize(b);
      { NormalizeNoDigits([c]); NormalizeDigits(b); }
      Normalize(a) + [] + b;
    }
  }

  /** A string made only of digits is left as it is. */
  lemma {:induction false} NormalizeDigits(s: string)
    requires AllDigits(s)
    ensures Normalize(s) == s
  {
    if s != [] {
      NormalizeDigits(s[1..]);
    }
  }

  /** A string without digits disappears. */
  lemma {:induction false} NormalizeNoDigits(s: string)
    requires forall i :: 0 <= i < |s| ==> !IsDigit(s[i])
    ensures Normalize(s) == []
  {
    if s != [] {
      NormalizeNoDigits(s[1..]);
    }
  }

  /** The set of distinct characters of `s`: Python's `set(s)`. */
  function CharSet(s: string): (cs: set<char>)
    ensures forall c :: c in cs <==> c in s
  {
    set i | 0 <= i < |s| :: s[i]
  }

  /** Every character of `s` is its first one. */
  predicate AllSame(s: string) {
    forall i :: 0 <= i < |s| ==> s[i] == s[0]
  }

  /** On a non-empty string, `len(set(s)) == 1` holds exactly when all its characters are equal. */
  lemma SingleCharSet(s: string)
    requires |s| > 0
    ensures |CharSet(s)| == 1 <==> AllSame(s)
  {
    var cs := CharSet(s);
    if AllSame(s) {
      assert cs == {s[0]};
    } else {
      var i :| 0 <= i < |s| && s[i] != s[0];
      assert {s[0], s[i]} <= cs;
      assert |{s[0], s[i]}| == 2;
      SubsetCard({s[0], s[i]}, cs);
    }
  }

  lemma {:induction false} SubsetCard(a: set<char>, b: set<char>)
    requires a <= b
    ensures |a| <= |b|
    decreases a
  {
    if a != {} {
      var x :| x in a;
      SubsetCard(a - {x}, b - {x});
    }
  }
}
