/** String operations the application code relies on: `String.prototype.includes`,
    the decimal rendering of an integer inside a template literal, and the small
    parsers that serve as their inverses. */
module Text {
  import opened Wrappers

  /** `sub` occurs in `s` starting at index `j`. */
  predicate OccursAt(s: string, sub: string, j: int) {
    0 <= j && j + |sub| <= |s| && s[j..j + |sub|] == sub
  }

  /** `s.includes(sub)`. */
  predicate Contains(s: string, sub: string) {
    exists j | 0 <= j <= |s| - |sub| :: OccursAt(s, sub, j)
  }

  /** A witnessed occurrence makes `includes` true. */
  lemma OccurrenceWitness(s: string, sub: string, j: int)
    requires OccursAt(s, sub, j)
    ensures Contains(s, sub)
  {
  }

  /** A string placed between two others occurs where it was placed. */
  lemma OccursBetween(a: string, sub: string, c: string)
    ensures OccursAt(a + sub + c, sub, |a|) && Contains(a + sub + c, sub)
  {
    assert (a + sub + c)[|a|..|a| + |sub|] == sub;
    OccurrenceWitness(a + sub + c, sub, |a|);
  }

  /** If some character of `sub` never appears in `s`, then `s` cannot include `sub`. */
  lemma AbsentCharExcludes(s: string, sub: string, k: nat)
    requires k < |sub| && sub[k] !in s
    ensures !Contains(s, sub)
  {
  }

  /** If the character `c == sub[k]` appears in `a + [c] + b` only at the marked
      place, the only possible occurrence of `sub` is the one aligning `sub[k]`
      with it. */
  lemma SingleAnchor(a: string, c: char, b: string, sub: string, k: nat)
    requires k < |sub| && sub[k] == c && c !in a && c !in b
    ensures Contains(a + [c] + b, sub) ==> OccursAt(a + [c] + b, sub, |a| - k)
  {
  }

  /** The index of the first `c` in `s`, or `|s|` when there is none. */
  function FirstIndex(s: string, c: char): (k: nat)
    ensures k <= |s|
    ensures forall i | 0 <= i < k :: s[i] != c
    ensures k < |s| ==> s[k] == c
  {
    if s == [] then 0
    else if s[0] == c then 0
    else 1 + FirstIndex(s[1..], c)
  }

  predicate IsDigit(c: char) {
    '0' <= c <= '9'
  }

  predicate AllDigits(s: string) {
    forall i | 0 <= i < |s| :: IsDigit(s[i])
  }

  function DigitChar(d: nat): (c: char)
    requires d < 10
    ensures IsDigit(c)
  {
    "0123456789"[d]
  }

  function DigitValue(c: char): nat
    requires IsDigit(c)
  {
    (c as int - '0' as int) as nat
  }

  lemma DigitRoundTrip(d: nat)
    requires d < 10
    ensures DigitValue(DigitChar(d)) == d
  {
  }

  /** How a non-negative integer is rendered in a template literal. */
  function Decimal(n: nat): (s: string)
    ensures |s| > 0 && AllDigits(s)
  {
    if n < 10 then [DigitChar(n)] else Decimal(n / 10) + [DigitChar(n % 10)]
  }

  /** The value of a non-empty string of decimal digits. */
  function ParseDecimal(s: string): nat
    requires AllDigits(s)
  {
    if s == [] then 0 else 10 * ParseDecimal(s[..|s| - 1]) + DigitValue(s[|s| - 1])
  }

  /** Reading back a rendered integer gives the integer. */
  lemma {:induction false} DecimalRoundTrip(n: nat)
    ensures ParseDecimal(Decimal(n)) == n
  {
    var s := Decimal(n);
    if n < 10 {
      DigitRoundTrip(n);
      assert s[..|s| - 1] == [];
    } else {
      DecimalRoundTrip(n / 10);
      DigitRoundTrip(n % 10);
      assert s[..|s| - 1] == Decimal(n / 10);
    }
  }
}
