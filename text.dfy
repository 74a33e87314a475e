/**
 * Text building blocks of the harness: the alphabet of `random_string`,
 * Python's `str * n`, and the decimal rendering of `f"file_{i}.py"`.
 */
module Text {

  predicate IsNameChar(c: char)
  {
    ('a' <= c <= 'z') || ('A' <= c <= 'Z') || ('0' <= c <= '9') || c == '_' || c == '-'
  }

  /** Every character is drawn from `Letters`. */
  predicate IsName(s: string)
  {
    forall i :: 0 <= i < |s| ==> IsNameChar(s[i])
  }

  /**
   * The `k`-th character of `string.ascii_letters + string.digits + "_-"`:
   * lower-case letters, upper-case letters, digits, underscore, hyphen.
   */
  function LetterAt(k: nat): (c: char)
    requires k < 64
    ensures IsNameChar(c)
  {
    if k < 26 then ('a' as int + k) as char
    else if k < 52 then ('A' as int + (k - 26)) as char
    else if k < 62 then ('0' as int + (k - 52)) as char
    else if k == 62 then '_'
    else '-'
  }

  /** The alphabet `random_string` chooses from. */
  const Letters: string := seq(64, k requires 0 <= k < 64 => LetterAt(k))

  /** `n` consecutive characters starting at `first`. */
  function Span(first: char, n: nat): (s: string)
    requires first as int + n <= 128
    ensures |s| == n
    ensures forall k :: 0 <= k < n ==> s[k] as int == first as int + k
    decreases n
  {
    if n == 0 then [] else Span(first, n - 1) + [(first as int + n - 1) as char]
  }

  /** The alphabet is the three runs of consecutive characters, then `_` and `-`. */
  lemma LettersAreRuns()
    ensures Letters == Span('a', 26) + Span('A', 26) + Span('0', 10) + "_-"
  {
    var runs := Span('a', 26) + Span('A', 26) + Span('0', 10) + "_-";
    forall k | 0 <= k < 64
      ensures Letters[k] == runs[k]
    {
      assert Letters[k] as int == runs[k] as int;
    }
  }

  lemma LowercaseAsWritten()
    ensures Span('a', 26) == "abcdefghijklmnopqrstuvwxyz"
  {
  }

  lemma UppercaseAsWritten()
    ensures Span('A', 26) == "ABCDEFGHIJKLMNOPQRSTUVWXYZ"
  {
  }

  lemma DigitsAsWritten()
    ensures Span('0', 10) == "0123456789"
  {
  }

  /** The alphabet spelled out, as `string.ascii_letters + string.digits + "_-"`. */
  lemma LettersAsWritten()
    ensures Letters == "abcdefghijklmnopqrstuvwxyz" + "ABCDEFGHIJKLMNOPQRSTUVWXYZ" + "0123456789" + "_-"
  {
    LettersAreRuns();
    LowercaseAsWritten();
    UppercaseAsWritten();
    DigitsAsWritten();
  }

  /** Where a name character sits in the alphabet: every name character is in it. */
  function LetterIndex(c: char): (k: nat)
    requires IsNameChar(c)
    ensures k < 64 && LetterAt(k) == c
  {
    if 'a' <= c <= 'z' then c as int - 'a' as int
    else if 'A' <= c <= 'Z' then 26 + (c as int - 'A' as int)
    else if '0' <= c <= '9' then 52 + (c as int - '0' as int)
    else if c == '_' then 62
    else 63
  }

  /** Python's `s * n`. */
  function Repeat(s: string, n: nat): (r: string)
    ensures |r| == n * |s|
  {
    if n == 0 then "" else Repeat(s, n - 1) + s
  }

  lemma {:induction false} RepeatCharAt(c: char, n: nat, i: nat)
    requires i < n
    ensures |Repeat([c], n)| == n && Repeat([c], n)[i] == c
  {
    if i < n - 1 {
      RepeatCharAt(c, n - 1, i);
    }
  }

  function Digit(d: nat): (c: char)
    requires d < 10
    ensures '0' <= c <= '9' && c as int - '0' as int == d
  {
    ('0' as int + d) as char
  }

  /** The decimal rendering of a natural number, as `str(n)` gives it. */
  function Decimal(n: nat): (s: string)
    ensures 1 <= |s| && (n >= 10 ==> |s| >= 2)
    ensures forall i :: 0 <= i < |s| ==> '0' <= s[i] <= '9'
  {
    if n < 10 then [Digit(n)] else Decimal(n / 10) + [Digit(n % 10)]
  }

  /** Distinct numbers have distinct decimal renderings. */
  lemma {:induction false} DecimalInjective(n: nat, m: nat)
    requires Decimal(n) == Decimal(m)
    ensures n == m
  {
    var s := Decimal(n);
    if n >= 10 && m >= 10 {
      assert s[|s| - 1] == Digit(n % 10) == Digit(m % 10);
      assert Decimal(n / 10) == s[..|s| - 1] == Decimal(m / 10);
      DecimalInjective(n / 10, m / 10);
    } else if n < 10 && m < 10 {
      assert Digit(n) == s[0] == Digit(m);
    }
  }
}
