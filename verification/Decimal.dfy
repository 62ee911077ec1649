/**
 The hand-written decimal printer `itoa` and the identifiers built from it:
 saga message ids (prefix:step:version) and payment event ids (prefix:type:version).
 */
module Decimal {
  import opened RetryPolicy

  const DIGITS := "0123456789"
  const BUFFER_SIZE := 20

  /** Canonical decimal notation. */
  function Print(n: nat): string {
    if n < 10 then [DIGITS[n]] else Print(n / 10) + [DIGITS[n % 10]]
  }

  predicate IsDigit(c: char) {
    '0' <= c <= '9'
  }

  function DigitValue(c: char): nat
    requires IsDigit(c)
  {
    c as nat - '0' as nat
  }

  function Parse(s: string): nat
    requires forall i :: 0 <= i < |s| ==> IsDigit(s[i])
  {
    if s == [] then 0 else 10 * Parse(s[..|s| - 1]) + DigitValue(s[|s| - 1])
  }

  predicate Numeral(s: string) {
    && s != []
    && (forall i :: 0 <= i < |s| ==> IsDigit(s[i]))
    && (s[0] == '0' ==> |s| == 1)
  }

  lemma {:induction false} PrintIsNumeral(n: nat)
    ensures Numeral(Print(n))
    ensures Print(n)[0] == '0' ==> n == 0
  {
    if n >= 10 {
      PrintIsNumeral(n / 10);
      assert Print(n)[0] == Print(n / 10)[0];
    }
  }

  /** Printing yields a numeral without leading zeros that parses back to the number. */
  lemma {:induction false} PrintRoundTrip(n: nat)
    ensures Numeral(Print(n)) && Parse(Print(n)) == n
  {
    PrintIsNumeral(n);
    if n >= 10 {
      PrintRoundTrip(n / 10);
      assert Print(n)[..|Print(n)| - 1] == Print(n / 10);
    } else {
      assert Print(n)[..0] == "";
    }
  }

  function Pow10(k: nat): nat {
    if k == 0 then 1 else 10 * Pow10(k - 1)
  }

  lemma {:induction false} PrintLength(n: nat, k: nat)
    requires k >= 1 && n < Pow10(k)
    ensures |Print(n)| <= k
  {
    if n >= 10 {
      PrintLength(n / 10, k - 1);
    }
  }

  /** The buffer is filled from its end; twenty digits suffice for every 64-bit value. */
  method Itoa(value: uint64) returns (s: string)
    ensures s == Print(value as nat)
    ensures |s| <= BUFFER_SIZE
  {
    PrintFitsBuffer(value);
    if value == 0 {
      return "0";
    }
    var result := new char[BUFFER_SIZE](_ => '0');
    var index := BUFFER_SIZE;
    var rest := value;
    while rest > 0
      invariant 0 <= index <= BUFFER_SIZE
      invariant rest > 0 ==> |Print(rest as nat)| <= index
      invariant Print(value as nat) == (if rest > 0 then Print(rest as nat) else []) + result[index..]
    {
      index := index - 1;
      result[index] := DIGITS[rest % 10];
      assert result[index..] == [DIGITS[rest as nat % 10]] + result[index + 1..];
      rest := rest / 10;
    }
    s := result[index..];
  }

  lemma PrintFitsBuffer(value: uint64)
    ensures |Print(value as nat)| <= BUFFER_SIZE
  {
    assert Pow10(5) == 100000;
    assert Pow10(10) == 100000 * 100000;
    assert Pow10(15) == 100000 * 100000 * 100000;
    assert Pow10(20) == 100000 * 100000 * 100000 * 100000;
    PrintLength(value as nat, BUFFER_SIZE);
  }

  /** An identifier of the form prefix:tag:version. */
  function TaggedId(prefix: string, tag: string, version: nat): string {
    prefix + ":" + tag + ":" + Print(version)
  }

  /** The text after the last colon, and the text before it, are determined by the whole. */
  lemma SplitAtLastColon(p: string, x: string, q: string, y: string)
    requires ':' !in x && ':' !in y
    requires p + ":" + x == q + ":" + y
    ensures p == q && x == y
  {
    var s := p + ":" + x;
    ColonAtMost(p, x, |q|);
    ColonAtMost(q, y, |p|);
    assert p == s[..|p|] == q;
    assert x == s[|p| + 1..] == y;
  }

  lemma ColonAtMost(p: string, x: string, i: nat)
    requires i < |p + ":" + x| && (p + ":" + x)[i] == ':'
    ensures i <= |p| || ':' in x
  {
    if i > |p| {
      assert (p + ":" + x)[i] == x[i - |p| - 1];
    }
  }

  lemma NumeralHasNoColon(n: nat)
    ensures ':' !in Print(n)
  {
    PrintRoundTrip(n);
  }

  /** Identifiers of this form determine their parts although the prefix may contain colons itself. */
  lemma TaggedIdInjective(p: string, t: string, v: nat, q: string, u: string, w: nat)
    requires ':' !in t && ':' !in u
    requires TaggedId(p, t, v) == TaggedId(q, u, w)
    ensures p == q && t == u && v == w
  {
    NumeralHasNoColon(v);
    NumeralHasNoColon(w);
    SplitAtLastColon(p + ":" + t, Print(v), q + ":" + u, Print(w));
    SplitAtLastColon(p, t, q, u);
    PrintRoundTrip(v);
    PrintRoundTrip(w);
  }

  /** Integers with their sign. */
  function FormatInt(n: int): string {
    if n < 0 then "-" + Print(-n) else Print(n)
  }

  lemma FormatIntInjective(m: int, n: int)
    requires FormatInt(m) == FormatInt(n)
    ensures m == n
  {
    PrintRoundTrip(if m < 0 then -m else m);
    PrintRoundTrip(if n < 0 then -n else n);
    assert (m < 0) == (FormatInt(m)[0] == '-') && (n < 0) == (FormatInt(n)[0] == '-');
    if m < 0 {
      assert FormatInt(m)[1..] == Print(-m) && FormatInt(n)[1..] == Print(-n);
    }
  }
}
