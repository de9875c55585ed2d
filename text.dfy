/** The bits of Python string formatting the model needs. */
module Text {
  import opened Wrappers

  /** How an f-string renders an optional string: `None` prints as "None". */
  function Show(s: Option<string>): string
  {
    match s
    case Some(v) => v
    case None => "None"
  }

  /** `a` occurs in `b` starting at index `i`. */
  ghost predicate InfixAt(a: string, b: string, i: int)
  {
    0 <= i && i + |a| <= |b| && b[i..i + |a|] == a
  }

  /** Python's `a in b` for strings. */
  ghost predicate IsInfix(a: string, b: string)
  {
    exists i :: InfixAt(a, b, i)
  }

  lemma InfixOfConcat(p: string, a: string, q: string)
    ensures IsInfix(a, p + a + q)
  {
    assert (p + a + q)[|p|..|p| + |a|] == a;
    assert InfixAt(a, p + a + q, |p|);
  }

  lemma InfixTransitive(a: string, b: string, c: string)
    requires IsInfix(a, b) && IsInfix(b, c)
    ensures IsInfix(a, c)
  {
    var i :| InfixAt(a, b, i);
    var j :| InfixAt(b, c, j);
    forall k | 0 <= k < |a|
      ensures c[j + i..j + i + |a|][k] == a[k]
    {
      assert a[k] == b[i + k] == c[j + i + k];
    }
    assert c[j + i..j + i + |a|] == a;
    assert InfixAt(a, c, j + i);
  }

  /** Regrouping a concatenation; stated as a lemma so that callers can apply it without
      unfolding string literals, which keeps the report loops within the resource limit. */
  lemma ConcatAssoc(a: string, b: string, c: string)
    ensures (a + b) + c == a + (b + c)
  {
  }

  /** The character of a decimal digit. */
  function DigitChar(d: nat): (c: char)
    requires d < 10
    ensures '0' <= c <= '9'
  {
    ('0' as int + d) as char
  }

  /** The value of a decimal digit character (0 for any other character). */
  function DigitValue(c: char): nat
  {
    if '0' <= c <= '9' then c as int - '0' as int else 0
  }

  /** `f"{n}"` for a non-negative integer: its decimal digits, most significant first. */
  function NatToString(n: nat): (s: string)
    ensures |s| >= 1
    ensures forall k :: 0 <= k < |s| ==> '0' <= s[k] <= '9'
  {
    if n < 10 then [DigitChar(n)] else NatToString(n / 10) + [DigitChar(n % 10)]
  }

  /** The number a string of decimal digits denotes. */
  function DecimalValue(s: string): nat
  {
    if s == [] then 0 else 10 * DecimalValue(s[..|s| - 1]) + DigitValue(s[|s| - 1])
  }

  /** Reading back the digits of `n` gives `n`. */
  lemma {:induction false} NatToStringRoundTrip(n: nat)
    ensures DecimalValue(NatToString(n)) == n
  {
    var s := NatToString(n);
    if n < 10 {
      assert s[..0] == [];
    } else {
      NatToStringRoundTrip(n / 10);
      assert s[..|s| - 1] == NatToString(n / 10);
    }
  }

  /** The rendering has no leading zero, so distinct numbers render distinctly. */
  lemma {:induction false} NatToStringCanonical(n: nat)
    ensures (NatToString(n) == "0") == (n == 0)
    ensures n > 0 ==> NatToString(n)[0] != '0'
  {
    if n >= 10 {
      NatToStringCanonical(n / 10);
    }
  }
}
