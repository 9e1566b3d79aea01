/** Property and keyword names built by appending a layer index to a base
    name, as the scripts do with `name + i` and `string.Format("{0}{1}", name, i)`. */
module Names {

  function DigitChar(d: nat): (c: char)
    requires d < 10
    ensures '0' <= c <= '9'
  {
    ('0' as int + d) as char
  }

  /** Decimal spelling of a non-negative index (C# `int.ToString()`). */
  function Digits(n: nat): (s: string)
    ensures 1 <= |s|
    ensures n < 10 <==> |s| == 1
    ensures forall k :: 0 <= k < |s| ==> '0' <= s[k] <= '9'
  {
    if n < 10 then [DigitChar(n)] else Digits(n / 10) + [DigitChar(n % 10)]
  }

  /** Different indices are spelled differently. */
  lemma {:induction false} DigitsInjective(a: nat, b: nat)
    requires Digits(a) == Digits(b)
    ensures a == b
  {
    if a < 10 || b < 10 {
      assert Digits(a)[0] == Digits(b)[0];
    } else {
      var sa, sb := Digits(a), Digits(b);
      assert sa[..|sa| - 1] == Digits(a / 10);
      assert sb[..|sb| - 1] == Digits(b / 10);
      DigitsInjective(a / 10, b / 10);
      assert sa[|sa| - 1] == sb[|sb| - 1];
      assert a % 10 == b % 10;
    }
  }

  /** `name + i`. */
  function Suffixed(name: string, i: nat): (s: string)
    ensures |name| < |s|
    ensures s[..|name|] == name
  {
    name + Digits(i)
  }

  /** Keys built from one base name for two layers are equal only for the same layer. */
  lemma SuffixedInjective(name: string, i: nat, j: nat)
    requires Suffixed(name, i) == Suffixed(name, j)
    ensures i == j
  {
    var s := Suffixed(name, i);
    assert s[|name|..] == Digits(i);
    assert Suffixed(name, j)[|name|..] == Digits(j);
    DigitsInjective(i, j);
  }

  /** Keys built for the same layer from two base names are equal only for the same base name. */
  lemma SuffixedSameLayer(a: string, b: string, i: nat)
    requires Suffixed(a, i) == Suffixed(b, i)
    ensures a == b
  {
    assert |a| == |b|;
  }

  /** Two base names that differ at a shared position give different keys, whatever the layers. */
  lemma SuffixedDistinct(a: string, b: string, k: nat, i: nat, j: nat)
    requires k < |a| && k < |b| && a[k] != b[k]
    ensures Suffixed(a, i) != Suffixed(b, j)
  {
    assert Suffixed(a, i)[k] == a[k];
    assert Suffixed(b, j)[k] == b[k];
  }

  predicate IsDigit(c: char)
  {
    '0' <= c <= '9'
  }

  /** A key keeps the characters of its base name. */
  lemma SuffixedAt(name: string, i: nat, k: nat)
    requires k < |name|
    ensures Suffixed(name, i)[k] == name[k]
  {
    assert Suffixed(name, i)[..|name|][k] == name[k];
  }

  /** A key has a digit right after its base name. */
  lemma SuffixedDigitAfter(name: string, i: nat)
    ensures IsDigit(Suffixed(name, i)[|name|])
  {
    assert Suffixed(name, i)[|name|] == Digits(i)[0];
  }

  /** A key ends in a digit. */
  lemma SuffixedEndsInDigit(name: string, i: nat)
    ensures IsDigit(Suffixed(name, i)[|Suffixed(name, i)| - 1])
  {
    var d := Digits(i);
    assert Suffixed(name, i)[|Suffixed(name, i)| - 1] == d[|d| - 1];
  }

  /** A key built from a base name that does not end in a digit, for a layer
      below ten, is built from no other base name and layer: the trailing
      digit cannot be split differently. */
  lemma SuffixedNonDigitEnd(a: string, b: string, i: nat, j: nat)
    requires 0 < |b| && !IsDigit(b[|b| - 1]) && j < 10
    requires Suffixed(a, i) == Suffixed(b, j)
    ensures a == b && i == j
  {
    var s := Suffixed(a, i);
    var da := Digits(i);
    assert s == a + da;
    assert |s| == |b| + 1;
    assert s[|b| - 1] == b[|b| - 1];
    assert |a| == |b|;
    assert a == s[..|a|] == b;
    assert s[|a|..] == da;
    assert Suffixed(b, j)[|b|..] == Digits(j);
    DigitsInjective(i, j);
  }
}
