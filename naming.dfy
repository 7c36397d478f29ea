/** Layer names: Python's `str(n)` for the auto-numbered names, and the
    substring test (`"contour_set_" in layer`) that decides whether an
    operation touches the drawn primitives as well as the registry. */
module Naming {

  const ContourPrefix: string := "contour_set_"
  const ScatterPrefix: string := "scatter_set_"

  /** The decimal digit character for d. */
  function Digit(d: nat): (c: char)
    requires d < 10
    ensures '0' <= c <= '9'
  {
    "0123456789"[d]
  }

  /** The number a digit character stands for (0 for any other character). */
  function DigitValue(c: char): nat
  {
    if '0' <= c <= '9' then c as int - '0' as int else 0
  }

  /** The number a string of decimal digits spells, most significant first. */
  function DigitsValue(s: string): nat
    decreases |s|
  {
    if s == [] then 0 else 10 * DigitsValue(s[..|s| - 1]) + DigitValue(s[|s| - 1])
  }

  lemma DigitRoundTrip(d: nat)
    requires d < 10
    ensures DigitValue(Digit(d)) == d
    ensures Digit(d) == '0' <==> d == 0
  {
    assert d == 0 || d == 1 || d == 2 || d == 3 || d == 4 || d == 5 || d == 6 || d == 7 || d == 8 || d == 9;
  }

  /** `str(n)` for a non-negative Python int: decimal digits that spell n,
      no sign, and no leading zero. */
  function Decimal(n: nat): (s: string)
    ensures |s| >= 1
    ensures (|s| == 1) == (n < 10)
    ensures forall i :: 0 <= i < |s| ==> '0' <= s[i] <= '9'
    ensures DigitsValue(s) == n
    ensures s[0] == '0' ==> n == 0
  {
    if n < 10 then
      DigitRoundTrip(n);
      assert [Digit(n)][..0] == [];
      [Digit(n)]
    else
      var high, low := Decimal(n / 10), Digit(n % 10);
      DigitRoundTrip(n % 10);
      assert (high + [low])[..|high|] == high;
      high + [low]
  }

  /** The name `prefix + str(n)` that contour and markers give a new layer. */
  function AutoName(prefix: string, n: nat): (name: string)
    ensures |name| > |prefix| && name[..|prefix|] == prefix
  {
    prefix + Decimal(n)
  }

  /** Python's `sub in s` on strings. */
  predicate Contains(s: string, sub: string)
    decreases |s|
  {
    |sub| <= |s| && (s[..|sub|] == sub || (|s| > 0 && Contains(s[1..], sub)))
  }

  /** sub occurs in s starting at offset i. */
  predicate OccursAt(s: string, sub: string, i: int)
  {
    0 <= i <= |s| - |sub| && s[i..i + |sub|] == sub
  }

  /** Contains is Python's substring test: sub occurs in s at some offset. */
  lemma {:induction false} ContainsIsSubstring(s: string, sub: string)
    ensures Contains(s, sub) <==> exists i :: OccursAt(s, sub, i)
    decreases |s|
  {
    if |sub| <= |s| && s[..|sub|] == sub {
      assert OccursAt(s, sub, 0);
    } else if |sub| <= |s| && |s| > 0 {
      ContainsIsSubstring(s[1..], sub);
      if Contains(s[1..], sub) {
        var i :| OccursAt(s[1..], sub, i);
        assert s[i + 1..i + 1 + |sub|] == s[1..][i..i + |sub|];
        assert OccursAt(s, sub, i + 1);
      }
      if exists i :: OccursAt(s, sub, i) {
        var i :| OccursAt(s, sub, i);
        assert i != 0;
        assert s[1..][i - 1..i - 1 + |sub|] == s[i..i + |sub|];
        assert OccursAt(s[1..], sub, i - 1);
      }
    }
  }

  /** Names whose layers own primitives: remove, hide and show reach into the
      drawn collections only for these. */
  predicate IsSetName(name: string)
  {
    Contains(name, ContourPrefix) || Contains(name, ScatterPrefix)
  }

  /** Different counter values print differently. */
  lemma DecimalInjective(a: nat, b: nat)
    requires Decimal(a) == Decimal(b)
    ensures a == b
  {
  }

  /** What follows the prefix of an auto-name spells the counter. */
  lemma AutoNameSpellsCounter(prefix: string, n: nat)
    ensures AutoName(prefix, n)[|prefix|..] == Decimal(n)
    ensures DigitsValue(AutoName(prefix, n)[|prefix|..]) == n
  {
    assert (prefix + Decimal(n))[|prefix|..] == Decimal(n);
  }

  /** Two auto-names with the same prefix coincide only when their counters do. */
  lemma AutoNameInjective(prefix: string, a: nat, b: nat)
    requires AutoName(prefix, a) == AutoName(prefix, b)
    ensures a == b
  {
    assert AutoName(prefix, a)[|prefix|..] == Decimal(a);
    assert AutoName(prefix, b)[|prefix|..] == Decimal(b);
    DecimalInjective(a, b);
  }

  /** Every auto-name passes the substring test of remove, hide and show. */
  lemma AutoNameIsSetName(n: nat)
    ensures IsSetName(AutoName(ContourPrefix, n))
    ensures IsSetName(AutoName(ScatterPrefix, n))
  {
  }
}
