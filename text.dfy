/** String handling the dashboard relies on: `toLowerCase`/`toUpperCase`
    (on the ASCII letters), `includes`, `startsWith` and the decimal text a
    template literal gives a non-negative integer. */
module Text {

  /** `toLowerCase` on one character: 'A'..'Z' become 'a'..'z'. */
  function LowerChar(c: char): char
  {
    if 'A' <= c <= 'Z' then (c as int + 32) as char else c
  }

  /** `toUpperCase` on one character: 'a'..'z' become 'A'..'Z'. */
  function UpperChar(c: char): char
  {
    if 'a' <= c <= 'z' then (c as int - 32) as char else c
  }

  /** `s.toLowerCase()`: same length, each character lowered, no upper-case
      ASCII letter left. */
  function Lower(s: string): (r: string)
    ensures |r| == |s|
    ensures forall i :: 0 <= i < |s| ==> r[i] == LowerChar(s[i])
    ensures forall i :: 0 <= i < |r| ==> !('A' <= r[i] <= 'Z')
  {
    if s == [] then [] else [LowerChar(s[0])] + Lower(s[1..])
  }

  /** `s.toUpperCase()`. */
  function Upper(s: string): (r: string)
    ensures |r| == |s|
    ensures forall i :: 0 <= i < |s| ==> r[i] == UpperChar(s[i])
    ensures forall i :: 0 <= i < |r| ==> !('a' <= r[i] <= 'z')
  {
    if s == [] then [] else [UpperChar(s[0])] + Upper(s[1..])
  }

  /** Lowering is idempotent, and lowering forgets any earlier upper-casing:
      a query and its case variants lower to the same text. */
  lemma LowerOfCaseVariants(s: string)
    ensures Lower(Lower(s)) == Lower(s)
    ensures Lower(Upper(s)) == Lower(s)
  {
    assert forall i :: 0 <= i < |s| ==> Lower(Lower(s))[i] == Lower(s)[i];
    assert forall i :: 0 <= i < |s| ==> Lower(Upper(s))[i] == Lower(s)[i];
  }

  /** Lowering gives a lower-case letter exactly from that letter in
      either case. */
  lemma LowerCharTo(d: char, c: char)
    requires 'a' <= c <= 'z'
    ensures LowerChar(d) == c <==> d == c || d == UpperChar(c)
  {
    assert UpperChar(c) as int == c as int - 32;
    if 'A' <= d <= 'Z' {
      assert LowerChar(d) as int == d as int + 32;
    }
  }

  /** A lower-case letter occurs in `Lower(s)` exactly where `s` has it in
      either case. */
  lemma LowerOccurrence(s: string, c: char)
    requires 'a' <= c <= 'z'
    ensures c in Lower(s) <==> c in s || UpperChar(c) in s
  {
    var r := Lower(s);
    forall k | 0 <= k < |s|
      ensures r[k] == c <==> s[k] == c || s[k] == UpperChar(c)
    {
      LowerCharTo(s[k], c);
    }
    if c in r {
      var k :| 0 <= k < |r| && r[k] == c;
      assert s[k] in s;
    }
    if c in s {
      var k :| 0 <= k < |s| && s[k] == c;
      assert r[k] in r;
    }
    if UpperChar(c) in s {
      var k :| 0 <= k < |s| && s[k] == UpperChar(c);
      assert r[k] in r;
    }
  }

  /** `s.startsWith(prefix)`. */
  predicate StartsWith(s: string, prefix: string)
  {
    |prefix| <= |s| && s[..|prefix|] == prefix
  }

  /** `s.includes(sub)`, searching from each position in turn. */
  predicate Contains(s: string, sub: string)
  {
    StartsWith(s, sub) || (s != [] && Contains(s[1..], sub))
  }

  /** `sub` sits in `s` starting at position `i`. */
  predicate OccursAt(sub: string, s: string, i: int)
  {
    0 <= i <= |s| - |sub| && s[i..i + |sub|] == sub
  }

  /** Reference meaning of "sub occurs in s": some window of s equals sub. */
  ghost predicate IsSubstring(sub: string, s: string)
  {
    exists i :: OccursAt(sub, s, i)
  }

  /** A window of `s[k..]` is the window of `s` shifted by `k`. */
  lemma OccursAtShift(sub: string, s: string, k: nat, i: int)
    requires k <= |s| && 0 <= i
    ensures OccursAt(sub, s[k..], i) <==> OccursAt(sub, s, i + k)
  {
    if 0 <= i <= |s[k..]| - |sub| {
      assert s[k..][i..i + |sub|] == s[i + k..i + k + |sub|];
    }
  }

  /** `includes` finds exactly the substrings. */
  lemma {:induction false} ContainsIsSubstring(s: string, sub: string)
    ensures Contains(s, sub) <==> IsSubstring(sub, s)
  {
    if s != [] {
      ContainsIsSubstring(s[1..], sub);
    }
    if Contains(s, sub) {
      if StartsWith(s, sub) {
        assert OccursAt(sub, s, 0);
      } else {
        var i :| OccursAt(sub, s[1..], i);
        OccursAtShift(sub, s, 1, i);
      }
    }
    if IsSubstring(sub, s) {
      var i :| OccursAt(sub, s, i);
      if i == 0 {
        assert StartsWith(s, sub);
      } else {
        OccursAtShift(sub, s, 1, i - 1);
      }
    }
  }

  /** The empty query is contained in every string. */
  lemma EmptyIsContained(s: string)
    ensures Contains(s, "")
  {
    assert s[..0] == "";
  }

  /** Text found inside `s` is no longer than `s`, and each of its
      characters occurs in `s`. */
  lemma {:induction false} ContainedCharsOccur(s: string, sub: string)
    requires Contains(s, sub)
    ensures |sub| <= |s|
    ensures forall k :: 0 <= k < |sub| ==> sub[k] in s
  {
    if StartsWith(s, sub) {
      forall k | 0 <= k < |sub|
        ensures sub[k] in s
      {
        assert s[k] == sub[k];
      }
    } else {
      ContainedCharsOccur(s[1..], sub);
      forall k | 0 <= k < |sub|
        ensures sub[k] in s
      {
        assert sub[k] in s[1..];
      }
    }
  }

  /** A substring of a substring is a substring. */
  lemma SubstringTransitive(a: string, b: string, c: string)
    requires IsSubstring(a, b) && IsSubstring(b, c)
    ensures IsSubstring(a, c)
  {
    var i :| OccursAt(a, b, i);
    var j :| OccursAt(b, c, j);
    forall k | 0 <= k < |a|
      ensures c[j + i..j + i + |a|][k] == a[k]
    {
      assert a[k] == b[i + k] == c[j + i + k];
    }
    assert OccursAt(a, c, j + i);
  }

  /** The character a decimal digit is written with. */
  function DigitChar(d: nat): char
    requires d < 10
  {
    ('0' as int + d) as char
  }

  predicate AllDigits(s: string)
  {
    forall i :: 0 <= i < |s| ==> '0' <= s[i] <= '9'
  }

  /** The text `${n}` gives a non-negative integer: its decimal digits, no
      leading zero. */
  function Decimal(n: nat): (r: string)
    ensures |r| >= 1 && AllDigits(r)
    ensures |r| > 1 ==> r[0] != '0'
    ensures n < 10 <==> |r| == 1
  {
    if n < 10 then [DigitChar(n)] else Decimal(n / 10) + [DigitChar(n % 10)]
  }

  /** The number a string of decimal digits denotes. */
  function DecimalValue(s: string): nat
    requires AllDigits(s)
  {
    if s == [] then 0 else DecimalValue(s[..|s| - 1]) * 10 + (s[|s| - 1] as int - '0' as int)
  }

  /** Reading the decimal text back gives the number: the rendering loses
      nothing. */
  lemma {:induction false} DecimalRoundTrip(n: nat)
    ensures DecimalValue(Decimal(n)) == n
  {
    if n >= 10 {
      DecimalRoundTrip(n / 10);
      var r := Decimal(n);
      assert r[..|r| - 1] == Decimal(n / 10);
    }
  }
}
