/**
  String and sequence primitives with the meaning Python gives them in the modelled code:
  `.lower()`, `in` on strings, `.startswith`, `.strip()` truthiness, `str.join`, slicing
  with negative bounds, `str(n)` for naturals and `int(s)` for digit strings.
 */
module Text {

  function Min(a: int, b: int): int { if a <= b then a else b }
  function Max(a: int, b: int): int { if a <= b then b else a }

  // ---------------------------------------------------------------------------
  // Case folding
  // ---------------------------------------------------------------------------

  /** ASCII lower-casing of one character; every other character is left as it is. */
  function LowerChar(c: char): char {
    if 'A' <= c <= 'Z' then (c as int + 32) as char else c
  }

  /** Python's `s.lower()`, restricted to the ASCII letters. */
  function Lower(s: string): (r: string)
    ensures |r| == |s|
    ensures forall i :: 0 <= i < |s| ==> r[i] == LowerChar(s[i])
  {
    seq(|s|, i requires 0 <= i < |s| => LowerChar(s[i]))
  }

  lemma LowerAppend(a: string, b: string)
    ensures Lower(a + b) == Lower(a) + Lower(b)
  {
    assert forall i :: 0 <= i < |a + b| ==> Lower(a + b)[i] == (Lower(a) + Lower(b))[i];
  }

  /** Lower-casing twice is lower-casing once. */
  lemma LowerIdempotent(s: string)
    ensures Lower(Lower(s)) == Lower(s)
  {
    assert forall i :: 0 <= i < |s| ==> Lower(Lower(s))[i] == Lower(s)[i];
  }

  // ---------------------------------------------------------------------------
  // Containment and affixes
  // ---------------------------------------------------------------------------

  /** Python's `k in s` for strings: `k` occurs in `s` at some position. */
  predicate Contains(s: string, k: string) {
    exists i :: 0 <= i <= |s| && OccursAt(s, k, i)
  }

  /** `k` occurs in `s` starting at index `i`. */
  predicate OccursAt(s: string, k: string, i: nat) {
    i + |k| <= |s| && s[i..i + |k|] == k
  }

  predicate StartsWith(s: string, p: string) {
    |p| <= |s| && s[..|p|] == p
  }

  predicate EndsWith(s: string, p: string) {
    |p| <= |s| && s[|s| - |p|..] == p
  }

  lemma PrefixOfConcat(a: string, b: string)
    ensures StartsWith(a + b, a)
  {
    assert (a + b)[..|a|] == a;
  }

  lemma SuffixOfConcat(a: string, b: string)
    ensures EndsWith(a + b, b)
  {
    assert (a + b)[|a|..] == b;
  }

  lemma StartsWithHead(s: string, p: string)
    requires |p| > 0 && StartsWith(s, p)
    ensures |s| > 0 && s[0] == p[0]
  {
    assert s[..|p|][0] == s[0];
  }

  lemma StartsWithTrans(s: string, a: string, b: string)
    requires StartsWith(s, a + b)
    ensures StartsWith(s, a)
  {
    assert s[..|a|] == s[..|a + b|][..|a|];
  }

  /** Every prefix of a prefix of `s` is a prefix of `s`. */
  lemma StartsWithChain(s: string, a: string)
    requires StartsWith(s, a)
    ensures forall p :: StartsWith(a, p) ==> StartsWith(s, p)
  {
    forall p | StartsWith(a, p)
      ensures StartsWith(s, p)
    {
      assert s[..|p|] == a[..|p|];
    }
  }

  /** A string always contains whatever sits between a prefix and a suffix of it. */
  lemma ContainsMiddle(a: string, k: string, b: string)
    ensures Contains(a + k + b, k)
  {
    assert OccursAt(a + k + b, k, |a|);
  }

  /** What a string contains, it still contains with anything put in front. */
  lemma ContainsInSuffix(a: string, s: string, k: string)
    requires Contains(s, k)
    ensures Contains(a + s, k)
  {
    var i :| 0 <= i <= |s| && OccursAt(s, k, i);
    assert (a + s)[|a| + i..|a| + i + |k|] == s[i..i + |k|];
    assert OccursAt(a + s, k, |a| + i);
  }

  /** Containment survives lower-casing both sides. */
  lemma ContainsLower(s: string, k: string)
    requires Contains(s, k)
    ensures Contains(Lower(s), Lower(k))
  {
    var i :| 0 <= i <= |s| && OccursAt(s, k, i);
    assert i + |k| <= |s| && s[i..i + |k|] == k;
    assert Lower(s)[i..i + |k|] == Lower(k);
    assert OccursAt(Lower(s), Lower(k), i);
  }

  /** A longer needle that occurs brings every piece of it along. */
  lemma ContainsTransitive(s: string, k: string, p: string, q: string)
    requires Contains(s, p + k + q)
    ensures Contains(s, k)
  {
    var i :| 0 <= i <= |s| && OccursAt(s, p + k + q, i);
    assert s[i..i + |p + k + q|] == p + k + q;
    var w := p + k + q;
    assert w[|p|..|p| + |k|] == k;
    assert s[i..i + |w|][|p|..|p| + |k|] == s[i + |p|..i + |p| + |k|];
    assert OccursAt(s, k, i + |p|);
  }

  // ---------------------------------------------------------------------------
  // Whitespace
  // ---------------------------------------------------------------------------

  /** The characters Python's `str.strip()` removes when called without arguments. */
  predicate IsSpace(c: char) {
    || c == ' ' || '\t' <= c <= '\r' || '\U{1c}' <= c <= '\U{1f}'
    || c == '\U{85}' || c == '\U{a0}' || c == '\U{1680}' || '\U{2000}' <= c <= '\U{200a}'
    || c == '\U{2028}' || c == '\U{2029}' || c == '\U{202f}' || c == '\U{205f}' || c == '\U{3000}'
  }

  /** `not s.strip()`: the string is empty or made of whitespace only. */
  predicate IsBlank(s: string) {
    forall i :: 0 <= i < |s| ==> IsSpace(s[i])
  }

  // ---------------------------------------------------------------------------
  // Joining and truncation
  // ---------------------------------------------------------------------------

  /** Python's `sep.join(parts)`. */
  function Join(parts: seq<string>, sep: string): (r: string)
    ensures |parts| == 0 ==> r == ""
    ensures |parts| > 0 ==> StartsWith(r, parts[0])
    ensures |parts| == 1 ==> r == parts[0]
  {
    if |parts| == 0 then ""
    else if |parts| == 1 then parts[0]
    else parts[0] + sep + Join(parts[1..], sep)
  }

  /** Joining two non-empty lists puts exactly one separator between their joins. */
  lemma {:induction false} JoinAppend(a: seq<string>, b: seq<string>, sep: string)
    requires |a| > 0 && |b| > 0
    ensures Join(a + b, sep) == Join(a, sep) + sep + Join(b, sep)
  {
    assert (a + b)[0] == a[0];
    if |a| == 1 {
      assert (a + b)[1..] == b;
    } else {
      assert (a + b)[1..] == a[1..] + b;
      JoinAppend(a[1..], b, sep);
    }
  }

  /** Every part after the first, with the separator in front of it. */
  function Separated(parts: seq<string>, sep: string): (r: seq<string>)
    ensures |r| == |parts| && forall i :: 0 <= i < |r| ==> r[i] == sep + parts[i]
  {
    seq(|parts|, i requires 0 <= i < |parts| => sep + parts[i])
  }

  /** `Join` agrees with the first part followed by every other part behind its separator. */
  lemma {:induction false} JoinIsConcat(parts: seq<string>, sep: string)
    requires |parts| > 0
    ensures Join(parts, sep) == parts[0] + Concat(Separated(parts[1..], sep))
  {
    if |parts| > 1 {
      JoinIsConcat(parts[1..], sep);
      var rest := Separated(parts[1..], sep);
      assert rest[0] == sep + parts[1];
      assert rest[1..] == Separated(parts[2..], sep);
      assert parts[1..][1..] == parts[2..];
    }
  }

  /** Concatenation of all parts, in order (`"".join(parts)`). */
  function Concat(parts: seq<string>): string {
    if |parts| == 0 then "" else parts[0] + Concat(parts[1..])
  }

  lemma {:induction false} ConcatAppend(a: seq<string>, b: seq<string>)
    ensures Concat(a + b) == Concat(a) + Concat(b)
  {
    if |a| == 0 {
      assert a + b == b;
    } else {
      assert (a + b)[1..] == a[1..] + b;
      ConcatAppend(a[1..], b);
    }
  }

  /**
    `s[:n] + "..."` when `s` is longer than `n` characters, `s` itself otherwise: the
    snippet rule of the run logs (n = 100) and of the context summary (n = 30).
   */
  function Truncate(s: string, n: nat): (r: string)
    ensures StartsWith(r, s[..Min(|s|, n)])
    ensures |s| <= n ==> r == s
    ensures |s| > n <==> |r| == n + 3 && EndsWith(r, "...")
  {
    if |s| > n then s[..n] + "..." else s
  }

  // ---------------------------------------------------------------------------
  // Python slicing with a possibly negative start
  // ---------------------------------------------------------------------------

  /** Python's `s[k:]`: a negative `k` counts from the end, and out-of-range bounds clamp. */
  function PyTail<T>(s: seq<T>, k: int): (r: seq<T>)
    ensures |r| <= |s| && r == s[|s| - |r|..]
    ensures k < 0 ==> |r| == Min(-k, |s|)
    ensures k >= 0 ==> |r| == Max(0, |s| - k)
  {
    var start := if k < 0 then Max(0, |s| + k) else Min(k, |s|);
    s[start..]
  }

  // ---------------------------------------------------------------------------
  // Decimal numerals
  // ---------------------------------------------------------------------------

  predicate IsDigit(c: char) { '0' <= c <= '9' }

  predicate AllDigits(s: string) {
    forall i :: 0 <= i < |s| ==> IsDigit(s[i])
  }

  function DigitChar(d: nat): char
    requires d < 10
  {
    ('0' as int + d) as char
  }

  function DigitValue(c: char): nat
    requires IsDigit(c)
  {
    c as int - '0' as int
  }

  /** Python's `str(n)` for a natural number: no sign, no leading zero. */
  function Decimal(n: nat): (r: string)
    ensures |r| >= 1 && AllDigits(r)
    ensures |r| > 1 ==> r[0] != '0'
    decreases n
  {
    if n < 10 then [DigitChar(n)] else Decimal(n / 10) + [DigitChar(n % 10)]
  }

  /** Python's `int(s)` for a non-empty string of ASCII digits. */
  function ParseDigits(s: string): nat
    requires AllDigits(s)
  {
    if |s| == 0 then 0 else 10 * ParseDigits(s[..|s| - 1]) + DigitValue(s[|s| - 1])
  }

  /** Reading back a rendered natural yields the natural: `int(str(n)) == n`. */
  lemma {:induction false} ParseDecimal(n: nat)
    ensures ParseDigits(Decimal(n)) == n
    decreases n
  {
    var d := Decimal(n);
    if n >= 10 {
      assert d[..|d| - 1] == Decimal(n / 10);
      ParseDecimal(n / 10);
    } else {
      assert d[..|d| - 1] == [];
    }
  }
}
