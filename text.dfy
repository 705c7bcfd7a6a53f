/**
 * The JavaScript string operations the application relies on, over Dafny strings
 * (sequences of Unicode scalar values): `toLowerCase`, `includes`, `startsWith`,
 * `trim`, `join`, number-to-string conversion of non-negative integers and the
 * `value || fallback` idiom on optional strings.
 */
module Text {
  import opened Wrappers

  // ---------------------------------------------------------------------------
  // Case folding
  // ---------------------------------------------------------------------------

  /** Lower-cases one character; only the ASCII letters have a case mapping here. */
  function LowerChar(c: char): char {
    if 'A' <= c <= 'Z' then (c as int + 32) as char else c
  }

  /** `String.prototype.toLowerCase`, restricted to the ASCII case mapping. */
  function Lower(s: string): (r: string)
    ensures |r| == |s|
    ensures forall i :: 0 <= i < |s| ==> r[i] == LowerChar(s[i])
  {
    seq(|s|, i requires 0 <= i < |s| => LowerChar(s[i]))
  }

  lemma LowerAppend(a: string, b: string)
    ensures Lower(a + b) == Lower(a) + Lower(b)
  {
    assert forall i :: 0 <= i < |a + b| ==> Lower(a + b)[i] == (Lower(a) + Lower(b))[i];
  }

  lemma LowerIdempotent(s: string)
    ensures Lower(Lower(s)) == Lower(s)
  {
  }

  // ---------------------------------------------------------------------------
  // Substrings and prefixes
  // ---------------------------------------------------------------------------

  /** `needle` occurs in `hay` starting at index `i`. */
  predicate StartsAt(hay: string, needle: string, i: int) {
    0 <= i && i + |needle| <= |hay| && hay[i..i + |needle|] == needle
  }

  /** `hay.includes(needle)`. */
  predicate Contains(hay: string, needle: string) {
    exists i | 0 <= i <= |hay| - |needle| :: StartsAt(hay, needle, i)
  }

  /** `s.startsWith(prefix)`. */
  predicate StartsWith(s: string, prefix: string) {
    |prefix| <= |s| && s[..|prefix|] == prefix
  }

  lemma ContainsItself(s: string)
    ensures Contains(s, s)
  {
    assert StartsAt(s, s, 0);
  }

  lemma StartsWithContains(s: string, prefix: string)
    requires StartsWith(s, prefix)
    ensures Contains(s, prefix)
  {
    assert StartsAt(s, prefix, 0);
  }

  /** Being a substring is transitive. */
  lemma ContainsTransitive(outer: string, middle: string, inner: string)
    requires Contains(outer, middle) && Contains(middle, inner)
    ensures Contains(outer, inner)
  {
    var i :| 0 <= i <= |outer| - |middle| && StartsAt(outer, middle, i);
    var j :| 0 <= j <= |middle| - |inner| && StartsAt(middle, inner, j);
    forall k | 0 <= k < |inner|
      ensures outer[i + j + k] == inner[k]
    {
      assert outer[i + j + k] == outer[i..i + |middle|][j + k] == middle[j + k];
      assert middle[j + k] == middle[j..j + |inner|][k];
    }
    assert outer[i + j..i + j + |inner|] == inner;
    assert StartsAt(outer, inner, i + j);
  }

  /** Both parts of a concatenation are substrings of it. */
  lemma ContainsParts(a: string, b: string)
    ensures Contains(a + b, a) && Contains(a + b, b)
  {
    assert (a + b)[..|a|] == a;
    assert StartsAt(a + b, a, 0);
    assert (a + b)[|a|..|a| + |b|] == b;
    assert StartsAt(a + b, b, |a|);
  }

  /** Lower-casing keeps substrings substrings. */
  lemma ContainsLower(hay: string, needle: string)
    requires Contains(hay, needle)
    ensures Contains(Lower(hay), Lower(needle))
  {
    var i :| 0 <= i <= |hay| - |needle| && StartsAt(hay, needle, i);
    assert Lower(hay)[i..i + |needle|] == Lower(needle);
    assert StartsAt(Lower(hay), Lower(needle), i);
  }

  /** A needle whose first character does not occur in `hay` is not a substring of it. */
  lemma NotContainsForeignStart(hay: string, needle: string)
    requires |needle| > 0
    requires forall i :: 0 <= i < |hay| ==> hay[i] != needle[0]
    ensures !Contains(hay, needle)
  {
    forall i | 0 <= i <= |hay| - |needle|
      ensures !StartsAt(hay, needle, i)
    {
      assert hay[i..i + |needle|][0] == hay[i] != needle[0];
    }
  }

  // ---------------------------------------------------------------------------
  // Trimming
  // ---------------------------------------------------------------------------

  /**
   * The code points ECMAScript's `trim` removes: the WhiteSpace characters
   * (tab, vertical tab, form feed, space, no-break space, zero-width no-break
   * space and the space separators of category Zs) and the LineTerminators.
   */
  predicate IsWhitespace(c: char) {
    c as int in WhitespaceCodes || 0x2000 <= c as int <= 0x200A
  }

  /** The single code points among them; the range U+2000..U+200A is tested apart. */
  const WhitespaceCodes: set<int> :=
    {0x09, 0x0A, 0x0B, 0x0C, 0x0D, 0x20, 0xA0, 0x1680, 0x2028, 0x2029, 0x202F, 0x205F, 0x3000, 0xFEFF}

  predicate AllWhitespace(s: string) {
    forall i :: 0 <= i < |s| ==> IsWhitespace(s[i])
  }

  /** Drops the leading whitespace; the result is a suffix of `s` and only whitespace was dropped. */
  function TrimStart(s: string): (r: string)
    ensures |r| <= |s| && r == s[|s| - |r|..]
    ensures forall k :: 0 <= k < |s| - |r| ==> IsWhitespace(s[k])
    ensures r == [] <==> AllWhitespace(s)
    ensures r != [] ==> !IsWhitespace(r[0])
  {
    if |s| > 0 && IsWhitespace(s[0]) then
      var t := s[1..];
      var r := TrimStart(t);
      assert t[|t| - |r|..] == s[|s| - |r|..];
      assert forall k :: 1 <= k < |s| - |r| ==> s[k] == t[k - 1];
      r
    else s
  }

  /** Drops the trailing whitespace; the result is a prefix of `s` and only whitespace was dropped. */
  function TrimEnd(s: string): (r: string)
    ensures |r| <= |s| && r == s[..|r|]
    ensures forall k :: |r| <= k < |s| ==> IsWhitespace(s[k])
    ensures r == [] <==> AllWhitespace(s)
    ensures r != [] ==> !IsWhitespace(r[|r| - 1])
  {
    if |s| > 0 && IsWhitespace(s[|s| - 1]) then
      var t := s[..|s| - 1];
      var r := TrimEnd(t);
      assert t[..|r|] == s[..|r|];
      assert forall k :: |r| <= k < |s| - 1 ==> s[k] == t[k];
      r
    else s
  }

  /**
   * `s.trim()`: the slice of `s` left once the whitespace at both ends is
   * dropped; empty exactly when `s` is all whitespace, and otherwise starting
   * and ending with a non-whitespace character.
   */
  function Trim(s: string): (r: string)
    ensures exists i, j :: 0 <= i <= j <= |s| && r == s[i..j] && AllWhitespace(s[..i]) && AllWhitespace(s[j..])
    ensures r == [] <==> AllWhitespace(s)
    ensures r != [] ==> !IsWhitespace(r[0]) && !IsWhitespace(r[|r| - 1])
  {
    var front := TrimStart(s);
    var r := TrimEnd(front);
    var i := |s| - |front|;
    assert r == s[i..i + |r|] && AllWhitespace(s[..i]) && AllWhitespace(s[i + |r|..]) by {
      InnerSlice(s, front, r);
    }
    assert r == [] ==> front == [] by {
      if front != [] { assert !IsWhitespace(front[0]); }
    }
    assert r != [] ==> r[0] == front[0];
    r
  }

  /**
   * A prefix `r` of a suffix `front` of `s` is the slice of `s` between them;
   * when what each step dropped was whitespace, so are both ends of `s`.
   */
  lemma InnerSlice(s: string, front: string, r: string)
    requires |front| <= |s| && front == s[|s| - |front|..]
    requires |r| <= |front| && r == front[..|r|]
    requires forall k :: 0 <= k < |s| - |front| ==> IsWhitespace(s[k])
    requires forall k :: |r| <= k < |front| ==> IsWhitespace(front[k])
    ensures r == s[|s| - |front|..|s| - |front| + |r|]
    ensures AllWhitespace(s[..|s| - |front|])
    ensures AllWhitespace(s[|s| - |front| + |r|..])
  {
    var i := |s| - |front|;
    assert forall k :: 0 <= k < |front| ==> front[k] == s[i + k];
  }

  /** Trimming a trimmed string changes nothing. */
  lemma TrimIdempotent(s: string)
    ensures Trim(Trim(s)) == Trim(s)
  {
    var r := Trim(s);
    if r != [] {
      assert TrimStart(r) == r;
      assert TrimEnd(r) == r;
    }
  }

  // ---------------------------------------------------------------------------
  // Joining and number formatting
  // ---------------------------------------------------------------------------

  /** `parts.join(sep)`. */
  function Join(parts: seq<string>, sep: string): string
  {
    if |parts| == 0 then ""
    else if |parts| == 1 then parts[0]
    else parts[0] + sep + Join(parts[1..], sep)
  }

  /** Joining one more part appends the separator and the part. */
  lemma {:induction false} JoinSnoc(parts: seq<string>, sep: string, x: string)
    ensures Join(parts + [x], sep) == if parts == [] then x else Join(parts, sep) + sep + x
  {
    if |parts| >= 2 {
      assert (parts + [x])[1..] == parts[1..] + [x];
      JoinSnoc(parts[1..], sep, x);
    } else if |parts| == 1 {
      assert (parts + [x])[1..] == [x];
    }
  }

  function DigitChar(d: nat): char
    requires d < 10
  {
    "0123456789"[d]
  }

  function DigitValue(c: char): nat {
    if '0' <= c <= '9' then c as int - '0' as int else 0
  }

  /** Decimal reading of a digit string (the reference to check formatting against). */
  function ParseDecimal(s: string): nat {
    if s == [] then 0 else ParseDecimal(s[..|s| - 1]) * 10 + DigitValue(s[|s| - 1])
  }

  /** The decimal text JavaScript produces for a non-negative integer (`${n}`). */
  function NatToString(n: nat): (r: string)
    ensures |r| > 0
    ensures forall i :: 0 <= i < |r| ==> '0' <= r[i] <= '9'
    ensures n >= 10 ==> r[0] != '0'
  {
    if n < 10 then [DigitChar(n)] else NatToString(n / 10) + [DigitChar(n % 10)]
  }

  /** Formatting then reading back gives the number. */
  lemma {:induction false} NatToStringRoundTrip(n: nat)
    ensures ParseDecimal(NatToString(n)) == n
  {
    if n >= 10 {
      var s := NatToString(n);
      assert s[..|s| - 1] == NatToString(n / 10);
      NatToStringRoundTrip(n / 10);
    } else {
      assert NatToString(n)[..0] == [];
    }
  }

  // ---------------------------------------------------------------------------
  // Optional strings
  // ---------------------------------------------------------------------------

  /** A string value that JavaScript treats as true: present and not empty. */
  predicate Truthy(value: Option<string>) {
    value.Some? && value.value != ""
  }

  /** `value || fallback` on an optional string: the fallback when the value is missing or empty. */
  function OrDefault(value: Option<string>, fallback: string): (r: string)
    ensures Truthy(value) ==> r == value.value
    ensures !Truthy(value) ==> r == fallback
  {
    if Truthy(value) then value.value else fallback
  }
}
