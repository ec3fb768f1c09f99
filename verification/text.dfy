/** The handful of .NET string primitives the core relies on:
    `char.IsWhiteSpace`, `string.IsNullOrEmpty`, `string.IsNullOrWhiteSpace`,
    `string.ToLowerInvariant` and the decimal rendering of an `int`. */
module Text {
  import opened Basics

  /** `char.IsWhiteSpace`, which is also the class `\s` of .NET regular
      expressions: the Unicode separators (categories Zs, Zl and Zp), the
      controls U+0009 to U+000D, and U+0085. */
  predicate IsWhiteSpace(c: char) {
    || ('\t' <= c <= '\r')
    || c == ' '
    || c == '\U{0085}'
    || c == '\U{00A0}'
    || c == '\U{1680}'
    || ('\U{2000}' <= c <= '\U{200A}')
    || c == '\U{2028}'
    || c == '\U{2029}'
    || c == '\U{202F}'
    || c == '\U{205F}'
    || c == '\U{3000}'
  }

  /** `string.IsNullOrEmpty`. */
  predicate IsNullOrEmpty(s: Option<string>) {
    s.None? || s.value == ""
  }

  /** `string.IsNullOrWhiteSpace`: null, or every character is white space
      (which includes the empty string). */
  predicate IsNullOrWhiteSpace(s: Option<string>) {
    s.None? || forall i :: 0 <= i < |s.value| ==> IsWhiteSpace(s.value[i])
  }

  predicate IsAsciiUpper(c: char) {
    'A' <= c <= 'Z'
  }

  predicate IsAsciiLower(c: char) {
    'a' <= c <= 'z'
  }

  /** The invariant-culture lower case of one character, as far as it can
      produce an ASCII letter: ASCII capitals, and the KELVIN SIGN (U+212A),
      whose lower case is 'k'. The invariant culture deliberately leaves
      U+0130 unchanged. Other non-ASCII characters are left unchanged here;
      their real lower case is never ASCII. */
  function LowerChar(c: char): (r: char)
    ensures IsAsciiLower(r) ==> IsAsciiLower(c) || IsAsciiUpper(c) || c == '\U{212A}'
  {
    if IsAsciiUpper(c) then (c as int + 32) as char
    else if c == '\U{212A}' then 'k'
    else c
  }

  /** `string.ToLowerInvariant`: the same length, character by character. */
  function ToLowerInvariant(s: string): (r: string)
    ensures |r| == |s|
    ensures forall i :: 0 <= i < |s| ==> r[i] == LowerChar(s[i])
  {
    seq(|s|, i requires 0 <= i < |s| => LowerChar(s[i]))
  }

  /** The characters whose invariant lower case is the ASCII letter `t`:
      `t` itself, its capital, and for 'k' the KELVIN SIGN. */
  predicate CaseVariant(c: char, t: char) {
    c == t || c as int == t as int - 32 || (t == 'k' && c == '\U{212A}')
  }

  lemma LowerCharIs(c: char, t: char)
    requires IsAsciiLower(t)
    ensures LowerChar(c) == t <==> CaseVariant(c, t)
  {
  }

  /** Comparing `ToLowerInvariant(s)` with a lower-case ASCII word accepts
      exactly the spellings of that word in any mixture of cases. */
  lemma ToLowerMatchesAnyCasing(s: string, word: string)
    requires forall j :: 0 <= j < |word| ==> IsAsciiLower(word[j])
    ensures ToLowerInvariant(s) == word
        <==> |s| == |word| && forall j :: 0 <= j < |s| ==> CaseVariant(s[j], word[j])
  {
    var r := ToLowerInvariant(s);
    if |s| == |word| {
      forall j | 0 <= j < |s|
        ensures r[j] == word[j] <==> CaseVariant(s[j], word[j])
      {
        LowerCharIs(s[j], word[j]);
      }
      if forall j :: 0 <= j < |s| ==> CaseVariant(s[j], word[j]) {
        assert r == word;
      }
    }
  }

  /** The decimal digits of a natural number, most significant first. */
  function NatToString(n: nat): (r: string)
    ensures |r| >= 1
    ensures forall i :: 0 <= i < |r| ==> '0' <= r[i] <= '9'
    decreases n
  {
    var d := ['0' + (n % 10) as char];
    if n < 10 then d else NatToString(n / 10) + d
  }

  /** `int.ToString()` under the invariant culture: a leading '-' for
      negative values, then the decimal digits. */
  function IntToString(n: int): (r: string)
    ensures |r| >= 1
    ensures (r[0] == '-') <==> n < 0
  {
    if n < 0 then "-" + NatToString(-n) else NatToString(n)
  }

  /** The position of the first `c` in `s`, or -1. */
  function IndexOf(s: string, c: char): (i: int)
    ensures -1 <= i < |s|
    ensures i >= 0 ==> s[i] == c && forall j :: 0 <= j < i ==> s[j] != c
    ensures i == -1 ==> forall j :: 0 <= j < |s| ==> s[j] != c
  {
    if |s| == 0 then -1
    else if s[0] == c then 0
    else
      var k := IndexOf(s[1..], c);
      if k == -1 then -1 else k + 1
  }

  /** `s.Split(sep)`: the pieces between separators, in order. */
  function Split(s: string, sep: char): seq<string>
    decreases |s|
  {
    var i := IndexOf(s, sep);
    if i == -1 then [s] else [s[..i]] + Split(s[i + 1..], sep)
  }

  /** `string.Join(sep, parts)`. */
  function Join(parts: seq<string>, sep: char): string
  {
    if |parts| == 0 then ""
    else if |parts| == 1 then parts[0]
    else parts[0] + [sep] + Join(parts[1..], sep)
  }

  /** Joining one more part appends the separator and that part. */
  lemma {:induction false} JoinSnoc(parts: seq<string>, last: string, sep: char)
    requires |parts| > 0
    ensures Join(parts + [last], sep) == Join(parts, sep) + [sep] + last
    decreases |parts|
  {
    if |parts| > 1 {
      assert (parts + [last])[1..] == parts[1..] + [last];
      JoinSnoc(parts[1..], last, sep);
    } else {
      assert (parts + [last])[1..] == [last];
    }
  }

  /** Splitting undoes joining when no part contains the separator. */
  lemma {:induction false} SplitJoin(parts: seq<string>, sep: char)
    requires |parts| > 0
    requires forall k, j :: 0 <= k < |parts| && 0 <= j < |parts[k]| ==> parts[k][j] != sep
    ensures Split(Join(parts, sep), sep) == parts
    decreases |parts|
  {
    if |parts| > 1 {
      var head := parts[0];
      var rest := Join(parts[1..], sep);
      var s := head + [sep] + rest;
      assert Join(parts, sep) == s;
      assert s[|head|] == sep;
      assert forall j :: 0 <= j < |head| ==> s[j] == head[j];
      assert IndexOf(s, sep) == |head|;
      assert s[..|head|] == head;
      assert s[|head| + 1..] == rest;
      SplitJoin(parts[1..], sep);
      assert parts == [head] + parts[1..];
    }
  }
}
