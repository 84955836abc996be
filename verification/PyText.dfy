/** The Python string operations the tokenizer relies on: `str.strip()`,
    `str.index(c)`, the substring test `a in b`, and `string.punctuation`. */
module PyText {
  import opened Wrappers

  /** Python's `str.isspace()` for one character: the characters `str.strip()`
      removes when called without arguments. */
  predicate IsSpace(c: char)
  {
    || ('\t' <= c <= '\r')
    || ('\U{1C}' <= c <= '\U{1F}')
    || c == ' '
    || c == '\U{85}'
    || c == '\U{A0}'
    || c == '\U{1680}'
    || ('\U{2000}' <= c <= '\U{200A}')
    || c == '\U{2028}'
    || c == '\U{2029}'
    || c == '\U{202F}'
    || c == '\U{205F}'
    || c == '\U{3000}'
  }

  /** Number of whitespace characters at the start of `s`. */
  function LeadingSpaces(s: string): (n: nat)
    ensures n <= |s|
  {
    if s != [] && IsSpace(s[0]) then 1 + LeadingSpaces(s[1..]) else 0
  }

  /** `LeadingSpaces` counts whitespace only, and stops at the first other
      character. */
  lemma {:induction false} LeadingSpacesShape(s: string)
    ensures var n := LeadingSpaces(s);
            && (forall k :: 0 <= k < n ==> IsSpace(s[k]))
            && (n < |s| ==> !IsSpace(s[n]))
  {
    if s != [] && IsSpace(s[0]) {
      LeadingSpacesShape(s[1..]);
      var n := LeadingSpaces(s);
      forall k | 0 <= k < n ensures IsSpace(s[k]) {
        if k > 0 { assert s[k] == s[1..][k - 1]; }
      }
    }
  }

  /** Number of whitespace characters at the end of `s`. */
  function TrailingSpaces(s: string): (n: nat)
    ensures n <= |s|
  {
    if s != [] && IsSpace(s[|s| - 1]) then 1 + TrailingSpaces(s[..|s| - 1]) else 0
  }

  /** `TrailingSpaces` counts whitespace only, and stops at the last other
      character. */
  lemma {:induction false} TrailingSpacesShape(s: string)
    ensures var n := TrailingSpaces(s);
            && (forall k :: |s| - n <= k < |s| ==> IsSpace(s[k]))
            && (n < |s| ==> !IsSpace(s[|s| - 1 - n]))
  {
    if s != [] && IsSpace(s[|s| - 1]) {
      var init := s[..|s| - 1];
      TrailingSpacesShape(init);
      var n := TrailingSpaces(s);
      forall k | |s| - n <= k < |s| ensures IsSpace(s[k]) {
        if k < |s| - 1 { assert s[k] == init[k]; }
      }
      if n < |s| {
        assert s[|s| - 1 - n] == init[|init| - 1 - (n - 1)];
      }
    }
  }

  /** `r` sits at index `i` of `s`, with only whitespace before and after it. */
  ghost predicate Trimmed(s: string, i: int, r: string)
  {
    && 0 <= i && i + |r| <= |s| && s[i..i + |r|] == r
    && (forall k :: 0 <= k < i ==> IsSpace(s[k]))
    && (forall k :: i + |r| <= k < |s| ==> IsSpace(s[k]))
  }

  /** Python's `s.strip()`: `s` without its leading and trailing whitespace. */
  function Strip(s: string): string
  {
    var left := s[LeadingSpaces(s)..];
    left[..|left| - TrailingSpaces(left)]
  }

  /** `strip()` removes only leading and trailing whitespace, and leaves
      neither behind. */
  lemma StripShape(s: string)
    ensures var r := Strip(s);
            && (r == [] || (!IsSpace(r[0]) && !IsSpace(r[|r| - 1])))
            && exists i :: Trimmed(s, i, r)
  {
    var n := LeadingSpaces(s);
    var left := s[n..];
    var r := left[..|left| - TrailingSpaces(left)];
    LeadingSpacesShape(s);
    TrailingSpacesShape(left);
    assert Trimmed(s, n, r);
  }

  /** `needle` occurs in `hay` starting at index `i`. */
  ghost predicate OccursAt(hay: string, needle: string, i: int)
  {
    0 <= i && i + |needle| <= |hay| && hay[i..i + |needle|] == needle
  }

  /** Python's `needle in hay` for two strings: a substring test, which the
      empty string always passes. */
  function Contains(hay: string, needle: string): (b: bool)
    ensures b <==> exists i :: OccursAt(hay, needle, i)
  {
    if needle <= hay then
      assert OccursAt(hay, needle, 0);
      true
    else if hay == [] then
      assert forall i :: !OccursAt(hay, needle, i);
      false
    else
      var rest := hay[1..];
      assert !OccursAt(hay, needle, 0);
      forall i | 1 <= i ensures OccursAt(hay, needle, i) <==> OccursAt(rest, needle, i - 1) {
        if i + |needle| <= |hay| {
          var n := |needle|;
          var here, there := hay[i..i + n], rest[i - 1..i - 1 + n];
          forall k | 0 <= k < n ensures here[k] == there[k] {
            assert hay[i + k] == rest[i - 1 + k];
          }
          assert here == there;
        }
      }
      forall j | OccursAt(rest, needle, j) ensures OccursAt(hay, needle, j + 1) {
        assert OccursAt(hay, needle, (j + 1)) <==> OccursAt(rest, needle, (j + 1) - 1);
      }
      Contains(rest, needle)
  }

  /** Python's `s.index(c)`, with `None` for the `ValueError` it raises when
      `c` does not occur. */
  function IndexOf(s: string, c: char): (r: Option<nat>)
    ensures r.None? <==> c !in s
    ensures r.Some? ==> r.value < |s| && s[r.value] == c && c !in s[..r.value]
  {
    if s == [] then None
    else if s[0] == c then Some(0)
    else
      match IndexOf(s[1..], c)
      case None => None
      case Some(i) =>
        assert s[..i + 1] == [s[0]] + s[1..][..i];
        Some(i + 1)
  }

  /** Python's `string.punctuation`. */
  const Punctuation: string := "!\"#$%&'()*+,-./:;<=>?@[\\]^_`{|}~"

  /** Python's `s in string.punctuation`: a substring test, so the empty
      string and runs such as `"()"` pass, but `"?!"` does not. */
  predicate IsPunctuation(s: string)
  {
    Contains(Punctuation, s)
  }
}
