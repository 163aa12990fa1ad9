/**
 * The string operations the component relies on: removing the curly braces around a
 * Dynamics GUID (`s.replace(/[{}]/g, '')`), lower-casing (`toLowerCase`, here on ASCII
 * letters only) and substring search (`includes`).
 */
module Strings {

  predicate IsBrace(c: char) {
    c == '{' || c == '}'
  }

  predicate BraceFree(s: string) {
    forall i :: 0 <= i < |s| ==> !IsBrace(s[i])
  }

  /** `s.replace(/[{}]/g, '')`. */
  function StripBraces(s: string): (r: string)
    ensures |r| <= |s|
    ensures BraceFree(r)
    ensures BraceFree(s) ==> r == s
  {
    if s == [] then []
    else if IsBrace(s[0]) then StripBraces(s[1..])
    else [s[0]] + StripBraces(s[1..])
  }

  /** Stripping a second time changes nothing. */
  lemma StripBracesIdempotent(s: string)
    ensures StripBraces(StripBraces(s)) == StripBraces(s)
  {
  }

  /** Stripping works character by character, so it keeps the order of what it keeps. */
  lemma {:induction false} StripBracesAppend(a: string, b: string)
    ensures StripBraces(a + b) == StripBraces(a) + StripBraces(b)
  {
    if a == [] {
      assert a + b == b;
    } else {
      assert (a + b)[0] == a[0];
      assert (a + b)[1..] == a[1..] + b;
      StripBracesAppend(a[1..], b);
    }
  }

  /** Every character other than a brace is kept as often as it occurs. */
  lemma {:induction false} StripBracesKeepsOthers(s: string, c: char)
    requires !IsBrace(c)
    ensures multiset(StripBraces(s))[c] == multiset(s)[c]
  {
    if s != [] {
      assert s == [s[0]] + s[1..];
      StripBracesKeepsOthers(s[1..], c);
    }
  }

  /** A GUID in the platform's `{...}` notation comes out bare. */
  lemma StripBracesUnwrapsGuid(g: string)
    requires BraceFree(g)
    ensures StripBraces("{" + g + "}") == g
  {
    StripBracesAppend("{" + g, "}");
    StripBracesAppend("{", g);
  }

  /** Lower-casing of one character; only the ASCII letters A to Z change. */
  function LowerChar(c: char): char {
    if 'A' <= c <= 'Z' then (c as int + 32) as char else c
  }

  /** `s.toLowerCase()`, restricted to ASCII letters. */
  function Lower(s: string): (r: string)
    ensures |r| == |s|
    ensures forall i :: 0 <= i < |s| ==> r[i] == LowerChar(s[i])
  {
    if s == [] then [] else [LowerChar(s[0])] + Lower(s[1..])
  }

  /** Lower-casing a lower-cased string changes nothing. */
  lemma LowerIdempotent(s: string)
    ensures Lower(Lower(s)) == Lower(s)
  {
  }

  /** `needle` occurs in `hay` starting at position `k`. */
  predicate OccursAt(hay: string, needle: string, k: int) {
    0 <= k <= |hay| && needle <= hay[k..]
  }

  ghost predicate Occurs(hay: string, needle: string) {
    exists k :: OccursAt(hay, needle, k)
  }

  /** `hay.includes(needle)`. */
  function Contains(hay: string, needle: string): bool
    decreases |hay|
  {
    if needle <= hay then true
    else if hay == [] then false
    else Contains(hay[1..], needle)
  }

  /** The search finds `needle` exactly when it occurs somewhere in `hay`. */
  lemma {:induction false} ContainsIffOccurs(hay: string, needle: string)
    ensures Contains(hay, needle) <==> Occurs(hay, needle)
    decreases |hay|
  {
    assert hay[0..] == hay;
    if needle <= hay {
      assert OccursAt(hay, needle, 0);
    } else if hay == [] {
      forall k | 0 <= k <= |hay|
        ensures !OccursAt(hay, needle, k)
      {
        assert k == 0;
      }
    } else {
      ContainsIffOccurs(hay[1..], needle);
      if Occurs(hay[1..], needle) {
        var k :| OccursAt(hay[1..], needle, k);
        assert hay[1..][k..] == hay[k + 1..];
        assert OccursAt(hay, needle, k + 1);
      }
      if Occurs(hay, needle) {
        var k :| OccursAt(hay, needle, k);
        assert k != 0;
        assert hay[1..][k - 1..] == hay[k..];
        assert OccursAt(hay[1..], needle, k - 1);
      }
    }
  }

  /** Case-insensitive substring test of `getSuggestions`. */
  function MatchesIgnoringCase(text: string, filterText: string): (b: bool)
    ensures b <==> Occurs(Lower(text), Lower(filterText))
  {
    ContainsIffOccurs(Lower(text), Lower(filterText));
    Contains(Lower(text), Lower(filterText))
  }
}
