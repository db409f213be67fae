// The .NET string operations the companion code relies on, over seq<char>:
// ASCII lower-casing (String.ToLower), ordinal substring search
// (String.Contains, String.LastIndexOf) and whitespace trimming (String.Trim).
module Strings {

  /** `pat` occurs in `s` starting at index `i`. */
  predicate OccursAt(s: string, pat: string, i: int)
  {
    0 <= i && i + |pat| <= |s| && s[i..i + |pat|] == pat
  }

  /** `pat` is a substring of `s`. */
  ghost predicate IsSubstring(pat: string, s: string)
  {
    exists i :: OccursAt(s, pat, i)
  }

  /** The characters of `pat` from index `k` on equal those of `s` from
      `i + k` on: the character-by-character ordinal comparison. */
  function MatchesFrom(s: string, pat: string, i: nat, k: nat): (b: bool)
    requires k <= |pat| && i + |pat| <= |s|
    ensures b <==> s[i + k..i + |pat|] == pat[k..]
    decreases |pat| - k
  {
    if k == |pat| then true
    else if s[i + k] == pat[k] then
      var b := MatchesFrom(s, pat, i, k + 1);
      assert s[i + k..i + |pat|] == [s[i + k]] + s[i + k + 1..i + |pat|];
      assert pat[k..] == [pat[k]] + pat[k + 1..];
      b
    else
      assert s[i + k..i + |pat|][0] != pat[k..][0];
      false
  }

  /** Ordinal String.Contains: searches the start positions from `from` upward. */
  function ContainsFrom(s: string, pat: string, from: nat): (b: bool)
    requires from <= |s| + 1
    ensures b <==> exists i :: from <= i && OccursAt(s, pat, i)
    decreases |s| + 1 - from
  {
    if from + |pat| > |s| then
      false
    else if MatchesFrom(s, pat, from, 0) then
      assert OccursAt(s, pat, from);
      true
    else
      ContainsFrom(s, pat, from + 1)
  }

  /** String.Contains(pat), compared ordinally. */
  function Contains(s: string, pat: string): (b: bool)
    ensures b <==> IsSubstring(pat, s)
  {
    ContainsFrom(s, pat, 0)
  }

  /** Ordinal String.LastIndexOf(pat): the greatest start of an occurrence
      that begins at or before `upTo`, or -1 when there is none. */
  function LastIndexFrom(s: string, pat: string, upTo: int): (r: int)
    requires upTo < |s| + 1
    ensures r == -1 || 0 <= r <= upTo
    ensures r >= 0 ==> OccursAt(s, pat, r)
    ensures forall j :: r < j <= upTo ==> !OccursAt(s, pat, j)
    decreases upTo + 1
  {
    if upTo < 0 then -1
    else if OccursAt(s, pat, upTo) then upTo
    else LastIndexFrom(s, pat, upTo - 1)
  }

  /** String.LastIndexOf(pat) for a non-empty pattern. */
  function LastIndexOf(s: string, pat: string): (r: int)
    requires |pat| > 0
    ensures r == -1 || 0 <= r <= |s| - |pat|
    ensures r >= 0 ==> OccursAt(s, pat, r)
    ensures r == -1 <==> !IsSubstring(pat, s)
    ensures forall j :: r < j ==> !OccursAt(s, pat, j)
  {
    LastIndexFrom(s, pat, |s| - |pat|)
  }

  /** Every character of `s` is drawn from `alphabet`. */
  predicate CharsIn(s: string, alphabet: set<char>)
  {
    forall i :: 0 <= i < |s| ==> s[i] in alphabet
  }

  /** Every pair of adjacent characters of `s` is one of `pairs`. */
  predicate PairsIn(s: string, pairs: set<(char, char)>)
  {
    forall i :: 0 <= i < |s| - 1 ==> (s[i], s[i + 1]) in pairs
  }

  /** A pattern holding a character outside the text's alphabet does not
      occur in the text. */
  lemma AbsentChar(s: string, alphabet: set<char>, pat: string, k: nat)
    requires CharsIn(s, alphabet) && k < |pat| && pat[k] !in alphabet
    ensures !Contains(s, pat)
  {
    forall i | 0 <= i && i + |pat| <= |s| ensures !OccursAt(s, pat, i) {
      assert s[i..i + |pat|][k] == s[i + k];
    }
  }

  /** A pattern holding two adjacent characters that are never adjacent in
      the text does not occur in the text. */
  lemma AbsentPair(s: string, pairs: set<(char, char)>, pat: string, k: nat)
    requires PairsIn(s, pairs) && k + 1 < |pat| && (pat[k], pat[k + 1]) !in pairs
    ensures !Contains(s, pat)
  {
    forall i | 0 <= i && i + |pat| <= |s| ensures !OccursAt(s, pat, i) {
      assert s[i..i + |pat|][k] == s[i + k];
      assert s[i..i + |pat|][k + 1] == s[i + k + 1];
    }
  }

  /** LastIndexOf finds the occurrence after which there is no other. */
  lemma LastIndexOfIsLast(s: string, pat: string, idx: int)
    requires |pat| > 0 && OccursAt(s, pat, idx)
    requires forall j :: idx < j ==> !OccursAt(s, pat, j)
    ensures LastIndexOf(s, pat) == idx
  {
    var found := LastIndexOf(s, pat);
    assert IsSubstring(pat, s);
  }

  /** The ASCII letters that ToLower maps; every other character is kept. */
  predicate IsUpperAscii(c: char)
  {
    'A' <= c <= 'Z'
  }

  function ToLowerChar(c: char): (d: char)
    ensures !IsUpperAscii(d)
    ensures IsUpperAscii(c) ==> d as int == c as int + 32
    ensures !IsUpperAscii(c) ==> d == c
  {
    if IsUpperAscii(c) then (c as int + 32) as char else c
  }

  /** String.ToLower restricted to ASCII case mapping. */
  function ToLower(s: string): (r: string)
    ensures |r| == |s|
    ensures forall i :: 0 <= i < |s| ==> r[i] == ToLowerChar(s[i])
  {
    if s == [] then [] else [ToLowerChar(s[0])] + ToLower(s[1..])
  }

  /** A string with no upper-case ASCII letter. */
  predicate IsLower(s: string)
  {
    forall i :: 0 <= i < |s| ==> !IsUpperAscii(s[i])
  }

  lemma {:induction false} ToLowerIsLower(s: string)
    ensures IsLower(ToLower(s))
    ensures ToLower(ToLower(s)) == ToLower(s)
  {
    if s != [] {
      ToLowerIsLower(s[1..]);
    }
  }

  /** Lower-casing leaves an already lower-case string alone. */
  lemma {:induction false} ToLowerOfLower(s: string)
    requires IsLower(s)
    ensures ToLower(s) == s
  {
    if s != [] {
      ToLowerOfLower(s[1..]);
    }
  }

  /** The characters Char.IsWhiteSpace accepts among the ASCII and Latin-1 range. */
  predicate IsWhiteSpace(c: char)
  {
    c == ' ' || c == '\t' || c == '\n' || c == '\r' || c == '\U{000B}' || c == '\U{000C}'
    || c == '\U{0085}' || c == '\U{00A0}'
  }

  /** The first index from `i` on that holds no white space, or |s|. */
  function SkipWhiteSpace(s: string, i: nat): (k: nat)
    requires i <= |s|
    ensures i <= k <= |s|
    ensures forall j :: i <= j < k ==> IsWhiteSpace(s[j])
    ensures k < |s| ==> !IsWhiteSpace(s[k])
    decreases |s| - i
  {
    if i < |s| && IsWhiteSpace(s[i]) then SkipWhiteSpace(s, i + 1) else i
  }

  /** Scanning down from `j` but not below `lo`: the end of the last
      character that is not white space, or `lo`. */
  function SkipWhiteSpaceBack(s: string, lo: nat, j: nat): (k: nat)
    requires lo <= j <= |s|
    ensures lo <= k <= j
    ensures forall i :: k <= i < j ==> IsWhiteSpace(s[i])
    ensures k > lo ==> !IsWhiteSpace(s[k - 1])
    decreases j
  {
    if j > lo && IsWhiteSpace(s[j - 1]) then SkipWhiteSpaceBack(s, lo, j - 1) else j
  }

  /** s[a..b] is what is left of `s` once white space is cut from both ends. */
  predicate TrimmedTo(s: string, a: int, b: int)
  {
    && 0 <= a <= b <= |s|
    && (forall i :: 0 <= i < a ==> IsWhiteSpace(s[i]))
    && (forall i :: b <= i < |s| ==> IsWhiteSpace(s[i]))
  }

  /** String.Trim(): the middle slice that neither starts nor ends with white
      space, everything cut off on either side being white space. */
  function Trim(s: string): (r: string)
    ensures exists a, b :: TrimmedTo(s, a, b) && r == s[a..b]
    ensures r == [] || (!IsWhiteSpace(r[0]) && !IsWhiteSpace(r[|r| - 1]))
  {
    var a := SkipWhiteSpace(s, 0);
    var b := SkipWhiteSpaceBack(s, a, |s|);
    assert TrimmedTo(s, a, b);
    s[a..b]
  }

  /** Trimming a string made only of white space gives the empty string. */
  lemma TrimAllWhiteSpace(s: string)
    requires forall i :: 0 <= i < |s| ==> IsWhiteSpace(s[i])
    ensures Trim(s) == ""
  {
  }
}
