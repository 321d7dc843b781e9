/** Reasoning text: the synthetic fallback is recognised, however it is spaced or cut. */
module Reasoning {
  import opened Common

  /** `replace(/\s+/g, ' ').trim()` */
  function Normalize(s: string): string {
    if s == "" then ""
    else if IsSpace(s[0]) then Normalize(s[1..])
    else [s[0]] + NormalizeTail(s[1..])
  }

  /** The same behind a character that is not white space. */
  function NormalizeTail(s: string): string {
    if s == "" then ""
    else if !IsSpace(s[0]) then [s[0]] + NormalizeTail(s[1..])
    else if Normalize(s[1..]) == "" then ""
    else " " + Normalize(s[1..])
  }

  function SpaceRun(s: string): (n: nat)
    ensures n <= |s|
    ensures forall k | 0 <= k < n :: IsSpace(s[k])
    ensures n < |s| ==> !IsSpace(s[n])
  {
    if s == "" || !IsSpace(s[0]) then 0 else 1 + SpaceRun(s[1..])
  }

  /** Length of a match of the pattern at the start of the text: letters up to case, and each
      blank of the pattern stands for a run of white space. */
  function Match(pattern: string, fold: char -> char, text: string): Option<nat>
    decreases |pattern|
  {
    if pattern == "" then Some(0)
    else if text == "" then None
    else if pattern[0] == ' ' then
      var n := SpaceRun(text);
      if n == 0 then None
      else match Match(pattern[1..], fold, text[n..]) case None => None case Some(m) => Some(n + m)
    else if fold(pattern[0]) == fold(text[0]) then
      match Match(pattern[1..], fold, text[1..]) case None => None case Some(m) => Some(1 + m)
    else None
  }

  lemma {:induction false} MatchFits(pattern: string, fold: char -> char, text: string)
    ensures Match(pattern, fold, text).Some? ==>
              Match(pattern, fold, text).value <= |text| && (pattern != "" ==> Match(pattern, fold, text).value > 0)
    decreases |pattern|
  {
    if pattern != "" && text != "" {
      MatchFits(pattern[1..], fold, text[if pattern[0] == ' ' then SpaceRun(text) else 1..]);
    }
  }

  /** All occurrences of the pattern cut out, from left to right. */
  function RemoveAll(pattern: string, fold: char -> char, text: string): string
    decreases |text|
  {
    if text == "" then ""
    else
      MatchFits(pattern, fold, text);
      match Match(pattern, fold, text)
      case Some(n) => if n > 0 then RemoveAll(pattern, fold, text[n..]) else text
      case None => [text[0]] + RemoveAll(pattern, fold, text[1..])
  }

  /** Letter case does not mix white space with anything else. */
  ghost predicate KeepsSpace(fold: char -> char) {
    forall c, d :: fold(c) == fold(d) ==> IsSpace(c) == IsSpace(d)
  }

  /** The part of a reasoning text that a client may see. */
  function Visible(fallback: string, fold: char -> char, text: string): string {
    var value := Normalize(RemoveAll(Normalize(fallback), fold, text));
    if value == Normalize(fallback) then "" else value
  }

  // ---- The fallback leaves nothing to see ----

  lemma {:induction false} NormalizeBlank(s: string)
    ensures Normalize(s) == "" <==> Blank(s)
  {
    if s != "" && IsSpace(s[0]) {
      NormalizeBlank(s[1..]);
      assert forall k | 0 <= k < |s| :: k > 0 ==> s[k] == s[1..][k - 1];
      assert forall k | 0 <= k < |s[1..]| :: s[1..][k] == s[k + 1];
    }
  }

  lemma {:induction false} NormalizeSkips(s: string, n: nat)
    requires n <= SpaceRun(s)
    ensures Normalize(s[n..]) == Normalize(s)
  {
    if n > 0 {
      NormalizeSkips(s[1..], n - 1);
      assert s[1..][n - 1..] == s[n..];
    } else {
      assert s[n..] == s;
    }
  }

  /** A text matches its own normal form, up to trailing white space. */
  lemma {:induction false} MatchesOwnTail(fold: char -> char, s: string)
    ensures var m := Match(NormalizeTail(s), fold, s); m.Some? && m.value <= |s| && Blank(s[m.value..])
    decreases |s|
  {
    if s == "" {
    } else if !IsSpace(s[0]) {
      MatchesOwnTail(fold, s[1..]);
      assert NormalizeTail(s)[1..] == NormalizeTail(s[1..]);
      MatchRest(s, 1, fold, NormalizeTail(s[1..]));
    } else {
      NormalizeBlank(s[1..]);
      if Normalize(s[1..]) == "" {
        assert forall k | 0 <= k < |s| :: k > 0 ==> s[k] == s[1..][k - 1];
        assert s[0..] == s;
      } else {
        var n := SpaceRun(s);
        NormalizeSkips(s[1..], n - 1);
        assert s[1..][n - 1..] == s[n..];
        MatchesOwn(fold, s[n..]);
        assert NormalizeTail(s)[1..] == Normalize(s[n..]);
        MatchRest(s, n, fold, Normalize(s[n..]));
      }
    }
  }

  lemma {:induction false} MatchRest(s: string, n: nat, fold: char -> char, pattern: string)
    requires n <= |s|
    requires var m := Match(pattern, fold, s[n..]); m.Some? && m.value <= |s| - n && Blank(s[n..][m.value..])
    ensures Blank(s[n + Match(pattern, fold, s[n..]).value..])
  {
    var m := Match(pattern, fold, s[n..]).value;
    assert s[n..][m..] == s[n + m..];
  }

  lemma {:induction false} MatchesOwn(fold: char -> char, s: string)
    requires s == "" || !IsSpace(s[0])
    ensures var m := Match(Normalize(s), fold, s); m.Some? && m.value <= |s| && Blank(s[m.value..])
    decreases |s|, 0
  {
    if s != "" {
      MatchesOwnTail(fold, s[1..]);
      assert Normalize(s)[1..] == NormalizeTail(s[1..]);
      MatchRest(s, 1, fold, NormalizeTail(s[1..]));
    }
  }

  lemma {:induction false} RemoveFromBlank(pattern: string, fold: char -> char, s: string)
    requires Blank(s)
    ensures Blank(RemoveAll(pattern, fold, s))
    decreases |s|
  {
    if s != "" {
      MatchFits(pattern, fold, s);
      match Match(pattern, fold, s)
      case Some(n) => if n > 0 { RemoveFromBlank(pattern, fold, s[n..]); }
      case None => RemoveFromBlank(pattern, fold, s[1..]);
    }
  }

  /** Whatever the white space and wherever it stands, the fallback text is not visible. */
  lemma {:induction false} FallbackInvisible(fallback: string, fold: char -> char, text: string)
    requires KeepsSpace(fold) && Normalize(text) == Normalize(fallback)
    ensures Visible(fallback, fold, text) == ""
  {
    RemoveLeavesBlank(Normalize(fallback), fold, text);
    NormalizeBlank(RemoveAll(Normalize(fallback), fold, text));
  }

  lemma {:induction false} StartsVisible(s: string)
    ensures Normalize(s) != "" ==> !IsSpace(Normalize(s)[0])
  {
    if s != "" && IsSpace(s[0]) {
      StartsVisible(s[1..]);
    }
  }

  lemma {:induction false} RemoveLeavesBlank(pattern: string, fold: char -> char, text: string)
    requires KeepsSpace(fold) && Normalize(text) == pattern
    ensures Blank(RemoveAll(pattern, fold, text))
    decreases |text|
  {
    NormalizeBlank(text);
    if Blank(text) {
      RemoveFromBlank(pattern, fold, text);
    } else if IsSpace(text[0]) {
      StartsVisible(text);
      RemoveLeavesBlank(pattern, fold, text[1..]);
    } else {
      MatchesOwn(fold, text);
      RemoveFromBlank(pattern, fold, text[Match(pattern, fold, text).value..]);
    }
  }
}
