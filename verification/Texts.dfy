/** Text as people write it: surrounding blanks, and letters in either case. */
module Texts {
  import opened Wrappers

  // --- Surrounding blanks ------------------------------------------------------------------

  /** What `str.strip` strips. */
  predicate IsSpace(c: char) {
    || '\t' <= c <= '\r' || '\U{1C}' <= c <= ' ' || '\U{2000}' <= c <= '\U{200A}'
    || c in {'\U{85}', '\U{A0}', '\U{1680}', '\U{2028}', '\U{2029}', '\U{202F}', '\U{205F}', '\U{3000}'}
  }

  /** `str.strip`. */
  function Strip(s: string): string {
    if s == "" then ""
    else if IsSpace(s[0]) then Strip(s[1..])
    else if IsSpace(s[|s| - 1]) then Strip(s[..|s| - 1])
    else s
  }

  predicate Blank(text: Option<string>) {
    text.None? || forall k :: 0 <= k < |text.value| ==> IsSpace(text.value[k])
  }

  ghost predicate TrimsAt(t: string, s: string, i: nat, j: nat) {
    && i < j <= |s| && t == s[i..j] && !IsSpace(s[i]) && !IsSpace(s[j - 1])
    && (forall k :: 0 <= k < i || j <= k < |s| ==> IsSpace(s[k]))
  }

  /** The text is what is left of `s` without the blanks around it. */
  ghost predicate Trims(t: string, s: string) {
    exists i, j :: TrimsAt(t, s, i, j)
  }

  lemma {:induction false} SliceOfSlice(s: string, lo: nat, hi: nat, i: nat, j: nat)
    requires lo <= hi <= |s| && i <= j <= hi - lo
    ensures s[lo..hi][i..j] == s[lo + i..lo + j]
  {
    forall k | 0 <= k < j - i ensures s[lo..hi][i..j][k] == s[lo + i..lo + j][k] { }
  }

  lemma {:induction false} TrimsMore(t: string, s: string, lo: nat, hi: nat)
    requires lo <= hi <= |s| && forall k :: 0 <= k < lo || hi <= k < |s| ==> IsSpace(s[k])
    ensures Trims(t, s[lo..hi]) ==> Trims(t, s)
    ensures Blank(Some(s)) <==> Blank(Some(s[lo..hi]))
  {
    hide IsSpace;
    var inner := s[lo..hi];
    if Trims(t, inner) {
      var i: nat, j: nat :| TrimsAt(t, inner, i, j);
      SliceOfSlice(s, lo, hi, i, j);
      assert inner[i] == s[lo + i] && inner[j - 1] == s[lo + j - 1];
      forall k | 0 <= k < lo + i || lo + j <= k < |s| ensures IsSpace(s[k]) {
        if lo <= k < hi { assert inner[k - lo] == s[k]; }
      }
      assert TrimsAt(t, s, lo + i, lo + j);
    }
    if Blank(Some(inner)) {
      forall k | 0 <= k < |s| ensures IsSpace(s[k]) {
        if lo <= k < hi { assert inner[k - lo] == s[k]; }
      }
    }
  }

  lemma {:induction false} StripTrims(s: string)
    ensures Strip(s) == "" <==> Blank(Some(s))
    ensures Strip(s) != "" ==> Trims(Strip(s), s)
    decreases |s|
  {
    hide IsSpace, Trims;
    if s != "" {
      if IsSpace(s[0]) {
        assert s[1..|s|] == s[1..];
        StripTrims(s[1..]);
        TrimsMore(Strip(s), s, 1, |s|);
      } else if IsSpace(s[|s| - 1]) {
        assert s[0..|s| - 1] == s[..|s| - 1];
        StripTrims(s[..|s| - 1]);
        TrimsMore(Strip(s), s, 0, |s| - 1);
      } else {
        Unpadded(s);
      }
    }
  }

  lemma Unpadded(s: string)
    requires s != "" && !IsSpace(s[0]) && !IsSpace(s[|s| - 1])
    ensures Trims(s, s)
  {
    assert TrimsAt(s, s, 0, |s|);
  }

  lemma {:induction false} TrimsOnce(t: string, u: string, s: string)
    requires Trims(t, s) && Trims(u, s)
    ensures t == u && !Blank(Some(s))
  {
    hide IsSpace;
    var i: nat, j: nat :| TrimsAt(t, s, i, j);
    var k: nat, l: nat :| TrimsAt(u, s, k, l);
  }

  /** The same up to blanks around it; blank text and no text are the same. */
  ghost predicate SameText(a: Option<string>, b: Option<string>) {
    if Blank(a) || Blank(b) then Blank(a) && Blank(b)
    else exists t :: Trims(t, a.value) && Trims(t, b.value)
  }

  // --- Letter case ---------------------------------------------------------------------------

  /** The same letter, or the same in the other case; A to Z have one. */
  predicate SameLetter(a: char, b: char) {
    || a == b
    || ('A' <= a <= 'Z' && b as int == a as int + 32)
    || ('A' <= b <= 'Z' && a as int == b as int + 32)
  }

  predicate SameLetters(s: string, t: string) {
    |s| == |t| && forall k :: 0 <= k < |s| ==> SameLetter(s[k], t[k])
  }

  predicate NoCapitals(s: string) {
    forall k :: 0 <= k < |s| ==> !('A' <= s[k] <= 'Z')
  }

  predicate ReadsAt(text: string, i: nat, term: string) {
    i + |term| <= |text| && SameLetters(text[i..i + |term|], term)
  }

  /** The term can be read somewhere in the text, in whatever case. */
  ghost predicate Reads(text: string, term: string) {
    exists i :: ReadsAt(text, i, term)
  }
}
