/** The casing tone analyzer: a fixed chain of tests on the text's letter
    case, first match wins — all upper, then all lower, then title case,
    and mixed otherwise. */
module Casing {
  import opened StrBuiltins

  /** The four casing tones, in the order they are tested. */
  datatype Tone = Emphasis | Passive | ProperTitle | Mixed
  {
    /** The text the service puts in its response. */
    function Label(): (r: string)
      ensures r == "STRONG EMPHASIS or URGENCY" <==> this == Emphasis
      ensures r == "Neutral or Passive" <==> this == Passive
      ensures r == "Proper Formatting (Title Case)" <==> this == ProperTitle
      ensures r == "Conversational or Mixed" <==> this == Mixed
    {
      match this
      case Emphasis => "STRONG EMPHASIS or URGENCY"
      case Passive => "Neutral or Passive"
      case ProperTitle => "Proper Formatting (Title Case)"
      case Mixed => "Conversational or Mixed"
    }
  }

  /** Different tones have different labels, so a label names one tone. */
  lemma LabelsDistinct(t: Tone, u: Tone)
    ensures t.Label() == u.Label() <==> t == u
  {
  }

  /** `analyze_casing(text)`. Each tone is returned exactly when its own test
      holds and every earlier test fails. */
  function AnalyzeCasing(text: string): (r: Tone)
    ensures r == Emphasis <==> AllCasedUpper(text)
    ensures r == Passive <==> !AllCasedUpper(text) && AllCasedLower(text)
    ensures r == ProperTitle <==> !AllCasedUpper(text) && !AllCasedLower(text) && TitleShaped(text)
    ensures r == Mixed <==> !AllCasedUpper(text) && !AllCasedLower(text) && !TitleShaped(text)
  {
    if IsUpper(text) then Emphasis
    else if IsLower(text) then Passive
    else if IsTitle(text) then ProperTitle
    else Mixed
  }

  /** Text without any letter — empty, digits, punctuation — is "mixed". */
  lemma UncasedIsMixed(text: string)
    requires forall i :: 0 <= i < |text| ==> !IsCased(text[i])
    ensures AnalyzeCasing(text) == Mixed
  {
    UncasedFailsAll(text);
  }

  lemma EmptyAndDigitsAreMixed()
    ensures AnalyzeCasing("") == Mixed
    ensures AnalyzeCasing("123") == Mixed
  {
    UncasedIsMixed("");
    UncasedIsMixed("123");
  }

  /** A single capital letter is both upper and title case; the upper test
      comes first. */
  lemma SingleCapitalIsEmphasis()
    ensures IsTitle("I") && AnalyzeCasing("I") == Emphasis
  {
    assert IsCased("I"[0]);
  }

  lemma UpperExample()
    ensures AnalyzeCasing("I LOVE THIS") == Emphasis
  {
    var s := "I LOVE THIS";
    assert IsCased(s[0]);
    assert forall i :: 0 <= i < |s| ==> !IsLowerChar(s[i]);
    assert AllCasedUpper(s);
  }

  lemma LowerExample()
    ensures AnalyzeCasing("i love this") == Passive
  {
    var s := "i love this";
    assert IsLowerChar(s[0]);
    assert forall i :: 0 <= i < |s| ==> !IsUpperChar(s[i]);
  }

  lemma TitleExample()
    ensures AnalyzeCasing("I Love This") == ProperTitle
  {
    var s := "I Love This";
    assert IsUpperChar(s[0]) && IsLowerChar(s[3]);
    forall i | 0 <= i < |s|
      ensures (IsUpperChar(s[i]) ==> !PrevCased(s, false, i)) &&
              (IsLowerChar(s[i]) ==> PrevCased(s, false, i))
    {
      if i > 0 {
        assert IsCased(s[i - 1]) <==> i !in {2, 7};
      }
    }
  }

  /** "this" starts with a lowercase letter right after a space. */
  lemma MixedExample()
    ensures AnalyzeCasing("I Love this very much") == Mixed
  {
    var s := "I Love this very much";
    assert IsUpperChar(s[0]) && IsLowerChar(s[3]);
    assert IsLowerChar(s[7]) && !PrevCased(s, false, 7);
  }

  /** The three tests give the same answers on a string and on a slice of it
      that leaves out only uncased characters. */
  lemma HasCasedSlice(s: string, lo: int, hi: int)
    requires 0 <= lo <= hi <= |s|
    requires forall i :: 0 <= i < |s| && !(lo <= i < hi) ==> !IsCased(s[i])
    ensures HasCased(s[lo..hi]) <==> HasCased(s)
  {
    if HasCased(s) {
      var i :| 0 <= i < |s| && IsCased(s[i]);
      assert s[lo..hi][i - lo] == s[i];
    }
    if HasCased(s[lo..hi]) {
      var j :| 0 <= j < hi - lo && IsCased(s[lo..hi][j]);
      assert s[lo + j] == s[lo..hi][j];
    }
  }

  lemma TitleRuleSlice(s: string, lo: int, hi: int)
    requires 0 <= lo <= hi <= |s|
    requires forall i :: 0 <= i < |s| && !(lo <= i < hi) ==> !IsCased(s[i])
    ensures TitleRule(s[lo..hi], false) <==> TitleRule(s, false)
  {
    var t := s[lo..hi];
    if TitleRule(t, false) {
      forall i | 0 <= i < |s|
        ensures (IsUpperChar(s[i]) ==> !PrevCased(s, false, i)) &&
                (IsLowerChar(s[i]) ==> PrevCased(s, false, i))
      {
        if lo <= i < hi {
          assert t[i - lo] == s[i];
          assert PrevCased(s, false, i) == PrevCased(t, false, i - lo);
        }
      }
    }
    if TitleRule(s, false) {
      forall j | 0 <= j < |t|
        ensures (IsUpperChar(t[j]) ==> !PrevCased(t, false, j)) &&
                (IsLowerChar(t[j]) ==> PrevCased(t, false, j))
      {
        assert t[j] == s[lo + j];
        assert PrevCased(s, false, lo + j) == PrevCased(t, false, j);
      }
    }
  }

  lemma TestsSlice(s: string, lo: int, hi: int)
    requires 0 <= lo <= hi <= |s|
    requires forall i :: 0 <= i < |s| && !(lo <= i < hi) ==> !IsCased(s[i])
    ensures AllCasedUpper(s[lo..hi]) <==> AllCasedUpper(s)
    ensures AllCasedLower(s[lo..hi]) <==> AllCasedLower(s)
    ensures TitleShaped(s[lo..hi]) <==> TitleShaped(s)
  {
    HasCasedSlice(s, lo, hi);
    TitleRuleSlice(s, lo, hi);
    var t := s[lo..hi];
    assert forall j :: 0 <= j < |t| ==> t[j] == s[lo + j];
  }

  lemma SpaceOutsideIsUncased(s: string, lo: int, hi: int)
    requires 0 <= lo <= hi <= |s|
    requires AllSpace(s[..lo]) && AllSpace(s[hi..])
    ensures forall i :: 0 <= i < |s| && !(lo <= i < hi) ==> !IsCased(s[i])
  {
    forall k | 0 <= k < |s| && !(lo <= k < hi)
      ensures !IsCased(s[k])
    {
      if k < lo {
        assert s[k] == s[..lo][k];
      } else {
        assert s[k] == s[hi..][k - hi];
      }
    }
  }

  /** The service classifies `comment.strip()`; stripping whitespace never
      changes the label, because whitespace has no case. */
  lemma StripKeepsCasing(text: string)
    ensures AnalyzeCasing(Strip(text)) == AnalyzeCasing(text)
  {
    StripKeepsTests(text);
  }

  lemma StripKeepsTests(text: string)
    ensures AllCasedUpper(Strip(text)) <==> AllCasedUpper(text)
    ensures AllCasedLower(Strip(text)) <==> AllCasedLower(text)
    ensures TitleShaped(Strip(text)) <==> TitleShaped(text)
  {
    var lo, hi := StripBounds(text);
    SpaceOutsideIsUncased(text, lo, hi);
    TestsSlice(text, lo, hi);
  }
}
