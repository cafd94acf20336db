/** The Python `str` methods the service relies on — `isupper`, `islower`,
    `istitle`, `strip` and `lower` — restricted to ASCII.

    The cased characters are exactly `A`-`Z` (uppercase) and `a`-`z`
    (lowercase); every other character is uncased. The whitespace removed by
    `strip` is CPython's ASCII whitespace: tab through carriage return
    (0x09-0x0D), the four separators 0x1C-0x1F, and space.

    Each case predicate is given twice: as the character scan CPython runs
    (a left-to-right pass carrying a flag or two), and as the property the
    Python documentation states over positions. Lemmas prove the two agree,
    and the exported predicates state the documented property in their
    contracts. */
module StrBuiltins {

  predicate IsUpperChar(c: char) { 'A' <= c <= 'Z' }

  predicate IsLowerChar(c: char) { 'a' <= c <= 'z' }

  predicate IsCased(c: char) { IsUpperChar(c) || IsLowerChar(c) }

  /** CPython's `Py_UNICODE_ISSPACE` on the ASCII range. */
  predicate IsSpace(c: char)
  {
    ('\t' <= c <= '\r') || (0x1c <= c as int <= 0x1f) || c == ' '
  }

  // ---------------------------------------------------------------------
  // The documented properties, stated over positions.
  // ---------------------------------------------------------------------

  /** At least one character has a case. */
  ghost predicate HasCased(s: string)
  {
    exists i :: 0 <= i < |s| && IsCased(s[i])
  }

  /** `str.isupper`: some character is cased and no cased character is lowercase. */
  ghost predicate AllCasedUpper(s: string)
  {
    HasCased(s) && forall i :: 0 <= i < |s| ==> !IsLowerChar(s[i])
  }

  /** `str.islower`: some character is cased and no cased character is uppercase. */
  ghost predicate AllCasedLower(s: string)
  {
    HasCased(s) && forall i :: 0 <= i < |s| ==> !IsUpperChar(s[i])
  }

  /** Whether the character before position `i` is cased, where `before`
      stands for whatever precedes `s[0]`. */
  ghost predicate PrevCased(s: string, before: bool, i: int)
    requires 0 <= i < |s|
  {
    if i == 0 then before else IsCased(s[i - 1])
  }

  /** The title-case rule: an uppercase character only after an uncased one,
      a lowercase character only after a cased one. */
  ghost predicate TitleRule(s: string, before: bool)
  {
    forall i {:trigger PrevCased(s, before, i)} :: 0 <= i < |s| ==>
      (IsUpperChar(s[i]) ==> !PrevCased(s, before, i)) &&
      (IsLowerChar(s[i]) ==> PrevCased(s, before, i))
  }

  /** `str.istitle`: some character is cased, and the title-case rule holds
      with nothing cased before the start of the string. */
  ghost predicate TitleShaped(s: string)
  {
    HasCased(s) && TitleRule(s, false)
  }

  // ---------------------------------------------------------------------
  // CPython's scans.
  // ---------------------------------------------------------------------

  /** The `isupper` loop: fail on the first lowercase character, otherwise
      answer whether an uppercase one was seen. */
  function UpperScan(s: string, cased: bool): bool
    decreases |s|
  {
    if s == [] then cased
    else if IsLowerChar(s[0]) then false
    else UpperScan(s[1..], cased || IsUpperChar(s[0]))
  }

  /** The `islower` loop, the mirror image of `UpperScan`. */
  function LowerScan(s: string, cased: bool): bool
    decreases |s|
  {
    if s == [] then cased
    else if IsUpperChar(s[0]) then false
    else LowerScan(s[1..], cased || IsLowerChar(s[0]))
  }

  /** The `istitle` loop: `previousIsCased` is whether the last character
      was cased, `cased` whether any cased character was seen. */
  function TitleScan(s: string, previousIsCased: bool, cased: bool): bool
    decreases |s|
  {
    if s == [] then cased
    else if IsUpperChar(s[0]) then !previousIsCased && TitleScan(s[1..], true, true)
    else if IsLowerChar(s[0]) then previousIsCased && TitleScan(s[1..], true, true)
    else TitleScan(s[1..], false, cased)
  }

  lemma HasCasedCons(s: string)
    requires s != []
    ensures HasCased(s) <==> IsCased(s[0]) || HasCased(s[1..])
  {
    if HasCased(s) && !IsCased(s[0]) {
      var i :| 0 <= i < |s| && IsCased(s[i]);
      assert s[1..][i - 1] == s[i];
    }
    if HasCased(s[1..]) {
      var j :| 0 <= j < |s[1..]| && IsCased(s[1..][j]);
      assert s[j + 1] == s[1..][j];
    }
  }

  lemma {:induction false} UpperScanMeaning(s: string, cased: bool)
    ensures UpperScan(s, cased) <==>
            (cased || HasCased(s)) && forall i :: 0 <= i < |s| ==> !IsLowerChar(s[i])
    decreases |s|
  {
    if s != [] {
      HasCasedCons(s);
      UpperScanMeaning(s[1..], cased || IsUpperChar(s[0]));
      assert forall j :: 0 <= j < |s[1..]| ==> s[1..][j] == s[j + 1];
    }
  }

  lemma {:induction false} LowerScanMeaning(s: string, cased: bool)
    ensures LowerScan(s, cased) <==>
            (cased || HasCased(s)) && forall i :: 0 <= i < |s| ==> !IsUpperChar(s[i])
    decreases |s|
  {
    if s != [] {
      HasCasedCons(s);
      LowerScanMeaning(s[1..], cased || IsLowerChar(s[0]));
      assert forall j :: 0 <= j < |s[1..]| ==> s[1..][j] == s[j + 1];
    }
  }

  lemma TitleRuleCons(s: string, before: bool)
    requires s != []
    ensures TitleRule(s, before) <==>
            (IsUpperChar(s[0]) ==> !before) && (IsLowerChar(s[0]) ==> before) &&
            TitleRule(s[1..], IsCased(s[0]))
  {
    var t := s[1..];
    if TitleRule(s, before) {
      assert PrevCased(s, before, 0) == before;
      forall j | 0 <= j < |t|
        ensures (IsUpperChar(t[j]) ==> !PrevCased(t, IsCased(s[0]), j)) &&
                (IsLowerChar(t[j]) ==> PrevCased(t, IsCased(s[0]), j))
      {
        assert t[j] == s[j + 1];
        assert PrevCased(t, IsCased(s[0]), j) == PrevCased(s, before, j + 1);
      }
    }
    if (IsUpperChar(s[0]) ==> !before) && (IsLowerChar(s[0]) ==> before) && TitleRule(t, IsCased(s[0])) {
      forall i | 0 <= i < |s|
        ensures (IsUpperChar(s[i]) ==> !PrevCased(s, before, i)) &&
                (IsLowerChar(s[i]) ==> PrevCased(s, before, i))
      {
        if i > 0 {
          assert s[i] == t[i - 1];
          assert PrevCased(s, before, i) == PrevCased(t, IsCased(s[0]), i - 1);
        }
      }
    }
  }

  lemma {:induction false} TitleScanMeaning(s: string, previousIsCased: bool, cased: bool)
    ensures TitleScan(s, previousIsCased, cased) <==>
            (cased || HasCased(s)) && TitleRule(s, previousIsCased)
    decreases |s|
  {
    if s != [] {
      HasCasedCons(s);
      TitleRuleCons(s, previousIsCased);
      if IsCased(s[0]) {
        TitleScanMeaning(s[1..], true, true);
      } else {
        TitleScanMeaning(s[1..], false, cased);
      }
    }
  }

  // ---------------------------------------------------------------------
  // The predicates as Python exposes them.
  // ---------------------------------------------------------------------

  /** `s.isupper()` */
  function IsUpper(s: string): (b: bool)
    ensures b <==> AllCasedUpper(s)
  {
    UpperScanMeaning(s, false);
    UpperScan(s, false)
  }

  /** `s.islower()` */
  function IsLower(s: string): (b: bool)
    ensures b <==> AllCasedLower(s)
  {
    LowerScanMeaning(s, false);
    LowerScan(s, false)
  }

  /** `s.istitle()` */
  function IsTitle(s: string): (b: bool)
    ensures b <==> TitleShaped(s)
  {
    TitleScanMeaning(s, false, false);
    TitleScan(s, false, false)
  }

  /** A string with no cased character fails all three predicates: this is
      how `""` and `"123"` behave. */
  lemma UncasedFailsAll(s: string)
    requires forall i :: 0 <= i < |s| ==> !IsCased(s[i])
    ensures !IsUpper(s) && !IsLower(s) && !IsTitle(s)
  {
  }

  /** `isupper` and `islower` never both hold. */
  lemma UpperExcludesLower(s: string)
    ensures !(IsUpper(s) && IsLower(s))
  {
    if IsUpper(s) {
      var i :| 0 <= i < |s| && IsCased(s[i]);
    }
  }

  // ---------------------------------------------------------------------
  // strip and lower.
  // ---------------------------------------------------------------------

  ghost predicate AllSpace(s: string)
  {
    forall i :: 0 <= i < |s| ==> IsSpace(s[i])
  }

  /** `s.lstrip()`: the longest suffix of `s` that does not start with whitespace. */
  function StripStart(s: string): (r: string)
    ensures |r| <= |s| && r == s[|s| - |r|..]
    ensures AllSpace(s[..|s| - |r|])
    ensures r != [] ==> !IsSpace(r[0])
    decreases |s|
  {
    if s != [] && IsSpace(s[0]) then
      var r := StripStart(s[1..]);
      assert s[..|s| - |r|] == [s[0]] + s[1..][..|s| - 1 - |r|];
      r
    else s
  }

  /** `s.rstrip()`: the longest prefix of `s` that does not end with whitespace. */
  function StripEnd(s: string): (r: string)
    ensures |r| <= |s| && r == s[..|r|]
    ensures AllSpace(s[|r|..])
    ensures r != [] ==> !IsSpace(r[|r| - 1])
    decreases |s|
  {
    if s != [] && IsSpace(s[|s| - 1]) then
      var r := StripEnd(s[..|s| - 1]);
      assert s[|r|..] == s[..|s| - 1][|r|..] + [s[|s| - 1]];
      r
    else s
  }

  /** `s.strip()`: `s` with the whitespace at both ends removed. */
  function Strip(s: string): (r: string)
    ensures exists i :: 0 <= i <= |s| - |r| && r == s[i..i + |r|] &&
                        AllSpace(s[..i]) && AllSpace(s[i + |r|..])
    ensures r != [] ==> !IsSpace(r[0]) && !IsSpace(r[|r| - 1])
  {
    var t := StripStart(s);
    var r := StripEnd(t);
    var i := |s| - |t|;
    assert r == s[i..i + |r|];
    assert s[i + |r|..] == t[|r|..];
    r
  }

  /** Where the stripped text sits inside the original. */
  lemma StripBounds(s: string) returns (lo: int, hi: int)
    ensures 0 <= lo <= hi <= |s| && Strip(s) == s[lo..hi]
    ensures AllSpace(s[..lo]) && AllSpace(s[hi..])
  {
    var t := StripStart(s);
    var r := StripEnd(t);
    lo, hi := |s| - |t|, |s| - |t| + |r|;
    assert r == s[lo..hi];
    assert s[hi..] == t[|r|..];
  }

  /** `c.lower()` for one ASCII character. */
  function LowerChar(c: char): char
  {
    if IsUpperChar(c) then (c as int + ('a' as int - 'A' as int)) as char else c
  }

  /** `s.lower()`: every uppercase letter replaced by its lowercase partner,
      everything else kept. */
  function ToLower(s: string): (r: string)
    ensures |r| == |s|
    ensures forall i :: 0 <= i < |s| ==> !IsUpperChar(r[i])
    ensures forall i :: 0 <= i < |s| ==> (IsUpperChar(s[i]) <==> IsLowerChar(r[i]) && r[i] != s[i])
    ensures forall i :: 0 <= i < |s| && !IsUpperChar(s[i]) ==> r[i] == s[i]
    ensures forall i :: 0 <= i < |s| && IsUpperChar(s[i]) ==>
              r[i] as int == s[i] as int + ('a' as int - 'A' as int)
  {
    seq(|s|, i requires 0 <= i < |s| => LowerChar(s[i]))
  }

  /** Lower-casing twice is lower-casing once. */
  lemma LowerIdempotent(s: string)
    ensures ToLower(ToLower(s)) == ToLower(s)
  {
  }
}
