/** How a word may be written: the letter case and the white space around it. */
module Spelling {
  import opened Text
  import opened Domain

  /** White space, by code point. */
  predicate White(c: char) {
    var n := c as int;
    || 9 <= n <= 13 || n == 32 || n == 133 || n == 160 || n == 5760
    || 8192 <= n <= 8202 || n == 8232 || n == 8233 || n == 8239 || n == 8287 || n == 12288
  }

  lemma WhiteIsSpace(c: char)
    ensures IsSpace(c) <==> White(c)
  {
  }

  /** `c` is the lower-case letter `w`, its capital, or one of the two capitals outside ASCII
      that Go lowers to an ASCII letter: the dotted I and the Kelvin sign. */
  predicate CaseOf(c: char, w: char) {
    || c == w
    || ('a' <= w <= 'z' && c as int == w as int - 32)
    || (w == 'i' && c == '\U{0130}')
    || (w == 'k' && c == '\U{212A}')
  }

  predicate Blank(s: string) {
    forall c :: c in s ==> White(c)
  }

  /** `s` is this word, in any letter case. */
  predicate Cased(s: string, word: string) {
    |s| == |word| && forall k :: 0 <= k < |word| ==> CaseOf(s[k], word[k])
  }

  predicate SpelledAt(raw: string, word: string, i: nat) {
    && i + |word| <= |raw|
    && Blank(raw[..i]) && Cased(raw[i..i + |word|], word) && Blank(raw[i + |word|..])
  }

  /** `raw` is this word, in any letter case, with nothing but white space around it. */
  ghost predicate Spells(raw: string, word: string) {
    exists i: nat :: SpelledAt(raw, word, i)
  }

  ghost predicate AutoWord(raw: string) {
    Spells(raw, "auto_remediate") || Spells(raw, "auto") || Spells(raw, "low")
  }

  ghost predicate ApprovalWord(raw: string) {
    || Spells(raw, "requires_approval") || Spells(raw, "approval")
    || Spells(raw, "high") || Spells(raw, "medium")
  }

  /** Words of lower-case letters, underscores and hyphens. */
  predicate IsWord(word: string) {
    word != [] && forall c :: c in word ==> 'a' <= c <= 'z' || c == '_' || c == '-'
  }

  lemma LowersTo(c: char, w: char)
    requires 'a' <= w <= 'z' || w == '_' || w == '-'
    ensures LowerChar(c) == w <==> CaseOf(c, w)
    ensures CaseOf(c, w) ==> !White(c)
  {
  }

  lemma LoweredIsCased(m: string, word: string)
    requires IsWord(word)
    ensures ToLower(m) == word <==> Cased(m, word)
  {
    hide CaseOf, LowerChar;
    if |m| == |word| {
      forall k | 0 <= k < |word| ensures ToLower(m)[k] == word[k] <==> CaseOf(m[k], word[k]) {
        assert word[k] in word;
        LowersTo(m[k], word[k]);
      }
      assert ToLower(m) == word <==> forall k :: 0 <= k < |word| ==> ToLower(m)[k] == word[k];
    }
  }

  lemma BlankIsSpace(s: string)
    ensures Blank(s) <==> forall c :: c in s ==> IsSpace(c)
  {
    hide White, IsSpace;
    forall c ensures IsSpace(c) <==> White(c) {
      WhiteIsSpace(c);
    }
  }

  lemma CasedIsClean(m: string, word: string)
    requires IsWord(word) && Cased(m, word)
    ensures Clean(m, IsSpace)
  {
    hide White, CaseOf, IsSpace;
    assert word[0] in word && word[|word| - 1] in word;
    LowersTo(m[0], word[0]);
    LowersTo(m[|m| - 1], word[|word| - 1]);
    WhiteIsSpace(m[0]);
    WhiteIsSpace(m[|m| - 1]);
  }

  /** A spelling is what trimming and lower-casing bring back to the word. */
  lemma SpellsExactly(raw: string, word: string)
    requires IsWord(word)
    ensures Spells(raw, word) <==> ToLower(TrimSpace(raw)) == word
  {
    hide Blank, Cased, IsSpace, ToLower, Trim, IsWord;
    if Spells(raw, word) {
      var i: nat :| SpelledAt(raw, word, i);
      var l, m, r := raw[..i], raw[i..i + |word|], raw[i + |word|..];
      assert raw == l + m + r;
      BlankIsSpace(l);
      BlankIsSpace(r);
      CasedIsClean(m, word);
      TrimAround(l, m, r, IsSpace);
      LoweredIsCased(m, word);
    }
    if ToLower(TrimSpace(raw)) == word {
      var l, m, r := TrimParts(raw);
      LoweredIsCased(m, word);
      SameLength(m, word);
      BlankIsSpace(l);
      BlankIsSpace(r);
      var i := |l|;
      assert raw[..i] == l && raw[i..i + |word|] == m && raw[i + |word|..] == r;
      assert SpelledAt(raw, word, i);
    }
  }

  lemma SameLength(m: string, word: string)
    requires Cased(m, word)
    ensures |m| == |word|
  {
  }

  /** The documented words and no others have a risk level, whatever their letter case and the
      white space around them. */
  lemma RiskWordsExactly(raw: string)
    ensures ParseRiskLevel(raw) == Some(AutoRemediate) <==>
              Spells(raw, "auto_remediate") || Spells(raw, "auto") || Spells(raw, "low")
    ensures ParseRiskLevel(raw) == Some(RequiresApproval) <==>
              || Spells(raw, "requires_approval") || Spells(raw, "approval")
              || Spells(raw, "high") || Spells(raw, "medium")
    ensures ParseRiskLevel(raw) == None || ParseRiskLevel(raw) in {Some(AutoRemediate), Some(RequiresApproval)}
  {
    hide Spells, ToLower, TrimSpace;
    SpellsExactly(raw, "auto_remediate");
    SpellsExactly(raw, "auto");
    SpellsExactly(raw, "low");
    SpellsExactly(raw, "requires_approval");
    SpellsExactly(raw, "approval");
    SpellsExactly(raw, "high");
    SpellsExactly(raw, "medium");
  }

  /** No text is a word for both levels. */
  lemma WordsDiffer(raw: string)
    ensures !(AutoWord(raw) && ApprovalWord(raw))
  {
    hide Spells;
    RiskWordsExactly(raw);
  }

  // ----- Equality under case folding -----

  /** The same character, the two cases of an ASCII letter, or two of the three characters that
      fold to k or to s: the Kelvin sign and the long s go with them. */
  predicate Alike(c: char, d: char) {
    var m, n := c as int, d as int;
    || m == n
    || (65 <= m <= 90 && n == m + 32) || (65 <= n <= 90 && m == n + 32)
    || (m in {75, 107, 0x212A} && n in {75, 107, 0x212A})
    || (m in {83, 115, 0x17F} && n in {83, 115, 0x17F})
  }

  lemma FoldExactly(c: char, d: char)
    ensures FoldChar(c) == FoldChar(d) <==> Alike(c, d)
  {
  }

  predicate AlikeText(s: string, t: string) {
    |s| == |t| && forall i :: 0 <= i < |s| ==> Alike(s[i], t[i])
  }

  lemma EqualFoldExactly(s: string, t: string)
    ensures EqualFold(s, t) <==> AlikeText(s, t)
  {
    hide FoldChar, Alike;
    if |s| == |t| {
      forall i | 0 <= i < |s| ensures FoldChar(s[i]) == FoldChar(t[i]) <==> Alike(s[i], t[i]) {
        FoldExactly(s[i], t[i]);
      }
    }
  }

  /** A runbook matches if it has labels and the alert has each of them, with that value under
      case folding or, for an empty value, with any. */
  lemma MatchesExactly(rb: Runbook, labels: map<string, string>)
    ensures Matches(rb, labels) <==>
            && rb.matchLabels != map[]
            && forall k :: k in rb.matchLabels ==>
                 k in labels && (AlikeText(labels[k], rb.matchLabels[k]) || rb.matchLabels[k] == "")
  {
    hide EqualFold, AlikeText;
    forall k | k in rb.matchLabels && k in labels
      ensures EqualFold(labels[k], rb.matchLabels[k]) <==> AlikeText(labels[k], rb.matchLabels[k])
    {
      EqualFoldExactly(labels[k], rb.matchLabels[k]);
    }
    assert |rb.matchLabels| == 0 <==> rb.matchLabels == map[];
  }
}
