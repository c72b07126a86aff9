/** What `ClassificadorPorRegras.classificar` computes, as functions: the
    phrase and token matches of a rule, its score, and the first-wins choice
    of the best rule. */
module Scoring {
  import opened TextNormalization
  import opened KeywordRules

  /** The category returned when no rule scores above zero. */
  const DefaultCategory: string := "outros"

  /** Python's `frase in texto`: `p` occurs in `t` as a contiguous substring. */
  function IsSubstring(p: string, t: string): bool
    decreases |t|
  {
    p <= t || (t != [] && IsSubstring(p, t[1..]))
  }

  /** `p` occurs in `t` starting at index `i`. */
  predicate OccursAt(p: string, t: string, i: int) {
    0 <= i <= |t| - |p| && t[i..i + |p|] == p
  }

  /** `IsSubstring` agrees with the positional definition of a substring. */
  lemma {:induction false} IsSubstringAt(p: string, t: string)
    ensures IsSubstring(p, t) <==> exists i :: OccursAt(p, t, i)
    decreases |t|
  {
    if p <= t {
      assert OccursAt(p, t, 0);
    } else if t == [] {
    } else {
      IsSubstringAt(p, t[1..]);
      if exists i :: OccursAt(p, t, i) {
        var i :| OccursAt(p, t, i);
        assert i != 0;
        assert OccursAt(p, t[1..], i - 1);
      }
      if IsSubstring(p, t[1..]) {
        var i :| OccursAt(p, t[1..], i);
        assert OccursAt(p, t, i + 1);
      }
    }
  }

  /** A substring of `a` is a substring of any extension of `a`. */
  lemma {:induction false} IsSubstringExtend(p: string, a: string, b: string)
    requires IsSubstring(p, a)
    ensures IsSubstring(p, a + b)
    decreases |a|
  {
    if p <= a {
      assert p <= a + b by {
        assert (a + b)[..|a|] == a;
      }
    } else {
      assert (a + b)[1..] == a[1..] + b;
      IsSubstringExtend(p, a[1..], b);
    }
  }

  /** Every character of a phrase found in `t` occurs in `t`. */
  lemma SubstringCharsOccur(p: string, t: string)
    ensures IsSubstring(p, t) ==> forall c :: c in p ==> c in t
  {
    IsSubstringAt(p, t);
    if IsSubstring(p, t) {
      var i :| OccursAt(p, t, i);
      forall c | c in p
        ensures c in t
      {
        var k :| 0 <= k < |p| && p[k] == c;
        assert t[i + k] == t[i..i + |p|][k];
      }
    }
  }

  /** The set of tokens (`set(_tokenizar_normalizado(...))`). */
  function TokenSet(ts: seq<string>): (present: set<string>)
    ensures forall t :: t in present <==> t in ts
  {
    set t | t in ts
  }

  /** The phrases of `phrases` found in `text`, in declaration order. */
  function PhraseMatches(phrases: seq<Entry>, text: string): seq<string> {
    if phrases == [] then []
    else
      var last := phrases[|phrases| - 1];
      PhraseMatches(phrases[..|phrases| - 1], text) + (if IsSubstring(last.0, text) then [last.0] else [])
  }

  /** The summed weight of the phrases of `phrases` found in `text`. */
  function PhraseScore(phrases: seq<Entry>, text: string): int {
    if phrases == [] then 0
    else
      var last := phrases[|phrases| - 1];
      PhraseScore(phrases[..|phrases| - 1], text) + (if IsSubstring(last.0, text) then last.1 else 0)
  }

  /** The keywords of `tokens` present in the token set, in declaration order. */
  function TokenMatches(tokens: seq<Entry>, present: set<string>): seq<string> {
    if tokens == [] then []
    else
      var last := tokens[|tokens| - 1];
      TokenMatches(tokens[..|tokens| - 1], present) + (if last.0 in present then [last.0] else [])
  }

  /** The summed weight of the keywords of `tokens` present in the token set. */
  function TokenScore(tokens: seq<Entry>, present: set<string>): int {
    if tokens == [] then 0
    else
      var last := tokens[|tokens| - 1];
      TokenScore(tokens[..|tokens| - 1], present) + (if last.0 in present then last.1 else 0)
  }

  /** A rule's matched keywords: its phrases first, then its tokens. */
  function RuleMatches(rule: Rule, text: string, present: set<string>): seq<string> {
    PhraseMatches(rule.phraseKeywords, text) + TokenMatches(rule.tokenKeywords, present)
  }

  /** A rule's score (`pontuacao`). */
  function RuleScore(rule: Rule, text: string, present: set<string>): int {
    PhraseScore(rule.phraseKeywords, text) + TokenScore(rule.tokenKeywords, present)
  }

  /** The score of every rule, in declaration order. */
  function Scores(rules: seq<Rule>, text: string, present: set<string>): (scores: seq<int>)
    ensures |scores| == |rules|
    ensures forall i :: 0 <= i < |rules| ==> scores[i] == RuleScore(rules[i], text, present)
  {
    seq(|rules|, i requires 0 <= i < |rules| => RuleScore(rules[i], text, present))
  }

  /** The index of the rule kept by the strict `>` scan starting from score 0,
      or -1 when the default is kept. */
  function FirstBest(scores: seq<int>): (w: int)
    ensures -1 <= w < |scores|
  {
    if scores == [] then -1
    else
      var w := FirstBest(scores[..|scores| - 1]);
      var best := if w < 0 then 0 else scores[w];
      if scores[|scores| - 1] > best then |scores| - 1 else w
  }

  /** Reference definition of the choice: -1 when no score is positive;
      otherwise a positive score that is the maximum and that no earlier
      score reaches. */
  predicate IsFirstMaximum(scores: seq<int>, w: int) {
    if w == -1 then forall i :: 0 <= i < |scores| ==> scores[i] <= 0
    else
      && 0 <= w < |scores|
      && scores[w] > 0
      && (forall i :: 0 <= i < |scores| ==> scores[i] <= scores[w])
      && (forall i :: 0 <= i < w ==> scores[i] < scores[w])
  }

  /** The scan keeps exactly the first maximal positive score, and that
      choice is unique. */
  lemma {:induction false} FirstBestIsFirstMaximum(scores: seq<int>)
    ensures IsFirstMaximum(scores, FirstBest(scores))
    ensures forall w :: IsFirstMaximum(scores, w) ==> w == FirstBest(scores)
  {
    if scores != [] {
      var init := scores[..|scores| - 1];
      FirstBestIsFirstMaximum(init);
      var v := FirstBest(init);
      assert forall i :: 0 <= i < |init| ==> init[i] == scores[i];
    }
  }

  /** Ties go to the earlier rule: a later rule with the same score as an
      earlier one is never chosen. */
  lemma TieGoesToEarlierRule(scores: seq<int>, i: nat, j: nat)
    requires i < j < |scores| && scores[i] == scores[j]
    ensures FirstBest(scores) != j
  {
    FirstBestIsFirstMaximum(scores);
  }

  /** Raising the chosen rule's score while no other score rises keeps the
      same rule chosen. */
  lemma RaisingWinnerKeepsIt(scores: seq<int>, scores': seq<int>)
    requires |scores'| == |scores| && FirstBest(scores) >= 0
    requires scores'[FirstBest(scores)] >= scores[FirstBest(scores)]
    requires forall i :: 0 <= i < |scores| && i != FirstBest(scores) ==> scores'[i] <= scores[i]
    ensures FirstBest(scores') == FirstBest(scores)
  {
    FirstBestIsFirstMaximum(scores);
    FirstBestIsFirstMaximum(scores');
    assert IsFirstMaximum(scores', FirstBest(scores));
  }

  /** `classificar`: normalise, tokenise into a set, score every rule and
      return the first best rule's category and matches, or the default. */
  function Classification(rules: seq<Rule>, text: string): ClassificationResult {
    var normalized := Normalize(text);
    var present := TokenSet(Tokens(normalized));
    var w := FirstBest(Scores(rules, normalized, present));
    if w < 0 then ClassificationResult(DefaultCategory, [])
    else ClassificationResult(rules[w].category, RuleMatches(rules[w], normalized, present))
  }

  /** Only phrases of the list that occur in the text are matched, each one
      that occurs is, and an empty match list scores zero. */
  lemma {:induction false} PhraseMatchesSpec(phrases: seq<Entry>, text: string)
    ensures forall k :: k in PhraseMatches(phrases, text)
              <==> exists j :: 0 <= j < |phrases| && phrases[j].0 == k && IsSubstring(k, text)
    ensures PhraseMatches(phrases, text) == [] ==> PhraseScore(phrases, text) == 0
  {
    if phrases != [] {
      var init := phrases[..|phrases| - 1];
      PhraseMatchesSpec(init, text);
      assert forall j :: 0 <= j < |init| ==> init[j] == phrases[j];
    }
  }

  /** Only token keywords present in the token set are matched, each present
      one is, and an empty match list scores zero. */
  lemma {:induction false} TokenMatchesSpec(tokens: seq<Entry>, present: set<string>)
    ensures forall k :: k in TokenMatches(tokens, present)
              <==> exists j :: 0 <= j < |tokens| && tokens[j].0 == k && k in present
    ensures TokenMatches(tokens, present) == [] ==> TokenScore(tokens, present) == 0
  {
    if tokens != [] {
      var init := tokens[..|tokens| - 1];
      TokenMatchesSpec(init, present);
      assert forall j :: 0 <= j < |init| ==> init[j] == tokens[j];
    }
  }

  /** The category is the default with no keywords exactly when no rule
      scores above zero; otherwise it is the category of the first rule with
      the maximal score, and the keywords are that rule's non-empty matches. */
  lemma ClassificationOutcome(rules: seq<Rule>, text: string)
    ensures var r := Classification(rules, text);
            var normalized := Normalize(text);
            var present := TokenSet(Tokens(normalized));
            var scores := Scores(rules, normalized, present);
            && ((r.category == DefaultCategory && r.keywords == [])
                <==> forall i :: 0 <= i < |rules| ==> RuleScore(rules[i], normalized, present) <= 0)
            && (|| (r == ClassificationResult(DefaultCategory, []) && IsFirstMaximum(scores, -1))
                || (exists w :: && 0 <= w < |rules| && IsFirstMaximum(scores, w)
                                && r.category == rules[w].category && r.keywords != []
                                && r.keywords == RuleMatches(rules[w], normalized, present)))
  {
    var normalized := Normalize(text);
    var present := TokenSet(Tokens(normalized));
    var scores := Scores(rules, normalized, present);
    var w := FirstBest(scores);
    FirstBestIsFirstMaximum(scores);
    if w >= 0 {
      var rule := rules[w];
      PhraseMatchesSpec(rule.phraseKeywords, normalized);
      TokenMatchesSpec(rule.tokenKeywords, present);
      assert RuleMatches(rule, normalized, present) != [];
    }
  }

  /** Scores and matches are additive over the keyword list: the entries of
      `a` are looked up before those of `b`. */
  lemma {:induction false} TokenScoreConcat(a: seq<Entry>, b: seq<Entry>, present: set<string>)
    ensures TokenScore(a + b, present) == TokenScore(a, present) + TokenScore(b, present)
    ensures TokenMatches(a + b, present) == TokenMatches(a, present) + TokenMatches(b, present)
    decreases |b|
  {
    if b == [] {
      assert a + b == a;
    } else {
      var init := b[..|b| - 1];
      assert (a + b)[..|a + b| - 1] == a + init;
      assert (a + b)[|a + b| - 1] == b[|b| - 1];
      TokenScoreConcat(a, init, present);
    }
  }

  lemma {:induction false} PhraseScoreConcat(a: seq<Entry>, b: seq<Entry>, text: string)
    ensures PhraseScore(a + b, text) == PhraseScore(a, text) + PhraseScore(b, text)
    ensures PhraseMatches(a + b, text) == PhraseMatches(a, text) + PhraseMatches(b, text)
    decreases |b|
  {
    if b == [] {
      assert a + b == a;
    } else {
      var init := b[..|b| - 1];
      assert (a + b)[..|a + b| - 1] == a + init;
      assert (a + b)[|a + b| - 1] == b[|b| - 1];
      PhraseScoreConcat(a, init, text);
    }
  }

  /** With non-negative weights, a larger token set never lowers a token score. */
  lemma {:induction false} TokenScoreMonotone(tokens: seq<Entry>, present: set<string>, present': set<string>)
    requires present <= present'
    requires forall j :: 0 <= j < |tokens| ==> tokens[j].1 >= 0
    ensures TokenScore(tokens, present) <= TokenScore(tokens, present')
  {
    if tokens != [] {
      var init := tokens[..|tokens| - 1];
      assert forall j :: 0 <= j < |init| ==> init[j] == tokens[j];
      TokenScoreMonotone(init, present, present');
    }
  }

  /** With non-negative weights, extending the text never lowers a phrase score. */
  lemma {:induction false} PhraseScoreMonotone(phrases: seq<Entry>, a: string, b: string)
    requires forall j :: 0 <= j < |phrases| ==> phrases[j].1 >= 0
    ensures PhraseScore(phrases, a) <= PhraseScore(phrases, a + b)
  {
    if phrases != [] {
      var init := phrases[..|phrases| - 1];
      var last := phrases[|phrases| - 1];
      assert forall j :: 0 <= j < |init| ==> init[j] == phrases[j];
      PhraseScoreMonotone(init, a, b);
      if IsSubstring(last.0, a) {
        IsSubstringExtend(last.0, a, b);
      }
    }
  }

  /** Appending more normalised text after a space never lowers a rule's
      score when its weights are non-negative. */
  lemma AppendingTextNeverLowersScore(rule: Rule, a: string, b: string)
    requires forall j :: 0 <= j < |rule.tokenKeywords| ==> rule.tokenKeywords[j].1 >= 0
    requires forall j :: 0 <= j < |rule.phraseKeywords| ==> rule.phraseKeywords[j].1 >= 0
    ensures RuleScore(rule, a, TokenSet(Tokens(a)))
         <= RuleScore(rule, a + " " + b, TokenSet(Tokens(a + " " + b)))
  {
    TokensOfSeparatedConcat(a, ' ', b);
    assert a + " " + b == a + [' '] + b;
    TokenScoreMonotone(rule.tokenKeywords, TokenSet(Tokens(a)), TokenSet(Tokens(a + " " + b)));
    PhraseScoreMonotone(rule.phraseKeywords, a, " " + b);
    assert a + " " + b == a + (" " + b);
  }

  /** Repeating a word of the text after a space leaves the token set, and so
      every token score, unchanged. */
  lemma RepeatedWordKeepsTokenSet(a: string, w: string)
    requires w in Tokens(a)
    ensures TokenSet(Tokens(a + " " + w)) == TokenSet(Tokens(a))
  {
    TokensOfSeparatedConcat(a, ' ', w);
    assert a + " " + w == a + [' '] + w;
    TokensOfToken(w);
  }

  /** A phrase found in a suffix of the text is found in the text. */
  lemma {:induction false} SubstringOfSuffix(p: string, x: string, y: string)
    requires IsSubstring(p, y)
    ensures IsSubstring(p, x + y)
    decreases |x|
  {
    if x == [] {
      assert x + y == y;
    } else {
      assert (x + y)[1..] == x[1..] + y;
      SubstringOfSuffix(p, x[1..], y);
    }
  }

  /** A phrase between two stretches of text is found in the whole. */
  lemma SubstringOfMiddle(p: string, x: string, y: string)
    ensures IsSubstring(p, x + p + y)
  {
    IsSubstringAt(p, x + p + y);
    assert OccursAt(p, x + p + y, |x|);
  }

  /** A phrase that holds a character the text lacks is not found in it. */
  lemma AbsentCharRulesOut(p: string, gaps: seq<string>, ws: seq<string>, c: char)
    requires |gaps| == |ws| + 1 && c in p
    requires forall k :: 0 <= k < |gaps| ==> c !in gaps[k]
    requires forall k :: 0 <= k < |ws| ==> c !in ws[k]
    ensures !IsSubstring(p, Interleave(gaps, ws))
  {
    InterleaveChars(gaps, ws, c);
    SubstringCharsOccur(p, Interleave(gaps, ws));
  }

  /** A phrase that starts the layout of the words from `m` on is found in the text. */
  lemma PhraseInLayout(p: string, gaps: seq<string>, ws: seq<string>, m: nat, rest: string)
    requires |gaps| == |ws| + 1 && m <= |ws|
    requires Interleave(gaps[m..], ws[m..]) == gaps[m] + p + rest
    ensures IsSubstring(p, Interleave(gaps, ws))
  {
    InterleaveSuffix(gaps, ws, m);
    var x :| Interleave(gaps, ws) == x + Interleave(gaps[m..], ws[m..]);
    SubstringOfMiddle(p, gaps[m], rest);
    SubstringOfSuffix(p, x, Interleave(gaps[m..], ws[m..]));
  }

  /** The layout of the words from `m` on starts with gap `m` and word `m`. */
  lemma InterleaveStep(gaps: seq<string>, ws: seq<string>, m: nat)
    requires |gaps| == |ws| + 1 && m < |ws|
    ensures Interleave(gaps[m..], ws[m..]) == gaps[m] + ws[m] + Interleave(gaps[m + 1..], ws[m + 1..])
  {
    assert gaps[m..][1..] == gaps[m + 1..] && ws[m..][1..] == ws[m + 1..];
  }

  /** Two consecutive words with the gap between them form a substring of the text. */
  lemma PhraseOfTwoWords(gaps: seq<string>, ws: seq<string>, m: nat)
    requires |gaps| == |ws| + 1 && m + 1 < |ws|
    ensures IsSubstring(ws[m] + gaps[m + 1] + ws[m + 1], Interleave(gaps, ws))
  {
    var rest := Interleave(gaps[m + 2..], ws[m + 2..]);
    InterleaveStep(gaps, ws, m);
    InterleaveStep(gaps, ws, m + 1);
    RegroupTwo(gaps[m], ws[m], gaps[m + 1], ws[m + 1], rest);
    PhraseInLayout(ws[m] + gaps[m + 1] + ws[m + 1], gaps, ws, m, rest);
  }

  /** Three consecutive words with the gaps between them form a substring of the text. */
  lemma PhraseOfThreeWords(gaps: seq<string>, ws: seq<string>, m: nat)
    requires |gaps| == |ws| + 1 && m + 2 < |ws|
    ensures IsSubstring(ws[m] + gaps[m + 1] + ws[m + 1] + gaps[m + 2] + ws[m + 2], Interleave(gaps, ws))
  {
    var p := ws[m] + gaps[m + 1] + ws[m + 1] + gaps[m + 2] + ws[m + 2];
    var rest := Interleave(gaps[m + 3..], ws[m + 3..]);
    InterleaveStep(gaps, ws, m);
    InterleaveStep(gaps, ws, m + 1);
    InterleaveStep(gaps, ws, m + 2);
    RegroupThree(gaps[m], ws[m], gaps[m + 1], ws[m + 1], gaps[m + 2], ws[m + 2], rest);
    PhraseInLayout(p, gaps, ws, m, rest);
  }

  /** Unfolded layout text regrouped as gap, phrase, rest. */
  lemma RegroupTwo(g0: string, w0: string, g1: string, w1: string, r: string)
    ensures g0 + w0 + (g1 + w1 + r) == g0 + (w0 + g1 + w1) + r
  {
  }

  lemma RegroupThree(g0: string, w0: string, g1: string, w1: string, g2: string, w2: string, r: string)
    ensures g0 + w0 + (g1 + w1 + (g2 + w2 + r)) == g0 + (w0 + g1 + w1 + g2 + w2) + r
  {
  }

  /** No keyword of the list is in the token set: score zero, no matches. */
  lemma {:induction false} TokenNoHits(tokens: seq<Entry>, present: set<string>)
    requires forall j :: 0 <= j < |tokens| ==> tokens[j].0 !in present
    ensures TokenScore(tokens, present) == 0 && TokenMatches(tokens, present) == []
  {
    if tokens != [] {
      var init := tokens[..|tokens| - 1];
      assert forall j :: 0 <= j < |init| ==> init[j] == tokens[j];
      TokenNoHits(init, present);
    }
  }

  /** Exactly one keyword of the list is in the token set. */
  lemma TokenOneHit(tokens: seq<Entry>, present: set<string>, j: nat)
    requires j < |tokens| && tokens[j].0 in present
    requires forall k :: 0 <= k < |tokens| && k != j ==> tokens[k].0 !in present
    ensures TokenScore(tokens, present) == tokens[j].1
    ensures TokenMatches(tokens, present) == [tokens[j].0]
  {
    var a, e, b := tokens[..j], tokens[j], tokens[j + 1..];
    assert tokens == (a + [e]) + b;
    assert forall k :: 0 <= k < |b| ==> b[k] == tokens[j + 1 + k];
    TokenNoHits(a, present);
    TokenNoHits(b, present);
    assert [e][..0] == [];
    TokenScoreConcat(a, [e], present);
    TokenScoreConcat(a + [e], b, present);
  }

  /** Exactly two keywords of the list are in the token set. */
  lemma TokenTwoHits(tokens: seq<Entry>, present: set<string>, i: nat, j: nat)
    requires i < j < |tokens| && tokens[i].0 in present && tokens[j].0 in present
    requires forall k :: 0 <= k < |tokens| && k != i && k != j ==> tokens[k].0 !in present
    ensures TokenScore(tokens, present) == tokens[i].1 + tokens[j].1
    ensures TokenMatches(tokens, present) == [tokens[i].0, tokens[j].0]
  {
    var a, b := tokens[..j], tokens[j..];
    assert tokens == a + b;
    TokenOneHit(a, present, i);
    TokenOneHit(b, present, 0);
    TokenScoreConcat(a, b, present);
  }

  /** Exactly three keywords of the list are in the token set. */
  lemma TokenThreeHits(tokens: seq<Entry>, present: set<string>, i: nat, j: nat, l: nat)
    requires i < j < l < |tokens| && tokens[i].0 in present && tokens[j].0 in present && tokens[l].0 in present
    requires forall k :: 0 <= k < |tokens| && k != i && k != j && k != l ==> tokens[k].0 !in present
    ensures TokenScore(tokens, present) == tokens[i].1 + tokens[j].1 + tokens[l].1
    ensures TokenMatches(tokens, present) == [tokens[i].0, tokens[j].0, tokens[l].0]
  {
    var a, b := tokens[..l], tokens[l..];
    assert tokens == a + b;
    TokenTwoHits(a, present, i, j);
    TokenOneHit(b, present, 0);
    TokenScoreConcat(a, b, present);
  }

  /** No phrase of the list occurs in the text: score zero, no matches. */
  lemma {:induction false} PhraseNoHits(phrases: seq<Entry>, text: string)
    requires forall j :: 0 <= j < |phrases| ==> !IsSubstring(phrases[j].0, text)
    ensures PhraseScore(phrases, text) == 0 && PhraseMatches(phrases, text) == []
  {
    if phrases != [] {
      var init := phrases[..|phrases| - 1];
      assert forall j :: 0 <= j < |init| ==> init[j] == phrases[j];
      PhraseNoHits(init, text);
    }
  }

  /** Exactly one phrase of the list occurs in the text. */
  lemma PhraseOneHit(phrases: seq<Entry>, text: string, j: nat)
    requires j < |phrases| && IsSubstring(phrases[j].0, text)
    requires forall k :: 0 <= k < |phrases| && k != j ==> !IsSubstring(phrases[k].0, text)
    ensures PhraseScore(phrases, text) == phrases[j].1
    ensures PhraseMatches(phrases, text) == [phrases[j].0]
  {
    var a, e, b := phrases[..j], phrases[j], phrases[j + 1..];
    assert phrases == (a + [e]) + b;
    assert forall k :: 0 <= k < |b| ==> b[k] == phrases[j + 1 + k];
    PhraseNoHits(a, text);
    PhraseNoHits(b, text);
    assert [e][..0] == [];
    PhraseScoreConcat(a, [e], text);
    PhraseScoreConcat(a + [e], b, text);
  }

  /** Exactly two phrases of the list occur in the text. */
  lemma PhraseTwoHits(phrases: seq<Entry>, text: string, i: nat, j: nat)
    requires i < j < |phrases| && IsSubstring(phrases[i].0, text) && IsSubstring(phrases[j].0, text)
    requires forall k :: 0 <= k < |phrases| && k != i && k != j ==> !IsSubstring(phrases[k].0, text)
    ensures PhraseScore(phrases, text) == phrases[i].1 + phrases[j].1
    ensures PhraseMatches(phrases, text) == [phrases[i].0, phrases[j].0]
  {
    var a, b := phrases[..j], phrases[j..];
    assert phrases == a + b;
    PhraseOneHit(a, text, i);
    PhraseOneHit(b, text, 0);
    PhraseScoreConcat(a, b, text);
  }

  /** A phrase score is the score before a phrase, that phrase's weight when
      it occurs, and the score after it. */
  lemma PhraseScoreAround(phrases: seq<Entry>, text: string, j: nat)
    requires j < |phrases|
    ensures PhraseScore(phrases, text)
         == PhraseScore(phrases[..j], text)
            + (if IsSubstring(phrases[j].0, text) then phrases[j].1 else 0)
            + PhraseScore(phrases[j + 1..], text)
  {
    var a, e, b := phrases[..j], phrases[j], phrases[j + 1..];
    assert phrases == (a + [e]) + b;
    assert [e][..0] == [];
    PhraseScoreConcat(a, [e], text);
    PhraseScoreConcat(a + [e], b, text);
  }

  /** A classification is read off the first maximal score. */
  lemma ClassifiedAs(rules: seq<Rule>, text: string, normalized: string, present: set<string>, w: int)
    requires Normalize(text) == normalized && present == TokenSet(Tokens(normalized))
    requires -1 <= w < |rules| && IsFirstMaximum(Scores(rules, normalized, present), w)
    ensures Classification(rules, text)
         == if w < 0 then ClassificationResult(DefaultCategory, [])
            else ClassificationResult(rules[w].category, RuleMatches(rules[w], normalized, present))
  {
    FirstBestIsFirstMaximum(Scores(rules, normalized, present));
  }
}
