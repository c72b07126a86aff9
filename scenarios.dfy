/** The classification scenarios of the unit tests, evaluated against the
    reference rules. */
module Scenarios {
  import opened TextNormalization
  import opened KeywordRules
  import opened Scoring
  import opened DefaultRules
  import opened ScenarioTexts

  /** Four scores within the bounds `lo` and `hi` have their first maximum
      at `w` when the bounds decide it. */
  lemma FirstMaxOfFour(scores: seq<int>, lo: seq<int>, hi: seq<int>, w: int)
    requires |scores| == |lo| == |hi| == 4
    requires lo[0] <= scores[0] <= hi[0] && lo[1] <= scores[1] <= hi[1]
    requires lo[2] <= scores[2] <= hi[2] && lo[3] <= scores[3] <= hi[3]
    requires || (w == -1 && forall i :: 0 <= i < 4 ==> hi[i] <= 0)
             || (&& 0 <= w < 4 && lo[w] > 0
                 && (forall i :: 0 <= i < 4 && i != w ==> hi[i] <= lo[w])
                 && (forall i :: 0 <= i < w ==> hi[i] < lo[w]))
    ensures IsFirstMaximum(scores, w)
  {
  }

  /** Repeating a word can add a phrase match, so `RepeatedWordKeepsTokenSet`
      has no counterpart for phrases: "funciona nao" holds no "nao funciona",
      but the same text with its word "funciona" repeated after a space does. */
  lemma RepeatedWordCanAddPhrase(gaps: seq<string>, ws: seq<string>, gaps': seq<string>, ws': seq<string>, p: string)
    requires gaps == ["", " ", ""] && ws == ["funciona", "nao"]
    requires gaps' == ["", " ", " ", ""] && ws' == ["funciona", "nao", "funciona"]
    requires p == "nao funciona"
    ensures Interleave(gaps', ws') == Interleave(gaps, ws) + " " + ws[0]
    ensures ws[0] in Tokens(Interleave(gaps, ws))
    ensures !IsSubstring(p, Interleave(gaps, ws))
    ensures IsSubstring(p, Interleave(gaps', ws'))
  {
    RepeatedLayout(gaps, ws, gaps', ws');
    TokensBeforeRepeat(gaps, ws);
    NoPhraseBeforeRepeat(gaps, ws, p);
    PhraseAfterRepeat(gaps', ws', p);
  }

  /** "funciona nao" tokenises to its two words. */
  lemma TokensBeforeRepeat(gaps: seq<string>, ws: seq<string>)
    requires gaps == ["", " ", ""] && ws == ["funciona", "nao"]
    ensures Tokens(Interleave(gaps, ws)) == ws
  {
    forall k | 0 <= k < |ws| ensures IsToken(ws[k]) { }
    TokensOfInterleave(gaps, ws);
  }

  /** "funciona nao funciona" holds "nao funciona". */
  lemma PhraseAfterRepeat(gaps': seq<string>, ws': seq<string>, p: string)
    requires gaps' == ["", " ", " ", ""] && ws' == ["funciona", "nao", "funciona"]
    requires p == "nao funciona"
    ensures IsSubstring(p, Interleave(gaps', ws'))
  {
    assert p == ws'[1] + gaps'[2] + ws'[2];
    PhraseOfTwoWords(gaps', ws', 1);
  }

  /** "funciona nao" is as long as "nao funciona" and starts differently. */
  lemma NoPhraseBeforeRepeat(gaps: seq<string>, ws: seq<string>, p: string)
    requires gaps == ["", " ", ""] && ws == ["funciona", "nao"]
    requires p == "nao funciona"
    ensures !IsSubstring(p, Interleave(gaps, ws))
  {
    var a := Interleave(gaps, ws);
    assert |a| == |p| && a[0] != p[0] by {
      assert a == gaps[0] + ws[0] + Interleave(gaps[1..], ws[1..]);
    }
    IsSubstringAt(p, a);
  }

  /** "funciona nao funciona" is "funciona nao" followed by a space and "funciona". */
  lemma RepeatedLayout(gaps: seq<string>, ws: seq<string>, gaps': seq<string>, ws': seq<string>)
    requires gaps == ["", " ", ""] && ws == ["funciona", "nao"]
    requires gaps' == ["", " ", " ", ""] && ws' == ["funciona", "nao", "funciona"]
    ensures Interleave(gaps', ws') == Interleave(gaps, ws) + " " + ws[0]
  {
    assert Interleave(gaps[2..], ws[2..]) == "";
    assert Interleave(gaps[1..], ws[1..]) == " " + "nao";
    assert Interleave(gaps, ws) == "funciona" + (" " + "nao");
    assert Interleave(gaps'[3..], ws'[3..]) == "";
    assert Interleave(gaps'[2..], ws'[2..]) == " " + "funciona";
    assert Interleave(gaps'[1..], ws'[1..]) == " " + "nao" + (" " + "funciona");
    assert Interleave(gaps', ws') == "funciona" + (" " + "nao" + (" " + "funciona"));
  }

  /** The layout of one word, unfolded. */
  lemma LayoutOfOne(gaps: seq<string>, ws: seq<string>)
    requires |gaps| == 2 && |ws| == 1
    ensures Interleave(gaps, ws) == gaps[0] + ws[0] + gaps[1]
  {
    assert gaps[1..] == [gaps[1]];
  }

  /** The layout of two words, unfolded word by word. */
  lemma LayoutOfTwo(gaps: seq<string>, ws: seq<string>)
    requires |gaps| == 3 && |ws| == 2
    ensures Interleave(gaps, ws) == gaps[0] + ws[0] + (gaps[1] + ws[1] + gaps[2])
  {
    LayoutOfOne(gaps[1..], ws[1..]);
  }

  /** The layout of three words, unfolded word by word. */
  lemma LayoutOfThree(gaps: seq<string>, ws: seq<string>)
    requires |gaps| == 4 && |ws| == 3
    ensures Interleave(gaps, ws) == gaps[0] + ws[0] + (gaps[1] + ws[1] + (gaps[2] + ws[2] + gaps[3]))
  {
    LayoutOfTwo(gaps[1..], ws[1..]);
  }

  /** The layout of four words, unfolded word by word. */
  lemma LayoutOfFour(gaps: seq<string>, ws: seq<string>)
    requires |gaps| == 5 && |ws| == 4
    ensures Interleave(gaps, ws) == gaps[0] + ws[0] + (gaps[1] + ws[1] + (gaps[2] + ws[2] + (gaps[3] + ws[3] + gaps[4])))
  {
    LayoutOfThree(gaps[1..], ws[1..]);
  }

  /** The layout of five words, unfolded word by word. */
  lemma LayoutOfFive(gaps: seq<string>, ws: seq<string>)
    requires |gaps| == 6 && |ws| == 5
    ensures Interleave(gaps, ws) == gaps[0] + ws[0] + (gaps[1] + ws[1] + (gaps[2] + ws[2] + (gaps[3] + ws[3] + (gaps[4] + ws[4] + gaps[5]))))
  {
    LayoutOfFour(gaps[1..], ws[1..]);
  }

  /** The layout of six words, unfolded word by word. */
  lemma LayoutOfSix(gaps: seq<string>, ws: seq<string>)
    requires |gaps| == 7 && |ws| == 6
    ensures Interleave(gaps, ws) == gaps[0] + ws[0] + (gaps[1] + ws[1] + (gaps[2] + ws[2] + (gaps[3] + ws[3] + (gaps[4] + ws[4] + (gaps[5] + ws[5] + gaps[6])))))
  {
    LayoutOfFive(gaps[1..], ws[1..]);
  }

  /** The layout of seven words, unfolded word by word. */
  lemma LayoutOfSeven(gaps: seq<string>, ws: seq<string>)
    requires |gaps| == 8 && |ws| == 7
    ensures Interleave(gaps, ws) == gaps[0] + ws[0] + (gaps[1] + ws[1] + (gaps[2] + ws[2] + (gaps[3] + ws[3] + (gaps[4] + ws[4] + (gaps[5] + ws[5] + (gaps[6] + ws[6] + gaps[7]))))))
  {
    LayoutOfSix(gaps[1..], ws[1..]);
  }

  /** The layout of eight words, unfolded word by word. */
  lemma LayoutOfEight(gaps: seq<string>, ws: seq<string>)
    requires |gaps| == 9 && |ws| == 8
    ensures Interleave(gaps, ws) == gaps[0] + ws[0] + (gaps[1] + ws[1] + (gaps[2] + ws[2] + (gaps[3] + ws[3] + (gaps[4] + ws[4] + (gaps[5] + ws[5] + (gaps[6] + ws[6] + (gaps[7] + ws[7] + gaps[8])))))))
  {
    LayoutOfSeven(gaps[1..], ws[1..]);
  }

  /** The layout of nine words, unfolded word by word. */
  lemma LayoutOfNine(gaps: seq<string>, ws: seq<string>)
    requires |gaps| == 10 && |ws| == 9
    ensures Interleave(gaps, ws) == gaps[0] + ws[0] + (gaps[1] + ws[1] + (gaps[2] + ws[2] + (gaps[3] + ws[3] + (gaps[4] + ws[4] + (gaps[5] + ws[5] + (gaps[6] + ws[6] + (gaps[7] + ws[7] + (gaps[8] + ws[8] + gaps[9]))))))))
  {
    LayoutOfEight(gaps[1..], ws[1..]);
  }

  /** "Atendimento excelente, parabens" (tests/test_classificador.py, line 11) normalised. */
  lemma PraiseExampleNormalized(gaps: seq<string>, words: seq<string>, ns: seq<string>)
    requires gaps == ["", " ", ", ", ""]
    requires words == ["Atendimento", "excelente", "parabens"]
    requires ns == ["atendimento", "excelente", "parabens"]
    ensures Normalize(Interleave(gaps, words)) == Interleave(gaps, ns)
  {
    forall k | 0 <= k < |gaps| ensures Normalize(gaps[k]) == gaps[k] { }
    forall k | 0 <= k < |words| ensures Normalize(words[k]) == ns[k] { }
    NormalizeInterleave(gaps, words);
    assert NormalizeEach(gaps) == gaps && NormalizeEach(words) == ns;
  }

  /** Tokenising it gives back its normalised words. */
  lemma PraiseExampleTokens(gaps: seq<string>, ns: seq<string>)
    requires gaps == ["", " ", ", ", ""]
    requires ns == ["atendimento", "excelente", "parabens"]
    ensures Tokens(Interleave(gaps, ns)) == ns
  {
    forall k | 0 <= k < |ns| ensures IsToken(ns[k]) { }
    forall k | 0 <= k < |gaps| ensures IsGap(gaps[k]) { }
    TokensOfInterleave(gaps, ns);
  }

  /** The phrase "nao funciona" does not occur in it: it has no 'f'. */
  lemma PraiseExampleNaoFunciona(gaps: seq<string>, ns: seq<string>)
    requires gaps == ["", " ", ", ", ""]
    requires ns == ["atendimento", "excelente", "parabens"]
    ensures !IsSubstring("nao funciona", Interleave(gaps, ns))
  {
    AbsentCharRulesOut("nao funciona", gaps, ns, 'f');
  }

  /** The phrase "nao esta funcionando" does not occur in it: it has no 'f'. */
  lemma PraiseExampleNaoEstaFuncionando(gaps: seq<string>, ns: seq<string>)
    requires gaps == ["", " ", ", ", ""]
    requires ns == ["atendimento", "excelente", "parabens"]
    ensures !IsSubstring("nao esta funcionando", Interleave(gaps, ns))
  {
    AbsentCharRulesOut("nao esta funcionando", gaps, ns, 'f');
  }

  /** The phrase "cobrado duas vezes" does not occur in it: it has no 'u'. */
  lemma PraiseExampleCobradoDuasVezes(gaps: seq<string>, ns: seq<string>)
    requires gaps == ["", " ", ", ", ""]
    requires ns == ["atendimento", "excelente", "parabens"]
    ensures !IsSubstring("cobrado duas vezes", Interleave(gaps, ns))
  {
    AbsentCharRulesOut("cobrado duas vezes", gaps, ns, 'u');
  }

  /** The phrase "por que" does not occur in it: it has no 'q'. */
  lemma PraiseExamplePorQue(gaps: seq<string>, ns: seq<string>)
    requires gaps == ["", " ", ", ", ""]
    requires ns == ["atendimento", "excelente", "parabens"]
    ensures !IsSubstring("por que", Interleave(gaps, ns))
  {
    AbsentCharRulesOut("por que", gaps, ns, 'q');
  }

  /** Score of the `elogio` rule on it. */
  lemma PraiseExampleElogio(rules: seq<Rule>, t: string, present: set<string>)
    requires rules == ReferenceRules()
    requires present == TokenSet(["atendimento", "excelente", "parabens"])
    ensures RuleScore(rules[0], t, present) == 5
    ensures RuleMatches(rules[0], t, present) == ["excelente", "parabens"]
  {
    PhraseNoHits(rules[0].phraseKeywords, t);
    TokenTwoHits(rules[0].tokenKeywords, present, 5, 6);
  }

  /** Score of the `reclamacao` rule on it. */
  lemma PraiseExampleReclamacao(rules: seq<Rule>, t: string, present: set<string>)
    requires rules == ReferenceRules()
    requires present == TokenSet(["atendimento", "excelente", "parabens"])
    requires !IsSubstring("nao funciona", t)
    requires !IsSubstring("nao esta funcionando", t)
    requires !IsSubstring("cobrado duas vezes", t)
    ensures RuleScore(rules[1], t, present) == 0
  {
    PhraseNoHits(rules[1].phraseKeywords, t);
    TokenNoHits(rules[1].tokenKeywords, present);
  }

  /** Score of the `duvida` rule on it. */
  lemma PraiseExampleDuvida(rules: seq<Rule>, t: string, present: set<string>)
    requires rules == ReferenceRules()
    requires present == TokenSet(["atendimento", "excelente", "parabens"])
    requires !IsSubstring("por que", t)
    ensures RuleScore(rules[2], t, present) == 0
  {
    PhraseNoHits(rules[2].phraseKeywords, t);
    TokenNoHits(rules[2].tokenKeywords, present);
  }

  /** Score of the `financeiro` rule on it. */
  lemma PraiseExampleFinanceiro(rules: seq<Rule>, t: string, present: set<string>)
    requires rules == ReferenceRules()
    requires present == TokenSet(["atendimento", "excelente", "parabens"])
    ensures RuleScore(rules[3], t, present) == 0
  {
    PhraseNoHits(rules[3].phraseKeywords, t);
    TokenNoHits(rules[3].tokenKeywords, present);
  }

  /** The four rule scores on it and their first maximum. */
  lemma PraiseExampleScores(rules: seq<Rule>, t: string, present: set<string>)
    requires rules == ReferenceRules()
    requires present == TokenSet(["atendimento", "excelente", "parabens"])
    requires !IsSubstring("nao funciona", t)
    requires !IsSubstring("nao esta funcionando", t)
    requires !IsSubstring("cobrado duas vezes", t)
    requires !IsSubstring("por que", t)
    ensures IsFirstMaximum(Scores(rules, t, present), 0)
    ensures rules[0].category == "elogio"
    ensures RuleMatches(rules[0], t, present) == ["excelente", "parabens"]
  {
    PraiseExampleElogio(rules, t, present);
    PraiseExampleReclamacao(rules, t, present);
    PraiseExampleDuvida(rules, t, present);
    PraiseExampleFinanceiro(rules, t, present);
    FirstMaxOfFour(Scores(rules, t, present), [5, 0, 0, 0], [5, 0, 0, 0], 0);
  }

  /** The classification of its layout. */
  lemma PraiseExampleOnLayout(rules: seq<Rule>, gaps: seq<string>, words: seq<string>)
    requires rules == ReferenceRules()
    requires gaps == ["", " ", ", ", ""]
    requires words == ["Atendimento", "excelente", "parabens"]
    ensures Classification(rules, Interleave(gaps, words)) == ClassificationResult("elogio", ["excelente", "parabens"])
  {
    var ns := ["atendimento", "excelente", "parabens"];
    PraiseExampleNormalized(gaps, words, ns);
    PraiseExampleTokens(gaps, ns);
    var t, present := Interleave(gaps, ns), TokenSet(ns);
    PraiseExampleNaoFunciona(gaps, ns);
    PraiseExampleNaoEstaFuncionando(gaps, ns);
    PraiseExampleCobradoDuasVezes(gaps, ns);
    PraiseExamplePorQue(gaps, ns);
    PraiseExampleScores(rules, t, present);
    ClassifiedAs(rules, Interleave(gaps, words), t, present, 0);
  }

  /** The string is the layout of its words and separators. */
  lemma PraiseExampleText(gaps: seq<string>, words: seq<string>, text: string)
    requires gaps == ["", " ", ", ", ""]
    requires words == ["Atendimento", "excelente", "parabens"]
    requires text == "Atendimento excelente, parabens"
    ensures Interleave(gaps, words) == text
  {
    LayoutOfThree(gaps, words);
    assert gaps[0] + words[0] == "Atendimento";
    assert gaps[1] + words[1] == " excelente";
    assert gaps[2] + words[2] == ", parabens";
    PraiseExampleHalves(text);
    PraiseExampleFront("Atendimento excelente", ", parabens");
    PraiseExampleBack(", parabens");
  }

  /** "Atendimento excelente, parabens" is classified as `elogio` (tests/test_classificador.py, line 11). */
  lemma PraiseExample(rules: seq<Rule>)
    requires rules == ReferenceRules()
    ensures Classification(rules, "Atendimento excelente, parabens") == ClassificationResult("elogio", ["excelente", "parabens"])
  {
    var gaps := ["", " ", ", ", ""];
    var words := ["Atendimento", "excelente", "parabens"];
    PraiseExampleText(gaps, words, "Atendimento excelente, parabens");
    PraiseExampleOnLayout(rules, gaps, words);
  }

  /** "O app esta ruim e nao funciona" (tests/test_classificador.py, line 15) normalised. */
  lemma ComplaintExampleNormalized(gaps: seq<string>, words: seq<string>, ns: seq<string>)
    requires gaps == ["", " ", " ", " ", " ", " ", " ", ""]
    requires words == ["O", "app", "esta", "ruim", "e", "nao", "funciona"]
    requires ns == ["o", "app", "esta", "ruim", "e", "nao", "funciona"]
    ensures Normalize(Interleave(gaps, words)) == Interleave(gaps, ns)
  {
    forall k | 0 <= k < |gaps| ensures Normalize(gaps[k]) == gaps[k] { }
    forall k | 0 <= k < |words| ensures Normalize(words[k]) == ns[k] { }
    NormalizeInterleave(gaps, words);
    assert NormalizeEach(gaps) == gaps && NormalizeEach(words) == ns;
  }

  /** Tokenising it gives back its normalised words. */
  lemma ComplaintExampleTokens(gaps: seq<string>, ns: seq<string>)
    requires gaps == ["", " ", " ", " ", " ", " ", " ", ""]
    requires ns == ["o", "app", "esta", "ruim", "e", "nao", "funciona"]
    ensures Tokens(Interleave(gaps, ns)) == ns
  {
    forall k | 0 <= k < |ns| ensures IsToken(ns[k]) { }
    forall k | 0 <= k < |gaps| ensures IsGap(gaps[k]) { }
    TokensOfInterleave(gaps, ns);
  }

  /** The phrase "nao funciona" occurs in it. */
  lemma ComplaintExampleNaoFunciona(gaps: seq<string>, ns: seq<string>, p: string)
    requires gaps == ["", " ", " ", " ", " ", " ", " ", ""]
    requires ns == ["o", "app", "esta", "ruim", "e", "nao", "funciona"]
    requires p == "nao funciona"
    ensures IsSubstring(p, Interleave(gaps, ns))
  {
    assert p == ns[5] + gaps[6] + ns[6];
    PhraseOfTwoWords(gaps, ns, 5);
  }

  /** The phrase "nao esta funcionando" does not occur in it: it has no 'd'. */
  lemma ComplaintExampleNaoEstaFuncionando(gaps: seq<string>, ns: seq<string>)
    requires gaps == ["", " ", " ", " ", " ", " ", " ", ""]
    requires ns == ["o", "app", "esta", "ruim", "e", "nao", "funciona"]
    ensures !IsSubstring("nao esta funcionando", Interleave(gaps, ns))
  {
    AbsentCharRulesOut("nao esta funcionando", gaps, ns, 'd');
  }

  /** The phrase "cobrado duas vezes" does not occur in it: it has no 'b'. */
  lemma ComplaintExampleCobradoDuasVezes(gaps: seq<string>, ns: seq<string>)
    requires gaps == ["", " ", " ", " ", " ", " ", " ", ""]
    requires ns == ["o", "app", "esta", "ruim", "e", "nao", "funciona"]
    ensures !IsSubstring("cobrado duas vezes", Interleave(gaps, ns))
  {
    AbsentCharRulesOut("cobrado duas vezes", gaps, ns, 'b');
  }

  /** The phrase "por que" does not occur in it: it has no 'q'. */
  lemma ComplaintExamplePorQue(gaps: seq<string>, ns: seq<string>)
    requires gaps == ["", " ", " ", " ", " ", " ", " ", ""]
    requires ns == ["o", "app", "esta", "ruim", "e", "nao", "funciona"]
    ensures !IsSubstring("por que", Interleave(gaps, ns))
  {
    AbsentCharRulesOut("por que", gaps, ns, 'q');
  }

  /** Score of the `elogio` rule on it. */
  lemma ComplaintExampleElogio(rules: seq<Rule>, t: string, present: set<string>)
    requires rules == ReferenceRules()
    requires present == TokenSet(["o", "app", "esta", "ruim", "e", "nao", "funciona"])
    ensures RuleScore(rules[0], t, present) == 0
  {
    PhraseNoHits(rules[0].phraseKeywords, t);
    TokenNoHits(rules[0].tokenKeywords, present);
  }

  /** Score of the `reclamacao` rule on it. */
  lemma ComplaintExampleReclamacao(rules: seq<Rule>, t: string, present: set<string>)
    requires rules == ReferenceRules()
    requires present == TokenSet(["o", "app", "esta", "ruim", "e", "nao", "funciona"])
    requires IsSubstring("nao funciona", t)
    requires !IsSubstring("nao esta funcionando", t)
    requires !IsSubstring("cobrado duas vezes", t)
    ensures RuleScore(rules[1], t, present) == 5
    ensures RuleMatches(rules[1], t, present) == ["nao funciona", "ruim"]
  {
    PhraseOneHit(rules[1].phraseKeywords, t, 0);
    TokenOneHit(rules[1].tokenKeywords, present, 0);
  }

  /** Score of the `duvida` rule on it. */
  lemma ComplaintExampleDuvida(rules: seq<Rule>, t: string, present: set<string>)
    requires rules == ReferenceRules()
    requires present == TokenSet(["o", "app", "esta", "ruim", "e", "nao", "funciona"])
    requires !IsSubstring("por que", t)
    ensures RuleScore(rules[2], t, present) == 0
  {
    PhraseNoHits(rules[2].phraseKeywords, t);
    TokenNoHits(rules[2].tokenKeywords, present);
  }

  /** Score of the `financeiro` rule on it. */
  lemma ComplaintExampleFinanceiro(rules: seq<Rule>, t: string, present: set<string>)
    requires rules == ReferenceRules()
    requires present == TokenSet(["o", "app", "esta", "ruim", "e", "nao", "funciona"])
    ensures RuleScore(rules[3], t, present) == 0
  {
    PhraseNoHits(rules[3].phraseKeywords, t);
    TokenNoHits(rules[3].tokenKeywords, present);
  }

  /** The four rule scores on it and their first maximum. */
  lemma ComplaintExampleScores(rules: seq<Rule>, t: string, present: set<string>)
    requires rules == ReferenceRules()
    requires present == TokenSet(["o", "app", "esta", "ruim", "e", "nao", "funciona"])
    requires IsSubstring("nao funciona", t)
    requires !IsSubstring("nao esta funcionando", t)
    requires !IsSubstring("cobrado duas vezes", t)
    requires !IsSubstring("por que", t)
    ensures IsFirstMaximum(Scores(rules, t, present), 1)
    ensures rules[1].category == "reclamacao"
    ensures RuleMatches(rules[1], t, present) == ["nao funciona", "ruim"]
  {
    ComplaintExampleElogio(rules, t, present);
    ComplaintExampleReclamacao(rules, t, present);
    ComplaintExampleDuvida(rules, t, present);
    ComplaintExampleFinanceiro(rules, t, present);
    FirstMaxOfFour(Scores(rules, t, present), [0, 5, 0, 0], [0, 5, 0, 0], 1);
  }

  /** The classification of its layout. */
  lemma ComplaintExampleOnLayout(rules: seq<Rule>, gaps: seq<string>, words: seq<string>)
    requires rules == ReferenceRules()
    requires gaps == ["", " ", " ", " ", " ", " ", " ", ""]
    requires words == ["O", "app", "esta", "ruim", "e", "nao", "funciona"]
    ensures Classification(rules, Interleave(gaps, words)) == ClassificationResult("reclamacao", ["nao funciona", "ruim"])
  {
    var ns := ["o", "app", "esta", "ruim", "e", "nao", "funciona"];
    ComplaintExampleNormalized(gaps, words, ns);
    ComplaintExampleTokens(gaps, ns);
    var t, present := Interleave(gaps, ns), TokenSet(ns);
    ComplaintExampleNaoFunciona(gaps, ns, "nao funciona");
    ComplaintExampleNaoEstaFuncionando(gaps, ns);
    ComplaintExampleCobradoDuasVezes(gaps, ns);
    ComplaintExamplePorQue(gaps, ns);
    ComplaintExampleScores(rules, t, present);
    ClassifiedAs(rules, Interleave(gaps, words), t, present, 1);
  }

  /** The string is the layout of its words and separators. */
  lemma ComplaintExampleText(gaps: seq<string>, words: seq<string>, text: string)
    requires gaps == ["", " ", " ", " ", " ", " ", " ", ""]
    requires words == ["O", "app", "esta", "ruim", "e", "nao", "funciona"]
    requires text == "O app esta ruim e nao funciona"
    ensures Interleave(gaps, words) == text
  {
    LayoutOfSeven(gaps, words);
    assert gaps[0] + words[0] == "O";
    assert gaps[1] + words[1] == " app";
    assert gaps[2] + words[2] == " esta";
    assert gaps[3] + words[3] == " ruim";
    assert gaps[4] + words[4] == " e";
    assert gaps[5] + words[5] == " nao";
    assert gaps[6] + words[6] == " funciona";
    ComplaintExampleHalves(text);
    ComplaintExampleFront("O app esta ruim", " e nao funciona");
    ComplaintExampleBack(" e nao funciona");
  }

  /** "O app esta ruim e nao funciona" is classified as `reclamacao` (tests/test_classificador.py, line 15). */
  lemma ComplaintExample(rules: seq<Rule>)
    requires rules == ReferenceRules()
    ensures Classification(rules, "O app esta ruim e nao funciona") == ClassificationResult("reclamacao", ["nao funciona", "ruim"])
  {
    var gaps := ["", " ", " ", " ", " ", " ", " ", ""];
    var words := ["O", "app", "esta", "ruim", "e", "nao", "funciona"];
    ComplaintExampleText(gaps, words, "O app esta ruim e nao funciona");
    ComplaintExampleOnLayout(rules, gaps, words);
  }

  /** "Como posso mudar minha senha?" (tests/test_classificador.py, line 19) normalised. */
  lemma QuestionExampleNormalized(gaps: seq<string>, words: seq<string>, ns: seq<string>)
    requires gaps == ["", " ", " ", " ", " ", "?"]
    requires words == ["Como", "posso", "mudar", "minha", "senha"]
    requires ns == ["como", "posso", "mudar", "minha", "senha"]
    ensures Normalize(Interleave(gaps, words)) == Interleave(gaps, ns)
  {
    forall k | 0 <= k < |gaps| ensures Normalize(gaps[k]) == gaps[k] { }
    forall k | 0 <= k < |words| ensures Normalize(words[k]) == ns[k] { }
    NormalizeInterleave(gaps, words);
    assert NormalizeEach(gaps) == gaps && NormalizeEach(words) == ns;
  }

  /** Tokenising it gives back its normalised words. */
  lemma QuestionExampleTokens(gaps: seq<string>, ns: seq<string>)
    requires gaps == ["", " ", " ", " ", " ", "?"]
    requires ns == ["como", "posso", "mudar", "minha", "senha"]
    ensures Tokens(Interleave(gaps, ns)) == ns
  {
    forall k | 0 <= k < |ns| ensures IsToken(ns[k]) { }
    forall k | 0 <= k < |gaps| ensures IsGap(gaps[k]) { }
    TokensOfInterleave(gaps, ns);
  }

  /** The phrase "nao funciona" does not occur in it: it has no 'f'. */
  lemma QuestionExampleNaoFunciona(gaps: seq<string>, ns: seq<string>)
    requires gaps == ["", " ", " ", " ", " ", "?"]
    requires ns == ["como", "posso", "mudar", "minha", "senha"]
    ensures !IsSubstring("nao funciona", Interleave(gaps, ns))
  {
    AbsentCharRulesOut("nao funciona", gaps, ns, 'f');
  }

  /** The phrase "nao esta funcionando" does not occur in it: it has no 't'. */
  lemma QuestionExampleNaoEstaFuncionando(gaps: seq<string>, ns: seq<string>)
    requires gaps == ["", " ", " ", " ", " ", "?"]
    requires ns == ["como", "posso", "mudar", "minha", "senha"]
    ensures !IsSubstring("nao esta funcionando", Interleave(gaps, ns))
  {
    AbsentCharRulesOut("nao esta funcionando", gaps, ns, 't');
  }

  /** The phrase "cobrado duas vezes" does not occur in it: it has no 'b'. */
  lemma QuestionExampleCobradoDuasVezes(gaps: seq<string>, ns: seq<string>)
    requires gaps == ["", " ", " ", " ", " ", "?"]
    requires ns == ["como", "posso", "mudar", "minha", "senha"]
    ensures !IsSubstring("cobrado duas vezes", Interleave(gaps, ns))
  {
    AbsentCharRulesOut("cobrado duas vezes", gaps, ns, 'b');
  }

  /** The phrase "por que" does not occur in it: it has no 'q'. */
  lemma QuestionExamplePorQue(gaps: seq<string>, ns: seq<string>)
    requires gaps == ["", " ", " ", " ", " ", "?"]
    requires ns == ["como", "posso", "mudar", "minha", "senha"]
    ensures !IsSubstring("por que", Interleave(gaps, ns))
  {
    AbsentCharRulesOut("por que", gaps, ns, 'q');
  }

  /** Score of the `elogio` rule on it. */
  lemma QuestionExampleElogio(rules: seq<Rule>, t: string, present: set<string>)
    requires rules == ReferenceRules()
    requires present == TokenSet(["como", "posso", "mudar", "minha", "senha"])
    ensures RuleScore(rules[0], t, present) == 0
  {
    PhraseNoHits(rules[0].phraseKeywords, t);
    TokenNoHits(rules[0].tokenKeywords, present);
  }

  /** Score of the `reclamacao` rule on it. */
  lemma QuestionExampleReclamacao(rules: seq<Rule>, t: string, present: set<string>)
    requires rules == ReferenceRules()
    requires present == TokenSet(["como", "posso", "mudar", "minha", "senha"])
    requires !IsSubstring("nao funciona", t)
    requires !IsSubstring("nao esta funcionando", t)
    requires !IsSubstring("cobrado duas vezes", t)
    ensures RuleScore(rules[1], t, present) == 0
  {
    PhraseNoHits(rules[1].phraseKeywords, t);
    TokenNoHits(rules[1].tokenKeywords, present);
  }

  /** Score of the `duvida` rule on it. */
  lemma QuestionExampleDuvida(rules: seq<Rule>, t: string, present: set<string>)
    requires rules == ReferenceRules()
    requires present == TokenSet(["como", "posso", "mudar", "minha", "senha"])
    requires !IsSubstring("por que", t)
    ensures RuleScore(rules[2], t, present) == 2
    ensures RuleMatches(rules[2], t, present) == ["como", "posso"]
  {
    PhraseNoHits(rules[2].phraseKeywords, t);
    TokenTwoHits(rules[2].tokenKeywords, present, 0, 8);
  }

  /** Score of the `financeiro` rule on it. */
  lemma QuestionExampleFinanceiro(rules: seq<Rule>, t: string, present: set<string>)
    requires rules == ReferenceRules()
    requires present == TokenSet(["como", "posso", "mudar", "minha", "senha"])
    ensures RuleScore(rules[3], t, present) == 0
  {
    PhraseNoHits(rules[3].phraseKeywords, t);
    TokenNoHits(rules[3].tokenKeywords, present);
  }

  /** The four rule scores on it and their first maximum. */
  lemma QuestionExampleScores(rules: seq<Rule>, t: string, present: set<string>)
    requires rules == ReferenceRules()
    requires present == TokenSet(["como", "posso", "mudar", "minha", "senha"])
    requires !IsSubstring("nao funciona", t)
    requires !IsSubstring("nao esta funcionando", t)
    requires !IsSubstring("cobrado duas vezes", t)
    requires !IsSubstring("por que", t)
    ensures IsFirstMaximum(Scores(rules, t, present), 2)
    ensures rules[2].category == "duvida"
    ensures RuleMatches(rules[2], t, present) == ["como", "posso"]
  {
    QuestionExampleElogio(rules, t, present);
    QuestionExampleReclamacao(rules, t, present);
    QuestionExampleDuvida(rules, t, present);
    QuestionExampleFinanceiro(rules, t, present);
    FirstMaxOfFour(Scores(rules, t, present), [0, 0, 2, 0], [0, 0, 2, 0], 2);
  }

  /** The classification of its layout. */
  lemma QuestionExampleOnLayout(rules: seq<Rule>, gaps: seq<string>, words: seq<string>)
    requires rules == ReferenceRules()
    requires gaps == ["", " ", " ", " ", " ", "?"]
    requires words == ["Como", "posso", "mudar", "minha", "senha"]
    ensures Classification(rules, Interleave(gaps, words)) == ClassificationResult("duvida", ["como", "posso"])
  {
    var ns := ["como", "posso", "mudar", "minha", "senha"];
    QuestionExampleNormalized(gaps, words, ns);
    QuestionExampleTokens(gaps, ns);
    var t, present := Interleave(gaps, ns), TokenSet(ns);
    QuestionExampleNaoFunciona(gaps, ns);
    QuestionExampleNaoEstaFuncionando(gaps, ns);
    QuestionExampleCobradoDuasVezes(gaps, ns);
    QuestionExamplePorQue(gaps, ns);
    QuestionExampleScores(rules, t, present);
    ClassifiedAs(rules, Interleave(gaps, words), t, present, 2);
  }

  /** The string is the layout of its words and separators. */
  lemma QuestionExampleText(gaps: seq<string>, words: seq<string>, text: string)
    requires gaps == ["", " ", " ", " ", " ", "?"]
    requires words == ["Como", "posso", "mudar", "minha", "senha"]
    requires text == "Como posso mudar minha senha?"
    ensures Interleave(gaps, words) == text
  {
    LayoutOfFive(gaps, words);
    assert gaps[0] + words[0] == "Como";
    assert gaps[1] + words[1] == " posso";
    assert gaps[2] + words[2] == " mudar";
    assert gaps[3] + words[3] == " minha";
    assert gaps[4] + words[4] == " senha";
    QuestionExampleHalves(text);
    QuestionExampleFront("Como posso mudar", " minha senha?");
    QuestionExampleBack(" minha senha?");
  }

  /** "Como posso mudar minha senha?" is classified as `duvida` (tests/test_classificador.py, line 19). */
  lemma QuestionExample(rules: seq<Rule>)
    requires rules == ReferenceRules()
    ensures Classification(rules, "Como posso mudar minha senha?") == ClassificationResult("duvida", ["como", "posso"])
  {
    var gaps := ["", " ", " ", " ", " ", "?"];
    var words := ["Como", "posso", "mudar", "minha", "senha"];
    QuestionExampleText(gaps, words, "Como posso mudar minha senha?");
    QuestionExampleOnLayout(rules, gaps, words);
  }

  /** "Qual o valor da assinatura e do boleto?" (tests/test_classificador.py, line 23) normalised. */
  lemma BillingExampleNormalized(gaps: seq<string>, words: seq<string>, ns: seq<string>)
    requires gaps == ["", " ", " ", " ", " ", " ", " ", " ", "?"]
    requires words == ["Qual", "o", "valor", "da", "assinatura", "e", "do", "boleto"]
    requires ns == ["qual", "o", "valor", "da", "assinatura", "e", "do", "boleto"]
    ensures Normalize(Interleave(gaps, words)) == Interleave(gaps, ns)
  {
    forall k | 0 <= k < |gaps| ensures Normalize(gaps[k]) == gaps[k] { }
    forall k | 0 <= k < |words| ensures Normalize(words[k]) == ns[k] { }
    NormalizeInterleave(gaps, words);
    assert NormalizeEach(gaps) == gaps && NormalizeEach(words) == ns;
  }

  /** Tokenising it gives back its normalised words. */
  lemma BillingExampleTokens(gaps: seq<string>, ns: seq<string>)
    requires gaps == ["", " ", " ", " ", " ", " ", " ", " ", "?"]
    requires ns == ["qual", "o", "valor", "da", "assinatura", "e", "do", "boleto"]
    ensures Tokens(Interleave(gaps, ns)) == ns
  {
    forall k | 0 <= k < |ns| ensures IsToken(ns[k]) { }
    forall k | 0 <= k < |gaps| ensures IsGap(gaps[k]) { }
    TokensOfInterleave(gaps, ns);
  }

  /** The phrase "nao funciona" does not occur in it: it has no 'f'. */
  lemma BillingExampleNaoFunciona(gaps: seq<string>, ns: seq<string>)
    requires gaps == ["", " ", " ", " ", " ", " ", " ", " ", "?"]
    requires ns == ["qual", "o", "valor", "da", "assinatura", "e", "do", "boleto"]
    ensures !IsSubstring("nao funciona", Interleave(gaps, ns))
  {
    AbsentCharRulesOut("nao funciona", gaps, ns, 'f');
  }

  /** The phrase "nao esta funcionando" does not occur in it: it has no 'f'. */
  lemma BillingExampleNaoEstaFuncionando(gaps: seq<string>, ns: seq<string>)
    requires gaps == ["", " ", " ", " ", " ", " ", " ", " ", "?"]
    requires ns == ["qual", "o", "valor", "da", "assinatura", "e", "do", "boleto"]
    ensures !IsSubstring("nao esta funcionando", Interleave(gaps, ns))
  {
    AbsentCharRulesOut("nao esta funcionando", gaps, ns, 'f');
  }

  /** The phrase "cobrado duas vezes" does not occur in it: it has no 'c'. */
  lemma BillingExampleCobradoDuasVezes(gaps: seq<string>, ns: seq<string>)
    requires gaps == ["", " ", " ", " ", " ", " ", " ", " ", "?"]
    requires ns == ["qual", "o", "valor", "da", "assinatura", "e", "do", "boleto"]
    ensures !IsSubstring("cobrado duas vezes", Interleave(gaps, ns))
  {
    AbsentCharRulesOut("cobrado duas vezes", gaps, ns, 'c');
  }

  /** The phrase "por que" does not occur in it: it has no 'p'. */
  lemma BillingExamplePorQue(gaps: seq<string>, ns: seq<string>)
    requires gaps == ["", " ", " ", " ", " ", " ", " ", " ", "?"]
    requires ns == ["qual", "o", "valor", "da", "assinatura", "e", "do", "boleto"]
    ensures !IsSubstring("por que", Interleave(gaps, ns))
  {
    AbsentCharRulesOut("por que", gaps, ns, 'p');
  }

  /** Score of the `elogio` rule on it. */
  lemma BillingExampleElogio(rules: seq<Rule>, t: string, present: set<string>)
    requires rules == ReferenceRules()
    requires present == TokenSet(["qual", "o", "valor", "da", "assinatura", "e", "do", "boleto"])
    ensures RuleScore(rules[0], t, present) == 0
  {
    PhraseNoHits(rules[0].phraseKeywords, t);
    TokenNoHits(rules[0].tokenKeywords, present);
  }

  /** Score of the `reclamacao` rule on it. */
  lemma BillingExampleReclamacao(rules: seq<Rule>, t: string, present: set<string>)
    requires rules == ReferenceRules()
    requires present == TokenSet(["qual", "o", "valor", "da", "assinatura", "e", "do", "boleto"])
    requires !IsSubstring("nao funciona", t)
    requires !IsSubstring("nao esta funcionando", t)
    requires !IsSubstring("cobrado duas vezes", t)
    ensures RuleScore(rules[1], t, present) == 0
  {
    PhraseNoHits(rules[1].phraseKeywords, t);
    TokenNoHits(rules[1].tokenKeywords, present);
  }

  /** Score of the `duvida` rule on it. */
  lemma BillingExampleDuvida(rules: seq<Rule>, t: string, present: set<string>)
    requires rules == ReferenceRules()
    requires present == TokenSet(["qual", "o", "valor", "da", "assinatura", "e", "do", "boleto"])
    requires !IsSubstring("por que", t)
    ensures RuleScore(rules[2], t, present) == 1
  {
    PhraseNoHits(rules[2].phraseKeywords, t);
    TokenOneHit(rules[2].tokenKeywords, present, 3);
  }

  /** Score of the `financeiro` rule on it. */
  lemma BillingExampleFinanceiro(rules: seq<Rule>, t: string, present: set<string>)
    requires rules == ReferenceRules()
    requires present == TokenSet(["qual", "o", "valor", "da", "assinatura", "e", "do", "boleto"])
    ensures RuleScore(rules[3], t, present) == 6
    ensures RuleMatches(rules[3], t, present) == ["valor", "boleto", "assinatura"]
  {
    PhraseNoHits(rules[3].phraseKeywords, t);
    TokenThreeHits(rules[3].tokenKeywords, present, 1, 5, 9);
  }

  /** The four rule scores on it and their first maximum. */
  lemma BillingExampleScores(rules: seq<Rule>, t: string, present: set<string>)
    requires rules == ReferenceRules()
    requires present == TokenSet(["qual", "o", "valor", "da", "assinatura", "e", "do", "boleto"])
    requires !IsSubstring("nao funciona", t)
    requires !IsSubstring("nao esta funcionando", t)
    requires !IsSubstring("cobrado duas vezes", t)
    requires !IsSubstring("por que", t)
    ensures IsFirstMaximum(Scores(rules, t, present), 3)
    ensures rules[3].category == "financeiro"
    ensures RuleMatches(rules[3], t, present) == ["valor", "boleto", "assinatura"]
  {
    BillingExampleElogio(rules, t, present);
    BillingExampleReclamacao(rules, t, present);
    BillingExampleDuvida(rules, t, present);
    BillingExampleFinanceiro(rules, t, present);
    FirstMaxOfFour(Scores(rules, t, present), [0, 0, 1, 6], [0, 0, 1, 6], 3);
  }

  /** The classification of its layout. */
  lemma BillingExampleOnLayout(rules: seq<Rule>, gaps: seq<string>, words: seq<string>)
    requires rules == ReferenceRules()
    requires gaps == ["", " ", " ", " ", " ", " ", " ", " ", "?"]
    requires words == ["Qual", "o", "valor", "da", "assinatura", "e", "do", "boleto"]
    ensures Classification(rules, Interleave(gaps, words)) == ClassificationResult("financeiro", ["valor", "boleto", "assinatura"])
  {
    var ns := ["qual", "o", "valor", "da", "assinatura", "e", "do", "boleto"];
    BillingExampleNormalized(gaps, words, ns);
    BillingExampleTokens(gaps, ns);
    var t, present := Interleave(gaps, ns), TokenSet(ns);
    BillingExampleNaoFunciona(gaps, ns);
    BillingExampleNaoEstaFuncionando(gaps, ns);
    BillingExampleCobradoDuasVezes(gaps, ns);
    BillingExamplePorQue(gaps, ns);
    BillingExampleScores(rules, t, present);
    ClassifiedAs(rules, Interleave(gaps, words), t, present, 3);
  }

  /** The string is the layout of its words and separators. */
  lemma BillingExampleText(gaps: seq<string>, words: seq<string>, text: string)
    requires gaps == ["", " ", " ", " ", " ", " ", " ", " ", "?"]
    requires words == ["Qual", "o", "valor", "da", "assinatura", "e", "do", "boleto"]
    requires text == "Qual o valor da assinatura e do boleto?"
    ensures Interleave(gaps, words) == text
  {
    LayoutOfEight(gaps, words);
    assert gaps[0] + words[0] == "Qual";
    assert gaps[1] + words[1] == " o";
    assert gaps[2] + words[2] == " valor";
    assert gaps[3] + words[3] == " da";
    assert gaps[4] + words[4] == " assinatura";
    assert gaps[5] + words[5] == " e";
    assert gaps[6] + words[6] == " do";
    assert gaps[7] + words[7] == " boleto";
    BillingExampleHalves(text);
    BillingExampleFront("Qual o valor da", " assinatura e do boleto?");
    BillingExampleBack(" assinatura e do boleto?");
  }

  /** "Qual o valor da assinatura e do boleto?" is classified as `financeiro` (tests/test_classificador.py, line 23). */
  lemma BillingExample(rules: seq<Rule>)
    requires rules == ReferenceRules()
    ensures Classification(rules, "Qual o valor da assinatura e do boleto?") == ClassificationResult("financeiro", ["valor", "boleto", "assinatura"])
  {
    var gaps := ["", " ", " ", " ", " ", " ", " ", " ", "?"];
    var words := ["Qual", "o", "valor", "da", "assinatura", "e", "do", "boleto"];
    BillingExampleText(gaps, words, "Qual o valor da assinatura e do boleto?");
    BillingExampleOnLayout(rules, gaps, words);
  }

  /** "Mensagem neutra sem palavras chave" (tests/test_classificador.py, line 27) normalised. */
  lemma NeutralExampleNormalized(gaps: seq<string>, words: seq<string>, ns: seq<string>)
    requires gaps == ["", " ", " ", " ", " ", ""]
    requires words == ["Mensagem", "neutra", "sem", "palavras", "chave"]
    requires ns == ["mensagem", "neutra", "sem", "palavras", "chave"]
    ensures Normalize(Interleave(gaps, words)) == Interleave(gaps, ns)
  {
    forall k | 0 <= k < |gaps| ensures Normalize(gaps[k]) == gaps[k] { }
    forall k | 0 <= k < |words| ensures Normalize(words[k]) == ns[k] { }
    NormalizeInterleave(gaps, words);
    assert NormalizeEach(gaps) == gaps && NormalizeEach(words) == ns;
  }

  /** Tokenising it gives back its normalised words. */
  lemma NeutralExampleTokens(gaps: seq<string>, ns: seq<string>)
    requires gaps == ["", " ", " ", " ", " ", ""]
    requires ns == ["mensagem", "neutra", "sem", "palavras", "chave"]
    ensures Tokens(Interleave(gaps, ns)) == ns
  {
    forall k | 0 <= k < |ns| ensures IsToken(ns[k]) { }
    forall k | 0 <= k < |gaps| ensures IsGap(gaps[k]) { }
    TokensOfInterleave(gaps, ns);
  }

  /** The phrase "nao funciona" does not occur in it: it has no 'o'. */
  lemma NeutralExampleNaoFunciona(gaps: seq<string>, ns: seq<string>)
    requires gaps == ["", " ", " ", " ", " ", ""]
    requires ns == ["mensagem", "neutra", "sem", "palavras", "chave"]
    ensures !IsSubstring("nao funciona", Interleave(gaps, ns))
  {
    AbsentCharRulesOut("nao funciona", gaps, ns, 'o');
  }

  /** The phrase "nao esta funcionando" does not occur in it: it has no 'o'. */
  lemma NeutralExampleNaoEstaFuncionando(gaps: seq<string>, ns: seq<string>)
    requires gaps == ["", " ", " ", " ", " ", ""]
    requires ns == ["mensagem", "neutra", "sem", "palavras", "chave"]
    ensures !IsSubstring("nao esta funcionando", Interleave(gaps, ns))
  {
    AbsentCharRulesOut("nao esta funcionando", gaps, ns, 'o');
  }

  /** The phrase "cobrado duas vezes" does not occur in it: it has no 'o'. */
  lemma NeutralExampleCobradoDuasVezes(gaps: seq<string>, ns: seq<string>)
    requires gaps == ["", " ", " ", " ", " ", ""]
    requires ns == ["mensagem", "neutra", "sem", "palavras", "chave"]
    ensures !IsSubstring("cobrado duas vezes", Interleave(gaps, ns))
  {
    AbsentCharRulesOut("cobrado duas vezes", gaps, ns, 'o');
  }

  /** The phrase "por que" does not occur in it: it has no 'o'. */
  lemma NeutralExamplePorQue(gaps: seq<string>, ns: seq<string>)
    requires gaps == ["", " ", " ", " ", " ", ""]
    requires ns == ["mensagem", "neutra", "sem", "palavras", "chave"]
    ensures !IsSubstring("por que", Interleave(gaps, ns))
  {
    AbsentCharRulesOut("por que", gaps, ns, 'o');
  }

  /** Score of the `elogio` rule on it. */
  lemma NeutralExampleElogio(rules: seq<Rule>, t: string, present: set<string>)
    requires rules == ReferenceRules()
    requires present == TokenSet(["mensagem", "neutra", "sem", "palavras", "chave"])
    ensures RuleScore(rules[0], t, present) == 0
  {
    PhraseNoHits(rules[0].phraseKeywords, t);
    TokenNoHits(rules[0].tokenKeywords, present);
  }

  /** Score of the `reclamacao` rule on it. */
  lemma NeutralExampleReclamacao(rules: seq<Rule>, t: string, present: set<string>)
    requires rules == ReferenceRules()
    requires present == TokenSet(["mensagem", "neutra", "sem", "palavras", "chave"])
    requires !IsSubstring("nao funciona", t)
    requires !IsSubstring("nao esta funcionando", t)
    requires !IsSubstring("cobrado duas vezes", t)
    ensures RuleScore(rules[1], t, present) == 0
  {
    PhraseNoHits(rules[1].phraseKeywords, t);
    TokenNoHits(rules[1].tokenKeywords, present);
  }

  /** Score of the `duvida` rule on it. */
  lemma NeutralExampleDuvida(rules: seq<Rule>, t: string, present: set<string>)
    requires rules == ReferenceRules()
    requires present == TokenSet(["mensagem", "neutra", "sem", "palavras", "chave"])
    requires !IsSubstring("por que", t)
    ensures RuleScore(rules[2], t, present) == 0
  {
    PhraseNoHits(rules[2].phraseKeywords, t);
    TokenNoHits(rules[2].tokenKeywords, present);
  }

  /** Score of the `financeiro` rule on it. */
  lemma NeutralExampleFinanceiro(rules: seq<Rule>, t: string, present: set<string>)
    requires rules == ReferenceRules()
    requires present == TokenSet(["mensagem", "neutra", "sem", "palavras", "chave"])
    ensures RuleScore(rules[3], t, present) == 0
  {
    PhraseNoHits(rules[3].phraseKeywords, t);
    TokenNoHits(rules[3].tokenKeywords, present);
  }

  /** The four rule scores on it and their first maximum. */
  lemma NeutralExampleScores(rules: seq<Rule>, t: string, present: set<string>)
    requires rules == ReferenceRules()
    requires present == TokenSet(["mensagem", "neutra", "sem", "palavras", "chave"])
    requires !IsSubstring("nao funciona", t)
    requires !IsSubstring("nao esta funcionando", t)
    requires !IsSubstring("cobrado duas vezes", t)
    requires !IsSubstring("por que", t)
    ensures IsFirstMaximum(Scores(rules, t, present), -1)
  {
    NeutralExampleElogio(rules, t, present);
    NeutralExampleReclamacao(rules, t, present);
    NeutralExampleDuvida(rules, t, present);
    NeutralExampleFinanceiro(rules, t, present);
    FirstMaxOfFour(Scores(rules, t, present), [0, 0, 0, 0], [0, 0, 0, 0], -1);
  }

  /** The classification of its layout. */
  lemma NeutralExampleOnLayout(rules: seq<Rule>, gaps: seq<string>, words: seq<string>)
    requires rules == ReferenceRules()
    requires gaps == ["", " ", " ", " ", " ", ""]
    requires words == ["Mensagem", "neutra", "sem", "palavras", "chave"]
    ensures Classification(rules, Interleave(gaps, words)) == ClassificationResult("outros", [])
  {
    var ns := ["mensagem", "neutra", "sem", "palavras", "chave"];
    NeutralExampleNormalized(gaps, words, ns);
    NeutralExampleTokens(gaps, ns);
    var t, present := Interleave(gaps, ns), TokenSet(ns);
    NeutralExampleNaoFunciona(gaps, ns);
    NeutralExampleNaoEstaFuncionando(gaps, ns);
    NeutralExampleCobradoDuasVezes(gaps, ns);
    NeutralExamplePorQue(gaps, ns);
    NeutralExampleScores(rules, t, present);
    ClassifiedAs(rules, Interleave(gaps, words), t, present, -1);
  }

  /** The string is the layout of its words and separators. */
  lemma NeutralExampleText(gaps: seq<string>, words: seq<string>, text: string)
    requires gaps == ["", " ", " ", " ", " ", ""]
    requires words == ["Mensagem", "neutra", "sem", "palavras", "chave"]
    requires text == "Mensagem neutra sem palavras chave"
    ensures Interleave(gaps, words) == text
  {
    LayoutOfFive(gaps, words);
    assert gaps[0] + words[0] == "Mensagem";
    assert gaps[1] + words[1] == " neutra";
    assert gaps[2] + words[2] == " sem";
    assert gaps[3] + words[3] == " palavras";
    assert gaps[4] + words[4] == " chave";
    NeutralExampleHalves(text);
    NeutralExampleFront("Mensagem neutra sem", " palavras chave");
    NeutralExampleBack(" palavras chave");
  }

  /** "Mensagem neutra sem palavras chave" is classified as `outros` (tests/test_classificador.py, line 27). */
  lemma NeutralExample(rules: seq<Rule>)
    requires rules == ReferenceRules()
    ensures Classification(rules, "Mensagem neutra sem palavras chave") == ClassificationResult("outros", [])
  {
    var gaps := ["", " ", " ", " ", " ", ""];
    var words := ["Mensagem", "neutra", "sem", "palavras", "chave"];
    NeutralExampleText(gaps, words, "Mensagem neutra sem palavras chave");
    NeutralExampleOnLayout(rules, gaps, words);
  }

  /** "Preciso de ajuda com pagamento" (tests/test_classificador.py, line 31) normalised. */
  lemma WeightDecidesExampleNormalized(gaps: seq<string>, words: seq<string>, ns: seq<string>)
    requires gaps == ["", " ", " ", " ", " ", ""]
    requires words == ["Preciso", "de", "ajuda", "com", "pagamento"]
    requires ns == ["preciso", "de", "ajuda", "com", "pagamento"]
    ensures Normalize(Interleave(gaps, words)) == Interleave(gaps, ns)
  {
    forall k | 0 <= k < |gaps| ensures Normalize(gaps[k]) == gaps[k] { }
    forall k | 0 <= k < |words| ensures Normalize(words[k]) == ns[k] { }
    NormalizeInterleave(gaps, words);
    assert NormalizeEach(gaps) == gaps && NormalizeEach(words) == ns;
  }

  /** Tokenising it gives back its normalised words. */
  lemma WeightDecidesExampleTokens(gaps: seq<string>, ns: seq<string>)
    requires gaps == ["", " ", " ", " ", " ", ""]
    requires ns == ["preciso", "de", "ajuda", "com", "pagamento"]
    ensures Tokens(Interleave(gaps, ns)) == ns
  {
    forall k | 0 <= k < |ns| ensures IsToken(ns[k]) { }
    forall k | 0 <= k < |gaps| ensures IsGap(gaps[k]) { }
    TokensOfInterleave(gaps, ns);
  }

  /** The phrase "nao funciona" does not occur in it: it has no 'f'. */
  lemma WeightDecidesExampleNaoFunciona(gaps: seq<string>, ns: seq<string>)
    requires gaps == ["", " ", " ", " ", " ", ""]
    requires ns == ["preciso", "de", "ajuda", "com", "pagamento"]
    ensures !IsSubstring("nao funciona", Interleave(gaps, ns))
  {
    AbsentCharRulesOut("nao funciona", gaps, ns, 'f');
  }

  /** The phrase "nao esta funcionando" does not occur in it: it has no 'f'. */
  lemma WeightDecidesExampleNaoEstaFuncionando(gaps: seq<string>, ns: seq<string>)
    requires gaps == ["", " ", " ", " ", " ", ""]
    requires ns == ["preciso", "de", "ajuda", "com", "pagamento"]
    ensures !IsSubstring("nao esta funcionando", Interleave(gaps, ns))
  {
    AbsentCharRulesOut("nao esta funcionando", gaps, ns, 'f');
  }

  /** The phrase "cobrado duas vezes" does not occur in it: it has no 'b'. */
  lemma WeightDecidesExampleCobradoDuasVezes(gaps: seq<string>, ns: seq<string>)
    requires gaps == ["", " ", " ", " ", " ", ""]
    requires ns == ["preciso", "de", "ajuda", "com", "pagamento"]
    ensures !IsSubstring("cobrado duas vezes", Interleave(gaps, ns))
  {
    AbsentCharRulesOut("cobrado duas vezes", gaps, ns, 'b');
  }

  /** The phrase "por que" does not occur in it: it has no 'q'. */
  lemma WeightDecidesExamplePorQue(gaps: seq<string>, ns: seq<string>)
    requires gaps == ["", " ", " ", " ", " ", ""]
    requires ns == ["preciso", "de", "ajuda", "com", "pagamento"]
    ensures !IsSubstring("por que", Interleave(gaps, ns))
  {
    AbsentCharRulesOut("por que", gaps, ns, 'q');
  }

  /** Score of the `elogio` rule on it. */
  lemma WeightDecidesExampleElogio(rules: seq<Rule>, t: string, present: set<string>)
    requires rules == ReferenceRules()
    requires present == TokenSet(["preciso", "de", "ajuda", "com", "pagamento"])
    ensures RuleScore(rules[0], t, present) == 0
  {
    PhraseNoHits(rules[0].phraseKeywords, t);
    TokenNoHits(rules[0].tokenKeywords, present);
  }

  /** Score of the `reclamacao` rule on it. */
  lemma WeightDecidesExampleReclamacao(rules: seq<Rule>, t: string, present: set<string>)
    requires rules == ReferenceRules()
    requires present == TokenSet(["preciso", "de", "ajuda", "com", "pagamento"])
    requires !IsSubstring("nao funciona", t)
    requires !IsSubstring("nao esta funcionando", t)
    requires !IsSubstring("cobrado duas vezes", t)
    ensures RuleScore(rules[1], t, present) == 0
  {
    PhraseNoHits(rules[1].phraseKeywords, t);
    TokenNoHits(rules[1].tokenKeywords, present);
  }

  /** Score of the `duvida` rule on it. */
  lemma WeightDecidesExampleDuvida(rules: seq<Rule>, t: string, present: set<string>)
    requires rules == ReferenceRules()
    requires present == TokenSet(["preciso", "de", "ajuda", "com", "pagamento"])
    requires !IsSubstring("por que", t)
    ensures RuleScore(rules[2], t, present) == 1
  {
    PhraseNoHits(rules[2].phraseKeywords, t);
    TokenOneHit(rules[2].tokenKeywords, present, 6);
  }

  /** Score of the `financeiro` rule on it. */
  lemma WeightDecidesExampleFinanceiro(rules: seq<Rule>, t: string, present: set<string>)
    requires rules == ReferenceRules()
    requires present == TokenSet(["preciso", "de", "ajuda", "com", "pagamento"])
    ensures RuleScore(rules[3], t, present) == 3
    ensures RuleMatches(rules[3], t, present) == ["pagamento"]
  {
    PhraseNoHits(rules[3].phraseKeywords, t);
    TokenOneHit(rules[3].tokenKeywords, present, 2);
  }

  /** The four rule scores on it and their first maximum. */
  lemma WeightDecidesExampleScores(rules: seq<Rule>, t: string, present: set<string>)
    requires rules == ReferenceRules()
    requires present == TokenSet(["preciso", "de", "ajuda", "com", "pagamento"])
    requires !IsSubstring("nao funciona", t)
    requires !IsSubstring("nao esta funcionando", t)
    requires !IsSubstring("cobrado duas vezes", t)
    requires !IsSubstring("por que", t)
    ensures IsFirstMaximum(Scores(rules, t, present), 3)
    ensures rules[3].category == "financeiro"
    ensures RuleMatches(rules[3], t, present) == ["pagamento"]
  {
    WeightDecidesExampleElogio(rules, t, present);
    WeightDecidesExampleReclamacao(rules, t, present);
    WeightDecidesExampleDuvida(rules, t, present);
    WeightDecidesExampleFinanceiro(rules, t, present);
    FirstMaxOfFour(Scores(rules, t, present), [0, 0, 1, 3], [0, 0, 1, 3], 3);
  }

  /** The classification of its layout. */
  lemma WeightDecidesExampleOnLayout(rules: seq<Rule>, gaps: seq<string>, words: seq<string>)
    requires rules == ReferenceRules()
    requires gaps == ["", " ", " ", " ", " ", ""]
    requires words == ["Preciso", "de", "ajuda", "com", "pagamento"]
    ensures Classification(rules, Interleave(gaps, words)) == ClassificationResult("financeiro", ["pagamento"])
  {
    var ns := ["preciso", "de", "ajuda", "com", "pagamento"];
    WeightDecidesExampleNormalized(gaps, words, ns);
    WeightDecidesExampleTokens(gaps, ns);
    var t, present := Interleave(gaps, ns), TokenSet(ns);
    WeightDecidesExampleNaoFunciona(gaps, ns);
    WeightDecidesExampleNaoEstaFuncionando(gaps, ns);
    WeightDecidesExampleCobradoDuasVezes(gaps, ns);
    WeightDecidesExamplePorQue(gaps, ns);
    WeightDecidesExampleScores(rules, t, present);
    ClassifiedAs(rules, Interleave(gaps, words), t, present, 3);
  }

  /** The string is the layout of its words and separators. */
  lemma WeightDecidesExampleText(gaps: seq<string>, words: seq<string>, text: string)
    requires gaps == ["", " ", " ", " ", " ", ""]
    requires words == ["Preciso", "de", "ajuda", "com", "pagamento"]
    requires text == "Preciso de ajuda com pagamento"
    ensures Interleave(gaps, words) == text
  {
    LayoutOfFive(gaps, words);
    assert gaps[0] + words[0] == "Preciso";
    assert gaps[1] + words[1] == " de";
    assert gaps[2] + words[2] == " ajuda";
    assert gaps[3] + words[3] == " com";
    assert gaps[4] + words[4] == " pagamento";
    WeightDecidesExampleHalves(text);
    WeightDecidesExampleFront("Preciso de ajuda", " com pagamento");
    WeightDecidesExampleBack(" com pagamento");
  }

  /** "Preciso de ajuda com pagamento" is classified as `financeiro` (tests/test_classificador.py, line 31). */
  lemma WeightDecidesExample(rules: seq<Rule>)
    requires rules == ReferenceRules()
    ensures Classification(rules, "Preciso de ajuda com pagamento") == ClassificationResult("financeiro", ["pagamento"])
  {
    var gaps := ["", " ", " ", " ", " ", ""];
    var words := ["Preciso", "de", "ajuda", "com", "pagamento"];
    WeightDecidesExampleText(gaps, words, "Preciso de ajuda com pagamento");
    WeightDecidesExampleOnLayout(rules, gaps, words);
  }

  /** "Parab\U{00E9}ns, o atendimento foi \U{00F3}timo." (tests/test_classificador.py, line 35) normalised. */
  lemma AccentedPraiseExampleNormalized(gaps: seq<string>, words: seq<string>, ns: seq<string>)
    requires gaps == ["", ", ", " ", " ", " ", "."]
    requires words == ["Parab\U{00E9}ns", "o", "atendimento", "foi", "\U{00F3}timo"]
    requires ns == ["parabens", "o", "atendimento", "foi", "otimo"]
    ensures Normalize(Interleave(gaps, words)) == Interleave(gaps, ns)
  {
    forall k | 0 <= k < |gaps| ensures Normalize(gaps[k]) == gaps[k] { }
    forall k | 0 <= k < |words| ensures Normalize(words[k]) == ns[k] { }
    NormalizeInterleave(gaps, words);
    assert NormalizeEach(gaps) == gaps && NormalizeEach(words) == ns;
  }

  /** Tokenising it gives back its normalised words. */
  lemma AccentedPraiseExampleTokens(gaps: seq<string>, ns: seq<string>)
    requires gaps == ["", ", ", " ", " ", " ", "."]
    requires ns == ["parabens", "o", "atendimento", "foi", "otimo"]
    ensures Tokens(Interleave(gaps, ns)) == ns
  {
    forall k | 0 <= k < |ns| ensures IsToken(ns[k]) { }
    forall k | 0 <= k < |gaps| ensures IsGap(gaps[k]) { }
    TokensOfInterleave(gaps, ns);
  }

  /** The phrase "nao funciona" does not occur in it: it has no 'u'. */
  lemma AccentedPraiseExampleNaoFunciona(gaps: seq<string>, ns: seq<string>)
    requires gaps == ["", ", ", " ", " ", " ", "."]
    requires ns == ["parabens", "o", "atendimento", "foi", "otimo"]
    ensures !IsSubstring("nao funciona", Interleave(gaps, ns))
  {
    AbsentCharRulesOut("nao funciona", gaps, ns, 'u');
  }

  /** The phrase "nao esta funcionando" does not occur in it: it has no 'u'. */
  lemma AccentedPraiseExampleNaoEstaFuncionando(gaps: seq<string>, ns: seq<string>)
    requires gaps == ["", ", ", " ", " ", " ", "."]
    requires ns == ["parabens", "o", "atendimento", "foi", "otimo"]
    ensures !IsSubstring("nao esta funcionando", Interleave(gaps, ns))
  {
    AbsentCharRulesOut("nao esta funcionando", gaps, ns, 'u');
  }

  /** The phrase "cobrado duas vezes" does not occur in it: it has no 'c'. */
  lemma AccentedPraiseExampleCobradoDuasVezes(gaps: seq<string>, ns: seq<string>)
    requires gaps == ["", ", ", " ", " ", " ", "."]
    requires ns == ["parabens", "o", "atendimento", "foi", "otimo"]
    ensures !IsSubstring("cobrado duas vezes", Interleave(gaps, ns))
  {
    AbsentCharRulesOut("cobrado duas vezes", gaps, ns, 'c');
  }

  /** The phrase "por que" does not occur in it: it has no 'q'. */
  lemma AccentedPraiseExamplePorQue(gaps: seq<string>, ns: seq<string>)
    requires gaps == ["", ", ", " ", " ", " ", "."]
    requires ns == ["parabens", "o", "atendimento", "foi", "otimo"]
    ensures !IsSubstring("por que", Interleave(gaps, ns))
  {
    AbsentCharRulesOut("por que", gaps, ns, 'q');
  }

  /** Score of the `elogio` rule on it. */
  lemma AccentedPraiseExampleElogio(rules: seq<Rule>, t: string, present: set<string>)
    requires rules == ReferenceRules()
    requires present == TokenSet(["parabens", "o", "atendimento", "foi", "otimo"])
    ensures RuleScore(rules[0], t, present) == 4
    ensures RuleMatches(rules[0], t, present) == ["otimo", "parabens"]
  {
    PhraseNoHits(rules[0].phraseKeywords, t);
    TokenTwoHits(rules[0].tokenKeywords, present, 2, 6);
  }

  /** Score of the `reclamacao` rule on it. */
  lemma AccentedPraiseExampleReclamacao(rules: seq<Rule>, t: string, present: set<string>)
    requires rules == ReferenceRules()
    requires present == TokenSet(["parabens", "o", "atendimento", "foi", "otimo"])
    requires !IsSubstring("nao funciona", t)
    requires !IsSubstring("nao esta funcionando", t)
    requires !IsSubstring("cobrado duas vezes", t)
    ensures RuleScore(rules[1], t, present) == 0
  {
    PhraseNoHits(rules[1].phraseKeywords, t);
    TokenNoHits(rules[1].tokenKeywords, present);
  }

  /** Score of the `duvida` rule on it. */
  lemma AccentedPraiseExampleDuvida(rules: seq<Rule>, t: string, present: set<string>)
    requires rules == ReferenceRules()
    requires present == TokenSet(["parabens", "o", "atendimento", "foi", "otimo"])
    requires !IsSubstring("por que", t)
    ensures RuleScore(rules[2], t, present) == 0
  {
    PhraseNoHits(rules[2].phraseKeywords, t);
    TokenNoHits(rules[2].tokenKeywords, present);
  }

  /** Score of the `financeiro` rule on it. */
  lemma AccentedPraiseExampleFinanceiro(rules: seq<Rule>, t: string, present: set<string>)
    requires rules == ReferenceRules()
    requires present == TokenSet(["parabens", "o", "atendimento", "foi", "otimo"])
    ensures RuleScore(rules[3], t, present) == 0
  {
    PhraseNoHits(rules[3].phraseKeywords, t);
    TokenNoHits(rules[3].tokenKeywords, present);
  }

  /** The four rule scores on it and their first maximum. */
  lemma AccentedPraiseExampleScores(rules: seq<Rule>, t: string, present: set<string>)
    requires rules == ReferenceRules()
    requires present == TokenSet(["parabens", "o", "atendimento", "foi", "otimo"])
    requires !IsSubstring("nao funciona", t)
    requires !IsSubstring("nao esta funcionando", t)
    requires !IsSubstring("cobrado duas vezes", t)
    requires !IsSubstring("por que", t)
    ensures IsFirstMaximum(Scores(rules, t, present), 0)
    ensures rules[0].category == "elogio"
    ensures RuleMatches(rules[0], t, present) == ["otimo", "parabens"]
  {
    AccentedPraiseExampleElogio(rules, t, present);
    AccentedPraiseExampleReclamacao(rules, t, present);
    AccentedPraiseExampleDuvida(rules, t, present);
    AccentedPraiseExampleFinanceiro(rules, t, present);
    FirstMaxOfFour(Scores(rules, t, present), [4, 0, 0, 0], [4, 0, 0, 0], 0);
  }

  /** The classification of its layout. */
  lemma AccentedPraiseExampleOnLayout(rules: seq<Rule>, gaps: seq<string>, words: seq<string>)
    requires rules == ReferenceRules()
    requires gaps == ["", ", ", " ", " ", " ", "."]
    requires words == ["Parab\U{00E9}ns", "o", "atendimento", "foi", "\U{00F3}timo"]
    ensures Classification(rules, Interleave(gaps, words)) == ClassificationResult("elogio", ["otimo", "parabens"])
  {
    var ns := ["parabens", "o", "atendimento", "foi", "otimo"];
    AccentedPraiseExampleNormalized(gaps, words, ns);
    AccentedPraiseExampleTokens(gaps, ns);
    var t, present := Interleave(gaps, ns), TokenSet(ns);
    AccentedPraiseExampleNaoFunciona(gaps, ns);
    AccentedPraiseExampleNaoEstaFuncionando(gaps, ns);
    AccentedPraiseExampleCobradoDuasVezes(gaps, ns);
    AccentedPraiseExamplePorQue(gaps, ns);
    AccentedPraiseExampleScores(rules, t, present);
    ClassifiedAs(rules, Interleave(gaps, words), t, present, 0);
  }

  /** The string is the layout of its words and separators. */
  lemma AccentedPraiseExampleText(gaps: seq<string>, words: seq<string>, text: string)
    requires gaps == ["", ", ", " ", " ", " ", "."]
    requires words == ["Parab\U{00E9}ns", "o", "atendimento", "foi", "\U{00F3}timo"]
    requires text == "Parab\U{00E9}ns, o atendimento foi \U{00F3}timo."
    ensures Interleave(gaps, words) == text
  {
    LayoutOfFive(gaps, words);
    assert gaps[0] + words[0] == "Parab\U{00E9}ns";
    assert gaps[1] + words[1] == ", o";
    assert gaps[2] + words[2] == " atendimento";
    assert gaps[3] + words[3] == " foi";
    assert gaps[4] + words[4] == " \U{00F3}timo";
    AccentedPraiseExampleHalves(text);
    AccentedPraiseExampleFront("Parab\U{00E9}ns, o atendimento", " foi \U{00F3}timo.");
    AccentedPraiseExampleBack(" foi \U{00F3}timo.");
  }

  /** "Parab\U{00E9}ns, o atendimento foi \U{00F3}timo." is classified as `elogio` (tests/test_classificador.py, line 35). */
  lemma AccentedPraiseExample(rules: seq<Rule>)
    requires rules == ReferenceRules()
    ensures Classification(rules, "Parab\U{00E9}ns, o atendimento foi \U{00F3}timo.") == ClassificationResult("elogio", ["otimo", "parabens"])
  {
    var gaps := ["", ", ", " ", " ", " ", "."];
    var words := ["Parab\U{00E9}ns", "o", "atendimento", "foi", "\U{00F3}timo"];
    AccentedPraiseExampleText(gaps, words, "Parab\U{00E9}ns, o atendimento foi \U{00F3}timo.");
    AccentedPraiseExampleOnLayout(rules, gaps, words);
  }

  /** "COMO FA\U{00C7}O O PAGAMENTO???" (tests/test_classificador.py, line 40) normalised. */
  lemma UpperCaseBillingExampleNormalized(gaps: seq<string>, words: seq<string>, ns: seq<string>)
    requires gaps == ["", " ", " ", " ", "???"]
    requires words == ["COMO", "FA\U{00C7}O", "O", "PAGAMENTO"]
    requires ns == ["como", "faco", "o", "pagamento"]
    ensures Normalize(Interleave(gaps, words)) == Interleave(gaps, ns)
  {
    forall k | 0 <= k < |gaps| ensures Normalize(gaps[k]) == gaps[k] { }
    forall k | 0 <= k < |words| ensures Normalize(words[k]) == ns[k] { }
    NormalizeInterleave(gaps, words);
    assert NormalizeEach(gaps) == gaps && NormalizeEach(words) == ns;
  }

  /** Tokenising it gives back its normalised words. */
  lemma UpperCaseBillingExampleTokens(gaps: seq<string>, ns: seq<string>)
    requires gaps == ["", " ", " ", " ", "???"]
    requires ns == ["como", "faco", "o", "pagamento"]
    ensures Tokens(Interleave(gaps, ns)) == ns
  {
    forall k | 0 <= k < |ns| ensures IsToken(ns[k]) { }
    forall k | 0 <= k < |gaps| ensures IsGap(gaps[k]) { }
    TokensOfInterleave(gaps, ns);
  }

  /** The phrase "nao funciona" does not occur in it: it has no 'u'. */
  lemma UpperCaseBillingExampleNaoFunciona(gaps: seq<string>, ns: seq<string>)
    requires gaps == ["", " ", " ", " ", "???"]
    requires ns == ["como", "faco", "o", "pagamento"]
    ensures !IsSubstring("nao funciona", Interleave(gaps, ns))
  {
    AbsentCharRulesOut("nao funciona", gaps, ns, 'u');
  }

  /** The phrase "nao esta funcionando" does not occur in it: it has no 's'. */
  lemma UpperCaseBillingExampleNaoEstaFuncionando(gaps: seq<string>, ns: seq<string>)
    requires gaps == ["", " ", " ", " ", "???"]
    requires ns == ["como", "faco", "o", "pagamento"]
    ensures !IsSubstring("nao esta funcionando", Interleave(gaps, ns))
  {
    AbsentCharRulesOut("nao esta funcionando", gaps, ns, 's');
  }

  /** The phrase "cobrado duas vezes" does not occur in it: it has no 'b'. */
  lemma UpperCaseBillingExampleCobradoDuasVezes(gaps: seq<string>, ns: seq<string>)
    requires gaps == ["", " ", " ", " ", "???"]
    requires ns == ["como", "faco", "o", "pagamento"]
    ensures !IsSubstring("cobrado duas vezes", Interleave(gaps, ns))
  {
    AbsentCharRulesOut("cobrado duas vezes", gaps, ns, 'b');
  }

  /** The phrase "por que" does not occur in it: it has no 'r'. */
  lemma UpperCaseBillingExamplePorQue(gaps: seq<string>, ns: seq<string>)
    requires gaps == ["", " ", " ", " ", "???"]
    requires ns == ["como", "faco", "o", "pagamento"]
    ensures !IsSubstring("por que", Interleave(gaps, ns))
  {
    AbsentCharRulesOut("por que", gaps, ns, 'r');
  }

  /** Score of the `elogio` rule on it. */
  lemma UpperCaseBillingExampleElogio(rules: seq<Rule>, t: string, present: set<string>)
    requires rules == ReferenceRules()
    requires present == TokenSet(["como", "faco", "o", "pagamento"])
    ensures RuleScore(rules[0], t, present) == 0
  {
    PhraseNoHits(rules[0].phraseKeywords, t);
    TokenNoHits(rules[0].tokenKeywords, present);
  }

  /** Score of the `reclamacao` rule on it. */
  lemma UpperCaseBillingExampleReclamacao(rules: seq<Rule>, t: string, present: set<string>)
    requires rules == ReferenceRules()
    requires present == TokenSet(["como", "faco", "o", "pagamento"])
    requires !IsSubstring("nao funciona", t)
    requires !IsSubstring("nao esta funcionando", t)
    requires !IsSubstring("cobrado duas vezes", t)
    ensures RuleScore(rules[1], t, present) == 0
  {
    PhraseNoHits(rules[1].phraseKeywords, t);
    TokenNoHits(rules[1].tokenKeywords, present);
  }

  /** Score of the `duvida` rule on it. */
  lemma UpperCaseBillingExampleDuvida(rules: seq<Rule>, t: string, present: set<string>)
    requires rules == ReferenceRules()
    requires present == TokenSet(["como", "faco", "o", "pagamento"])
    requires !IsSubstring("por que", t)
    ensures RuleScore(rules[2], t, present) == 1
  {
    PhraseNoHits(rules[2].phraseKeywords, t);
    TokenOneHit(rules[2].tokenKeywords, present, 0);
  }

  /** Score of the `financeiro` rule on it. */
  lemma UpperCaseBillingExampleFinanceiro(rules: seq<Rule>, t: string, present: set<string>)
    requires rules == ReferenceRules()
    requires present == TokenSet(["como", "faco", "o", "pagamento"])
    ensures RuleScore(rules[3], t, present) == 3
    ensures RuleMatches(rules[3], t, present) == ["pagamento"]
  {
    PhraseNoHits(rules[3].phraseKeywords, t);
    TokenOneHit(rules[3].tokenKeywords, present, 2);
  }

  /** The four rule scores on it and their first maximum. */
  lemma UpperCaseBillingExampleScores(rules: seq<Rule>, t: string, present: set<string>)
    requires rules == ReferenceRules()
    requires present == TokenSet(["como", "faco", "o", "pagamento"])
    requires !IsSubstring("nao funciona", t)
    requires !IsSubstring("nao esta funcionando", t)
    requires !IsSubstring("cobrado duas vezes", t)
    requires !IsSubstring("por que", t)
    ensures IsFirstMaximum(Scores(rules, t, present), 3)
    ensures rules[3].category == "financeiro"
    ensures RuleMatches(rules[3], t, present) == ["pagamento"]
  {
    UpperCaseBillingExampleElogio(rules, t, present);
    UpperCaseBillingExampleReclamacao(rules, t, present);
    UpperCaseBillingExampleDuvida(rules, t, present);
    UpperCaseBillingExampleFinanceiro(rules, t, present);
    FirstMaxOfFour(Scores(rules, t, present), [0, 0, 1, 3], [0, 0, 1, 3], 3);
  }

  /** The classification of its layout. */
  lemma UpperCaseBillingExampleOnLayout(rules: seq<Rule>, gaps: seq<string>, words: seq<string>)
    requires rules == ReferenceRules()
    requires gaps == ["", " ", " ", " ", "???"]
    requires words == ["COMO", "FA\U{00C7}O", "O", "PAGAMENTO"]
    ensures Classification(rules, Interleave(gaps, words)) == ClassificationResult("financeiro", ["pagamento"])
  {
    var ns := ["como", "faco", "o", "pagamento"];
    UpperCaseBillingExampleNormalized(gaps, words, ns);
    UpperCaseBillingExampleTokens(gaps, ns);
    var t, present := Interleave(gaps, ns), TokenSet(ns);
    UpperCaseBillingExampleNaoFunciona(gaps, ns);
    UpperCaseBillingExampleNaoEstaFuncionando(gaps, ns);
    UpperCaseBillingExampleCobradoDuasVezes(gaps, ns);
    UpperCaseBillingExamplePorQue(gaps, ns);
    UpperCaseBillingExampleScores(rules, t, present);
    ClassifiedAs(rules, Interleave(gaps, words), t, present, 3);
  }

  /** The string is the layout of its words and separators. */
  lemma UpperCaseBillingExampleText(gaps: seq<string>, words: seq<string>, text: string)
    requires gaps == ["", " ", " ", " ", "???"]
    requires words == ["COMO", "FA\U{00C7}O", "O", "PAGAMENTO"]
    requires text == "COMO FA\U{00C7}O O PAGAMENTO???"
    ensures Interleave(gaps, words) == text
  {
    LayoutOfFour(gaps, words);
    assert gaps[0] + words[0] == "COMO";
    assert gaps[1] + words[1] == " FA\U{00C7}O";
    assert gaps[2] + words[2] == " O";
    assert gaps[3] + words[3] == " PAGAMENTO";
    UpperCaseBillingExampleHalves(text);
    UpperCaseBillingExampleFront("COMO FA\U{00C7}O", " O PAGAMENTO???");
    UpperCaseBillingExampleBack(" O PAGAMENTO???");
  }

  /** "COMO FA\U{00C7}O O PAGAMENTO???" is classified as `financeiro` (tests/test_classificador.py, line 40). */
  lemma UpperCaseBillingExample(rules: seq<Rule>)
    requires rules == ReferenceRules()
    ensures Classification(rules, "COMO FA\U{00C7}O O PAGAMENTO???") == ClassificationResult("financeiro", ["pagamento"])
  {
    var gaps := ["", " ", " ", " ", "???"];
    var words := ["COMO", "FA\U{00C7}O", "O", "PAGAMENTO"];
    UpperCaseBillingExampleText(gaps, words, "COMO FA\U{00C7}O O PAGAMENTO???");
    UpperCaseBillingExampleOnLayout(rules, gaps, words);
  }

  /** "O app nao funciona e fui cobrado duas vezes" (tests/test_classificador.py, line 45) normalised. */
  lemma ConflictExampleNormalized(gaps: seq<string>, words: seq<string>, ns: seq<string>)
    requires gaps == ["", " ", " ", " ", " ", " ", " ", " ", " ", ""]
    requires words == ["O", "app", "nao", "funciona", "e", "fui", "cobrado", "duas", "vezes"]
    requires ns == ["o", "app", "nao", "funciona", "e", "fui", "cobrado", "duas", "vezes"]
    ensures Normalize(Interleave(gaps, words)) == Interleave(gaps, ns)
  {
    forall k | 0 <= k < |gaps| ensures Normalize(gaps[k]) == gaps[k] { }
    forall k | 0 <= k < |words| ensures Normalize(words[k]) == ns[k] { }
    NormalizeInterleave(gaps, words);
    assert NormalizeEach(gaps) == gaps && NormalizeEach(words) == ns;
  }

  /** Tokenising it gives back its normalised words. */
  lemma ConflictExampleTokens(gaps: seq<string>, ns: seq<string>)
    requires gaps == ["", " ", " ", " ", " ", " ", " ", " ", " ", ""]
    requires ns == ["o", "app", "nao", "funciona", "e", "fui", "cobrado", "duas", "vezes"]
    ensures Tokens(Interleave(gaps, ns)) == ns
  {
    forall k | 0 <= k < |ns| ensures IsToken(ns[k]) { }
    forall k | 0 <= k < |gaps| ensures IsGap(gaps[k]) { }
    TokensOfInterleave(gaps, ns);
  }

  /** The phrase "nao funciona" occurs in it. */
  lemma ConflictExampleNaoFunciona(gaps: seq<string>, ns: seq<string>, p: string)
    requires gaps == ["", " ", " ", " ", " ", " ", " ", " ", " ", ""]
    requires ns == ["o", "app", "nao", "funciona", "e", "fui", "cobrado", "duas", "vezes"]
    requires p == "nao funciona"
    ensures IsSubstring(p, Interleave(gaps, ns))
  {
    assert p == ns[2] + gaps[3] + ns[3];
    PhraseOfTwoWords(gaps, ns, 2);
  }

  /** The phrase "nao esta funcionando" does not occur in it: it has no 't'. */
  lemma ConflictExampleNaoEstaFuncionando(gaps: seq<string>, ns: seq<string>)
    requires gaps == ["", " ", " ", " ", " ", " ", " ", " ", " ", ""]
    requires ns == ["o", "app", "nao", "funciona", "e", "fui", "cobrado", "duas", "vezes"]
    ensures !IsSubstring("nao esta funcionando", Interleave(gaps, ns))
  {
    AbsentCharRulesOut("nao esta funcionando", gaps, ns, 't');
  }

  /** The phrase "cobrado duas vezes" occurs in it. */
  lemma ConflictExampleCobradoDuasVezes(gaps: seq<string>, ns: seq<string>, p: string)
    requires gaps == ["", " ", " ", " ", " ", " ", " ", " ", " ", ""]
    requires ns == ["o", "app", "nao", "funciona", "e", "fui", "cobrado", "duas", "vezes"]
    requires p == "cobrado duas vezes"
    ensures IsSubstring(p, Interleave(gaps, ns))
  {
    assert p == ns[6] + gaps[7] + ns[7] + gaps[8] + ns[8];
    PhraseOfThreeWords(gaps, ns, 6);
  }

  /** The phrase "por que" does not occur in it: it has no 'q'. */
  lemma ConflictExamplePorQue(gaps: seq<string>, ns: seq<string>)
    requires gaps == ["", " ", " ", " ", " ", " ", " ", " ", " ", ""]
    requires ns == ["o", "app", "nao", "funciona", "e", "fui", "cobrado", "duas", "vezes"]
    ensures !IsSubstring("por que", Interleave(gaps, ns))
  {
    AbsentCharRulesOut("por que", gaps, ns, 'q');
  }

  /** Score of the `elogio` rule on it. */
  lemma ConflictExampleElogio(rules: seq<Rule>, t: string, present: set<string>)
    requires rules == ReferenceRules()
    requires present == TokenSet(["o", "app", "nao", "funciona", "e", "fui", "cobrado", "duas", "vezes"])
    ensures RuleScore(rules[0], t, present) == 0
  {
    PhraseNoHits(rules[0].phraseKeywords, t);
    TokenNoHits(rules[0].tokenKeywords, present);
  }

  /** Score of the `reclamacao` rule on it. */
  lemma ConflictExampleReclamacao(rules: seq<Rule>, t: string, present: set<string>)
    requires rules == ReferenceRules()
    requires present == TokenSet(["o", "app", "nao", "funciona", "e", "fui", "cobrado", "duas", "vezes"])
    requires IsSubstring("nao funciona", t)
    requires !IsSubstring("nao esta funcionando", t)
    requires IsSubstring("cobrado duas vezes", t)
    ensures RuleScore(rules[1], t, present) == 6
    ensures RuleMatches(rules[1], t, present) == ["nao funciona", "cobrado duas vezes"]
  {
    PhraseTwoHits(rules[1].phraseKeywords, t, 0, 2);
    TokenNoHits(rules[1].tokenKeywords, present);
  }

  /** Score of the `duvida` rule on it. */
  lemma ConflictExampleDuvida(rules: seq<Rule>, t: string, present: set<string>)
    requires rules == ReferenceRules()
    requires present == TokenSet(["o", "app", "nao", "funciona", "e", "fui", "cobrado", "duas", "vezes"])
    requires !IsSubstring("por que", t)
    ensures RuleScore(rules[2], t, present) == 0
  {
    PhraseNoHits(rules[2].phraseKeywords, t);
    TokenNoHits(rules[2].tokenKeywords, present);
  }

  /** Score of the `financeiro` rule on it. */
  lemma ConflictExampleFinanceiro(rules: seq<Rule>, t: string, present: set<string>)
    requires rules == ReferenceRules()
    requires present == TokenSet(["o", "app", "nao", "funciona", "e", "fui", "cobrado", "duas", "vezes"])
    ensures RuleScore(rules[3], t, present) == 1
  {
    PhraseNoHits(rules[3].phraseKeywords, t);
    TokenOneHit(rules[3].tokenKeywords, present, 4);
  }

  /** The four rule scores on it and their first maximum. */
  lemma ConflictExampleScores(rules: seq<Rule>, t: string, present: set<string>)
    requires rules == ReferenceRules()
    requires present == TokenSet(["o", "app", "nao", "funciona", "e", "fui", "cobrado", "duas", "vezes"])
    requires IsSubstring("nao funciona", t)
    requires !IsSubstring("nao esta funcionando", t)
    requires IsSubstring("cobrado duas vezes", t)
    requires !IsSubstring("por que", t)
    ensures IsFirstMaximum(Scores(rules, t, present), 1)
    ensures rules[1].category == "reclamacao"
    ensures RuleMatches(rules[1], t, present) == ["nao funciona", "cobrado duas vezes"]
  {
    ConflictExampleElogio(rules, t, present);
    ConflictExampleReclamacao(rules, t, present);
    ConflictExampleDuvida(rules, t, present);
    ConflictExampleFinanceiro(rules, t, present);
    FirstMaxOfFour(Scores(rules, t, present), [0, 6, 0, 1], [0, 6, 0, 1], 1);
  }

  /** The classification of its layout. */
  lemma ConflictExampleOnLayout(rules: seq<Rule>, gaps: seq<string>, words: seq<string>)
    requires rules == ReferenceRules()
    requires gaps == ["", " ", " ", " ", " ", " ", " ", " ", " ", ""]
    requires words == ["O", "app", "nao", "funciona", "e", "fui", "cobrado", "duas", "vezes"]
    ensures Classification(rules, Interleave(gaps, words)) == ClassificationResult("reclamacao", ["nao funciona", "cobrado duas vezes"])
  {
    var ns := ["o", "app", "nao", "funciona", "e", "fui", "cobrado", "duas", "vezes"];
    ConflictExampleNormalized(gaps, words, ns);
    ConflictExampleTokens(gaps, ns);
    var t, present := Interleave(gaps, ns), TokenSet(ns);
    ConflictExampleNaoFunciona(gaps, ns, "nao funciona");
    ConflictExampleNaoEstaFuncionando(gaps, ns);
    ConflictExampleCobradoDuasVezes(gaps, ns, "cobrado duas vezes");
    ConflictExamplePorQue(gaps, ns);
    ConflictExampleScores(rules, t, present);
    ClassifiedAs(rules, Interleave(gaps, words), t, present, 1);
  }

  /** The string is the layout of its words and separators. */
  lemma ConflictExampleText(gaps: seq<string>, words: seq<string>, text: string)
    requires gaps == ["", " ", " ", " ", " ", " ", " ", " ", " ", ""]
    requires words == ["O", "app", "nao", "funciona", "e", "fui", "cobrado", "duas", "vezes"]
    requires text == "O app nao funciona e fui cobrado duas vezes"
    ensures Interleave(gaps, words) == text
  {
    LayoutOfNine(gaps, words);
    assert gaps[0] + words[0] == "O";
    assert gaps[1] + words[1] == " app";
    assert gaps[2] + words[2] == " nao";
    assert gaps[3] + words[3] == " funciona";
    assert gaps[4] + words[4] == " e";
    assert gaps[5] + words[5] == " fui";
    assert gaps[6] + words[6] == " cobrado";
    assert gaps[7] + words[7] == " duas";
    assert gaps[8] + words[8] == " vezes";
    ConflictExampleHalves(text);
    ConflictExampleFront("O app nao funciona e", " fui cobrado duas vezes");
    ConflictExampleBack(" fui cobrado duas vezes");
  }

  /** "O app nao funciona e fui cobrado duas vezes" is classified as `reclamacao` (tests/test_classificador.py, line 45). */
  lemma ConflictExample(rules: seq<Rule>)
    requires rules == ReferenceRules()
    ensures Classification(rules, "O app nao funciona e fui cobrado duas vezes") == ClassificationResult("reclamacao", ["nao funciona", "cobrado duas vezes"])
  {
    var gaps := ["", " ", " ", " ", " ", " ", " ", " ", " ", ""];
    var words := ["O", "app", "nao", "funciona", "e", "fui", "cobrado", "duas", "vezes"];
    ConflictExampleText(gaps, words, "O app nao funciona e fui cobrado duas vezes");
    ConflictExampleOnLayout(rules, gaps, words);
  }

  /** "Qual o valor da assinatura mensal?" (tests/test_classificador.py, line 50) normalised. */
  lemma KeywordsReturnedExampleNormalized(gaps: seq<string>, words: seq<string>, ns: seq<string>)
    requires gaps == ["", " ", " ", " ", " ", " ", "?"]
    requires words == ["Qual", "o", "valor", "da", "assinatura", "mensal"]
    requires ns == ["qual", "o", "valor", "da", "assinatura", "mensal"]
    ensures Normalize(Interleave(gaps, words)) == Interleave(gaps, ns)
  {
    forall k | 0 <= k < |gaps| ensures Normalize(gaps[k]) == gaps[k] { }
    forall k | 0 <= k < |words| ensures Normalize(words[k]) == ns[k] { }
    NormalizeInterleave(gaps, words);
    assert NormalizeEach(gaps) == gaps && NormalizeEach(words) == ns;
  }

  /** Tokenising it gives back its normalised words. */
  lemma KeywordsReturnedExampleTokens(gaps: seq<string>, ns: seq<string>)
    requires gaps == ["", " ", " ", " ", " ", " ", "?"]
    requires ns == ["qual", "o", "valor", "da", "assinatura", "mensal"]
    ensures Tokens(Interleave(gaps, ns)) == ns
  {
    forall k | 0 <= k < |ns| ensures IsToken(ns[k]) { }
    forall k | 0 <= k < |gaps| ensures IsGap(gaps[k]) { }
    TokensOfInterleave(gaps, ns);
  }

  /** The phrase "nao funciona" does not occur in it: it has no 'f'. */
  lemma KeywordsReturnedExampleNaoFunciona(gaps: seq<string>, ns: seq<string>)
    requires gaps == ["", " ", " ", " ", " ", " ", "?"]
    requires ns == ["qual", "o", "valor", "da", "assinatura", "mensal"]
    ensures !IsSubstring("nao funciona", Interleave(gaps, ns))
  {
    AbsentCharRulesOut("nao funciona", gaps, ns, 'f');
  }

  /** The phrase "nao esta funcionando" does not occur in it: it has no 'f'. */
  lemma KeywordsReturnedExampleNaoEstaFuncionando(gaps: seq<string>, ns: seq<string>)
    requires gaps == ["", " ", " ", " ", " ", " ", "?"]
    requires ns == ["qual", "o", "valor", "da", "assinatura", "mensal"]
    ensures !IsSubstring("nao esta funcionando", Interleave(gaps, ns))
  {
    AbsentCharRulesOut("nao esta funcionando", gaps, ns, 'f');
  }

  /** The phrase "cobrado duas vezes" does not occur in it: it has no 'c'. */
  lemma KeywordsReturnedExampleCobradoDuasVezes(gaps: seq<string>, ns: seq<string>)
    requires gaps == ["", " ", " ", " ", " ", " ", "?"]
    requires ns == ["qual", "o", "valor", "da", "assinatura", "mensal"]
    ensures !IsSubstring("cobrado duas vezes", Interleave(gaps, ns))
  {
    AbsentCharRulesOut("cobrado duas vezes", gaps, ns, 'c');
  }

  /** The phrase "por que" does not occur in it: it has no 'p'. */
  lemma KeywordsReturnedExamplePorQue(gaps: seq<string>, ns: seq<string>)
    requires gaps == ["", " ", " ", " ", " ", " ", "?"]
    requires ns == ["qual", "o", "valor", "da", "assinatura", "mensal"]
    ensures !IsSubstring("por que", Interleave(gaps, ns))
  {
    AbsentCharRulesOut("por que", gaps, ns, 'p');
  }

  /** Score of the `elogio` rule on it. */
  lemma KeywordsReturnedExampleElogio(rules: seq<Rule>, t: string, present: set<string>)
    requires rules == ReferenceRules()
    requires present == TokenSet(["qual", "o", "valor", "da", "assinatura", "mensal"])
    ensures RuleScore(rules[0], t, present) == 0
  {
    PhraseNoHits(rules[0].phraseKeywords, t);
    TokenNoHits(rules[0].tokenKeywords, present);
  }

  /** Score of the `reclamacao` rule on it. */
  lemma KeywordsReturnedExampleReclamacao(rules: seq<Rule>, t: string, present: set<string>)
    requires rules == ReferenceRules()
    requires present == TokenSet(["qual", "o", "valor", "da", "assinatura", "mensal"])
    requires !IsSubstring("nao funciona", t)
    requires !IsSubstring("nao esta funcionando", t)
    requires !IsSubstring("cobrado duas vezes", t)
    ensures RuleScore(rules[1], t, present) == 0
  {
    PhraseNoHits(rules[1].phraseKeywords, t);
    TokenNoHits(rules[1].tokenKeywords, present);
  }

  /** Score of the `duvida` rule on it. */
  lemma KeywordsReturnedExampleDuvida(rules: seq<Rule>, t: string, present: set<string>)
    requires rules == ReferenceRules()
    requires present == TokenSet(["qual", "o", "valor", "da", "assinatura", "mensal"])
    requires !IsSubstring("por que", t)
    ensures RuleScore(rules[2], t, present) == 1
  {
    PhraseNoHits(rules[2].phraseKeywords, t);
    TokenOneHit(rules[2].tokenKeywords, present, 3);
  }

  /** Score of the `financeiro` rule on it. */
  lemma KeywordsReturnedExampleFinanceiro(rules: seq<Rule>, t: string, present: set<string>)
    requires rules == ReferenceRules()
    requires present == TokenSet(["qual", "o", "valor", "da", "assinatura", "mensal"])
    ensures RuleScore(rules[3], t, present) == 4
    ensures RuleMatches(rules[3], t, present) == ["valor", "assinatura"]
  {
    PhraseNoHits(rules[3].phraseKeywords, t);
    TokenTwoHits(rules[3].tokenKeywords, present, 1, 9);
  }

  /** The four rule scores on it and their first maximum. */
  lemma KeywordsReturnedExampleScores(rules: seq<Rule>, t: string, present: set<string>)
    requires rules == ReferenceRules()
    requires present == TokenSet(["qual", "o", "valor", "da", "assinatura", "mensal"])
    requires !IsSubstring("nao funciona", t)
    requires !IsSubstring("nao esta funcionando", t)
    requires !IsSubstring("cobrado duas vezes", t)
    requires !IsSubstring("por que", t)
    ensures IsFirstMaximum(Scores(rules, t, present), 3)
    ensures rules[3].category == "financeiro"
    ensures RuleMatches(rules[3], t, present) == ["valor", "assinatura"]
  {
    KeywordsReturnedExampleElogio(rules, t, present);
    KeywordsReturnedExampleReclamacao(rules, t, present);
    KeywordsReturnedExampleDuvida(rules, t, present);
    KeywordsReturnedExampleFinanceiro(rules, t, present);
    FirstMaxOfFour(Scores(rules, t, present), [0, 0, 1, 4], [0, 0, 1, 4], 3);
  }

  /** The classification of its layout. */
  lemma KeywordsReturnedExampleOnLayout(rules: seq<Rule>, gaps: seq<string>, words: seq<string>)
    requires rules == ReferenceRules()
    requires gaps == ["", " ", " ", " ", " ", " ", "?"]
    requires words == ["Qual", "o", "valor", "da", "assinatura", "mensal"]
    ensures Classification(rules, Interleave(gaps, words)) == ClassificationResult("financeiro", ["valor", "assinatura"])
  {
    var ns := ["qual", "o", "valor", "da", "assinatura", "mensal"];
    KeywordsReturnedExampleNormalized(gaps, words, ns);
    KeywordsReturnedExampleTokens(gaps, ns);
    var t, present := Interleave(gaps, ns), TokenSet(ns);
    KeywordsReturnedExampleNaoFunciona(gaps, ns);
    KeywordsReturnedExampleNaoEstaFuncionando(gaps, ns);
    KeywordsReturnedExampleCobradoDuasVezes(gaps, ns);
    KeywordsReturnedExamplePorQue(gaps, ns);
    KeywordsReturnedExampleScores(rules, t, present);
    ClassifiedAs(rules, Interleave(gaps, words), t, present, 3);
  }

  /** The string is the layout of its words and separators. */
  lemma KeywordsReturnedExampleText(gaps: seq<string>, words: seq<string>, text: string)
    requires gaps == ["", " ", " ", " ", " ", " ", "?"]
    requires words == ["Qual", "o", "valor", "da", "assinatura", "mensal"]
    requires text == "Qual o valor da assinatura mensal?"
    ensures Interleave(gaps, words) == text
  {
    LayoutOfSix(gaps, words);
    assert gaps[0] + words[0] == "Qual";
    assert gaps[1] + words[1] == " o";
    assert gaps[2] + words[2] == " valor";
    assert gaps[3] + words[3] == " da";
    assert gaps[4] + words[4] == " assinatura";
    assert gaps[5] + words[5] == " mensal";
    KeywordsReturnedExampleHalves(text);
    KeywordsReturnedExampleFront("Qual o valor", " da assinatura mensal?");
    KeywordsReturnedExampleBack(" da assinatura mensal?");
  }

  /** "Qual o valor da assinatura mensal?" is classified as `financeiro` (tests/test_classificador.py, line 50). */
  lemma KeywordsReturnedExample(rules: seq<Rule>)
    requires rules == ReferenceRules()
    ensures Classification(rules, "Qual o valor da assinatura mensal?") == ClassificationResult("financeiro", ["valor", "assinatura"])
  {
    var gaps := ["", " ", " ", " ", " ", " ", "?"];
    var words := ["Qual", "o", "valor", "da", "assinatura", "mensal"];
    KeywordsReturnedExampleText(gaps, words, "Qual o valor da assinatura mensal?");
    KeywordsReturnedExampleOnLayout(rules, gaps, words);
  }

  /** "Como faco para alterar meu plano?" (tests/test_classificador.py, line 57) normalised. */
  lemma ProvidedQuestionExampleNormalized(gaps: seq<string>, words: seq<string>, ns: seq<string>)
    requires gaps == ["", " ", " ", " ", " ", " ", "?"]
    requires words == ["Como", "faco", "para", "alterar", "meu", "plano"]
    requires ns == ["como", "faco", "para", "alterar", "meu", "plano"]
    ensures Normalize(Interleave(gaps, words)) == Interleave(gaps, ns)
  {
    forall k | 0 <= k < |gaps| ensures Normalize(gaps[k]) == gaps[k] { }
    forall k | 0 <= k < |words| ensures Normalize(words[k]) == ns[k] { }
    NormalizeInterleave(gaps, words);
    assert NormalizeEach(gaps) == gaps && NormalizeEach(words) == ns;
  }

  /** Tokenising it gives back its normalised words. */
  lemma ProvidedQuestionExampleTokens(gaps: seq<string>, ns: seq<string>)
    requires gaps == ["", " ", " ", " ", " ", " ", "?"]
    requires ns == ["como", "faco", "para", "alterar", "meu", "plano"]
    ensures Tokens(Interleave(gaps, ns)) == ns
  {
    forall k | 0 <= k < |ns| ensures IsToken(ns[k]) { }
    forall k | 0 <= k < |gaps| ensures IsGap(gaps[k]) { }
    TokensOfInterleave(gaps, ns);
  }

  /** The phrase "nao funciona" does not occur in it: it has no 'i'. */
  lemma ProvidedQuestionExampleNaoFunciona(gaps: seq<string>, ns: seq<string>)
    requires gaps == ["", " ", " ", " ", " ", " ", "?"]
    requires ns == ["como", "faco", "para", "alterar", "meu", "plano"]
    ensures !IsSubstring("nao funciona", Interleave(gaps, ns))
  {
    AbsentCharRulesOut("nao funciona", gaps, ns, 'i');
  }

  /** The phrase "nao esta funcionando" does not occur in it: it has no 's'. */
  lemma ProvidedQuestionExampleNaoEstaFuncionando(gaps: seq<string>, ns: seq<string>)
    requires gaps == ["", " ", " ", " ", " ", " ", "?"]
    requires ns == ["como", "faco", "para", "alterar", "meu", "plano"]
    ensures !IsSubstring("nao esta funcionando", Interleave(gaps, ns))
  {
    AbsentCharRulesOut("nao esta funcionando", gaps, ns, 's');
  }

  /** The phrase "cobrado duas vezes" does not occur in it: it has no 'b'. */
  lemma ProvidedQuestionExampleCobradoDuasVezes(gaps: seq<string>, ns: seq<string>)
    requires gaps == ["", " ", " ", " ", " ", " ", "?"]
    requires ns == ["como", "faco", "para", "alterar", "meu", "plano"]
    ensures !IsSubstring("cobrado duas vezes", Interleave(gaps, ns))
  {
    AbsentCharRulesOut("cobrado duas vezes", gaps, ns, 'b');
  }

  /** The phrase "por que" does not occur in it: it has no 'q'. */
  lemma ProvidedQuestionExamplePorQue(gaps: seq<string>, ns: seq<string>)
    requires gaps == ["", " ", " ", " ", " ", " ", "?"]
    requires ns == ["como", "faco", "para", "alterar", "meu", "plano"]
    ensures !IsSubstring("por que", Interleave(gaps, ns))
  {
    AbsentCharRulesOut("por que", gaps, ns, 'q');
  }

  /** Score of the `elogio` rule on it. */
  lemma ProvidedQuestionExampleElogio(rules: seq<Rule>, t: string, present: set<string>)
    requires rules == ReferenceRules()
    requires present == TokenSet(["como", "faco", "para", "alterar", "meu", "plano"])
    ensures RuleScore(rules[0], t, present) == 0
  {
    PhraseNoHits(rules[0].phraseKeywords, t);
    TokenNoHits(rules[0].tokenKeywords, present);
  }

  /** Score of the `reclamacao` rule on it. */
  lemma ProvidedQuestionExampleReclamacao(rules: seq<Rule>, t: string, present: set<string>)
    requires rules == ReferenceRules()
    requires present == TokenSet(["como", "faco", "para", "alterar", "meu", "plano"])
    requires !IsSubstring("nao funciona", t)
    requires !IsSubstring("nao esta funcionando", t)
    requires !IsSubstring("cobrado duas vezes", t)
    ensures RuleScore(rules[1], t, present) == 0
  {
    PhraseNoHits(rules[1].phraseKeywords, t);
    TokenNoHits(rules[1].tokenKeywords, present);
  }

  /** Score of the `duvida` rule on it. */
  lemma ProvidedQuestionExampleDuvida(rules: seq<Rule>, t: string, present: set<string>)
    requires rules == ReferenceRules()
    requires present == TokenSet(["como", "faco", "para", "alterar", "meu", "plano"])
    requires !IsSubstring("por que", t)
    ensures RuleScore(rules[2], t, present) == 1
    ensures RuleMatches(rules[2], t, present) == ["como"]
  {
    PhraseNoHits(rules[2].phraseKeywords, t);
    TokenOneHit(rules[2].tokenKeywords, present, 0);
  }

  /** Score of the `financeiro` rule on it. */
  lemma ProvidedQuestionExampleFinanceiro(rules: seq<Rule>, t: string, present: set<string>)
    requires rules == ReferenceRules()
    requires present == TokenSet(["como", "faco", "para", "alterar", "meu", "plano"])
    ensures RuleScore(rules[3], t, present) == 0
  {
    PhraseNoHits(rules[3].phraseKeywords, t);
    TokenNoHits(rules[3].tokenKeywords, present);
  }

  /** The four rule scores on it and their first maximum. */
  lemma ProvidedQuestionExampleScores(rules: seq<Rule>, t: string, present: set<string>)
    requires rules == ReferenceRules()
    requires present == TokenSet(["como", "faco", "para", "alterar", "meu", "plano"])
    requires !IsSubstring("nao funciona", t)
    requires !IsSubstring("nao esta funcionando", t)
    requires !IsSubstring("cobrado duas vezes", t)
    requires !IsSubstring("por que", t)
    ensures IsFirstMaximum(Scores(rules, t, present), 2)
    ensures rules[2].category == "duvida"
    ensures RuleMatches(rules[2], t, present) == ["como"]
  {
    ProvidedQuestionExampleElogio(rules, t, present);
    ProvidedQuestionExampleReclamacao(rules, t, present);
    ProvidedQuestionExampleDuvida(rules, t, present);
    ProvidedQuestionExampleFinanceiro(rules, t, present);
    FirstMaxOfFour(Scores(rules, t, present), [0, 0, 1, 0], [0, 0, 1, 0], 2);
  }

  /** The classification of its layout. */
  lemma ProvidedQuestionExampleOnLayout(rules: seq<Rule>, gaps: seq<string>, words: seq<string>)
    requires rules == ReferenceRules()
    requires gaps == ["", " ", " ", " ", " ", " ", "?"]
    requires words == ["Como", "faco", "para", "alterar", "meu", "plano"]
    ensures Classification(rules, Interleave(gaps, words)) == ClassificationResult("duvida", ["como"])
  {
    var ns := ["como", "faco", "para", "alterar", "meu", "plano"];
    ProvidedQuestionExampleNormalized(gaps, words, ns);
    ProvidedQuestionExampleTokens(gaps, ns);
    var t, present := Interleave(gaps, ns), TokenSet(ns);
    ProvidedQuestionExampleNaoFunciona(gaps, ns);
    ProvidedQuestionExampleNaoEstaFuncionando(gaps, ns);
    ProvidedQuestionExampleCobradoDuasVezes(gaps, ns);
    ProvidedQuestionExamplePorQue(gaps, ns);
    ProvidedQuestionExampleScores(rules, t, present);
    ClassifiedAs(rules, Interleave(gaps, words), t, present, 2);
  }

  /** The string is the layout of its words and separators. */
  lemma ProvidedQuestionExampleText(gaps: seq<string>, words: seq<string>, text: string)
    requires gaps == ["", " ", " ", " ", " ", " ", "?"]
    requires words == ["Como", "faco", "para", "alterar", "meu", "plano"]
    requires text == "Como faco para alterar meu plano?"
    ensures Interleave(gaps, words) == text
  {
    LayoutOfSix(gaps, words);
    assert gaps[0] + words[0] == "Como";
    assert gaps[1] + words[1] == " faco";
    assert gaps[2] + words[2] == " para";
    assert gaps[3] + words[3] == " alterar";
    assert gaps[4] + words[4] == " meu";
    assert gaps[5] + words[5] == " plano";
    ProvidedQuestionExampleHalves(text);
    ProvidedQuestionExampleFront("Como faco para", " alterar meu plano?");
    ProvidedQuestionExampleBack(" alterar meu plano?");
  }

  /** "Como faco para alterar meu plano?" is classified as `duvida` (tests/test_classificador.py, line 57). */
  lemma ProvidedQuestionExample(rules: seq<Rule>)
    requires rules == ReferenceRules()
    ensures Classification(rules, "Como faco para alterar meu plano?") == ClassificationResult("duvida", ["como"])
  {
    var gaps := ["", " ", " ", " ", " ", " ", "?"];
    var words := ["Como", "faco", "para", "alterar", "meu", "plano"];
    ProvidedQuestionExampleText(gaps, words, "Como faco para alterar meu plano?");
    ProvidedQuestionExampleOnLayout(rules, gaps, words);
  }

  /** "Quando o pagamento e cobrado?" (tests/test_classificador.py, line 58) normalised. */
  lemma ProvidedBillingQuestionExampleNormalized(gaps: seq<string>, words: seq<string>, ns: seq<string>)
    requires gaps == ["", " ", " ", " ", " ", "?"]
    requires words == ["Quando", "o", "pagamento", "e", "cobrado"]
    requires ns == ["quando", "o", "pagamento", "e", "cobrado"]
    ensures Normalize(Interleave(gaps, words)) == Interleave(gaps, ns)
  {
    forall k | 0 <= k < |gaps| ensures Normalize(gaps[k]) == gaps[k] { }
    forall k | 0 <= k < |words| ensures Normalize(words[k]) == ns[k] { }
    NormalizeInterleave(gaps, words);
    assert NormalizeEach(gaps) == gaps && NormalizeEach(words) == ns;
  }

  /** Tokenising it gives back its normalised words. */
  lemma ProvidedBillingQuestionExampleTokens(gaps: seq<string>, ns: seq<string>)
    requires gaps == ["", " ", " ", " ", " ", "?"]
    requires ns == ["quando", "o", "pagamento", "e", "cobrado"]
    ensures Tokens(Interleave(gaps, ns)) == ns
  {
    forall k | 0 <= k < |ns| ensures IsToken(ns[k]) { }
    forall k | 0 <= k < |gaps| ensures IsGap(gaps[k]) { }
    TokensOfInterleave(gaps, ns);
  }

  /** The phrase "nao funciona" does not occur in it: it has no 'f'. */
  lemma ProvidedBillingQuestionExampleNaoFunciona(gaps: seq<string>, ns: seq<string>)
    requires gaps == ["", " ", " ", " ", " ", "?"]
    requires ns == ["quando", "o", "pagamento", "e", "cobrado"]
    ensures !IsSubstring("nao funciona", Interleave(gaps, ns))
  {
    AbsentCharRulesOut("nao funciona", gaps, ns, 'f');
  }

  /** The phrase "nao esta funcionando" does not occur in it: it has no 's'. */
  lemma ProvidedBillingQuestionExampleNaoEstaFuncionando(gaps: seq<string>, ns: seq<string>)
    requires gaps == ["", " ", " ", " ", " ", "?"]
    requires ns == ["quando", "o", "pagamento", "e", "cobrado"]
    ensures !IsSubstring("nao esta funcionando", Interleave(gaps, ns))
  {
    AbsentCharRulesOut("nao esta funcionando", gaps, ns, 's');
  }

  /** The phrase "cobrado duas vezes" does not occur in it: it has no 's'. */
  lemma ProvidedBillingQuestionExampleCobradoDuasVezes(gaps: seq<string>, ns: seq<string>)
    requires gaps == ["", " ", " ", " ", " ", "?"]
    requires ns == ["quando", "o", "pagamento", "e", "cobrado"]
    ensures !IsSubstring("cobrado duas vezes", Interleave(gaps, ns))
  {
    AbsentCharRulesOut("cobrado duas vezes", gaps, ns, 's');
  }

  /** Score of the `elogio` rule on it. */
  lemma ProvidedBillingQuestionExampleElogio(rules: seq<Rule>, t: string, present: set<string>)
    requires rules == ReferenceRules()
    requires present == TokenSet(["quando", "o", "pagamento", "e", "cobrado"])
    ensures RuleScore(rules[0], t, present) == 0
  {
    PhraseNoHits(rules[0].phraseKeywords, t);
    TokenNoHits(rules[0].tokenKeywords, present);
  }

  /** Score of the `reclamacao` rule on it. */
  lemma ProvidedBillingQuestionExampleReclamacao(rules: seq<Rule>, t: string, present: set<string>)
    requires rules == ReferenceRules()
    requires present == TokenSet(["quando", "o", "pagamento", "e", "cobrado"])
    requires !IsSubstring("nao funciona", t)
    requires !IsSubstring("nao esta funcionando", t)
    requires !IsSubstring("cobrado duas vezes", t)
    ensures RuleScore(rules[1], t, present) == 0
  {
    PhraseNoHits(rules[1].phraseKeywords, t);
    TokenNoHits(rules[1].tokenKeywords, present);
  }

  /** Score of the `duvida` rule on it. */
  lemma ProvidedBillingQuestionExampleDuvida(rules: seq<Rule>, t: string, present: set<string>)
    requires rules == ReferenceRules()
    requires present == TokenSet(["quando", "o", "pagamento", "e", "cobrado"])
    ensures 1 <= RuleScore(rules[2], t, present) <= 2
  {
    PhraseScoreAround(rules[2].phraseKeywords, t, 0);
    PhraseNoHits(rules[2].phraseKeywords[..0], t);
    PhraseNoHits(rules[2].phraseKeywords[1..], t);
    TokenOneHit(rules[2].tokenKeywords, present, 1);
  }

  /** Score of the `financeiro` rule on it. */
  lemma ProvidedBillingQuestionExampleFinanceiro(rules: seq<Rule>, t: string, present: set<string>)
    requires rules == ReferenceRules()
    requires present == TokenSet(["quando", "o", "pagamento", "e", "cobrado"])
    ensures RuleScore(rules[3], t, present) == 4
    ensures RuleMatches(rules[3], t, present) == ["pagamento", "cobrado"]
  {
    PhraseNoHits(rules[3].phraseKeywords, t);
    TokenTwoHits(rules[3].tokenKeywords, present, 2, 4);
  }

  /** The four rule scores on it and their first maximum. */
  lemma ProvidedBillingQuestionExampleScores(rules: seq<Rule>, t: string, present: set<string>)
    requires rules == ReferenceRules()
    requires present == TokenSet(["quando", "o", "pagamento", "e", "cobrado"])
    requires !IsSubstring("nao funciona", t)
    requires !IsSubstring("nao esta funcionando", t)
    requires !IsSubstring("cobrado duas vezes", t)
    ensures IsFirstMaximum(Scores(rules, t, present), 3)
    ensures rules[3].category == "financeiro"
  {
    ProvidedBillingQuestionExampleElogio(rules, t, present);
    ProvidedBillingQuestionExampleReclamacao(rules, t, present);
    ProvidedBillingQuestionExampleDuvida(rules, t, present);
    ProvidedBillingQuestionExampleFinanceiro(rules, t, present);
    FirstMaxOfFour(Scores(rules, t, present), [0, 0, 1, 4], [0, 0, 2, 4], 3);
  }

  /** The classification of its layout. */
  lemma ProvidedBillingQuestionExampleOnLayout(rules: seq<Rule>, gaps: seq<string>, words: seq<string>)
    requires rules == ReferenceRules()
    requires gaps == ["", " ", " ", " ", " ", "?"]
    requires words == ["Quando", "o", "pagamento", "e", "cobrado"]
    ensures Classification(rules, Interleave(gaps, words)) == ClassificationResult("financeiro", ["pagamento", "cobrado"])
  {
    var ns := ["quando", "o", "pagamento", "e", "cobrado"];
    ProvidedBillingQuestionExampleNormalized(gaps, words, ns);
    ProvidedBillingQuestionExampleTokens(gaps, ns);
    var t, present := Interleave(gaps, ns), TokenSet(ns);
    ProvidedBillingQuestionExampleNaoFunciona(gaps, ns);
    ProvidedBillingQuestionExampleNaoEstaFuncionando(gaps, ns);
    ProvidedBillingQuestionExampleCobradoDuasVezes(gaps, ns);
    ProvidedBillingQuestionExampleScores(rules, t, present);
    ProvidedBillingQuestionExampleFinanceiro(rules, t, present);
    ClassifiedAs(rules, Interleave(gaps, words), t, present, 3);
  }

  /** The string is the layout of its words and separators. */
  lemma ProvidedBillingQuestionExampleText(gaps: seq<string>, words: seq<string>, text: string)
    requires gaps == ["", " ", " ", " ", " ", "?"]
    requires words == ["Quando", "o", "pagamento", "e", "cobrado"]
    requires text == "Quando o pagamento e cobrado?"
    ensures Interleave(gaps, words) == text
  {
    LayoutOfFive(gaps, words);
    assert gaps[0] + words[0] == "Quando";
    assert gaps[1] + words[1] == " o";
    assert gaps[2] + words[2] == " pagamento";
    assert gaps[3] + words[3] == " e";
    assert gaps[4] + words[4] == " cobrado";
    ProvidedBillingQuestionExampleHalves(text);
    ProvidedBillingQuestionExampleFront("Quando o pagamento", " e cobrado?");
    ProvidedBillingQuestionExampleBack(" e cobrado?");
  }

  /** "Quando o pagamento e cobrado?" is classified as `financeiro` (tests/test_classificador.py, line 58). */
  lemma ProvidedBillingQuestionExample(rules: seq<Rule>)
    requires rules == ReferenceRules()
    ensures Classification(rules, "Quando o pagamento e cobrado?") == ClassificationResult("financeiro", ["pagamento", "cobrado"])
  {
    var gaps := ["", " ", " ", " ", " ", "?"];
    var words := ["Quando", "o", "pagamento", "e", "cobrado"];
    ProvidedBillingQuestionExampleText(gaps, words, "Quando o pagamento e cobrado?");
    ProvidedBillingQuestionExampleOnLayout(rules, gaps, words);
  }

  /** "O aplicativo nao esta funcionando desde ontem." (tests/test_classificador.py, line 59) normalised. */
  lemma ProvidedNotWorkingExampleNormalized(gaps: seq<string>, words: seq<string>, ns: seq<string>)
    requires gaps == ["", " ", " ", " ", " ", " ", " ", "."]
    requires words == ["O", "aplicativo", "nao", "esta", "funcionando", "desde", "ontem"]
    requires ns == ["o", "aplicativo", "nao", "esta", "funcionando", "desde", "ontem"]
    ensures Normalize(Interleave(gaps, words)) == Interleave(gaps, ns)
  {
    forall k | 0 <= k < |gaps| ensures Normalize(gaps[k]) == gaps[k] { }
    forall k | 0 <= k < |words| ensures Normalize(words[k]) == ns[k] { }
    NormalizeInterleave(gaps, words);
    assert NormalizeEach(gaps) == gaps && NormalizeEach(words) == ns;
  }

  /** Tokenising it gives back its normalised words. */
  lemma ProvidedNotWorkingExampleTokens(gaps: seq<string>, ns: seq<string>)
    requires gaps == ["", " ", " ", " ", " ", " ", " ", "."]
    requires ns == ["o", "aplicativo", "nao", "esta", "funcionando", "desde", "ontem"]
    ensures Tokens(Interleave(gaps, ns)) == ns
  {
    forall k | 0 <= k < |ns| ensures IsToken(ns[k]) { }
    forall k | 0 <= k < |gaps| ensures IsGap(gaps[k]) { }
    TokensOfInterleave(gaps, ns);
  }

  /** The phrase "nao esta funcionando" occurs in it. */
  lemma ProvidedNotWorkingExampleNaoEstaFuncionando(gaps: seq<string>, ns: seq<string>, p: string)
    requires gaps == ["", " ", " ", " ", " ", " ", " ", "."]
    requires ns == ["o", "aplicativo", "nao", "esta", "funcionando", "desde", "ontem"]
    requires p == "nao esta funcionando"
    ensures IsSubstring(p, Interleave(gaps, ns))
  {
    assert p == ns[2] + gaps[3] + ns[3] + gaps[4] + ns[4];
    PhraseOfThreeWords(gaps, ns, 2);
  }

  /** The phrase "cobrado duas vezes" does not occur in it: it has no 'b'. */
  lemma ProvidedNotWorkingExampleCobradoDuasVezes(gaps: seq<string>, ns: seq<string>)
    requires gaps == ["", " ", " ", " ", " ", " ", " ", "."]
    requires ns == ["o", "aplicativo", "nao", "esta", "funcionando", "desde", "ontem"]
    ensures !IsSubstring("cobrado duas vezes", Interleave(gaps, ns))
  {
    AbsentCharRulesOut("cobrado duas vezes", gaps, ns, 'b');
  }

  /** The phrase "por que" does not occur in it: it has no 'r'. */
  lemma ProvidedNotWorkingExamplePorQue(gaps: seq<string>, ns: seq<string>)
    requires gaps == ["", " ", " ", " ", " ", " ", " ", "."]
    requires ns == ["o", "aplicativo", "nao", "esta", "funcionando", "desde", "ontem"]
    ensures !IsSubstring("por que", Interleave(gaps, ns))
  {
    AbsentCharRulesOut("por que", gaps, ns, 'r');
  }

  /** Score of the `elogio` rule on it. */
  lemma ProvidedNotWorkingExampleElogio(rules: seq<Rule>, t: string, present: set<string>)
    requires rules == ReferenceRules()
    requires present == TokenSet(["o", "aplicativo", "nao", "esta", "funcionando", "desde", "ontem"])
    ensures RuleScore(rules[0], t, present) == 0
  {
    PhraseNoHits(rules[0].phraseKeywords, t);
    TokenNoHits(rules[0].tokenKeywords, present);
  }

  /** Score of the `reclamacao` rule on it. */
  lemma ProvidedNotWorkingExampleReclamacao(rules: seq<Rule>, t: string, present: set<string>)
    requires rules == ReferenceRules()
    requires present == TokenSet(["o", "aplicativo", "nao", "esta", "funcionando", "desde", "ontem"])
    requires IsSubstring("nao esta funcionando", t)
    requires !IsSubstring("cobrado duas vezes", t)
    ensures 3 <= RuleScore(rules[1], t, present) <= 6
  {
    PhraseScoreAround(rules[1].phraseKeywords, t, 0);
    PhraseNoHits(rules[1].phraseKeywords[..0], t);
    PhraseOneHit(rules[1].phraseKeywords[1..], t, 0);
    TokenNoHits(rules[1].tokenKeywords, present);
  }

  /** Score of the `duvida` rule on it. */
  lemma ProvidedNotWorkingExampleDuvida(rules: seq<Rule>, t: string, present: set<string>)
    requires rules == ReferenceRules()
    requires present == TokenSet(["o", "aplicativo", "nao", "esta", "funcionando", "desde", "ontem"])
    requires !IsSubstring("por que", t)
    ensures RuleScore(rules[2], t, present) == 0
  {
    PhraseNoHits(rules[2].phraseKeywords, t);
    TokenNoHits(rules[2].tokenKeywords, present);
  }

  /** Score of the `financeiro` rule on it. */
  lemma ProvidedNotWorkingExampleFinanceiro(rules: seq<Rule>, t: string, present: set<string>)
    requires rules == ReferenceRules()
    requires present == TokenSet(["o", "aplicativo", "nao", "esta", "funcionando", "desde", "ontem"])
    ensures RuleScore(rules[3], t, present) == 0
  {
    PhraseNoHits(rules[3].phraseKeywords, t);
    TokenNoHits(rules[3].tokenKeywords, present);
  }

  /** The four rule scores on it and their first maximum. */
  lemma ProvidedNotWorkingExampleScores(rules: seq<Rule>, t: string, present: set<string>)
    requires rules == ReferenceRules()
    requires present == TokenSet(["o", "aplicativo", "nao", "esta", "funcionando", "desde", "ontem"])
    requires IsSubstring("nao esta funcionando", t)
    requires !IsSubstring("cobrado duas vezes", t)
    requires !IsSubstring("por que", t)
    ensures IsFirstMaximum(Scores(rules, t, present), 1)
    ensures rules[1].category == "reclamacao"
  {
    ProvidedNotWorkingExampleElogio(rules, t, present);
    ProvidedNotWorkingExampleReclamacao(rules, t, present);
    ProvidedNotWorkingExampleDuvida(rules, t, present);
    ProvidedNotWorkingExampleFinanceiro(rules, t, present);
    FirstMaxOfFour(Scores(rules, t, present), [0, 3, 0, 0], [0, 6, 0, 0], 1);
  }

  /** The classification of its layout. */
  lemma ProvidedNotWorkingExampleOnLayout(rules: seq<Rule>, gaps: seq<string>, words: seq<string>)
    requires rules == ReferenceRules()
    requires gaps == ["", " ", " ", " ", " ", " ", " ", "."]
    requires words == ["O", "aplicativo", "nao", "esta", "funcionando", "desde", "ontem"]
    ensures Classification(rules, Interleave(gaps, words)).category == "reclamacao"
  {
    var ns := ["o", "aplicativo", "nao", "esta", "funcionando", "desde", "ontem"];
    ProvidedNotWorkingExampleNormalized(gaps, words, ns);
    ProvidedNotWorkingExampleTokens(gaps, ns);
    var t, present := Interleave(gaps, ns), TokenSet(ns);
    ProvidedNotWorkingExampleNaoEstaFuncionando(gaps, ns, "nao esta funcionando");
    ProvidedNotWorkingExampleCobradoDuasVezes(gaps, ns);
    ProvidedNotWorkingExamplePorQue(gaps, ns);
    ProvidedNotWorkingExampleScores(rules, t, present);
    ClassifiedAs(rules, Interleave(gaps, words), t, present, 1);
  }

  /** The string is the layout of its words and separators. */
  lemma ProvidedNotWorkingExampleText(gaps: seq<string>, words: seq<string>, text: string)
    requires gaps == ["", " ", " ", " ", " ", " ", " ", "."]
    requires words == ["O", "aplicativo", "nao", "esta", "funcionando", "desde", "ontem"]
    requires text == "O aplicativo nao esta funcionando desde ontem."
    ensures Interleave(gaps, words) == text
  {
    LayoutOfSeven(gaps, words);
    assert gaps[0] + words[0] == "O";
    assert gaps[1] + words[1] == " aplicativo";
    assert gaps[2] + words[2] == " nao";
    assert gaps[3] + words[3] == " esta";
    assert gaps[4] + words[4] == " funcionando";
    assert gaps[5] + words[5] == " desde";
    assert gaps[6] + words[6] == " ontem";
    ProvidedNotWorkingExampleHalves(text);
    ProvidedNotWorkingExampleFront("O aplicativo nao esta", " funcionando desde ontem.");
    ProvidedNotWorkingExampleBack(" funcionando desde ontem.");
  }

  /** "O aplicativo nao esta funcionando desde ontem." is classified as `reclamacao` (tests/test_classificador.py, line 59). */
  lemma ProvidedNotWorkingExample(rules: seq<Rule>)
    requires rules == ReferenceRules()
    ensures Classification(rules, "O aplicativo nao esta funcionando desde ontem.").category == "reclamacao"
  {
    var gaps := ["", " ", " ", " ", " ", " ", " ", "."];
    var words := ["O", "aplicativo", "nao", "esta", "funcionando", "desde", "ontem"];
    ProvidedNotWorkingExampleText(gaps, words, "O aplicativo nao esta funcionando desde ontem.");
    ProvidedNotWorkingExampleOnLayout(rules, gaps, words);
  }

  /** "Fui cobrado duas vezes e ninguem responde." (tests/test_classificador.py, line 60) normalised. */
  lemma ProvidedChargedTwiceExampleNormalized(gaps: seq<string>, words: seq<string>, ns: seq<string>)
    requires gaps == ["", " ", " ", " ", " ", " ", " ", "."]
    requires words == ["Fui", "cobrado", "duas", "vezes", "e", "ninguem", "responde"]
    requires ns == ["fui", "cobrado", "duas", "vezes", "e", "ninguem", "responde"]
    ensures Normalize(Interleave(gaps, words)) == Interleave(gaps, ns)
  {
    forall k | 0 <= k < |gaps| ensures Normalize(gaps[k]) == gaps[k] { }
    forall k | 0 <= k < |words| ensures Normalize(words[k]) == ns[k] { }
    NormalizeInterleave(gaps, words);
    assert NormalizeEach(gaps) == gaps && NormalizeEach(words) == ns;
  }

  /** Tokenising it gives back its normalised words. */
  lemma ProvidedChargedTwiceExampleTokens(gaps: seq<string>, ns: seq<string>)
    requires gaps == ["", " ", " ", " ", " ", " ", " ", "."]
    requires ns == ["fui", "cobrado", "duas", "vezes", "e", "ninguem", "responde"]
    ensures Tokens(Interleave(gaps, ns)) == ns
  {
    forall k | 0 <= k < |ns| ensures IsToken(ns[k]) { }
    forall k | 0 <= k < |gaps| ensures IsGap(gaps[k]) { }
    TokensOfInterleave(gaps, ns);
  }

  /** The phrase "nao esta funcionando" does not occur in it: it has no 't'. */
  lemma ProvidedChargedTwiceExampleNaoEstaFuncionando(gaps: seq<string>, ns: seq<string>)
    requires gaps == ["", " ", " ", " ", " ", " ", " ", "."]
    requires ns == ["fui", "cobrado", "duas", "vezes", "e", "ninguem", "responde"]
    ensures !IsSubstring("nao esta funcionando", Interleave(gaps, ns))
  {
    AbsentCharRulesOut("nao esta funcionando", gaps, ns, 't');
  }

  /** The phrase "cobrado duas vezes" occurs in it. */
  lemma ProvidedChargedTwiceExampleCobradoDuasVezes(gaps: seq<string>, ns: seq<string>, p: string)
    requires gaps == ["", " ", " ", " ", " ", " ", " ", "."]
    requires ns == ["fui", "cobrado", "duas", "vezes", "e", "ninguem", "responde"]
    requires p == "cobrado duas vezes"
    ensures IsSubstring(p, Interleave(gaps, ns))
  {
    assert p == ns[1] + gaps[2] + ns[2] + gaps[3] + ns[3];
    PhraseOfThreeWords(gaps, ns, 1);
  }

  /** The phrase "por que" does not occur in it: it has no 'q'. */
  lemma ProvidedChargedTwiceExamplePorQue(gaps: seq<string>, ns: seq<string>)
    requires gaps == ["", " ", " ", " ", " ", " ", " ", "."]
    requires ns == ["fui", "cobrado", "duas", "vezes", "e", "ninguem", "responde"]
    ensures !IsSubstring("por que", Interleave(gaps, ns))
  {
    AbsentCharRulesOut("por que", gaps, ns, 'q');
  }

  /** Score of the `elogio` rule on it. */
  lemma ProvidedChargedTwiceExampleElogio(rules: seq<Rule>, t: string, present: set<string>)
    requires rules == ReferenceRules()
    requires present == TokenSet(["fui", "cobrado", "duas", "vezes", "e", "ninguem", "responde"])
    ensures RuleScore(rules[0], t, present) == 0
  {
    PhraseNoHits(rules[0].phraseKeywords, t);
    TokenNoHits(rules[0].tokenKeywords, present);
  }

  /** Score of the `reclamacao` rule on it. */
  lemma ProvidedChargedTwiceExampleReclamacao(rules: seq<Rule>, t: string, present: set<string>)
    requires rules == ReferenceRules()
    requires present == TokenSet(["fui", "cobrado", "duas", "vezes", "e", "ninguem", "responde"])
    requires !IsSubstring("nao esta funcionando", t)
    requires IsSubstring("cobrado duas vezes", t)
    ensures 3 <= RuleScore(rules[1], t, present) <= 6
  {
    PhraseScoreAround(rules[1].phraseKeywords, t, 0);
    PhraseNoHits(rules[1].phraseKeywords[..0], t);
    PhraseOneHit(rules[1].phraseKeywords[1..], t, 1);
    TokenNoHits(rules[1].tokenKeywords, present);
  }

  /** Score of the `duvida` rule on it. */
  lemma ProvidedChargedTwiceExampleDuvida(rules: seq<Rule>, t: string, present: set<string>)
    requires rules == ReferenceRules()
    requires present == TokenSet(["fui", "cobrado", "duas", "vezes", "e", "ninguem", "responde"])
    requires !IsSubstring("por que", t)
    ensures RuleScore(rules[2], t, present) == 0
  {
    PhraseNoHits(rules[2].phraseKeywords, t);
    TokenNoHits(rules[2].tokenKeywords, present);
  }

  /** Score of the `financeiro` rule on it. */
  lemma ProvidedChargedTwiceExampleFinanceiro(rules: seq<Rule>, t: string, present: set<string>)
    requires rules == ReferenceRules()
    requires present == TokenSet(["fui", "cobrado", "duas", "vezes", "e", "ninguem", "responde"])
    ensures RuleScore(rules[3], t, present) == 1
  {
    PhraseNoHits(rules[3].phraseKeywords, t);
    TokenOneHit(rules[3].tokenKeywords, present, 4);
  }

  /** The four rule scores on it and their first maximum. */
  lemma ProvidedChargedTwiceExampleScores(rules: seq<Rule>, t: string, present: set<string>)
    requires rules == ReferenceRules()
    requires present == TokenSet(["fui", "cobrado", "duas", "vezes", "e", "ninguem", "responde"])
    requires !IsSubstring("nao esta funcionando", t)
    requires IsSubstring("cobrado duas vezes", t)
    requires !IsSubstring("por que", t)
    ensures IsFirstMaximum(Scores(rules, t, present), 1)
    ensures rules[1].category == "reclamacao"
  {
    ProvidedChargedTwiceExampleElogio(rules, t, present);
    ProvidedChargedTwiceExampleReclamacao(rules, t, present);
    ProvidedChargedTwiceExampleDuvida(rules, t, present);
    ProvidedChargedTwiceExampleFinanceiro(rules, t, present);
    FirstMaxOfFour(Scores(rules, t, present), [0, 3, 0, 1], [0, 6, 0, 1], 1);
  }

  /** The classification of its layout. */
  lemma ProvidedChargedTwiceExampleOnLayout(rules: seq<Rule>, gaps: seq<string>, words: seq<string>)
    requires rules == ReferenceRules()
    requires gaps == ["", " ", " ", " ", " ", " ", " ", "."]
    requires words == ["Fui", "cobrado", "duas", "vezes", "e", "ninguem", "responde"]
    ensures Classification(rules, Interleave(gaps, words)).category == "reclamacao"
  {
    var ns := ["fui", "cobrado", "duas", "vezes", "e", "ninguem", "responde"];
    ProvidedChargedTwiceExampleNormalized(gaps, words, ns);
    ProvidedChargedTwiceExampleTokens(gaps, ns);
    var t, present := Interleave(gaps, ns), TokenSet(ns);
    ProvidedChargedTwiceExampleNaoEstaFuncionando(gaps, ns);
    ProvidedChargedTwiceExampleCobradoDuasVezes(gaps, ns, "cobrado duas vezes");
    ProvidedChargedTwiceExamplePorQue(gaps, ns);
    ProvidedChargedTwiceExampleScores(rules, t, present);
    ClassifiedAs(rules, Interleave(gaps, words), t, present, 1);
  }

  /** The string is the layout of its words and separators. */
  lemma ProvidedChargedTwiceExampleText(gaps: seq<string>, words: seq<string>, text: string)
    requires gaps == ["", " ", " ", " ", " ", " ", " ", "."]
    requires words == ["Fui", "cobrado", "duas", "vezes", "e", "ninguem", "responde"]
    requires text == "Fui cobrado duas vezes e ninguem responde."
    ensures Interleave(gaps, words) == text
  {
    LayoutOfSeven(gaps, words);
    assert gaps[0] + words[0] == "Fui";
    assert gaps[1] + words[1] == " cobrado";
    assert gaps[2] + words[2] == " duas";
    assert gaps[3] + words[3] == " vezes";
    assert gaps[4] + words[4] == " e";
    assert gaps[5] + words[5] == " ninguem";
    assert gaps[6] + words[6] == " responde";
    ProvidedChargedTwiceExampleHalves(text);
    ProvidedChargedTwiceExampleFront("Fui cobrado duas vezes", " e ninguem responde.");
    ProvidedChargedTwiceExampleBack(" e ninguem responde.");
  }

  /** "Fui cobrado duas vezes e ninguem responde." is classified as `reclamacao` (tests/test_classificador.py, line 60). */
  lemma ProvidedChargedTwiceExample(rules: seq<Rule>)
    requires rules == ReferenceRules()
    ensures Classification(rules, "Fui cobrado duas vezes e ninguem responde.").category == "reclamacao"
  {
    var gaps := ["", " ", " ", " ", " ", " ", " ", "."];
    var words := ["Fui", "cobrado", "duas", "vezes", "e", "ninguem", "responde"];
    ProvidedChargedTwiceExampleText(gaps, words, "Fui cobrado duas vezes e ninguem responde.");
    ProvidedChargedTwiceExampleOnLayout(rules, gaps, words);
  }

  /** "Estou tendo problemas para acessar minha conta." (tests/test_classificador.py, line 61) normalised. */
  lemma ProvidedProblemsExampleNormalized(gaps: seq<string>, words: seq<string>, ns: seq<string>)
    requires gaps == ["", " ", " ", " ", " ", " ", " ", "."]
    requires words == ["Estou", "tendo", "problemas", "para", "acessar", "minha", "conta"]
    requires ns == ["estou", "tendo", "problemas", "para", "acessar", "minha", "conta"]
    ensures Normalize(Interleave(gaps, words)) == Interleave(gaps, ns)
  {
    forall k | 0 <= k < |gaps| ensures Normalize(gaps[k]) == gaps[k] { }
    forall k | 0 <= k < |words| ensures Normalize(words[k]) == ns[k] { }
    NormalizeInterleave(gaps, words);
    assert NormalizeEach(gaps) == gaps && NormalizeEach(words) == ns;
  }

  /** Tokenising it gives back its normalised words. */
  lemma ProvidedProblemsExampleTokens(gaps: seq<string>, ns: seq<string>)
    requires gaps == ["", " ", " ", " ", " ", " ", " ", "."]
    requires ns == ["estou", "tendo", "problemas", "para", "acessar", "minha", "conta"]
    ensures Tokens(Interleave(gaps, ns)) == ns
  {
    forall k | 0 <= k < |ns| ensures IsToken(ns[k]) { }
    forall k | 0 <= k < |gaps| ensures IsGap(gaps[k]) { }
    TokensOfInterleave(gaps, ns);
  }

  /** The phrase "nao funciona" does not occur in it: it has no 'f'. */
  lemma ProvidedProblemsExampleNaoFunciona(gaps: seq<string>, ns: seq<string>)
    requires gaps == ["", " ", " ", " ", " ", " ", " ", "."]
    requires ns == ["estou", "tendo", "problemas", "para", "acessar", "minha", "conta"]
    ensures !IsSubstring("nao funciona", Interleave(gaps, ns))
  {
    AbsentCharRulesOut("nao funciona", gaps, ns, 'f');
  }

  /** The phrase "nao esta funcionando" does not occur in it: it has no 'f'. */
  lemma ProvidedProblemsExampleNaoEstaFuncionando(gaps: seq<string>, ns: seq<string>)
    requires gaps == ["", " ", " ", " ", " ", " ", " ", "."]
    requires ns == ["estou", "tendo", "problemas", "para", "acessar", "minha", "conta"]
    ensures !IsSubstring("nao esta funcionando", Interleave(gaps, ns))
  {
    AbsentCharRulesOut("nao esta funcionando", gaps, ns, 'f');
  }

  /** The phrase "cobrado duas vezes" does not occur in it: it has no 'v'. */
  lemma ProvidedProblemsExampleCobradoDuasVezes(gaps: seq<string>, ns: seq<string>)
    requires gaps == ["", " ", " ", " ", " ", " ", " ", "."]
    requires ns == ["estou", "tendo", "problemas", "para", "acessar", "minha", "conta"]
    ensures !IsSubstring("cobrado duas vezes", Interleave(gaps, ns))
  {
    AbsentCharRulesOut("cobrado duas vezes", gaps, ns, 'v');
  }

  /** The phrase "por que" does not occur in it: it has no 'q'. */
  lemma ProvidedProblemsExamplePorQue(gaps: seq<string>, ns: seq<string>)
    requires gaps == ["", " ", " ", " ", " ", " ", " ", "."]
    requires ns == ["estou", "tendo", "problemas", "para", "acessar", "minha", "conta"]
    ensures !IsSubstring("por que", Interleave(gaps, ns))
  {
    AbsentCharRulesOut("por que", gaps, ns, 'q');
  }

  /** Score of the `elogio` rule on it. */
  lemma ProvidedProblemsExampleElogio(rules: seq<Rule>, t: string, present: set<string>)
    requires rules == ReferenceRules()
    requires present == TokenSet(["estou", "tendo", "problemas", "para", "acessar", "minha", "conta"])
    ensures RuleScore(rules[0], t, present) == 0
  {
    PhraseNoHits(rules[0].phraseKeywords, t);
    TokenNoHits(rules[0].tokenKeywords, present);
  }

  /** Score of the `reclamacao` rule on it. */
  lemma ProvidedProblemsExampleReclamacao(rules: seq<Rule>, t: string, present: set<string>)
    requires rules == ReferenceRules()
    requires present == TokenSet(["estou", "tendo", "problemas", "para", "acessar", "minha", "conta"])
    requires !IsSubstring("nao funciona", t)
    requires !IsSubstring("nao esta funcionando", t)
    requires !IsSubstring("cobrado duas vezes", t)
    ensures RuleScore(rules[1], t, present) == 2
    ensures RuleMatches(rules[1], t, present) == ["problemas"]
  {
    PhraseNoHits(rules[1].phraseKeywords, t);
    TokenOneHit(rules[1].tokenKeywords, present, 4);
  }

  /** Score of the `duvida` rule on it. */
  lemma ProvidedProblemsExampleDuvida(rules: seq<Rule>, t: string, present: set<string>)
    requires rules == ReferenceRules()
    requires present == TokenSet(["estou", "tendo", "problemas", "para", "acessar", "minha", "conta"])
    requires !IsSubstring("por que", t)
    ensures RuleScore(rules[2], t, present) == 0
  {
    PhraseNoHits(rules[2].phraseKeywords, t);
    TokenNoHits(rules[2].tokenKeywords, present);
  }

  /** Score of the `financeiro` rule on it. */
  lemma ProvidedProblemsExampleFinanceiro(rules: seq<Rule>, t: string, present: set<string>)
    requires rules == ReferenceRules()
    requires present == TokenSet(["estou", "tendo", "problemas", "para", "acessar", "minha", "conta"])
    ensures RuleScore(rules[3], t, present) == 0
  {
    PhraseNoHits(rules[3].phraseKeywords, t);
    TokenNoHits(rules[3].tokenKeywords, present);
  }

  /** The four rule scores on it and their first maximum. */
  lemma ProvidedProblemsExampleScores(rules: seq<Rule>, t: string, present: set<string>)
    requires rules == ReferenceRules()
    requires present == TokenSet(["estou", "tendo", "problemas", "para", "acessar", "minha", "conta"])
    requires !IsSubstring("nao funciona", t)
    requires !IsSubstring("nao esta funcionando", t)
    requires !IsSubstring("cobrado duas vezes", t)
    requires !IsSubstring("por que", t)
    ensures IsFirstMaximum(Scores(rules, t, present), 1)
    ensures rules[1].category == "reclamacao"
    ensures RuleMatches(rules[1], t, present) == ["problemas"]
  {
    ProvidedProblemsExampleElogio(rules, t, present);
    ProvidedProblemsExampleReclamacao(rules, t, present);
    ProvidedProblemsExampleDuvida(rules, t, present);
    ProvidedProblemsExampleFinanceiro(rules, t, present);
    FirstMaxOfFour(Scores(rules, t, present), [0, 2, 0, 0], [0, 2, 0, 0], 1);
  }

  /** The classification of its layout. */
  lemma ProvidedProblemsExampleOnLayout(rules: seq<Rule>, gaps: seq<string>, words: seq<string>)
    requires rules == ReferenceRules()
    requires gaps == ["", " ", " ", " ", " ", " ", " ", "."]
    requires words == ["Estou", "tendo", "problemas", "para", "acessar", "minha", "conta"]
    ensures Classification(rules, Interleave(gaps, words)) == ClassificationResult("reclamacao", ["problemas"])
  {
    var ns := ["estou", "tendo", "problemas", "para", "acessar", "minha", "conta"];
    ProvidedProblemsExampleNormalized(gaps, words, ns);
    ProvidedProblemsExampleTokens(gaps, ns);
    var t, present := Interleave(gaps, ns), TokenSet(ns);
    ProvidedProblemsExampleNaoFunciona(gaps, ns);
    ProvidedProblemsExampleNaoEstaFuncionando(gaps, ns);
    ProvidedProblemsExampleCobradoDuasVezes(gaps, ns);
    ProvidedProblemsExamplePorQue(gaps, ns);
    ProvidedProblemsExampleScores(rules, t, present);
    ClassifiedAs(rules, Interleave(gaps, words), t, present, 1);
  }

  /** The string is the layout of its words and separators. */
  lemma ProvidedProblemsExampleText(gaps: seq<string>, words: seq<string>, text: string)
    requires gaps == ["", " ", " ", " ", " ", " ", " ", "."]
    requires words == ["Estou", "tendo", "problemas", "para", "acessar", "minha", "conta"]
    requires text == "Estou tendo problemas para acessar minha conta."
    ensures Interleave(gaps, words) == text
  {
    LayoutOfSeven(gaps, words);
    assert gaps[0] + words[0] == "Estou";
    assert gaps[1] + words[1] == " tendo";
    assert gaps[2] + words[2] == " problemas";
    assert gaps[3] + words[3] == " para";
    assert gaps[4] + words[4] == " acessar";
    assert gaps[5] + words[5] == " minha";
    assert gaps[6] + words[6] == " conta";
    ProvidedProblemsExampleHalves(text);
    ProvidedProblemsExampleFront("Estou tendo problemas para", " acessar minha conta.");
    ProvidedProblemsExampleBack(" acessar minha conta.");
  }

  /** "Estou tendo problemas para acessar minha conta." is classified as `reclamacao` (tests/test_classificador.py, line 61). */
  lemma ProvidedProblemsExample(rules: seq<Rule>)
    requires rules == ReferenceRules()
    ensures Classification(rules, "Estou tendo problemas para acessar minha conta.") == ClassificationResult("reclamacao", ["problemas"])
  {
    var gaps := ["", " ", " ", " ", " ", " ", " ", "."];
    var words := ["Estou", "tendo", "problemas", "para", "acessar", "minha", "conta"];
    ProvidedProblemsExampleText(gaps, words, "Estou tendo problemas para acessar minha conta.");
    ProvidedProblemsExampleOnLayout(rules, gaps, words);
  }

  /** "Gostei muito do atendimento, estao de parabens." (tests/test_classificador.py, line 62) normalised. */
  lemma ProvidedCongratulationsExampleNormalized(gaps: seq<string>, words: seq<string>, ns: seq<string>)
    requires gaps == ["", " ", " ", " ", ", ", " ", " ", "."]
    requires words == ["Gostei", "muito", "do", "atendimento", "estao", "de", "parabens"]
    requires ns == ["gostei", "muito", "do", "atendimento", "estao", "de", "parabens"]
    ensures Normalize(Interleave(gaps, words)) == Interleave(gaps, ns)
  {
    forall k | 0 <= k < |gaps| ensures Normalize(gaps[k]) == gaps[k] { }
    forall k | 0 <= k < |words| ensures Normalize(words[k]) == ns[k] { }
    NormalizeInterleave(gaps, words);
    assert NormalizeEach(gaps) == gaps && NormalizeEach(words) == ns;
  }

  /** Tokenising it gives back its normalised words. */
  lemma ProvidedCongratulationsExampleTokens(gaps: seq<string>, ns: seq<string>)
    requires gaps == ["", " ", " ", " ", ", ", " ", " ", "."]
    requires ns == ["gostei", "muito", "do", "atendimento", "estao", "de", "parabens"]
    ensures Tokens(Interleave(gaps, ns)) == ns
  {
    forall k | 0 <= k < |ns| ensures IsToken(ns[k]) { }
    forall k | 0 <= k < |gaps| ensures IsGap(gaps[k]) { }
    TokensOfInterleave(gaps, ns);
  }

  /** The phrase "nao funciona" does not occur in it: it has no 'f'. */
  lemma ProvidedCongratulationsExampleNaoFunciona(gaps: seq<string>, ns: seq<string>)
    requires gaps == ["", " ", " ", " ", ", ", " ", " ", "."]
    requires ns == ["gostei", "muito", "do", "atendimento", "estao", "de", "parabens"]
    ensures !IsSubstring("nao funciona", Interleave(gaps, ns))
  {
    AbsentCharRulesOut("nao funciona", gaps, ns, 'f');
  }

  /** The phrase "nao esta funcionando" does not occur in it: it has no 'f'. */
  lemma ProvidedCongratulationsExampleNaoEstaFuncionando(gaps: seq<string>, ns: seq<string>)
    requires gaps == ["", " ", " ", " ", ", ", " ", " ", "."]
    requires ns == ["gostei", "muito", "do", "atendimento", "estao", "de", "parabens"]
    ensures !IsSubstring("nao esta funcionando", Interleave(gaps, ns))
  {
    AbsentCharRulesOut("nao esta funcionando", gaps, ns, 'f');
  }

  /** The phrase "cobrado duas vezes" does not occur in it: it has no 'c'. */
  lemma ProvidedCongratulationsExampleCobradoDuasVezes(gaps: seq<string>, ns: seq<string>)
    requires gaps == ["", " ", " ", " ", ", ", " ", " ", "."]
    requires ns == ["gostei", "muito", "do", "atendimento", "estao", "de", "parabens"]
    ensures !IsSubstring("cobrado duas vezes", Interleave(gaps, ns))
  {
    AbsentCharRulesOut("cobrado duas vezes", gaps, ns, 'c');
  }

  /** The phrase "por que" does not occur in it: it has no 'q'. */
  lemma ProvidedCongratulationsExamplePorQue(gaps: seq<string>, ns: seq<string>)
    requires gaps == ["", " ", " ", " ", ", ", " ", " ", "."]
    requires ns == ["gostei", "muito", "do", "atendimento", "estao", "de", "parabens"]
    ensures !IsSubstring("por que", Interleave(gaps, ns))
  {
    AbsentCharRulesOut("por que", gaps, ns, 'q');
  }

  /** Score of the `elogio` rule on it. */
  lemma ProvidedCongratulationsExampleElogio(rules: seq<Rule>, t: string, present: set<string>)
    requires rules == ReferenceRules()
    requires present == TokenSet(["gostei", "muito", "do", "atendimento", "estao", "de", "parabens"])
    ensures RuleScore(rules[0], t, present) == 2
    ensures RuleMatches(rules[0], t, present) == ["parabens"]
  {
    PhraseNoHits(rules[0].phraseKeywords, t);
    TokenOneHit(rules[0].tokenKeywords, present, 6);
  }

  /** Score of the `reclamacao` rule on it. */
  lemma ProvidedCongratulationsExampleReclamacao(rules: seq<Rule>, t: string, present: set<string>)
    requires rules == ReferenceRules()
    requires present == TokenSet(["gostei", "muito", "do", "atendimento", "estao", "de", "parabens"])
    requires !IsSubstring("nao funciona", t)
    requires !IsSubstring("nao esta funcionando", t)
    requires !IsSubstring("cobrado duas vezes", t)
    ensures RuleScore(rules[1], t, present) == 0
  {
    PhraseNoHits(rules[1].phraseKeywords, t);
    TokenNoHits(rules[1].tokenKeywords, present);
  }

  /** Score of the `duvida` rule on it. */
  lemma ProvidedCongratulationsExampleDuvida(rules: seq<Rule>, t: string, present: set<string>)
    requires rules == ReferenceRules()
    requires present == TokenSet(["gostei", "muito", "do", "atendimento", "estao", "de", "parabens"])
    requires !IsSubstring("por que", t)
    ensures RuleScore(rules[2], t, present) == 0
  {
    PhraseNoHits(rules[2].phraseKeywords, t);
    TokenNoHits(rules[2].tokenKeywords, present);
  }

  /** Score of the `financeiro` rule on it. */
  lemma ProvidedCongratulationsExampleFinanceiro(rules: seq<Rule>, t: string, present: set<string>)
    requires rules == ReferenceRules()
    requires present == TokenSet(["gostei", "muito", "do", "atendimento", "estao", "de", "parabens"])
    ensures RuleScore(rules[3], t, present) == 0
  {
    PhraseNoHits(rules[3].phraseKeywords, t);
    TokenNoHits(rules[3].tokenKeywords, present);
  }

  /** The four rule scores on it and their first maximum. */
  lemma ProvidedCongratulationsExampleScores(rules: seq<Rule>, t: string, present: set<string>)
    requires rules == ReferenceRules()
    requires present == TokenSet(["gostei", "muito", "do", "atendimento", "estao", "de", "parabens"])
    requires !IsSubstring("nao funciona", t)
    requires !IsSubstring("nao esta funcionando", t)
    requires !IsSubstring("cobrado duas vezes", t)
    requires !IsSubstring("por que", t)
    ensures IsFirstMaximum(Scores(rules, t, present), 0)
    ensures rules[0].category == "elogio"
    ensures RuleMatches(rules[0], t, present) == ["parabens"]
  {
    ProvidedCongratulationsExampleElogio(rules, t, present);
    ProvidedCongratulationsExampleReclamacao(rules, t, present);
    ProvidedCongratulationsExampleDuvida(rules, t, present);
    ProvidedCongratulationsExampleFinanceiro(rules, t, present);
    FirstMaxOfFour(Scores(rules, t, present), [2, 0, 0, 0], [2, 0, 0, 0], 0);
  }

  /** The classification of its layout. */
  lemma ProvidedCongratulationsExampleOnLayout(rules: seq<Rule>, gaps: seq<string>, words: seq<string>)
    requires rules == ReferenceRules()
    requires gaps == ["", " ", " ", " ", ", ", " ", " ", "."]
    requires words == ["Gostei", "muito", "do", "atendimento", "estao", "de", "parabens"]
    ensures Classification(rules, Interleave(gaps, words)) == ClassificationResult("elogio", ["parabens"])
  {
    var ns := ["gostei", "muito", "do", "atendimento", "estao", "de", "parabens"];
    ProvidedCongratulationsExampleNormalized(gaps, words, ns);
    ProvidedCongratulationsExampleTokens(gaps, ns);
    var t, present := Interleave(gaps, ns), TokenSet(ns);
    ProvidedCongratulationsExampleNaoFunciona(gaps, ns);
    ProvidedCongratulationsExampleNaoEstaFuncionando(gaps, ns);
    ProvidedCongratulationsExampleCobradoDuasVezes(gaps, ns);
    ProvidedCongratulationsExamplePorQue(gaps, ns);
    ProvidedCongratulationsExampleScores(rules, t, present);
    ClassifiedAs(rules, Interleave(gaps, words), t, present, 0);
  }

  /** The string is the layout of its words and separators. */
  lemma ProvidedCongratulationsExampleText(gaps: seq<string>, words: seq<string>, text: string)
    requires gaps == ["", " ", " ", " ", ", ", " ", " ", "."]
    requires words == ["Gostei", "muito", "do", "atendimento", "estao", "de", "parabens"]
    requires text == "Gostei muito do atendimento, estao de parabens."
    ensures Interleave(gaps, words) == text
  {
    LayoutOfSeven(gaps, words);
    assert gaps[0] + words[0] == "Gostei";
    assert gaps[1] + words[1] == " muito";
    assert gaps[2] + words[2] == " do";
    assert gaps[3] + words[3] == " atendimento";
    assert gaps[4] + words[4] == ", estao";
    assert gaps[5] + words[5] == " de";
    assert gaps[6] + words[6] == " parabens";
    ProvidedCongratulationsExampleHalves(text);
    ProvidedCongratulationsExampleFront("Gostei muito do atendimento", ", estao de parabens.");
    ProvidedCongratulationsExampleBack(", estao de parabens.");
  }

  /** "Gostei muito do atendimento, estao de parabens." is classified as `elogio` (tests/test_classificador.py, line 62). */
  lemma ProvidedCongratulationsExample(rules: seq<Rule>)
    requires rules == ReferenceRules()
    ensures Classification(rules, "Gostei muito do atendimento, estao de parabens.") == ClassificationResult("elogio", ["parabens"])
  {
    var gaps := ["", " ", " ", " ", ", ", " ", " ", "."];
    var words := ["Gostei", "muito", "do", "atendimento", "estao", "de", "parabens"];
    ProvidedCongratulationsExampleText(gaps, words, "Gostei muito do atendimento, estao de parabens.");
    ProvidedCongratulationsExampleOnLayout(rules, gaps, words);
  }

  /** "A experiencia com o sistema foi otima." (tests/test_classificador.py, line 63) normalised. */
  lemma ProvidedGreatExperienceExampleNormalized(gaps: seq<string>, words: seq<string>, ns: seq<string>)
    requires gaps == ["", " ", " ", " ", " ", " ", " ", "."]
    requires words == ["A", "experiencia", "com", "o", "sistema", "foi", "otima"]
    requires ns == ["a", "experiencia", "com", "o", "sistema", "foi", "otima"]
    ensures Normalize(Interleave(gaps, words)) == Interleave(gaps, ns)
  {
    forall k | 0 <= k < |gaps| ensures Normalize(gaps[k]) == gaps[k] { }
    forall k | 0 <= k < |words| ensures Normalize(words[k]) == ns[k] { }
    NormalizeInterleave(gaps, words);
    assert NormalizeEach(gaps) == gaps && NormalizeEach(words) == ns;
  }

  /** Tokenising it gives back its normalised words. */
  lemma ProvidedGreatExperienceExampleTokens(gaps: seq<string>, ns: seq<string>)
    requires gaps == ["", " ", " ", " ", " ", " ", " ", "."]
    requires ns == ["a", "experiencia", "com", "o", "sistema", "foi", "otima"]
    ensures Tokens(Interleave(gaps, ns)) == ns
  {
    forall k | 0 <= k < |ns| ensures IsToken(ns[k]) { }
    forall k | 0 <= k < |gaps| ensures IsGap(gaps[k]) { }
    TokensOfInterleave(gaps, ns);
  }

  /** The phrase "nao funciona" does not occur in it: it has no 'u'. */
  lemma ProvidedGreatExperienceExampleNaoFunciona(gaps: seq<string>, ns: seq<string>)
    requires gaps == ["", " ", " ", " ", " ", " ", " ", "."]
    requires ns == ["a", "experiencia", "com", "o", "sistema", "foi", "otima"]
    ensures !IsSubstring("nao funciona", Interleave(gaps, ns))
  {
    AbsentCharRulesOut("nao funciona", gaps, ns, 'u');
  }

  /** The phrase "nao esta funcionando" does not occur in it: it has no 'u'. */
  lemma ProvidedGreatExperienceExampleNaoEstaFuncionando(gaps: seq<string>, ns: seq<string>)
    requires gaps == ["", " ", " ", " ", " ", " ", " ", "."]
    requires ns == ["a", "experiencia", "com", "o", "sistema", "foi", "otima"]
    ensures !IsSubstring("nao esta funcionando", Interleave(gaps, ns))
  {
    AbsentCharRulesOut("nao esta funcionando", gaps, ns, 'u');
  }

  /** The phrase "cobrado duas vezes" does not occur in it: it has no 'b'. */
  lemma ProvidedGreatExperienceExampleCobradoDuasVezes(gaps: seq<string>, ns: seq<string>)
    requires gaps == ["", " ", " ", " ", " ", " ", " ", "."]
    requires ns == ["a", "experiencia", "com", "o", "sistema", "foi", "otima"]
    ensures !IsSubstring("cobrado duas vezes", Interleave(gaps, ns))
  {
    AbsentCharRulesOut("cobrado duas vezes", gaps, ns, 'b');
  }

  /** The phrase "por que" does not occur in it: it has no 'q'. */
  lemma ProvidedGreatExperienceExamplePorQue(gaps: seq<string>, ns: seq<string>)
    requires gaps == ["", " ", " ", " ", " ", " ", " ", "."]
    requires ns == ["a", "experiencia", "com", "o", "sistema", "foi", "otima"]
    ensures !IsSubstring("por que", Interleave(gaps, ns))
  {
    AbsentCharRulesOut("por que", gaps, ns, 'q');
  }

  /** Score of the `elogio` rule on it. */
  lemma ProvidedGreatExperienceExampleElogio(rules: seq<Rule>, t: string, present: set<string>)
    requires rules == ReferenceRules()
    requires present == TokenSet(["a", "experiencia", "com", "o", "sistema", "foi", "otima"])
    ensures RuleScore(rules[0], t, present) == 2
    ensures RuleMatches(rules[0], t, present) == ["otima"]
  {
    PhraseNoHits(rules[0].phraseKeywords, t);
    TokenOneHit(rules[0].tokenKeywords, present, 3);
  }

  /** Score of the `reclamacao` rule on it. */
  lemma ProvidedGreatExperienceExampleReclamacao(rules: seq<Rule>, t: string, present: set<string>)
    requires rules == ReferenceRules()
    requires present == TokenSet(["a", "experiencia", "com", "o", "sistema", "foi", "otima"])
    requires !IsSubstring("nao funciona", t)
    requires !IsSubstring("nao esta funcionando", t)
    requires !IsSubstring("cobrado duas vezes", t)
    ensures RuleScore(rules[1], t, present) == 0
  {
    PhraseNoHits(rules[1].phraseKeywords, t);
    TokenNoHits(rules[1].tokenKeywords, present);
  }

  /** Score of the `duvida` rule on it. */
  lemma ProvidedGreatExperienceExampleDuvida(rules: seq<Rule>, t: string, present: set<string>)
    requires rules == ReferenceRules()
    requires present == TokenSet(["a", "experiencia", "com", "o", "sistema", "foi", "otima"])
    requires !IsSubstring("por que", t)
    ensures RuleScore(rules[2], t, present) == 0
  {
    PhraseNoHits(rules[2].phraseKeywords, t);
    TokenNoHits(rules[2].tokenKeywords, present);
  }

  /** Score of the `financeiro` rule on it. */
  lemma ProvidedGreatExperienceExampleFinanceiro(rules: seq<Rule>, t: string, present: set<string>)
    requires rules == ReferenceRules()
    requires present == TokenSet(["a", "experiencia", "com", "o", "sistema", "foi", "otima"])
    ensures RuleScore(rules[3], t, present) == 0
  {
    PhraseNoHits(rules[3].phraseKeywords, t);
    TokenNoHits(rules[3].tokenKeywords, present);
  }

  /** The four rule scores on it and their first maximum. */
  lemma ProvidedGreatExperienceExampleScores(rules: seq<Rule>, t: string, present: set<string>)
    requires rules == ReferenceRules()
    requires present == TokenSet(["a", "experiencia", "com", "o", "sistema", "foi", "otima"])
    requires !IsSubstring("nao funciona", t)
    requires !IsSubstring("nao esta funcionando", t)
    requires !IsSubstring("cobrado duas vezes", t)
    requires !IsSubstring("por que", t)
    ensures IsFirstMaximum(Scores(rules, t, present), 0)
    ensures rules[0].category == "elogio"
    ensures RuleMatches(rules[0], t, present) == ["otima"]
  {
    ProvidedGreatExperienceExampleElogio(rules, t, present);
    ProvidedGreatExperienceExampleReclamacao(rules, t, present);
    ProvidedGreatExperienceExampleDuvida(rules, t, present);
    ProvidedGreatExperienceExampleFinanceiro(rules, t, present);
    FirstMaxOfFour(Scores(rules, t, present), [2, 0, 0, 0], [2, 0, 0, 0], 0);
  }

  /** The classification of its layout. */
  lemma ProvidedGreatExperienceExampleOnLayout(rules: seq<Rule>, gaps: seq<string>, words: seq<string>)
    requires rules == ReferenceRules()
    requires gaps == ["", " ", " ", " ", " ", " ", " ", "."]
    requires words == ["A", "experiencia", "com", "o", "sistema", "foi", "otima"]
    ensures Classification(rules, Interleave(gaps, words)) == ClassificationResult("elogio", ["otima"])
  {
    var ns := ["a", "experiencia", "com", "o", "sistema", "foi", "otima"];
    ProvidedGreatExperienceExampleNormalized(gaps, words, ns);
    ProvidedGreatExperienceExampleTokens(gaps, ns);
    var t, present := Interleave(gaps, ns), TokenSet(ns);
    ProvidedGreatExperienceExampleNaoFunciona(gaps, ns);
    ProvidedGreatExperienceExampleNaoEstaFuncionando(gaps, ns);
    ProvidedGreatExperienceExampleCobradoDuasVezes(gaps, ns);
    ProvidedGreatExperienceExamplePorQue(gaps, ns);
    ProvidedGreatExperienceExampleScores(rules, t, present);
    ClassifiedAs(rules, Interleave(gaps, words), t, present, 0);
  }

  /** The string is the layout of its words and separators. */
  lemma ProvidedGreatExperienceExampleText(gaps: seq<string>, words: seq<string>, text: string)
    requires gaps == ["", " ", " ", " ", " ", " ", " ", "."]
    requires words == ["A", "experiencia", "com", "o", "sistema", "foi", "otima"]
    requires text == "A experiencia com o sistema foi otima."
    ensures Interleave(gaps, words) == text
  {
    LayoutOfSeven(gaps, words);
    assert gaps[0] + words[0] == "A";
    assert gaps[1] + words[1] == " experiencia";
    assert gaps[2] + words[2] == " com";
    assert gaps[3] + words[3] == " o";
    assert gaps[4] + words[4] == " sistema";
    assert gaps[5] + words[5] == " foi";
    assert gaps[6] + words[6] == " otima";
    ProvidedGreatExperienceExampleHalves(text);
    ProvidedGreatExperienceExampleFront("A experiencia com o", " sistema foi otima.");
    ProvidedGreatExperienceExampleBack(" sistema foi otima.");
  }

  /** "A experiencia com o sistema foi otima." is classified as `elogio` (tests/test_classificador.py, line 63). */
  lemma ProvidedGreatExperienceExample(rules: seq<Rule>)
    requires rules == ReferenceRules()
    ensures Classification(rules, "A experiencia com o sistema foi otima.") == ClassificationResult("elogio", ["otima"])
  {
    var gaps := ["", " ", " ", " ", " ", " ", " ", "."];
    var words := ["A", "experiencia", "com", "o", "sistema", "foi", "otima"];
    ProvidedGreatExperienceExampleText(gaps, words, "A experiencia com o sistema foi otima.");
    ProvidedGreatExperienceExampleOnLayout(rules, gaps, words);
  }

  /** "Oi" (tests/test_classificador.py, line 64) normalised. */
  lemma ProvidedGreetingExampleNormalized(gaps: seq<string>, words: seq<string>, ns: seq<string>)
    requires gaps == ["", ""]
    requires words == ["Oi"]
    requires ns == ["oi"]
    ensures Normalize(Interleave(gaps, words)) == Interleave(gaps, ns)
  {
    forall k | 0 <= k < |gaps| ensures Normalize(gaps[k]) == gaps[k] { }
    forall k | 0 <= k < |words| ensures Normalize(words[k]) == ns[k] { }
    NormalizeInterleave(gaps, words);
    assert NormalizeEach(gaps) == gaps && NormalizeEach(words) == ns;
  }

  /** Tokenising it gives back its normalised words. */
  lemma ProvidedGreetingExampleTokens(gaps: seq<string>, ns: seq<string>)
    requires gaps == ["", ""]
    requires ns == ["oi"]
    ensures Tokens(Interleave(gaps, ns)) == ns
  {
    forall k | 0 <= k < |ns| ensures IsToken(ns[k]) { }
    forall k | 0 <= k < |gaps| ensures IsGap(gaps[k]) { }
    TokensOfInterleave(gaps, ns);
  }

  /** The phrase "nao funciona" does not occur in it: it has no 'n'. */
  lemma ProvidedGreetingExampleNaoFunciona(gaps: seq<string>, ns: seq<string>)
    requires gaps == ["", ""]
    requires ns == ["oi"]
    ensures !IsSubstring("nao funciona", Interleave(gaps, ns))
  {
    AbsentCharRulesOut("nao funciona", gaps, ns, 'n');
  }

  /** The phrase "nao esta funcionando" does not occur in it: it has no 'n'. */
  lemma ProvidedGreetingExampleNaoEstaFuncionando(gaps: seq<string>, ns: seq<string>)
    requires gaps == ["", ""]
    requires ns == ["oi"]
    ensures !IsSubstring("nao esta funcionando", Interleave(gaps, ns))
  {
    AbsentCharRulesOut("nao esta funcionando", gaps, ns, 'n');
  }

  /** The phrase "cobrado duas vezes" does not occur in it: it has no 'c'. */
  lemma ProvidedGreetingExampleCobradoDuasVezes(gaps: seq<string>, ns: seq<string>)
    requires gaps == ["", ""]
    requires ns == ["oi"]
    ensures !IsSubstring("cobrado duas vezes", Interleave(gaps, ns))
  {
    AbsentCharRulesOut("cobrado duas vezes", gaps, ns, 'c');
  }

  /** The phrase "por que" does not occur in it: it has no 'p'. */
  lemma ProvidedGreetingExamplePorQue(gaps: seq<string>, ns: seq<string>)
    requires gaps == ["", ""]
    requires ns == ["oi"]
    ensures !IsSubstring("por que", Interleave(gaps, ns))
  {
    AbsentCharRulesOut("por que", gaps, ns, 'p');
  }

  /** Score of the `elogio` rule on it. */
  lemma ProvidedGreetingExampleElogio(rules: seq<Rule>, t: string, present: set<string>)
    requires rules == ReferenceRules()
    requires present == TokenSet(["oi"])
    ensures RuleScore(rules[0], t, present) == 0
  {
    PhraseNoHits(rules[0].phraseKeywords, t);
    TokenNoHits(rules[0].tokenKeywords, present);
  }

  /** Score of the `reclamacao` rule on it. */
  lemma ProvidedGreetingExampleReclamacao(rules: seq<Rule>, t: string, present: set<string>)
    requires rules == ReferenceRules()
    requires present == TokenSet(["oi"])
    requires !IsSubstring("nao funciona", t)
    requires !IsSubstring("nao esta funcionando", t)
    requires !IsSubstring("cobrado duas vezes", t)
    ensures RuleScore(rules[1], t, present) == 0
  {
    PhraseNoHits(rules[1].phraseKeywords, t);
    TokenNoHits(rules[1].tokenKeywords, present);
  }

  /** Score of the `duvida` rule on it. */
  lemma ProvidedGreetingExampleDuvida(rules: seq<Rule>, t: string, present: set<string>)
    requires rules == ReferenceRules()
    requires present == TokenSet(["oi"])
    requires !IsSubstring("por que", t)
    ensures RuleScore(rules[2], t, present) == 0
  {
    PhraseNoHits(rules[2].phraseKeywords, t);
    TokenNoHits(rules[2].tokenKeywords, present);
  }

  /** Score of the `financeiro` rule on it. */
  lemma ProvidedGreetingExampleFinanceiro(rules: seq<Rule>, t: string, present: set<string>)
    requires rules == ReferenceRules()
    requires present == TokenSet(["oi"])
    ensures RuleScore(rules[3], t, present) == 0
  {
    PhraseNoHits(rules[3].phraseKeywords, t);
    TokenNoHits(rules[3].tokenKeywords, present);
  }

  /** The four rule scores on it and their first maximum. */
  lemma ProvidedGreetingExampleScores(rules: seq<Rule>, t: string, present: set<string>)
    requires rules == ReferenceRules()
    requires present == TokenSet(["oi"])
    requires !IsSubstring("nao funciona", t)
    requires !IsSubstring("nao esta funcionando", t)
    requires !IsSubstring("cobrado duas vezes", t)
    requires !IsSubstring("por que", t)
    ensures IsFirstMaximum(Scores(rules, t, present), -1)
  {
    ProvidedGreetingExampleElogio(rules, t, present);
    ProvidedGreetingExampleReclamacao(rules, t, present);
    ProvidedGreetingExampleDuvida(rules, t, present);
    ProvidedGreetingExampleFinanceiro(rules, t, present);
    FirstMaxOfFour(Scores(rules, t, present), [0, 0, 0, 0], [0, 0, 0, 0], -1);
  }

  /** The classification of its layout. */
  lemma ProvidedGreetingExampleOnLayout(rules: seq<Rule>, gaps: seq<string>, words: seq<string>)
    requires rules == ReferenceRules()
    requires gaps == ["", ""]
    requires words == ["Oi"]
    ensures Classification(rules, Interleave(gaps, words)) == ClassificationResult("outros", [])
  {
    var ns := ["oi"];
    ProvidedGreetingExampleNormalized(gaps, words, ns);
    ProvidedGreetingExampleTokens(gaps, ns);
    var t, present := Interleave(gaps, ns), TokenSet(ns);
    ProvidedGreetingExampleNaoFunciona(gaps, ns);
    ProvidedGreetingExampleNaoEstaFuncionando(gaps, ns);
    ProvidedGreetingExampleCobradoDuasVezes(gaps, ns);
    ProvidedGreetingExamplePorQue(gaps, ns);
    ProvidedGreetingExampleScores(rules, t, present);
    ClassifiedAs(rules, Interleave(gaps, words), t, present, -1);
  }

  /** The string is the layout of its words and separators. */
  lemma ProvidedGreetingExampleText(gaps: seq<string>, words: seq<string>, text: string)
    requires gaps == ["", ""]
    requires words == ["Oi"]
    requires text == "Oi"
    ensures Interleave(gaps, words) == text
  {
    LayoutOfOne(gaps, words);
    assert gaps[0] + words[0] == "Oi";
    ProvidedGreetingExamplePieces(text);
  }

  /** "Oi" is classified as `outros` (tests/test_classificador.py, line 64). */
  lemma ProvidedGreetingExample(rules: seq<Rule>)
    requires rules == ReferenceRules()
    ensures Classification(rules, "Oi") == ClassificationResult("outros", [])
  {
    var gaps := ["", ""];
    var words := ["Oi"];
    ProvidedGreetingExampleText(gaps, words, "Oi");
    ProvidedGreetingExampleOnLayout(rules, gaps, words);
  }

  /** "Teste" (tests/test_classificador.py, line 65) normalised. */
  lemma ProvidedTestExampleNormalized(gaps: seq<string>, words: seq<string>, ns: seq<string>)
    requires gaps == ["", ""]
    requires words == ["Teste"]
    requires ns == ["teste"]
    ensures Normalize(Interleave(gaps, words)) == Interleave(gaps, ns)
  {
    forall k | 0 <= k < |gaps| ensures Normalize(gaps[k]) == gaps[k] { }
    forall k | 0 <= k < |words| ensures Normalize(words[k]) == ns[k] { }
    NormalizeInterleave(gaps, words);
    assert NormalizeEach(gaps) == gaps && NormalizeEach(words) == ns;
  }

  /** Tokenising it gives back its normalised words. */
  lemma ProvidedTestExampleTokens(gaps: seq<string>, ns: seq<string>)
    requires gaps == ["", ""]
    requires ns == ["teste"]
    ensures Tokens(Interleave(gaps, ns)) == ns
  {
    forall k | 0 <= k < |ns| ensures IsToken(ns[k]) { }
    forall k | 0 <= k < |gaps| ensures IsGap(gaps[k]) { }
    TokensOfInterleave(gaps, ns);
  }

  /** The phrase "nao funciona" does not occur in it: it has no 'n'. */
  lemma ProvidedTestExampleNaoFunciona(gaps: seq<string>, ns: seq<string>)
    requires gaps == ["", ""]
    requires ns == ["teste"]
    ensures !IsSubstring("nao funciona", Interleave(gaps, ns))
  {
    AbsentCharRulesOut("nao funciona", gaps, ns, 'n');
  }

  /** The phrase "nao esta funcionando" does not occur in it: it has no 'n'. */
  lemma ProvidedTestExampleNaoEstaFuncionando(gaps: seq<string>, ns: seq<string>)
    requires gaps == ["", ""]
    requires ns == ["teste"]
    ensures !IsSubstring("nao esta funcionando", Interleave(gaps, ns))
  {
    AbsentCharRulesOut("nao esta funcionando", gaps, ns, 'n');
  }

  /** The phrase "cobrado duas vezes" does not occur in it: it has no 'c'. */
  lemma ProvidedTestExampleCobradoDuasVezes(gaps: seq<string>, ns: seq<string>)
    requires gaps == ["", ""]
    requires ns == ["teste"]
    ensures !IsSubstring("cobrado duas vezes", Interleave(gaps, ns))
  {
    AbsentCharRulesOut("cobrado duas vezes", gaps, ns, 'c');
  }

  /** The phrase "por que" does not occur in it: it has no 'p'. */
  lemma ProvidedTestExamplePorQue(gaps: seq<string>, ns: seq<string>)
    requires gaps == ["", ""]
    requires ns == ["teste"]
    ensures !IsSubstring("por que", Interleave(gaps, ns))
  {
    AbsentCharRulesOut("por que", gaps, ns, 'p');
  }

  /** Score of the `elogio` rule on it. */
  lemma ProvidedTestExampleElogio(rules: seq<Rule>, t: string, present: set<string>)
    requires rules == ReferenceRules()
    requires present == TokenSet(["teste"])
    ensures RuleScore(rules[0], t, present) == 0
  {
    PhraseNoHits(rules[0].phraseKeywords, t);
    TokenNoHits(rules[0].tokenKeywords, present);
  }

  /** Score of the `reclamacao` rule on it. */
  lemma ProvidedTestExampleReclamacao(rules: seq<Rule>, t: string, present: set<string>)
    requires rules == ReferenceRules()
    requires present == TokenSet(["teste"])
    requires !IsSubstring("nao funciona", t)
    requires !IsSubstring("nao esta funcionando", t)
    requires !IsSubstring("cobrado duas vezes", t)
    ensures RuleScore(rules[1], t, present) == 0
  {
    PhraseNoHits(rules[1].phraseKeywords, t);
    TokenNoHits(rules[1].tokenKeywords, present);
  }

  /** Score of the `duvida` rule on it. */
  lemma ProvidedTestExampleDuvida(rules: seq<Rule>, t: string, present: set<string>)
    requires rules == ReferenceRules()
    requires present == TokenSet(["teste"])
    requires !IsSubstring("por que", t)
    ensures RuleScore(rules[2], t, present) == 0
  {
    PhraseNoHits(rules[2].phraseKeywords, t);
    TokenNoHits(rules[2].tokenKeywords, present);
  }

  /** Score of the `financeiro` rule on it. */
  lemma ProvidedTestExampleFinanceiro(rules: seq<Rule>, t: string, present: set<string>)
    requires rules == ReferenceRules()
    requires present == TokenSet(["teste"])
    ensures RuleScore(rules[3], t, present) == 0
  {
    PhraseNoHits(rules[3].phraseKeywords, t);
    TokenNoHits(rules[3].tokenKeywords, present);
  }

  /** The four rule scores on it and their first maximum. */
  lemma ProvidedTestExampleScores(rules: seq<Rule>, t: string, present: set<string>)
    requires rules == ReferenceRules()
    requires present == TokenSet(["teste"])
    requires !IsSubstring("nao funciona", t)
    requires !IsSubstring("nao esta funcionando", t)
    requires !IsSubstring("cobrado duas vezes", t)
    requires !IsSubstring("por que", t)
    ensures IsFirstMaximum(Scores(rules, t, present), -1)
  {
    ProvidedTestExampleElogio(rules, t, present);
    ProvidedTestExampleReclamacao(rules, t, present);
    ProvidedTestExampleDuvida(rules, t, present);
    ProvidedTestExampleFinanceiro(rules, t, present);
    FirstMaxOfFour(Scores(rules, t, present), [0, 0, 0, 0], [0, 0, 0, 0], -1);
  }

  /** The classification of its layout. */
  lemma ProvidedTestExampleOnLayout(rules: seq<Rule>, gaps: seq<string>, words: seq<string>)
    requires rules == ReferenceRules()
    requires gaps == ["", ""]
    requires words == ["Teste"]
    ensures Classification(rules, Interleave(gaps, words)) == ClassificationResult("outros", [])
  {
    var ns := ["teste"];
    ProvidedTestExampleNormalized(gaps, words, ns);
    ProvidedTestExampleTokens(gaps, ns);
    var t, present := Interleave(gaps, ns), TokenSet(ns);
    ProvidedTestExampleNaoFunciona(gaps, ns);
    ProvidedTestExampleNaoEstaFuncionando(gaps, ns);
    ProvidedTestExampleCobradoDuasVezes(gaps, ns);
    ProvidedTestExamplePorQue(gaps, ns);
    ProvidedTestExampleScores(rules, t, present);
    ClassifiedAs(rules, Interleave(gaps, words), t, present, -1);
  }

  /** The string is the layout of its words and separators. */
  lemma ProvidedTestExampleText(gaps: seq<string>, words: seq<string>, text: string)
    requires gaps == ["", ""]
    requires words == ["Teste"]
    requires text == "Teste"
    ensures Interleave(gaps, words) == text
  {
    LayoutOfOne(gaps, words);
    assert gaps[0] + words[0] == "Teste";
    ProvidedTestExamplePieces(text);
  }

  /** "Teste" is classified as `outros` (tests/test_classificador.py, line 65). */
  lemma ProvidedTestExample(rules: seq<Rule>)
    requires rules == ReferenceRules()
    ensures Classification(rules, "Teste") == ClassificationResult("outros", [])
  {
    var gaps := ["", ""];
    var words := ["Teste"];
    ProvidedTestExampleText(gaps, words, "Teste");
    ProvidedTestExampleOnLayout(rules, gaps, words);
  }
}
