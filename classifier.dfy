/** `ClassificadorPorRegras` and `criar_classificador_padrao`. */
module RuleClassifier {
  import opened TextNormalization
  import opened KeywordRules
  import opened Scoring
  import opened DefaultRules

  /** A classifier over a rule list that is fixed at construction. */
  class Classifier {
    const rules: seq<Rule>

    constructor (rules: seq<Rule>)
      ensures this.rules == rules
    {
      this.rules := rules;
    }

    /** `classificar`: one pass over the rules in declaration order, summing
        the weights of the phrases found in the normalised text and of the
        keywords found in its token set, and keeping a rule only when its
        score is strictly greater than the best so far. */
    method Classify(text: string) returns (result: ClassificationResult)
      ensures result == Classification(rules, text)
    {
      var normalized := Normalize(text);
      var present := TokenSet(Tokens(normalized));
      ghost var scores := Scores(rules, normalized, present);

      var bestCategory := DefaultCategory;
      var bestKeywords: seq<string> := [];
      var bestScore := 0;
      ghost var best := -1;

      for k := 0 to |rules|
        invariant best == FirstBest(scores[..k])
        invariant best < 0 ==> bestCategory == DefaultCategory && bestKeywords == [] && bestScore == 0
        invariant best >= 0 ==> bestCategory == rules[best].category && bestScore == scores[best]
                                && bestKeywords == RuleMatches(rules[best], normalized, present)
      {
        var rule := rules[k];
        var found, score := ScoreRule(rule, normalized, present);
        assert score == scores[k];

        assert scores[..k + 1][..k] == scores[..k];
        if score > bestScore {
          bestScore := score;
          bestCategory := rule.category;
          bestKeywords := found;
          best := k;
        }
      }
      assert scores[..|rules|] == scores;
      result := ClassificationResult(bestCategory, bestKeywords);
    }
  }

  /** The body of the rule loop of `classificar`: the phrases of `rule` found
      in the normalised text, then its keywords found in the token set, with
      the summed weight of both. */
  method ScoreRule(rule: Rule, normalized: string, present: set<string>) returns (found: seq<string>, score: int)
    ensures found == RuleMatches(rule, normalized, present)
    ensures score == RuleScore(rule, normalized, present)
  {
    found, score := [], 0;
    for j := 0 to |rule.phraseKeywords|
      invariant found == PhraseMatches(rule.phraseKeywords[..j], normalized)
      invariant score == PhraseScore(rule.phraseKeywords[..j], normalized)
    {
      var phrase, weight := rule.phraseKeywords[j].0, rule.phraseKeywords[j].1;
      if IsSubstring(phrase, normalized) {
        found := found + [phrase];
        score := score + weight;
      }
      assert rule.phraseKeywords[..j + 1][..j] == rule.phraseKeywords[..j];
    }
    assert rule.phraseKeywords[..|rule.phraseKeywords|] == rule.phraseKeywords;
    for j := 0 to |rule.tokenKeywords|
      invariant found == PhraseMatches(rule.phraseKeywords, normalized)
                         + TokenMatches(rule.tokenKeywords[..j], present)
      invariant score == PhraseScore(rule.phraseKeywords, normalized)
                         + TokenScore(rule.tokenKeywords[..j], present)
    {
      var token, weight := rule.tokenKeywords[j].0, rule.tokenKeywords[j].1;
      if token in present {
        found := found + [token];
        score := score + weight;
      }
      assert rule.tokenKeywords[..j + 1][..j] == rule.tokenKeywords[..j];
    }
    assert rule.tokenKeywords[..|rule.tokenKeywords|] == rule.tokenKeywords;
  }

  /** The loop of `criar_classificador_padrao`: one rule per category of
      `table`, in table order, each built by the keyword partition. */
  method BuildRules(table: seq<(string, seq<Entry>)>) returns (rules: seq<Rule>)
    ensures |rules| == |table|
    ensures forall k :: 0 <= k < |table| ==> rules[k].category == table[k].0
    ensures rules == RulesFromTable(table)
  {
    rules := [];
    for k := 0 to |table|
      invariant rules == RulesFromTable(table[..k])
    {
      var category, entries := table[k].0, table[k].1;
      var tokens, phrases := PartitionKeywords(entries);
      rules := rules + [Rule(category, tokens, phrases)];
      assert table[..k + 1][..k] == table[..k];
    }
    assert table[..|table|] == table;
  }

  /** `criar_classificador_padrao`: the classifier over the reference table. */
  method CreateDefaultClassifier() returns (c: Classifier)
    ensures fresh(c)
    ensures c.rules == RulesFromTable(KeywordTable())
    ensures c.rules == ReferenceRules()
  {
    var rules := BuildRules(KeywordTable());
    c := new Classifier(rules);
    ReferenceTableRules();
  }
}
