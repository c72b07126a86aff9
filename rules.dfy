/** The rule data (`RegraPalavraChave`, `ResultadoClassificacao`), the
    keyword partition `_normalizar_palavras_chave` and the reference keyword
    table of `criar_classificador_padrao`. */
module KeywordRules {
  import opened TextNormalization

  /** A keyword with its weight. */
  type Entry = (string, int)

  /** One category's rule: weighted single-word keywords and weighted phrases,
      each in declaration order. */
  datatype Rule = Rule(category: string, tokenKeywords: seq<Entry>, phraseKeywords: seq<Entry>)

  /** The outcome of a classification: a category and the matched keywords. */
  datatype ClassificationResult = ClassificationResult(category: string, keywords: seq<string>)

  predicate HasSpace(s: string) {
    ' ' in s
  }

  function NormalizeEntry(e: Entry): Entry {
    (Normalize(e.0), e.1)
  }

  function NormalizedEntries(entries: seq<Entry>): (r: seq<Entry>)
    ensures |r| == |entries|
    ensures forall i :: 0 <= i < |entries| ==> r[i] == NormalizeEntry(entries[i])
  {
    if entries == [] then [] else [NormalizeEntry(entries[0])] + NormalizedEntries(entries[1..])
  }

  /** The normalised entries without a space, in order. */
  function TokenEntries(entries: seq<Entry>): seq<Entry>
  {
    if entries == [] then []
    else
      var e := NormalizeEntry(entries[0]);
      (if HasSpace(e.0) then [] else [e]) + TokenEntries(entries[1..])
  }

  /** The normalised entries with a space, in order. */
  function PhraseEntries(entries: seq<Entry>): seq<Entry>
  {
    if entries == [] then []
    else
      var e := NormalizeEntry(entries[0]);
      (if HasSpace(e.0) then [e] else []) + PhraseEntries(entries[1..])
  }

  /** Both sides of the partition distribute over concatenation: each keeps
      the relative order of the entries it receives. */
  lemma {:induction false} PartitionDistributes(a: seq<Entry>, b: seq<Entry>)
    ensures TokenEntries(a + b) == TokenEntries(a) + TokenEntries(b)
    ensures PhraseEntries(a + b) == PhraseEntries(a) + PhraseEntries(b)
    decreases |a|
  {
    if a == [] {
      assert a + b == b;
    } else {
      assert (a + b)[0] == a[0] && (a + b)[1..] == a[1..] + b;
      PartitionDistributes(a[1..], b);
      var e := NormalizeEntry(a[0]);
      var t := if HasSpace(e.0) then [] else [e];
      var p := if HasSpace(e.0) then [e] else [];
      assert TokenEntries(a + b) == t + TokenEntries(a[1..] + b);
      assert TokenEntries(a) == t + TokenEntries(a[1..]);
      assert PhraseEntries(a + b) == p + PhraseEntries(a[1..] + b);
      assert PhraseEntries(a) == p + PhraseEntries(a[1..]);
    }
  }

  /** Every phrase holds a space, no token does, and the two sides together
      hold each normalised entry exactly once. */
  lemma {:induction false} PartitionIsSplit(entries: seq<Entry>)
    ensures forall e :: e in PhraseEntries(entries) ==> HasSpace(e.0)
    ensures forall e :: e in TokenEntries(entries) ==> !HasSpace(e.0)
    ensures multiset(TokenEntries(entries)) + multiset(PhraseEntries(entries))
         == multiset(NormalizedEntries(entries))
    ensures |TokenEntries(entries)| + |PhraseEntries(entries)| == |entries|
  {
    if entries != [] {
      PartitionIsSplit(entries[1..]);
      var e := NormalizeEntry(entries[0]);
      assert NormalizedEntries(entries) == [e] + NormalizedEntries(entries[1..]);
      SplitWithEntry(e, TokenEntries(entries[1..]), PhraseEntries(entries[1..]), NormalizedEntries(entries[1..]),
                     TokenEntries(entries), PhraseEntries(entries), NormalizedEntries(entries));
    }
  }

  /** Step of `PartitionIsSplit`: an entry placed in front goes to exactly one side. */
  lemma SplitWithEntry(e: Entry, ts: seq<Entry>, ps: seq<Entry>, ns: seq<Entry>,
                       ts': seq<Entry>, ps': seq<Entry>, ns': seq<Entry>)
    requires forall x :: x in ps ==> HasSpace(x.0)
    requires forall x :: x in ts ==> !HasSpace(x.0)
    requires multiset(ts) + multiset(ps) == multiset(ns) && |ts| + |ps| == |ns|
    requires ns' == [e] + ns
    requires HasSpace(e.0) ==> ps' == [e] + ps && ts' == ts
    requires !HasSpace(e.0) ==> ts' == [e] + ts && ps' == ps
    ensures forall x :: x in ps' ==> HasSpace(x.0)
    ensures forall x :: x in ts' ==> !HasSpace(x.0)
    ensures multiset(ts') + multiset(ps') == multiset(ns') && |ts'| + |ps'| == |ns'|
  {
  }

  /** Both sides of the partition of a prefix one entry longer. */
  lemma PartitionExtend(entries: seq<Entry>, i: nat)
    requires i < |entries|
    ensures var e := NormalizeEntry(entries[i]);
            && TokenEntries(entries[..i + 1]) == TokenEntries(entries[..i]) + (if HasSpace(e.0) then [] else [e])
            && PhraseEntries(entries[..i + 1]) == PhraseEntries(entries[..i]) + (if HasSpace(e.0) then [e] else [])
  {
    assert [entries[i]][1..] == [];
    PartitionDistributes(entries[..i], [entries[i]]);
    assert entries[..i + 1] == entries[..i] + [entries[i]];
  }

  /** `_normalizar_palavras_chave`: normalise each keyword and send it to the
      phrase list when it holds a space, to the token list otherwise. */
  method PartitionKeywords(entries: seq<Entry>) returns (tokens: seq<Entry>, phrases: seq<Entry>)
    ensures tokens == TokenEntries(entries)
    ensures phrases == PhraseEntries(entries)
    ensures |tokens| + |phrases| == |entries|
  {
    tokens, phrases := [], [];
    for i := 0 to |entries|
      invariant tokens == TokenEntries(entries[..i])
      invariant phrases == PhraseEntries(entries[..i])
    {
      var keyword, weight := entries[i].0, entries[i].1;
      var normalized := Normalize(keyword);
      PartitionExtend(entries, i);
      assert NormalizeEntry(entries[i]) == (normalized, weight);
      if ' ' in normalized {
        phrases := phrases + [(normalized, weight)];
      } else {
        tokens := tokens + [(normalized, weight)];
      }
    }
    assert entries[..|entries|] == entries;
    PartitionIsSplit(entries);
  }

  /** The rule `RegraPalavraChave(categoria, tokens, frases)` built from one
      category's keyword list. */
  function RuleFor(category: string, entries: seq<Entry>): Rule {
    Rule(category, TokenEntries(entries), PhraseEntries(entries))
  }

  /** The rules built from a table of categories, in table order. */
  function RulesFromTable(table: seq<(string, seq<Entry>)>): (rules: seq<Rule>)
    ensures |rules| == |table|
    ensures forall i :: 0 <= i < |table| ==> rules[i] == RuleFor(table[i].0, table[i].1)
  {
    if table == [] then [] else RulesFromTable(table[..|table| - 1]) + [RuleFor(table[|table| - 1].0, table[|table| - 1].1)]
  }

  /** The reference keyword table, categories in declaration order. */
  function KeywordTable(): seq<(string, seq<Entry>)> {
    [ ("elogio",
       [("obrigado", 2), ("obrigada", 2), ("otimo", 2), ("otima", 2), ("bom", 1),
        ("excelente", 3), ("parabens", 2), ("adorei", 2), ("amei", 2), ("show", 1)]),
      ("reclamacao",
       [("ruim", 2), ("horrivel", 3), ("pessimo", 3), ("problema", 2), ("problemas", 2),
        ("reclamar", 2), ("reclamacao", 2), ("demora", 1), ("erro", 2), ("nao funciona", 3),
        ("nao esta funcionando", 3), ("cobrado duas vezes", 3), ("quebrado", 2)]),
      ("duvida",
       [("como", 1), ("quando", 1), ("onde", 1), ("qual", 1), ("porque", 1), ("por que", 1),
        ("duvida", 2), ("ajuda", 1), ("pode", 1), ("posso", 1), ("consigo", 1)]),
      ("financeiro",
       [("preco", 2), ("valor", 2), ("pagamento", 3), ("cobranca", 2), ("cobrado", 1),
        ("boleto", 2), ("cartao", 2), ("pix", 2), ("reembolso", 2), ("assinatura", 2)])
    ]
  }
}
