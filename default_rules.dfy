/** The reference keyword table of `criar_classificador_padrao`, evaluated:
    the rules it builds, with every keyword already on its side. */
module DefaultRules {
  import opened TextNormalization
  import opened KeywordRules

  /** The reference rules with every keyword already sent to its side. */
  function ReferenceRules(): seq<Rule> {
    [ Rule("elogio",
        [("obrigado", 2), ("obrigada", 2), ("otimo", 2), ("otima", 2), ("bom", 1),
         ("excelente", 3), ("parabens", 2), ("adorei", 2), ("amei", 2), ("show", 1)],
        []),
      Rule("reclamacao",
        [("ruim", 2), ("horrivel", 3), ("pessimo", 3), ("problema", 2), ("problemas", 2),
         ("reclamar", 2), ("reclamacao", 2), ("demora", 1), ("erro", 2), ("quebrado", 2)],
        [("nao funciona", 3), ("nao esta funcionando", 3), ("cobrado duas vezes", 3)]),
      Rule("duvida",
        [("como", 1), ("quando", 1), ("onde", 1), ("qual", 1), ("porque", 1),
         ("duvida", 2), ("ajuda", 1), ("pode", 1), ("posso", 1), ("consigo", 1)],
        [("por que", 1)]),
      Rule("financeiro",
        [("preco", 2), ("valor", 2), ("pagamento", 3), ("cobranca", 2), ("cobrado", 1),
         ("boleto", 2), ("cartao", 2), ("pix", 2), ("reembolso", 2), ("assinatura", 2)],
        [])
    ]
  }

  /** Text made only of lower-case letters, digits and spaces. */
  predicate IsPlainLower(s: string) {
    forall i :: 0 <= i < |s| ==> IsTokenChar(s[i]) || s[i] == ' '
  }

  /** Normalisation leaves plain lower-case text unchanged. */
  lemma NormalizePlainLower(s: string)
    requires IsPlainLower(s)
    ensures Normalize(s) == s
  {
  }

  /** Partitioning a short list of plain lower-case keywords. */
  lemma PartitionPlain(entries: seq<Entry>)
    requires forall i :: 0 <= i < |entries| ==> IsPlainLower(entries[i].0)
    ensures forall i :: 0 <= i < |entries| ==> NormalizeEntry(entries[i]) == entries[i]
  {
    forall i | 0 <= i < |entries| ensures NormalizeEntry(entries[i]) == entries[i] {
      NormalizePlainLower(entries[i].0);
    }
  }

  /** A rule built from a keyword list given in four pieces. */
  lemma RuleOfPieces(category: string, c0: seq<Entry>, c1: seq<Entry>, c2: seq<Entry>, c3: seq<Entry>,
                     t0: seq<Entry>, t1: seq<Entry>, t2: seq<Entry>, t3: seq<Entry>,
                     p0: seq<Entry>, p1: seq<Entry>, p2: seq<Entry>, p3: seq<Entry>)
    requires TokenEntries(c0) == t0 && TokenEntries(c1) == t1 && TokenEntries(c2) == t2 && TokenEntries(c3) == t3
    requires PhraseEntries(c0) == p0 && PhraseEntries(c1) == p1 && PhraseEntries(c2) == p2 && PhraseEntries(c3) == p3
    ensures RuleFor(category, c0 + c1 + c2 + c3) == Rule(category, t0 + t1 + t2 + t3, p0 + p1 + p2 + p3)
  {
    PartitionDistributes(c0, c1);
    PartitionDistributes(c0 + c1, c2);
    PartitionDistributes(c0 + c1 + c2, c3);
  }

  /** Piece 0 of the `elogio` keyword list goes to its side unchanged. */
  lemma ElogioPiece0()
    ensures TokenEntries([("obrigado", 2), ("obrigada", 2), ("otimo", 2), ("otima", 2)]) == [("obrigado", 2), ("obrigada", 2), ("otimo", 2), ("otima", 2)]
    ensures PhraseEntries([("obrigado", 2), ("obrigada", 2), ("otimo", 2), ("otima", 2)]) == []
  {
    PartitionPlain([("obrigado", 2), ("obrigada", 2), ("otimo", 2), ("otima", 2)]);
  }

  /** Piece 1 of the `elogio` keyword list goes to its side unchanged. */
  lemma ElogioPiece1()
    ensures TokenEntries([("bom", 1), ("excelente", 3), ("parabens", 2), ("adorei", 2)]) == [("bom", 1), ("excelente", 3), ("parabens", 2), ("adorei", 2)]
    ensures PhraseEntries([("bom", 1), ("excelente", 3), ("parabens", 2), ("adorei", 2)]) == []
  {
    PartitionPlain([("bom", 1), ("excelente", 3), ("parabens", 2), ("adorei", 2)]);
  }

  /** Piece 2 of the `elogio` keyword list goes to its side unchanged. */
  lemma ElogioPiece2()
    ensures TokenEntries([("amei", 2), ("show", 1)]) == [("amei", 2), ("show", 1)]
    ensures PhraseEntries([("amei", 2), ("show", 1)]) == []
  {
    PartitionPlain([("amei", 2), ("show", 1)]);
  }

  /** The `elogio` row of the table, as the concatenation of its pieces. */
  lemma ElogioRow()
    ensures KeywordTable()[0].0 == "elogio"
    ensures KeywordTable()[0].1 == [("obrigado", 2), ("obrigada", 2), ("otimo", 2), ("otima", 2)] + [("bom", 1), ("excelente", 3), ("parabens", 2), ("adorei", 2)] + [("amei", 2), ("show", 1)] + []
  {
  }

  /** The `elogio` keyword list partitioned piece by piece. */
  lemma ElogioPartitioned()
    ensures RuleFor("elogio", [("obrigado", 2), ("obrigada", 2), ("otimo", 2), ("otima", 2)] + [("bom", 1), ("excelente", 3), ("parabens", 2), ("adorei", 2)] + [("amei", 2), ("show", 1)] + [])
         == Rule("elogio",
              [("obrigado", 2), ("obrigada", 2), ("otimo", 2), ("otima", 2)] + [("bom", 1), ("excelente", 3), ("parabens", 2), ("adorei", 2)] + [("amei", 2), ("show", 1)] + [],
              [] + [] + [] + [])
  {
    ElogioPiece0();
    ElogioPiece1();
    ElogioPiece2();
    RuleOfPieces("elogio",
      [("obrigado", 2), ("obrigada", 2), ("otimo", 2), ("otima", 2)], [("bom", 1), ("excelente", 3), ("parabens", 2), ("adorei", 2)], [("amei", 2), ("show", 1)], [],
      [("obrigado", 2), ("obrigada", 2), ("otimo", 2), ("otima", 2)], [("bom", 1), ("excelente", 3), ("parabens", 2), ("adorei", 2)], [("amei", 2), ("show", 1)], [],
      [], [], [], []);
  }

  /** The `elogio` reference rule, in the same pieces. */
  lemma ElogioExpected()
    ensures ReferenceRules()[0] == Rule("elogio",
              [("obrigado", 2), ("obrigada", 2), ("otimo", 2), ("otima", 2)] + [("bom", 1), ("excelente", 3), ("parabens", 2), ("adorei", 2)] + [("amei", 2), ("show", 1)] + [],
              [] + [] + [] + [])
  {
  }

  /** The `elogio` rule of the reference table, partitioned. */
  lemma ReferenceElogioRule()
    ensures RuleFor(KeywordTable()[0].0, KeywordTable()[0].1) == ReferenceRules()[0]
  {
    ElogioRow();
    ElogioPartitioned();
    ElogioExpected();
  }

  /** Piece 0 of the `reclamacao` keyword list goes to its side unchanged. */
  lemma ReclamacaoPiece0()
    ensures TokenEntries([("ruim", 2), ("horrivel", 3), ("pessimo", 3), ("problema", 2)]) == [("ruim", 2), ("horrivel", 3), ("pessimo", 3), ("problema", 2)]
    ensures PhraseEntries([("ruim", 2), ("horrivel", 3), ("pessimo", 3), ("problema", 2)]) == []
  {
    PartitionPlain([("ruim", 2), ("horrivel", 3), ("pessimo", 3), ("problema", 2)]);
  }

  /** Piece 1 of the `reclamacao` keyword list goes to its side unchanged. */
  lemma ReclamacaoPiece1()
    ensures TokenEntries([("problemas", 2), ("reclamar", 2), ("reclamacao", 2), ("demora", 1)]) == [("problemas", 2), ("reclamar", 2), ("reclamacao", 2), ("demora", 1)]
    ensures PhraseEntries([("problemas", 2), ("reclamar", 2), ("reclamacao", 2), ("demora", 1)]) == []
  {
    PartitionPlain([("problemas", 2), ("reclamar", 2), ("reclamacao", 2), ("demora", 1)]);
  }

  /** Piece 2 of the `reclamacao` keyword list goes to its side unchanged. */
  lemma ReclamacaoPiece2()
    ensures TokenEntries([("erro", 2), ("nao funciona", 3), ("nao esta funcionando", 3), ("cobrado duas vezes", 3)]) == [("erro", 2)]
    ensures PhraseEntries([("erro", 2), ("nao funciona", 3), ("nao esta funcionando", 3), ("cobrado duas vezes", 3)]) == [("nao funciona", 3), ("nao esta funcionando", 3), ("cobrado duas vezes", 3)]
  {
    PartitionPlain([("erro", 2), ("nao funciona", 3), ("nao esta funcionando", 3), ("cobrado duas vezes", 3)]);
  }

  /** Piece 3 of the `reclamacao` keyword list goes to its side unchanged. */
  lemma ReclamacaoPiece3()
    ensures TokenEntries([("quebrado", 2)]) == [("quebrado", 2)]
    ensures PhraseEntries([("quebrado", 2)]) == []
  {
    PartitionPlain([("quebrado", 2)]);
  }

  /** The `reclamacao` row of the table, as the concatenation of its pieces. */
  lemma ReclamacaoRow()
    ensures KeywordTable()[1].0 == "reclamacao"
    ensures KeywordTable()[1].1 == [("ruim", 2), ("horrivel", 3), ("pessimo", 3), ("problema", 2)] + [("problemas", 2), ("reclamar", 2), ("reclamacao", 2), ("demora", 1)] + [("erro", 2), ("nao funciona", 3), ("nao esta funcionando", 3), ("cobrado duas vezes", 3)] + [("quebrado", 2)]
  {
  }

  /** The `reclamacao` keyword list partitioned piece by piece. */
  lemma ReclamacaoPartitioned()
    ensures RuleFor("reclamacao", [("ruim", 2), ("horrivel", 3), ("pessimo", 3), ("problema", 2)] + [("problemas", 2), ("reclamar", 2), ("reclamacao", 2), ("demora", 1)] + [("erro", 2), ("nao funciona", 3), ("nao esta funcionando", 3), ("cobrado duas vezes", 3)] + [("quebrado", 2)])
         == Rule("reclamacao",
              [("ruim", 2), ("horrivel", 3), ("pessimo", 3), ("problema", 2)] + [("problemas", 2), ("reclamar", 2), ("reclamacao", 2), ("demora", 1)] + [("erro", 2)] + [("quebrado", 2)],
              [] + [] + [("nao funciona", 3), ("nao esta funcionando", 3), ("cobrado duas vezes", 3)] + [])
  {
    ReclamacaoPiece0();
    ReclamacaoPiece1();
    ReclamacaoPiece2();
    ReclamacaoPiece3();
    RuleOfPieces("reclamacao",
      [("ruim", 2), ("horrivel", 3), ("pessimo", 3), ("problema", 2)], [("problemas", 2), ("reclamar", 2), ("reclamacao", 2), ("demora", 1)], [("erro", 2), ("nao funciona", 3), ("nao esta funcionando", 3), ("cobrado duas vezes", 3)], [("quebrado", 2)],
      [("ruim", 2), ("horrivel", 3), ("pessimo", 3), ("problema", 2)], [("problemas", 2), ("reclamar", 2), ("reclamacao", 2), ("demora", 1)], [("erro", 2)], [("quebrado", 2)],
      [], [], [("nao funciona", 3), ("nao esta funcionando", 3), ("cobrado duas vezes", 3)], []);
  }

  /** The `reclamacao` reference rule, in the same pieces. */
  lemma ReclamacaoExpected()
    ensures ReferenceRules()[1] == Rule("reclamacao",
              [("ruim", 2), ("horrivel", 3), ("pessimo", 3), ("problema", 2)] + [("problemas", 2), ("reclamar", 2), ("reclamacao", 2), ("demora", 1)] + [("erro", 2)] + [("quebrado", 2)],
              [] + [] + [("nao funciona", 3), ("nao esta funcionando", 3), ("cobrado duas vezes", 3)] + [])
  {
  }

  /** The `reclamacao` rule of the reference table, partitioned. */
  lemma ReferenceReclamacaoRule()
    ensures RuleFor(KeywordTable()[1].0, KeywordTable()[1].1) == ReferenceRules()[1]
  {
    ReclamacaoRow();
    ReclamacaoPartitioned();
    ReclamacaoExpected();
  }

  /** Piece 0 of the `duvida` keyword list goes to its side unchanged. */
  lemma DuvidaPiece0()
    ensures TokenEntries([("como", 1), ("quando", 1), ("onde", 1), ("qual", 1)]) == [("como", 1), ("quando", 1), ("onde", 1), ("qual", 1)]
    ensures PhraseEntries([("como", 1), ("quando", 1), ("onde", 1), ("qual", 1)]) == []
  {
    PartitionPlain([("como", 1), ("quando", 1), ("onde", 1), ("qual", 1)]);
  }

  /** Piece 1 of the `duvida` keyword list goes to its side unchanged. */
  lemma DuvidaPiece1()
    ensures TokenEntries([("porque", 1), ("por que", 1), ("duvida", 2), ("ajuda", 1)]) == [("porque", 1), ("duvida", 2), ("ajuda", 1)]
    ensures PhraseEntries([("porque", 1), ("por que", 1), ("duvida", 2), ("ajuda", 1)]) == [("por que", 1)]
  {
    PartitionPlain([("porque", 1), ("por que", 1), ("duvida", 2), ("ajuda", 1)]);
  }

  /** Piece 2 of the `duvida` keyword list goes to its side unchanged. */
  lemma DuvidaPiece2()
    ensures TokenEntries([("pode", 1), ("posso", 1), ("consigo", 1)]) == [("pode", 1), ("posso", 1), ("consigo", 1)]
    ensures PhraseEntries([("pode", 1), ("posso", 1), ("consigo", 1)]) == []
  {
    PartitionPlain([("pode", 1), ("posso", 1), ("consigo", 1)]);
  }

  /** The `duvida` row of the table, as the concatenation of its pieces. */
  lemma DuvidaRow()
    ensures KeywordTable()[2].0 == "duvida"
    ensures KeywordTable()[2].1 == [("como", 1), ("quando", 1), ("onde", 1), ("qual", 1)] + [("porque", 1), ("por que", 1), ("duvida", 2), ("ajuda", 1)] + [("pode", 1), ("posso", 1), ("consigo", 1)] + []
  {
  }

  /** The `duvida` keyword list partitioned piece by piece. */
  lemma DuvidaPartitioned()
    ensures RuleFor("duvida", [("como", 1), ("quando", 1), ("onde", 1), ("qual", 1)] + [("porque", 1), ("por que", 1), ("duvida", 2), ("ajuda", 1)] + [("pode", 1), ("posso", 1), ("consigo", 1)] + [])
         == Rule("duvida",
              [("como", 1), ("quando", 1), ("onde", 1), ("qual", 1)] + [("porque", 1), ("duvida", 2), ("ajuda", 1)] + [("pode", 1), ("posso", 1), ("consigo", 1)] + [],
              [] + [("por que", 1)] + [] + [])
  {
    DuvidaPiece0();
    DuvidaPiece1();
    DuvidaPiece2();
    RuleOfPieces("duvida",
      [("como", 1), ("quando", 1), ("onde", 1), ("qual", 1)], [("porque", 1), ("por que", 1), ("duvida", 2), ("ajuda", 1)], [("pode", 1), ("posso", 1), ("consigo", 1)], [],
      [("como", 1), ("quando", 1), ("onde", 1), ("qual", 1)], [("porque", 1), ("duvida", 2), ("ajuda", 1)], [("pode", 1), ("posso", 1), ("consigo", 1)], [],
      [], [("por que", 1)], [], []);
  }

  /** The `duvida` reference rule, in the same pieces. */
  lemma DuvidaExpected()
    ensures ReferenceRules()[2] == Rule("duvida",
              [("como", 1), ("quando", 1), ("onde", 1), ("qual", 1)] + [("porque", 1), ("duvida", 2), ("ajuda", 1)] + [("pode", 1), ("posso", 1), ("consigo", 1)] + [],
              [] + [("por que", 1)] + [] + [])
  {
  }

  /** The `duvida` rule of the reference table, partitioned. */
  lemma ReferenceDuvidaRule()
    ensures RuleFor(KeywordTable()[2].0, KeywordTable()[2].1) == ReferenceRules()[2]
  {
    DuvidaRow();
    DuvidaPartitioned();
    DuvidaExpected();
  }

  /** Piece 0 of the `financeiro` keyword list goes to its side unchanged. */
  lemma FinanceiroPiece0()
    ensures TokenEntries([("preco", 2), ("valor", 2), ("pagamento", 3), ("cobranca", 2)]) == [("preco", 2), ("valor", 2), ("pagamento", 3), ("cobranca", 2)]
    ensures PhraseEntries([("preco", 2), ("valor", 2), ("pagamento", 3), ("cobranca", 2)]) == []
  {
    PartitionPlain([("preco", 2), ("valor", 2), ("pagamento", 3), ("cobranca", 2)]);
  }

  /** Piece 1 of the `financeiro` keyword list goes to its side unchanged. */
  lemma FinanceiroPiece1()
    ensures TokenEntries([("cobrado", 1), ("boleto", 2), ("cartao", 2), ("pix", 2)]) == [("cobrado", 1), ("boleto", 2), ("cartao", 2), ("pix", 2)]
    ensures PhraseEntries([("cobrado", 1), ("boleto", 2), ("cartao", 2), ("pix", 2)]) == []
  {
    PartitionPlain([("cobrado", 1), ("boleto", 2), ("cartao", 2), ("pix", 2)]);
  }

  /** Piece 2 of the `financeiro` keyword list goes to its side unchanged. */
  lemma FinanceiroPiece2()
    ensures TokenEntries([("reembolso", 2), ("assinatura", 2)]) == [("reembolso", 2), ("assinatura", 2)]
    ensures PhraseEntries([("reembolso", 2), ("assinatura", 2)]) == []
  {
    PartitionPlain([("reembolso", 2), ("assinatura", 2)]);
  }

  /** The `financeiro` row of the table, as the concatenation of its pieces. */
  lemma FinanceiroRow()
    ensures KeywordTable()[3].0 == "financeiro"
    ensures KeywordTable()[3].1 == [("preco", 2), ("valor", 2), ("pagamento", 3), ("cobranca", 2)] + [("cobrado", 1), ("boleto", 2), ("cartao", 2), ("pix", 2)] + [("reembolso", 2), ("assinatura", 2)] + []
  {
  }

  /** The `financeiro` keyword list partitioned piece by piece. */
  lemma FinanceiroPartitioned()
    ensures RuleFor("financeiro", [("preco", 2), ("valor", 2), ("pagamento", 3), ("cobranca", 2)] + [("cobrado", 1), ("boleto", 2), ("cartao", 2), ("pix", 2)] + [("reembolso", 2), ("assinatura", 2)] + [])
         == Rule("financeiro",
              [("preco", 2), ("valor", 2), ("pagamento", 3), ("cobranca", 2)] + [("cobrado", 1), ("boleto", 2), ("cartao", 2), ("pix", 2)] + [("reembolso", 2), ("assinatura", 2)] + [],
              [] + [] + [] + [])
  {
    FinanceiroPiece0();
    FinanceiroPiece1();
    FinanceiroPiece2();
    RuleOfPieces("financeiro",
      [("preco", 2), ("valor", 2), ("pagamento", 3), ("cobranca", 2)], [("cobrado", 1), ("boleto", 2), ("cartao", 2), ("pix", 2)], [("reembolso", 2), ("assinatura", 2)], [],
      [("preco", 2), ("valor", 2), ("pagamento", 3), ("cobranca", 2)], [("cobrado", 1), ("boleto", 2), ("cartao", 2), ("pix", 2)], [("reembolso", 2), ("assinatura", 2)], [],
      [], [], [], []);
  }

  /** The `financeiro` reference rule, in the same pieces. */
  lemma FinanceiroExpected()
    ensures ReferenceRules()[3] == Rule("financeiro",
              [("preco", 2), ("valor", 2), ("pagamento", 3), ("cobranca", 2)] + [("cobrado", 1), ("boleto", 2), ("cartao", 2), ("pix", 2)] + [("reembolso", 2), ("assinatura", 2)] + [],
              [] + [] + [] + [])
  {
  }

  /** The `financeiro` rule of the reference table, partitioned. */
  lemma ReferenceFinanceiroRule()
    ensures RuleFor(KeywordTable()[3].0, KeywordTable()[3].1) == ReferenceRules()[3]
  {
    FinanceiroRow();
    FinanceiroPartitioned();
    FinanceiroExpected();
  }

  /** Four rows build the four rules they each build. */
  lemma RulesFromFourRows(r0: (string, seq<Entry>), r1: (string, seq<Entry>), r2: (string, seq<Entry>), r3: (string, seq<Entry>),
                          q0: Rule, q1: Rule, q2: Rule, q3: Rule)
    requires RuleFor(r0.0, r0.1) == q0 && RuleFor(r1.0, r1.1) == q1
    requires RuleFor(r2.0, r2.1) == q2 && RuleFor(r3.0, r3.1) == q3
    ensures RulesFromTable([r0, r1, r2, r3]) == [q0, q1, q2, q3]
  {
  }

  /** The table has exactly the four rows. */
  lemma TableRows()
    ensures KeywordTable() == [KeywordTable()[0], KeywordTable()[1], KeywordTable()[2], KeywordTable()[3]]
  {
  }

  /** The reference rules are exactly four. */
  lemma ExpectedRows()
    ensures ReferenceRules() == [ReferenceRules()[0], ReferenceRules()[1], ReferenceRules()[2], ReferenceRules()[3]]
  {
  }

  /** `criar_classificador_padrao` builds exactly the reference rules. */
  lemma ReferenceTableRules()
    ensures RulesFromTable(KeywordTable()) == ReferenceRules()
  {
    ReferenceElogioRule();
    ReferenceReclamacaoRule();
    ReferenceDuvidaRule();
    ReferenceFinanceiroRule();
    TableRows();
    ExpectedRows();
    RulesFromFourRows(KeywordTable()[0], KeywordTable()[1], KeywordTable()[2], KeywordTable()[3],
      ReferenceRules()[0], ReferenceRules()[1], ReferenceRules()[2], ReferenceRules()[3]);
  }
}
