# Weighted-keyword rule classifier, modelled in Dafny

This project models the message classifier of `classificador.py`: a rule engine that assigns a short text to one of the categories `elogio`, `reclamacao`, `duvida` and `financeiro`, or to the fallback `outros`.

The classifier works in these steps:
1. The text is normalised: accents are stripped and the text is lower-cased.
2. It is cut into tokens, the maximal runs of `[a-z0-9]`.
3. Each rule is scored by summing the weights of its phrases found in the normalised text and of its single-word keywords found in the token set.
4. The first rule with the strictly greatest positive score wins.

The rules come from a fixed keyword table. Each keyword is normalised and then sent to the phrase list when it holds a space, to the token list otherwise.

The project has seven modules:
- `TextNormalization` (`text.dfy`) holds `normalizar_texto`, the token pattern, `_tokenizar_normalizado` and `tokenizar`. It also proves that a text is exactly its tokens laid out between separators, and the converse, and that the one-character fold agrees with the three steps of `normalizar_texto` (compatibility decomposition, removal of combining marks, lower case) taken from a table of the Unicode decompositions below U+0100.
- `KeywordRules` (`rules.dfy`) holds the two record types, the keyword partition `_normalizar_palavras_chave` (a method with a loop, proved against functions), and the keyword table of `criar_classificador_padrao`.
- `Scoring` (`scoring.dfy`) holds what `classificar` computes, as functions: matches, scores and the first-wins choice. It also holds the lemmas about them.
- `RuleClassifier` (`classifier.dfy`) holds the class `Classifier`, whose method `Classify` is the nested loop of `classificar`, proved equal to the function `Classification`. It also holds `criar_classificador_padrao`, whose loop over the table is proved to build the rules the table describes.
- `DefaultRules` (`default_rules.dfy`) evaluates the table. It proves that `criar_classificador_padrao` builds exactly the listed rules, with each keyword already on its side.
- `ScenarioTexts` (`scenario_texts.dfy`) holds the scenario strings, each cut after every word.
- `Scenarios` (`scenarios.dfy`) evaluates the classification examples of `tests/test_classificador.py` against those rules.

Each scenario is stated on the string literal of its test. Its proof goes through the layout of the text as words and the separators between them, the concatenation gap 0, word 0, gap 1, ..., last gap. For example, "Preciso de ajuda com pagamento" is laid out as the words Preciso, de, ajuda, com, pagamento with the separators "", " ", " ", " ", " ", "". The module `ScenarioTexts` (`scenario_texts.dfy`) cuts each literal after every word, and `Scenarios` joins those pieces back into the layout.

Facts about the code that the model keeps:
- The table's category order is elogio, reclamacao, duvida, financeiro, the insertion order of the dictionary in `criar_classificador_padrao`.
- The conflict example "O app nao funciona e fui cobrado duas vezes" is settled by score: `reclamacao` scores 6 (two phrases) and `financeiro` scores 1 (the token `cobrado`).
- The fallback is returned when no rule scores above zero (strict `>` against 0).

## Model

| member | source | states |
|---|---|---|
| TextNormalization.IsTokenChar | classificador.py:12 | The character class `[a-z0-9]` of the token pattern (a definition, no contract) |
| TextNormalization.FoldChar | classificador.py:64-70 | The folded character is never an ASCII capital; an ASCII capital becomes its lower-case letter; every other ASCII character is kept. Its agreement with decomposition, mark removal and lower case is `FoldCharFollowsSteps` |
| TextNormalization.Normalize | classificador.py:64-70 | Normalisation keeps the length, leaves no ASCII capital, lower-cases every ASCII capital in place and keeps every other ASCII character |
| TextNormalization.Decompose | classificador.py:66 | The NFKD decomposition of each character below U+0100, from the Unicode character database, is never empty; characters from U+0100 on are kept |
| TextNormalization.DecomposeAll | classificador.py:66 | `unicodedata.normalize("NFKD", ...)` on a string: the decompositions of its characters, in order (a definition, no contract; characterised by `DecomposeAllOne` and `DecomposeAllSnoc`) |
| TextNormalization.IsCombining | classificador.py:68 | `unicodedata.combining(c)` is non-zero, over the block U+0300-U+036F, whose only character of combining class 0, U+034F, is excluded (a definition, no contract; used by `StripMarks`) |
| TextNormalization.StripMarks | classificador.py:67-69 | Removing the combining marks leaves no combining mark |
| TextNormalization.LowerChar | classificador.py:70 | `str.lower` on one character below U+0100 or produced by their decompositions (a definition, no contract; tied to `FoldChar` by `DecomposeIsBaseAndMark`) |
| TextNormalization.LowerAll | classificador.py:70 | `str.lower` on a string: each character lowered on its own, length kept (a definition) |
| TextNormalization.NormalizeBySteps | classificador.py:64-70 | `normalizar_texto` as its three steps: decomposition, mark removal, lower case (a definition, no contract; `Normalize` is tied to it by `NormalizeFollowsSteps`) |
| TextNormalization.StripMarksConcat | classificador.py:67-69 | Mark removal works character by character, so it distributes over concatenation |
| TextNormalization.DecomposeIsBaseAndMark | classificador.py:66-70 | Every character below U+0100 other than the fractions U+00BC-U+00BE decomposes into one base character, followed by at most one combining mark, and that base lowered is `FoldChar`'s result |
| TextNormalization.FoldCharFollowsSteps | classificador.py:64-70 | For every such character, decomposition, mark removal and lower case give exactly the one character `FoldChar` returns: accents are stripped (é to e, ç to c), the no-break space and the spacing diacritics become a space, ª º ² ³ ¹ become a o 2 3 1, and the Latin-1 capitals are lowered |
| TextNormalization.NormalizeByStepsSnoc | classificador.py:64-70 | The three steps on a text followed by one character are the steps on the text followed by the steps on the character |
| TextNormalization.NormalizeFollowsSteps | classificador.py:64-70 | On text made of such characters, `Normalize` equals the three steps of `normalizar_texto` applied to the whole string |
| TextNormalization.NormalizeConcat | classificador.py:64-70 | Normalisation works character by character, so it distributes over concatenation |
| TextNormalization.NormalizeInterleave | classificador.py:64-70 | Normalising a text laid out from separators and words is laying out the normalised separators and words |
| TextNormalization.RunLength | classificador.py:12 | The length of the run of `[a-z0-9]` at the start of a text: every character inside is a token character and the next one is not |
| TextNormalization.Tokens | classificador.py:77-78 | Every token found is non-empty and made only of `[a-z0-9]` |
| TextNormalization.Tokenize | classificador.py:73-74 | `tokenizar` yields only non-empty `[a-z0-9]` tokens |
| TextNormalization.Gaps | classificador.py:77-78 | A text has one more separator stretch than tokens, and the first is empty exactly when the text is empty or starts with a token character |
| TextNormalization.TokensDecompose | classificador.py:77-78 | Any text is its tokens laid out between its separators; the separators hold no token character and those between two tokens are non-empty, so every token is a maximal run |
| TextNormalization.TokensOfInterleave | classificador.py:77-78 | Conversely, tokenising well-separated tokens laid out between separators gives back exactly those tokens, in order, duplicates kept |
| TextNormalization.TokensSkipGap | classificador.py:77-78 | A leading stretch without token characters yields no token |
| TextNormalization.RunLengthOfToken | classificador.py:12 | A token followed by a non-token character, or by nothing, is one whole run |
| TextNormalization.TokensOfToken | classificador.py:77-78 | A single token tokenises to itself |
| TextNormalization.TokensOfSeparatedConcat | classificador.py:77-78 | Two texts joined by a separator character tokenise to the tokens of the first followed by those of the second |
| KeywordRules.Rule | classificador.py:21-25 | `RegraPalavraChave`: a category with its weighted single-word keywords and its weighted phrases, each in order (a datatype, no contract; built by `RulesFromTable`) |
| KeywordRules.ClassificationResult | classificador.py:15-18 | `ResultadoClassificacao`: a category and the matched keywords (a datatype, no contract; characterised by `ClassificationOutcome`) |
| KeywordRules.HasSpace | classificador.py:90 | `" " in` the normalised keyword (a definition, no contract; used by `PartitionIsSplit`) |
| KeywordRules.NormalizeEntry | classificador.py:89 | A keyword normalised with its weight kept (a definition, no contract; characterised by `NormalizedEntries`) |
| KeywordRules.TokenEntries | classificador.py:87-95 | The normalised entries without a space, in order: the token side of the partition (a definition, no contract) |
| KeywordRules.PhraseEntries | classificador.py:87-95 | The normalised entries holding a space, in order: the phrase side of the partition (a definition, no contract) |
| KeywordRules.RuleFor | classificador.py:159-163 | The rule of one table row: its category, its token side and its phrase side (a definition, no contract) |
| KeywordRules.KeywordTable | classificador.py:101-154 | The keyword table, with every keyword and weight of the dictionary, in its order (a definition, no contract) |
| KeywordRules.NormalizedEntries | classificador.py:88-89 | Every keyword is normalised and its weight kept, in order |
| KeywordRules.PartitionDistributes | classificador.py:88-93 | Both sides of the partition distribute over concatenation, so each keeps the relative order of its entries |
| KeywordRules.PartitionIsSplit | classificador.py:87-95 | Every phrase holds a space and no token does; together they hold each normalised entry exactly once (multiset), and their lengths add up to the input's |
| KeywordRules.PartitionKeywords | classificador.py:81-95 | The loop returns exactly the token side and the phrase side of the partition, whose lengths add up to the number of keywords |
| KeywordRules.RulesFromTable | classificador.py:156-164 | One rule per table row, in table order, each built from its row by the partition |
| Scoring.DefaultCategory | classificador.py:36 | The fallback category `"outros"` (a constant; characterised by `ClassificationOutcome`) |
| Scoring.IsSubstring | classificador.py:45 | Python's `in` on strings: the phrase is a prefix of the text or of one of its suffixes (a definition, no contract; characterised by `IsSubstringAt`) |
| Scoring.PhraseMatches | classificador.py:44-47 | The phrases of a rule found in the normalised text, in rule order (a definition, no contract; characterised by `PhraseMatchesSpec`) |
| Scoring.PhraseScore | classificador.py:44-47 | The sum of the weights of those phrases (a definition, no contract; characterised by `PhraseMatchesSpec` and `PhraseScoreConcat`) |
| Scoring.TokenMatches | classificador.py:48-51 | The keywords of a rule in the token set, in rule order (a definition, no contract; characterised by `TokenMatchesSpec`) |
| Scoring.TokenScore | classificador.py:48-51 | The sum of the weights of those keywords (a definition, no contract; characterised by `TokenMatchesSpec` and `TokenScoreConcat`) |
| Scoring.RuleMatches | classificador.py:42-51 | A rule's matches: its phrase matches followed by its token matches (a definition, no contract) |
| Scoring.RuleScore | classificador.py:42-51 | A rule's score: its phrase score plus its token score (a definition, no contract) |
| Scoring.Classification | classificador.py:32-61 | What `classificar` returns (a definition, no contract; characterised by `ClassificationOutcome`, and computed by `Classifier.Classify`) |
| Scoring.IsSubstringAt | classificador.py:45 | The substring test holds exactly when the phrase occurs at some position of the text |
| Scoring.IsSubstringExtend | classificador.py:45 | A phrase found in a text is still found once the text is extended |
| Scoring.SubstringCharsOccur | classificador.py:45 | Every character of a phrase found in a text occurs in the text |
| Scoring.TokenSet | classificador.py:34 | `set(...)` of the token list: it holds exactly the tokens of the list (a definition) |
| Scoring.Scores | classificador.py:41-51 | One score per rule, in rule order, each the rule's phrase score plus its token score (a definition) |
| Scoring.FirstBest | classificador.py:36-56 | The strict `>` scan from the default yields either no rule (-1) or the index of a rule |
| Scoring.FirstBestIsFirstMaximum | classificador.py:36-56 | The scan keeps exactly the first positive maximal score, or no rule when no score is positive, and no other index meets that description |
| Scoring.TieGoesToEarlierRule | classificador.py:53 | Of two rules with equal scores, the later one is never chosen |
| Scoring.RaisingWinnerKeepsIt | classificador.py:53-56 | Raising the winner's score while no other score rises keeps the same winner |
| Scoring.PhraseMatchesSpec | classificador.py:44-47 | A phrase is matched exactly when it is in the rule and occurs in the normalised text; no match means score zero |
| Scoring.TokenMatchesSpec | classificador.py:48-51 | A keyword is matched exactly when it is in the rule and in the token set; no match means score zero |
| Scoring.ClassificationOutcome | classificador.py:32-61 | The result is `outros` with no keywords exactly when no rule scores above zero; otherwise it is the category of the first rule with the maximal score, and the keywords are that rule's non-empty matches, phrases first |
| Scoring.TokenScoreConcat | classificador.py:48-51 | Token score and token matches are additive over the keyword list, in list order |
| Scoring.PhraseScoreConcat | classificador.py:44-47 | Phrase score and phrase matches are additive over the phrase list, in list order |
| Scoring.TokenScoreMonotone | classificador.py:48-51 | With non-negative weights, a larger token set never lowers a token score |
| Scoring.PhraseScoreMonotone | classificador.py:44-47 | With non-negative weights, extending the text never lowers a phrase score |
| Scoring.AppendingTextNeverLowersScore | classificador.py:33-51 | With non-negative weights, appending text after a space never lowers a rule's score |
| Scoring.RepeatedWordKeepsTokenSet | classificador.py:34 | Repeating a word of the text after a space leaves the token set, and so every token score, unchanged |
| Scoring.AbsentCharRulesOut | classificador.py:45 | A phrase holding a character that no separator and no word holds is not found in their layout |
| Scoring.PhraseOfTwoWords | classificador.py:45 | Two consecutive words with their separator are found in the layout |
| Scoring.PhraseOfThreeWords | classificador.py:45 | Three consecutive words with their separators are found in the layout |
| Scoring.PhraseScoreAround | classificador.py:44-47 | A phrase score splits into the phrases before an entry, that entry's own weight when found, and the phrases after it |
| Scoring.ClassifiedAs | classificador.py:32-61 | When an index is the first maximum of the scores on the normalised text, the classification is that rule's category and matches, or `outros` with no keywords for -1 |
| RuleClassifier.Classifier.constructor | classificador.py:29-30 | The classifier keeps the rules it is given |
| RuleClassifier.ScoreRule | classificador.py:42-51 | The two inner loops return exactly the rule's matches (its phrases found, then its keywords present) and its score |
| RuleClassifier.Classifier.Classify | classificador.py:32-61 | The scan over the rules with the strict `>` update returns exactly `Classification(rules, text)` |
| RuleClassifier.BuildRules | classificador.py:156-164 | The loop over the table builds one rule per row, with the row's category, equal to `RulesFromTable(table)` |
| RuleClassifier.CreateDefaultClassifier | classificador.py:98-166 | A new classifier whose rules are those built from the keyword table, which are exactly the reference rules |
| DefaultRules.NormalizePlainLower | classificador.py:64-70 | Normalisation leaves text made of lower-case letters, digits and spaces unchanged |
| DefaultRules.ReferenceRules | classificador.py:101-164 | The four rules, written out with their keywords already normalised and partitioned (a definition, no contract; tied to the table by `ReferenceTableRules`) |
| DefaultRules.ReferenceElogioRule | classificador.py:102-113 | The `elogio` row builds ten token keywords and no phrase |
| DefaultRules.ReferenceReclamacaoRule | classificador.py:114-128 | The `reclamacao` row builds ten token keywords and the phrases "nao funciona", "nao esta funcionando" and "cobrado duas vezes", in table order |
| DefaultRules.ReferenceDuvidaRule | classificador.py:129-141 | The `duvida` row builds ten token keywords and the phrase "por que" |
| DefaultRules.ReferenceFinanceiroRule | classificador.py:142-153 | The `financeiro` row builds ten token keywords and no phrase |
| DefaultRules.ReferenceTableRules | classificador.py:101-164 | The rules built from the whole table are exactly the four reference rules, in table order |
| Scenarios.RepeatedWordCanAddPhrase | classificador.py:44-47 | "funciona nao" holds no "nao funciona", but with its word "funciona" repeated after a space it does: repeating a word can change a phrase score |
| Scenarios.PraiseExample | tests/test_classificador.py:11 | "Atendimento excelente, parabens" is classified as `elogio` with keywords ["excelente", "parabens"] |
| Scenarios.ComplaintExample | tests/test_classificador.py:15 | "O app esta ruim e nao funciona" is classified as `reclamacao` with keywords ["nao funciona", "ruim"] |
| Scenarios.QuestionExample | tests/test_classificador.py:19 | "Como posso mudar minha senha?" is classified as `duvida` with keywords ["como", "posso"] |
| Scenarios.BillingExample | tests/test_classificador.py:23 | "Qual o valor da assinatura e do boleto?" is classified as `financeiro` with keywords ["valor", "boleto", "assinatura"] |
| Scenarios.NeutralExample | tests/test_classificador.py:27 | "Mensagem neutra sem palavras chave" is classified as `outros` with keywords [] |
| Scenarios.WeightDecidesExample | tests/test_classificador.py:31 | "Preciso de ajuda com pagamento" is classified as `financeiro` with keywords ["pagamento"] |
| Scenarios.AccentedPraiseExample | tests/test_classificador.py:35 | "Parabéns, o atendimento foi ótimo." is classified as `elogio` with keywords ["otimo", "parabens"] |
| Scenarios.UpperCaseBillingExample | tests/test_classificador.py:40 | "COMO FAÇO O PAGAMENTO???" is classified as `financeiro` with keywords ["pagamento"] |
| Scenarios.ConflictExample | tests/test_classificador.py:45 | "O app nao funciona e fui cobrado duas vezes" is classified as `reclamacao` with keywords ["nao funciona", "cobrado duas vezes"] |
| Scenarios.KeywordsReturnedExample | tests/test_classificador.py:50 | "Qual o valor da assinatura mensal?" is classified as `financeiro` with keywords ["valor", "assinatura"] |
| Scenarios.ProvidedQuestionExample | tests/test_classificador.py:57 | "Como faco para alterar meu plano?" is classified as `duvida` with keywords ["como"] |
| Scenarios.ProvidedBillingQuestionExample | tests/test_classificador.py:58 | "Quando o pagamento e cobrado?" is classified as `financeiro` with keywords ["pagamento", "cobrado"] |
| Scenarios.ProvidedNotWorkingExample | tests/test_classificador.py:59 | "O aplicativo nao esta funcionando desde ontem." is classified as `reclamacao` |
| Scenarios.ProvidedChargedTwiceExample | tests/test_classificador.py:60 | "Fui cobrado duas vezes e ninguem responde." is classified as `reclamacao` |
| Scenarios.ProvidedProblemsExample | tests/test_classificador.py:61 | "Estou tendo problemas para acessar minha conta." is classified as `reclamacao` with keywords ["problemas"] |
| Scenarios.ProvidedCongratulationsExample | tests/test_classificador.py:62 | "Gostei muito do atendimento, estao de parabens." is classified as `elogio` with keywords ["parabens"] |
| Scenarios.ProvidedGreatExperienceExample | tests/test_classificador.py:63 | "A experiencia com o sistema foi otima." is classified as `elogio` with keywords ["otima"] |
| Scenarios.ProvidedGreetingExample | tests/test_classificador.py:64 | "Oi" is classified as `outros` with keywords [] |
| Scenarios.ProvidedTestExample | tests/test_classificador.py:65 | "Teste" is classified as `outros` with keywords [] |

## Left out

- `servidor.py` and `tests/test_servidor.py` (the HTTP layer) are not part of this model.
- The module-level singleton `CLASSIFICADOR_PADRAO` is not modelled. It is one call of `CreateDefaultClassifier`.
- The regular-expression engine is not modelled. `findall` with `[a-z0-9]+` is stated as the recursive function `Tokens`, characterised by `TokensDecompose` and `TokensOfInterleave`.
- TextNormalization.FoldChar: the vulgar fractions U+00BC-U+00BE, whose decompositions are three characters ("1⁄4", "1⁄2", "3⁄4"), are kept as one character, so `Normalize` keeps the length where `normalizar_texto` would lengthen the text. Characters from U+0100 on are kept as they are: their decompositions, non-Latin capitals and characters whose lower case spans several characters are not modelled. `FoldCharFollowsSteps` and `NormalizeFollowsSteps` state the agreement with the three steps only for the characters below U+0100 other than those fractions. In particular a combining mark typed in the input (U+0300-U+036F, as in decomposed text such as "parabe" followed by U+0301 and "ns") is kept by `Normalize`, which then cuts the word into two tokens, where `normalizar_texto` drops the mark and gives "parabens"; decomposed input is therefore classified as if its accented words were split. No idempotence of the real normalisation is claimed.
- TextNormalization.IsCombining: `unicodedata.combining` is modelled as the block U+0300-U+036F less the combining grapheme joiner U+034F (combining class 0), which holds every combining mark the decompositions below U+0100 produce. Only the reference `NormalizeBySteps` filters marks; `Normalize` does not.
- Python's arbitrary-size integers match Dafny's `int`, so scores need no overflow handling. Python strings are sequences of code points, modelled as `seq<char>` with no encoding.
- Scenarios.ProvidedNotWorkingExample: states the category only, not the keyword list. Whether "nao funciona", a phrase of the winning `reclamacao` rule, occurs in "o aplicativo nao esta funcionando desde ontem." is not decided: all its characters occur in the text. The category follows from score bounds alone.
- Scenarios.ProvidedChargedTwiceExample: states the category only, not the keyword list. Whether "nao funciona", a phrase of the winning `reclamacao` rule, occurs in "fui cobrado duas vezes e ninguem responde." is not decided: all its characters occur in the text. The category follows from score bounds alone.
- Concurrency and the reuse of one classifier across requests are not modelled. The classifier's rules are constant, so its calls do not interact.
