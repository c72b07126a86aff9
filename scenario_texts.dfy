/** The strings of the classification scenarios, each cut after every word:
    a string literal compared with a concatenation of short literals. Kept
    apart from the other modules so that these comparisons see no other
    definitions. */
module ScenarioTexts {
  /** "Atendimento excelente, parabens" (tests/test_classificador.py, line 11) in two halves. */
  lemma PraiseExampleHalves(text: string)
    requires text == "Atendimento excelente, parabens"
    ensures text == "Atendimento excelente" + ", parabens"
  {
  }

  /** The first half, cut after each word, followed by any text `b`. */
  lemma PraiseExampleFront(a: string, b: string)
    requires a == "Atendimento excelente"
    ensures a + b == "Atendimento" + (" excelente" + b)
  {
  }

  /** The second half, cut after each word. */
  lemma PraiseExampleBack(b: string)
    requires b == ", parabens"
    ensures b == ", parabens" + ""
  {
  }

  /** "O app esta ruim e nao funciona" (tests/test_classificador.py, line 15) in two halves. */
  lemma ComplaintExampleHalves(text: string)
    requires text == "O app esta ruim e nao funciona"
    ensures text == "O app esta ruim" + " e nao funciona"
  {
  }

  /** The first half, cut after each word, followed by any text `b`. */
  lemma ComplaintExampleFront(a: string, b: string)
    requires a == "O app esta ruim"
    ensures a + b == "O" + (" app" + (" esta" + (" ruim" + b)))
  {
  }

  /** The second half, cut after each word. */
  lemma ComplaintExampleBack(b: string)
    requires b == " e nao funciona"
    ensures b == " e" + (" nao" + (" funciona" + ""))
  {
  }

  /** "Como posso mudar minha senha?" (tests/test_classificador.py, line 19) in two halves. */
  lemma QuestionExampleHalves(text: string)
    requires text == "Como posso mudar minha senha?"
    ensures text == "Como posso mudar" + " minha senha?"
  {
  }

  /** The first half, cut after each word, followed by any text `b`. */
  lemma QuestionExampleFront(a: string, b: string)
    requires a == "Como posso mudar"
    ensures a + b == "Como" + (" posso" + (" mudar" + b))
  {
  }

  /** The second half, cut after each word. */
  lemma QuestionExampleBack(b: string)
    requires b == " minha senha?"
    ensures b == " minha" + (" senha" + "?")
  {
  }

  /** "Qual o valor da assinatura e do boleto?" (tests/test_classificador.py, line 23) in two halves. */
  lemma BillingExampleHalves(text: string)
    requires text == "Qual o valor da assinatura e do boleto?"
    ensures text == "Qual o valor da" + " assinatura e do boleto?"
  {
  }

  /** The first half, cut after each word, followed by any text `b`. */
  lemma BillingExampleFront(a: string, b: string)
    requires a == "Qual o valor da"
    ensures a + b == "Qual" + (" o" + (" valor" + (" da" + b)))
  {
  }

  /** The second half, cut after each word. */
  lemma BillingExampleBack(b: string)
    requires b == " assinatura e do boleto?"
    ensures b == " assinatura" + (" e" + (" do" + (" boleto" + "?")))
  {
  }

  /** "Mensagem neutra sem palavras chave" (tests/test_classificador.py, line 27) in two halves. */
  lemma NeutralExampleHalves(text: string)
    requires text == "Mensagem neutra sem palavras chave"
    ensures text == "Mensagem neutra sem" + " palavras chave"
  {
  }

  /** The first half, cut after each word, followed by any text `b`. */
  lemma NeutralExampleFront(a: string, b: string)
    requires a == "Mensagem neutra sem"
    ensures a + b == "Mensagem" + (" neutra" + (" sem" + b))
  {
  }

  /** The second half, cut after each word. */
  lemma NeutralExampleBack(b: string)
    requires b == " palavras chave"
    ensures b == " palavras" + (" chave" + "")
  {
  }

  /** "Preciso de ajuda com pagamento" (tests/test_classificador.py, line 31) in two halves. */
  lemma WeightDecidesExampleHalves(text: string)
    requires text == "Preciso de ajuda com pagamento"
    ensures text == "Preciso de ajuda" + " com pagamento"
  {
  }

  /** The first half, cut after each word, followed by any text `b`. */
  lemma WeightDecidesExampleFront(a: string, b: string)
    requires a == "Preciso de ajuda"
    ensures a + b == "Preciso" + (" de" + (" ajuda" + b))
  {
  }

  /** The second half, cut after each word. */
  lemma WeightDecidesExampleBack(b: string)
    requires b == " com pagamento"
    ensures b == " com" + (" pagamento" + "")
  {
  }

  /** "Parab\U{00E9}ns, o atendimento foi \U{00F3}timo." (tests/test_classificador.py, line 35) in two halves. */
  lemma AccentedPraiseExampleHalves(text: string)
    requires text == "Parab\U{00E9}ns, o atendimento foi \U{00F3}timo."
    ensures text == "Parab\U{00E9}ns, o atendimento" + " foi \U{00F3}timo."
  {
  }

  /** The first half, cut after each word, followed by any text `b`. */
  lemma AccentedPraiseExampleFront(a: string, b: string)
    requires a == "Parab\U{00E9}ns, o atendimento"
    ensures a + b == "Parab\U{00E9}ns" + (", o" + (" atendimento" + b))
  {
  }

  /** The second half, cut after each word. */
  lemma AccentedPraiseExampleBack(b: string)
    requires b == " foi \U{00F3}timo."
    ensures b == " foi" + (" \U{00F3}timo" + ".")
  {
  }

  /** "COMO FA\U{00C7}O O PAGAMENTO???" (tests/test_classificador.py, line 40) in two halves. */
  lemma UpperCaseBillingExampleHalves(text: string)
    requires text == "COMO FA\U{00C7}O O PAGAMENTO???"
    ensures text == "COMO FA\U{00C7}O" + " O PAGAMENTO???"
  {
  }

  /** The first half, cut after each word, followed by any text `b`. */
  lemma UpperCaseBillingExampleFront(a: string, b: string)
    requires a == "COMO FA\U{00C7}O"
    ensures a + b == "COMO" + (" FA\U{00C7}O" + b)
  {
  }

  /** The second half, cut after each word. */
  lemma UpperCaseBillingExampleBack(b: string)
    requires b == " O PAGAMENTO???"
    ensures b == " O" + (" PAGAMENTO" + "???")
  {
  }

  /** "O app nao funciona e fui cobrado duas vezes" (tests/test_classificador.py, line 45) in two halves. */
  lemma ConflictExampleHalves(text: string)
    requires text == "O app nao funciona e fui cobrado duas vezes"
    ensures text == "O app nao funciona e" + " fui cobrado duas vezes"
  {
  }

  /** The first half, cut after each word, followed by any text `b`. */
  lemma ConflictExampleFront(a: string, b: string)
    requires a == "O app nao funciona e"
    ensures a + b == "O" + (" app" + (" nao" + (" funciona" + (" e" + b))))
  {
  }

  /** The second half, cut after each word. */
  lemma ConflictExampleBack(b: string)
    requires b == " fui cobrado duas vezes"
    ensures b == " fui" + (" cobrado" + (" duas" + (" vezes" + "")))
  {
  }

  /** "Qual o valor da assinatura mensal?" (tests/test_classificador.py, line 50) in two halves. */
  lemma KeywordsReturnedExampleHalves(text: string)
    requires text == "Qual o valor da assinatura mensal?"
    ensures text == "Qual o valor" + " da assinatura mensal?"
  {
  }

  /** The first half, cut after each word, followed by any text `b`. */
  lemma KeywordsReturnedExampleFront(a: string, b: string)
    requires a == "Qual o valor"
    ensures a + b == "Qual" + (" o" + (" valor" + b))
  {
  }

  /** The second half, cut after each word. */
  lemma KeywordsReturnedExampleBack(b: string)
    requires b == " da assinatura mensal?"
    ensures b == " da" + (" assinatura" + (" mensal" + "?"))
  {
  }

  /** "Como faco para alterar meu plano?" (tests/test_classificador.py, line 57) in two halves. */
  lemma ProvidedQuestionExampleHalves(text: string)
    requires text == "Como faco para alterar meu plano?"
    ensures text == "Como faco para" + " alterar meu plano?"
  {
  }

  /** The first half, cut after each word, followed by any text `b`. */
  lemma ProvidedQuestionExampleFront(a: string, b: string)
    requires a == "Como faco para"
    ensures a + b == "Como" + (" faco" + (" para" + b))
  {
  }

  /** The second half, cut after each word. */
  lemma ProvidedQuestionExampleBack(b: string)
    requires b == " alterar meu plano?"
    ensures b == " alterar" + (" meu" + (" plano" + "?"))
  {
  }

  /** "Quando o pagamento e cobrado?" (tests/test_classificador.py, line 58) in two halves. */
  lemma ProvidedBillingQuestionExampleHalves(text: string)
    requires text == "Quando o pagamento e cobrado?"
    ensures text == "Quando o pagamento" + " e cobrado?"
  {
  }

  /** The first half, cut after each word, followed by any text `b`. */
  lemma ProvidedBillingQuestionExampleFront(a: string, b: string)
    requires a == "Quando o pagamento"
    ensures a + b == "Quando" + (" o" + (" pagamento" + b))
  {
  }

  /** The second half, cut after each word. */
  lemma ProvidedBillingQuestionExampleBack(b: string)
    requires b == " e cobrado?"
    ensures b == " e" + (" cobrado" + "?")
  {
  }

  /** "O aplicativo nao esta funcionando desde ontem." (tests/test_classificador.py, line 59) in two halves. */
  lemma ProvidedNotWorkingExampleHalves(text: string)
    requires text == "O aplicativo nao esta funcionando desde ontem."
    ensures text == "O aplicativo nao esta" + " funcionando desde ontem."
  {
  }

  /** The first half, cut after each word, followed by any text `b`. */
  lemma ProvidedNotWorkingExampleFront(a: string, b: string)
    requires a == "O aplicativo nao esta"
    ensures a + b == "O" + (" aplicativo" + (" nao" + (" esta" + b)))
  {
  }

  /** The second half, cut after each word. */
  lemma ProvidedNotWorkingExampleBack(b: string)
    requires b == " funcionando desde ontem."
    ensures b == " funcionando" + (" desde" + (" ontem" + "."))
  {
  }

  /** "Fui cobrado duas vezes e ninguem responde." (tests/test_classificador.py, line 60) in two halves. */
  lemma ProvidedChargedTwiceExampleHalves(text: string)
    requires text == "Fui cobrado duas vezes e ninguem responde."
    ensures text == "Fui cobrado duas vezes" + " e ninguem responde."
  {
  }

  /** The first half, cut after each word, followed by any text `b`. */
  lemma ProvidedChargedTwiceExampleFront(a: string, b: string)
    requires a == "Fui cobrado duas vezes"
    ensures a + b == "Fui" + (" cobrado" + (" duas" + (" vezes" + b)))
  {
  }

  /** The second half, cut after each word. */
  lemma ProvidedChargedTwiceExampleBack(b: string)
    requires b == " e ninguem responde."
    ensures b == " e" + (" ninguem" + (" responde" + "."))
  {
  }

  /** "Estou tendo problemas para acessar minha conta." (tests/test_classificador.py, line 61) in two halves. */
  lemma ProvidedProblemsExampleHalves(text: string)
    requires text == "Estou tendo problemas para acessar minha conta."
    ensures text == "Estou tendo problemas para" + " acessar minha conta."
  {
  }

  /** The first half, cut after each word, followed by any text `b`. */
  lemma ProvidedProblemsExampleFront(a: string, b: string)
    requires a == "Estou tendo problemas para"
    ensures a + b == "Estou" + (" tendo" + (" problemas" + (" para" + b)))
  {
  }

  /** The second half, cut after each word. */
  lemma ProvidedProblemsExampleBack(b: string)
    requires b == " acessar minha conta."
    ensures b == " acessar" + (" minha" + (" conta" + "."))
  {
  }

  /** "Gostei muito do atendimento, estao de parabens." (tests/test_classificador.py, line 62) in two halves. */
  lemma ProvidedCongratulationsExampleHalves(text: string)
    requires text == "Gostei muito do atendimento, estao de parabens."
    ensures text == "Gostei muito do atendimento" + ", estao de parabens."
  {
  }

  /** The first half, cut after each word, followed by any text `b`. */
  lemma ProvidedCongratulationsExampleFront(a: string, b: string)
    requires a == "Gostei muito do atendimento"
    ensures a + b == "Gostei" + (" muito" + (" do" + (" atendimento" + b)))
  {
  }

  /** The second half, cut after each word. */
  lemma ProvidedCongratulationsExampleBack(b: string)
    requires b == ", estao de parabens."
    ensures b == ", estao" + (" de" + (" parabens" + "."))
  {
  }

  /** "A experiencia com o sistema foi otima." (tests/test_classificador.py, line 63) in two halves. */
  lemma ProvidedGreatExperienceExampleHalves(text: string)
    requires text == "A experiencia com o sistema foi otima."
    ensures text == "A experiencia com o" + " sistema foi otima."
  {
  }

  /** The first half, cut after each word, followed by any text `b`. */
  lemma ProvidedGreatExperienceExampleFront(a: string, b: string)
    requires a == "A experiencia com o"
    ensures a + b == "A" + (" experiencia" + (" com" + (" o" + b)))
  {
  }

  /** The second half, cut after each word. */
  lemma ProvidedGreatExperienceExampleBack(b: string)
    requires b == " sistema foi otima."
    ensures b == " sistema" + (" foi" + (" otima" + "."))
  {
  }

  /** "Oi" (tests/test_classificador.py, line 64), cut after each word. */
  lemma ProvidedGreetingExamplePieces(text: string)
    requires text == "Oi"
    ensures text == "Oi" + ""
  {
  }

  /** "Teste" (tests/test_classificador.py, line 65), cut after each word. */
  lemma ProvidedTestExamplePieces(text: string)
    requires text == "Teste"
    ensures text == "Teste" + ""
  {
  }
}
