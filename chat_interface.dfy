/**
 * The customer chat widget: a keyword rule chain that answers each message
 * and drives a small intake state machine (`isCollectingData`), plus the
 * transcript operations around it. The email regex is the `extract`
 * parameter; timers are left out, so a reply is appended when it is computed.
 */
module ChatInterface {
  import opened Wrappers
  import opened Text
  import opened Domain

  /** The branches of the rule chain, in the chain's order. */
  datatype Rule =
    | Poste | Bloco | Tubo
    | PosteCircular | PosteDuploT
    | Quantity | Location | Payment
    | EmailGiven(email: string) | EmailMissing
    | Price | Delivery | Catalog | Company
    | Fallback

  /** The position of a rule's test in the chain; the two answers of one test share it. */
  function Rank(r: Rule): nat {
    match r
    case Poste => 0
    case Bloco => 1
    case Tubo => 2
    case PosteCircular => 3
    case PosteDuploT => 3
    case Quantity => 4
    case Location => 5
    case Payment => 6
    case EmailGiven(_) => 7
    case EmailMissing => 7
    case Price => 8
    case Delivery => 9
    case Catalog => 10
    case Company => 11
    case Fallback => 12
  }

  /** The rules that only fire while collecting intake data. */
  predicate IsIntake(r: Rule) {
    r.PosteCircular? || r.PosteDuploT? || r.Quantity? || r.Location? || r.Payment?
    || r.EmailGiven? || r.EmailMissing?
  }

  /** `email` truthy: the regex matched something. */
  predicate Found(email: Option<string>) {
    email.Some? && email.value != ""
  }

  /**
   * Each rule's own test, on the lower-cased message `low`, the raw message
   * `raw`, the flag and the extracted email, taken in isolation.
   */
  predicate Matches(r: Rule, raw: string, low: string, collecting: bool, email: Option<string>) {
    match r
    case Poste => Contains(low, "poste")
    case Bloco => Contains(low, "bloco")
    case Tubo => Contains(low, "tubo")
    case PosteCircular => collecting && Contains(low, "circular")
    case PosteDuploT => collecting && !Contains(low, "circular") && Contains(low, "duplo t")
    case Quantity => collecting && Contains(low, "quantidade")
    case Location => collecting && (Contains(low, "são paulo") || Contains(low, "sp") || Contains(low, "ribeirão"))
    case Payment => collecting && (Contains(low, "boleto") || Contains(low, "pix") || Contains(low, "cartão"))
    case EmailGiven(e) => collecting && Contains(raw, "@") && Found(email) && e == email.value
    case EmailMissing => collecting && Contains(raw, "@") && !Found(email)
    case Price => Contains(low, "preço") || Contains(low, "valor")
    case Delivery => Contains(low, "entrega")
    case Catalog => Contains(low, "catálogo") || Contains(low, "catalogo") || Contains(low, "produtos")
    case Company => Contains(low, "empresa") || Contains(low, "história") || Contains(low, "sobre")
    case Fallback => true
  }

  /** The if/else chain of `simulateAgentResponse`: the first test that holds picks the answer. */
  function SelectRule(message: string, collecting: bool, email: Option<string>): Rule {
    var low := ToLower(message);
    if Contains(low, "poste") then Poste
    else if Contains(low, "bloco") then Bloco
    else if Contains(low, "tubo") then Tubo
    else if collecting && (Contains(low, "circular") || Contains(low, "duplo t")) then
      (if Contains(low, "circular") then PosteCircular else PosteDuploT)
    else if collecting && Contains(low, "quantidade") then Quantity
    else if collecting && (Contains(low, "são paulo") || Contains(low, "sp") || Contains(low, "ribeirão")) then Location
    else if collecting && (Contains(low, "boleto") || Contains(low, "pix") || Contains(low, "cartão")) then Payment
    else if collecting && Contains(message, "@") then
      (if Found(email) then EmailGiven(email.value) else EmailMissing)
    else if Contains(low, "preço") || Contains(low, "valor") then Price
    else if Contains(low, "entrega") then Delivery
    else if Contains(low, "catálogo") || Contains(low, "catalogo") || Contains(low, "produtos") then Catalog
    else if Contains(low, "empresa") || Contains(low, "história") || Contains(low, "sobre") then Company
    else Fallback
  }

  /** The chain picks a rule whose test holds, and no rule earlier in the chain holds. */
  lemma SelectRuleIsFirstMatch(message: string, collecting: bool, email: Option<string>, other: Rule)
    requires Matches(other, message, ToLower(message), collecting, email)
    ensures Matches(SelectRule(message, collecting, email), message, ToLower(message), collecting, email)
    ensures Rank(SelectRule(message, collecting, email)) <= Rank(other)
  {
  }

  /** "poste", "bloco" or "tubo" start collecting, whatever the flag was. */
  lemma ProductKeywordStartsIntake(message: string, collecting: bool, email: Option<string>)
    requires Contains(ToLower(message), "poste") || Contains(ToLower(message), "bloco")
             || Contains(ToLower(message), "tubo")
    ensures var r := SelectRule(message, collecting, email);
      (r == Poste || r == Bloco || r == Tubo) && CollectingAfter(r, collecting)
  {
  }

  /** The intake rules fire only while collecting; otherwise the email plays no part. */
  lemma IntakeNeedsCollecting(message: string, collecting: bool, email: Option<string>, other: Option<string>)
    ensures IsIntake(SelectRule(message, collecting, email)) ==> collecting
    ensures !collecting ==> SelectRule(message, false, email) == SelectRule(message, false, other)
  {
  }

  /** Every rule but the product rules and a found email leaves the flag and the draft as they were. */
  lemma OtherRulesKeepFlag(r: Rule, collecting: bool, draft: Option<QuoteInput>)
    requires !(r == Poste || r == Bloco || r == Tubo) && !r.EmailGiven?
    ensures CollectingAfter(r, collecting) == collecting
    ensures DraftAfter(r, draft) == draft
  {
  }

  /** A found email while collecting ends the intake and records a draft quote for that address. */
  lemma FoundEmailCompletesIntake(message: string, email: Option<string>)
    requires SelectRule(message, true, email).EmailGiven?
    ensures Found(email)
    ensures !CollectingAfter(SelectRule(message, true, email), true)
    ensures DraftAfter(SelectRule(message, true, email), None) == Some(IntakeQuote(email.value))
  {
  }

  /** A message without a findable email while collecting keeps collecting and asks again. */
  lemma MissingEmailAsksAgain(message: string, email: Option<string>)
    requires SelectRule(message, true, email) == EmailMissing
    ensures CollectingAfter(EmailMissing, true)
    ensures Reply(EmailMissing) == AskEmailAgain
  {
  }

  /** The flag after a rule fires. */
  predicate CollectingAfter(r: Rule, collecting: bool) {
    if r == Poste || r == Bloco || r == Tubo then true
    else if r.EmailGiven? then false
    else collecting
  }

  /** The quote the widget records once the intake is complete. */
  function IntakeQuote(email: string): (q: QuoteInput)
    ensures q.clientEmail == email && q.clientName == "Cliente Web"
    ensures |q.products| == 1 && q.products[0].quantity == 5
  {
    QuoteInput("Cliente Web", email, None,
      [QuoteProduct("prod-temp-1", "Poste Circular", "Poste", Some("Circular"), Some("09/0600"), 5, None)],
      "São Paulo, SP", None, Some("Boleto"), None)
  }

  /** `quoteData` after a rule fires. */
  function DraftAfter(r: Rule, draft: Option<QuoteInput>): Option<QuoteInput> {
    if r.EmailGiven? then Some(IntakeQuote(r.email)) else draft
  }

  /** The answers, one per rule. */
  const AskPosteType := "Qual tipo de poste você precisa? Temos postes circulares e duplo T."
  const AskBlocoType := "Qual tipo de bloco você procura? Temos bloco estrutural e bloco de vedação."
  const AskTuboSize := "Qual a dimensão do tubo você procura? Temos opções como 0,30 x 1,00, 0,40 x 1,50, 0,50 x 1,50, entre outras."
  const AskCircularModel := "Ótimo! E qual poste circular? Temos opções como 08/0800, 09/0600, 10/0400, etc. Qual padrão de poste (CPFL, Elektro ou Telefônica)?"
  const AskDuploTModel := "Ótimo! E qual poste duplo T? Temos opções como 07,5/0200DAN, 09/0300DAN, 10/0600DAN, etc."
  const AskLocation := "Entendi! E qual a localização para entrega desses itens?"
  const AskPayment := "Perfeito! E qual seria a forma de pagamento pretendida?"
  const AskEmail := "Obrigado por todas as informações! Vou encaminhar seu pedido para o setor de vendas preparar um orçamento detalhado. Em breve um de nossos consultores entrará em contato. Seria possível me passar seu e-mail para enviarmos o orçamento?"
  const QuoteSent := "Obrigado! Seu orçamento (Poste Circular 09/0600, quantidade: 5) foi encaminhado com sucesso. Um consultor entrará em contato em breve pelo e-mail informado."
  const AskEmailAgain := "Não consegui identificar seu e-mail. Poderia digitar novamente, por favor?"
  const AskDetails := "Para fornecer um orçamento preciso, preciso saber qual produto, quantidade e local de entrega. Pode me informar esses detalhes?"
  const AskCep := "Trabalhamos com entregas em todo o Brasil. Pode me informar o CEP ou cidade para que eu possa verificar o prazo de entrega?"
  const CatalogLink := "Você pode consultar nosso catálogo completo em: https://www.iptteixeira.com.br/catalogo/2015/files/assets/basic-html/index.html#1"
  const CompanyVideo := "A IPT Teixeira é líder na produção de artefatos de concreto há mais de 30 anos. Você pode conhecer mais sobre nossa empresa neste vídeo institucional: https://www.youtube.com/watch?v=MOsHYJ1yq5E"
  const OfferHelp := "Como posso ajudar você hoje? Gostaria de informações sobre algum de nossos produtos como postes, tubos, blocos ou outros artefatos de concreto?"

  /** The answer each rule gives. */
  function Reply(r: Rule): string {
    match r
    case Poste => AskPosteType
    case Bloco => AskBlocoType
    case Tubo => AskTuboSize
    case PosteCircular => AskCircularModel
    case PosteDuploT => AskDuploTModel
    case Quantity => AskLocation
    case Location => AskPayment
    case Payment => AskEmail
    case EmailGiven(_) => QuoteSent
    case EmailMissing => AskEmailAgain
    case Price => AskDetails
    case Delivery => AskCep
    case Catalog => CatalogLink
    case Company => CompanyVideo
    case Fallback => OfferHelp
  }

  /** The rule that answers `message`, the email taken by `extract`. */
  function Answered(message: string, collecting: bool, extract: string -> Option<string>): Rule {
    SelectRule(message, collecting, extract(message))
  }

  /** The agent message answering `message` at time `now`. */
  function AgentAnswer(message: string, collecting: bool, extract: string -> Option<string>, now: nat): (m: Message)
    ensures m.sender == FromAgent && m.timestamp == now && m.id == NatToString(now)
    ensures m.content == Reply(Answered(message, collecting, extract))
  {
    Message(NatToString(now), Reply(Answered(message, collecting, extract)), FromAgent, now)
  }

  const DefaultWelcome := "Olá, como posso ajudar?"

  class ChatSession {
    var messages: seq<Message>
    var inputValue: string
    var isCollectingData: bool
    var quoteData: Option<QuoteInput>
    const welcomeMessage: string

    constructor(welcome: string)
      ensures welcomeMessage == welcome
      ensures messages == [] && inputValue == "" && !isCollectingData && quoteData == None
    {
      welcomeMessage := welcome;
      messages := [];
      inputValue := "";
      isCollectingData := false;
      quoteData := None;
    }

    /** The welcome effect: with an agent and an empty transcript, post the welcome a minute back. */
    method EnsureWelcome(agentFound: bool, now: int)
      modifies this
      ensures agentFound && old(messages) == [] ==>
        messages == [Message("1", welcomeMessage, FromAgent, now - 60000)]
      ensures !(agentFound && old(messages) == []) ==> messages == old(messages)
      ensures inputValue == old(inputValue) && isCollectingData == old(isCollectingData)
      ensures quoteData == old(quoteData)
    {
      if agentFound && messages == [] {
        messages := [Message("1", welcomeMessage, FromAgent, now - 60000)];
      }
    }

    /** The intake state after `rule` fires. */
    method Advance(rule: Rule)
      modifies this`isCollectingData, this`quoteData
      ensures isCollectingData == CollectingAfter(rule, old(isCollectingData))
      ensures quoteData == DraftAfter(rule, old(quoteData))
    {
      if rule == Poste || rule == Bloco || rule == Tubo {
        isCollectingData := true;
      } else if rule.EmailGiven? {
        quoteData := Some(IntakeQuote(rule.email));
        isCollectingData := false;
      }
    }

    /** One answer: pick the rule, update the intake state, append exactly one agent message. */
    method SimulateAgentResponse(userMessage: string, extract: string -> Option<string>, now: nat)
      modifies this
      ensures messages == old(messages) + [AgentAnswer(userMessage, old(isCollectingData), extract, now)]
      ensures isCollectingData == CollectingAfter(Answered(userMessage, old(isCollectingData), extract), old(isCollectingData))
      ensures quoteData == DraftAfter(Answered(userMessage, old(isCollectingData), extract), old(quoteData))
      ensures inputValue == old(inputValue)
    {
      var rule := Answered(userMessage, isCollectingData, extract);
      var newMessage := AgentAnswer(userMessage, isCollectingData, extract, now);
      Advance(rule);
      Post(newMessage);
    }

    /** `setMessages(prev => [...prev, message])`. */
    method Post(message: Message)
      modifies this`messages
      ensures messages == old(messages) + [message]
    {
      messages := messages + [message];
    }

    /**
     * Send the typed text: blank input is ignored; otherwise the raw text is
     * appended as a user message, the input cleared, and the agent answers.
     */
    method HandleSendMessage(extract: string -> Option<string>, sentAt: nat, repliedAt: nat)
      modifies this
      ensures IsBlank(old(inputValue)) ==>
        messages == old(messages) && inputValue == old(inputValue)
        && isCollectingData == old(isCollectingData) && quoteData == old(quoteData)
      ensures !IsBlank(old(inputValue)) ==>
        var r := Answered(old(inputValue), old(isCollectingData), extract);
        && messages == old(messages) + [Message(NatToString(sentAt), old(inputValue), FromUser, sentAt),
                                        AgentAnswer(old(inputValue), old(isCollectingData), extract, repliedAt)]
        && inputValue == ""
        && isCollectingData == CollectingAfter(r, old(isCollectingData))
        && quoteData == DraftAfter(r, old(quoteData))
    {
      if IsBlank(inputValue) {
        return;
      }
      var text := inputValue;
      messages := messages + [Message(NatToString(sentAt), text, FromUser, sentAt)];
      inputValue := "";
      SimulateAgentResponse(text, extract, repliedAt);
    }

    /** Start over: only the welcome message, no intake in progress, no draft. */
    method HandleReset(now: nat)
      modifies this
      ensures messages == [Message("reset-" + NatToString(now), welcomeMessage, FromAgent, now)]
      ensures !isCollectingData && quoteData == None
      ensures inputValue == old(inputValue)
    {
      messages := [Message("reset-" + NatToString(now), welcomeMessage, FromAgent, now)];
      isCollectingData := false;
      quoteData := None;
    }
  }
}
