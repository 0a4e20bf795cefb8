/**
 * The `analyze-compliance` handler: checks that a document text is
 * present, asks the AI gateway to analyse it against the requested
 * standard (ISO 9001:2015 by default) and returns `{analysis}` or an error.
 * It neither trims the text nor bounds its length.
 */
module AnalyzeCompliance {
  import opened Wrappers
  import opened JsText
  import opened Gateway
  import opened Template

  /** The parsed JSON body; each field is undefined when absent. */
  datatype ComplianceRequest = ComplianceRequest(documentText: Option<string>, standard: Option<string>)

  const RequiredMessage := "Document text is required"

  const DefaultStandard := "ISO 9001:2015"

  const SystemPrompt: string :=
    "Sei un esperto di conformità ISO e standard di qualità per le PMI italiane. \n" +
    "Il tuo compito è analizzare documenti, procedure e processi per verificarne la conformità agli standard richiesti (principalmente ISO 9001:2015).\n" +
    "\n" +
    "Quando analizzi un documento:\n" +
    "1. Identifica chiaramente quali requisiti dello standard sono rispettati\n" +
    "2. Evidenzia le non conformità o le aree di miglioramento\n" +
    "3. Fornisci suggerimenti specifici e pratici per raggiungere la conformità\n" +
    "4. Usa un linguaggio professionale ma accessibile\n" +
    "\n" +
    "Rispondi sempre in italiano e struttura la tua risposta in modo chiaro con sezioni separate."

  const Intro := "Analizza il seguente documento per verificarne la conformità allo standard "

  const Middle := ":\n" + "\n"

  const Closing :=
    "\n" +
    "\n" +
    "Fornisci un'analisi dettagliata che includa:\n" +
    "1. Punti di conformità (cosa è già corretto)\n" +
    "2. Non conformità o aree critiche\n" +
    "3. Suggerimenti specifici per migliorare\n" +
    "4. Versione corretta del documento (se necessario)"

  const UserTemplate: Template := [Text(Intro), Slot("standard", DefaultStandard), Text(Middle), Body, Text(Closing)]

  /** The user prompt with the standard filled in and the document text embedded. */
  function UserPrompt(r: ComplianceRequest, documentText: string): string {
    Render(UserTemplate, Bind(map[], "standard", r.standard), documentText)
  }

  /**
   * The handler. OPTIONS is answered before the body is read; an unreadable
   * body or a missing API key is thrown and caught as a 500; a request
   * without a document text is refused with 400 before the key is read;
   * otherwise exactly one completion call is made.
   */
  function Handle(req: HttpRequest<ComplianceRequest>, apiKey: Option<string>, upstream: Upstream): (x: Exchange)
    ensures x.call.Some? <==>
              req.verb != "OPTIONS" && req.body.Parsed? && Truthy(req.body.value.documentText) && Truthy(apiKey)
    ensures x.response.status == 400 <==>
              req.verb != "OPTIONS" && req.body.Parsed? && !Truthy(req.body.value.documentText)
    ensures x.call.Some? ==>
              x.call.value == Completion(Model, [
                Message(System, SystemPrompt),
                Message(User, UserPrompt(req.body.value, req.body.value.documentText.value))])
    ensures x.call.Some? ==> x.response == Translate(upstream, "analysis")
    ensures req.verb != "OPTIONS" ==> x.response.headers == JsonHeaders
  {
    if req.verb == "OPTIONS" then Exchange(None, Preflight())
    else
      match req.body
      case Malformed(m) => Thrown(m)
      case Parsed(r) =>
        if !Truthy(r.documentText) then Exchange(None, ErrorResponse(400, RequiredMessage))
        else Relay(apiKey, SystemPrompt, UserPrompt(r, r.documentText.value), upstream, "analysis")
  }

  /** An OPTIONS request is answered before its body is looked at, with no call and no Content-Type. */
  lemma PreflightFirst(body: Body<ComplianceRequest>, apiKey: Option<string>, upstream: Upstream)
    ensures Handle(HttpRequest("OPTIONS", body), apiKey, upstream) == Exchange(None, Preflight())
  {
  }

  /** A request without a document text gets 400 whatever the API key and the gateway would do. */
  lemma GateFirst(verb: string, r: ComplianceRequest, apiKey: Option<string>, upstream: Upstream)
    requires verb != "OPTIONS" && !Truthy(r.documentText)
    ensures Handle(HttpRequest(verb, Parsed(r)), apiKey, upstream)
            == Exchange(None, ErrorResponse(400, RequiredMessage))
  {
  }

  /**
   * Errors thrown inside the handler become 500 with their message, never 400:
   * an unreadable body, a missing API key, an unreachable gateway and a
   * reply without a first choice.
   */
  lemma ThrownErrorsAre500(verb: string, r: ComplianceRequest, apiKey: Option<string>, upstream: Upstream, m: string)
    requires verb != "OPTIONS"
    ensures Handle(HttpRequest(verb, Malformed(m)), apiKey, upstream) == Thrown(m)
    ensures Truthy(r.documentText) && !Truthy(apiKey) ==>
              Handle(HttpRequest(verb, Parsed(r)), apiKey, upstream) == Thrown(MissingKeyMessage)
    ensures Truthy(r.documentText) && Truthy(apiKey) && upstream == Unreachable(m) ==>
              Handle(HttpRequest(verb, Parsed(r)), apiKey, upstream).response == ErrorResponse(500, m)
    ensures Truthy(r.documentText) && Truthy(apiKey) && upstream.Reply? && IsOk(upstream.status)
            && upstream.body == NoChoice(m) ==>
              Handle(HttpRequest(verb, Parsed(r)), apiKey, upstream).response == ErrorResponse(500, m)
  {
  }

  /**
   * The layout of the user prompt: the standard, or `ISO 9001:2015` when it
   * is absent or empty, then the document text verbatim.
   */
  lemma PromptLayout(r: ComplianceRequest, documentText: string)
    ensures UserPrompt(r, documentText)
            == Intro + OrElse(r.standard, DefaultStandard) + Middle + documentText + Closing
  {
    RenderOneSlot(UserTemplate, Bind(map[], "standard", r.standard), documentText);
  }

  /**
   * No length bound and no trimming on the server: any non-empty text, even
   * a single blank, is sent as it is whenever the API key is set.
   */
  lemma AnyNonEmptyTextForwarded(verb: string, r: ComplianceRequest, apiKey: Option<string>, upstream: Upstream)
    requires verb != "OPTIONS" && Truthy(r.documentText) && Truthy(apiKey)
    ensures var x := Handle(HttpRequest(verb, Parsed(r)), apiKey, upstream);
            x.call.Some? && x.call.value.messages[1].content
                            == Intro + OrElse(r.standard, DefaultStandard) + Middle + r.documentText.value + Closing
  {
    PromptLayout(r, r.documentText.value);
  }
}
