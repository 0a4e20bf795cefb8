/**
 * The `generate-minutes` handler: checks that meeting notes are present,
 * fills the minutes prompt with the meeting type, date and participants
 * (each with its default), relays it to the AI gateway and returns
 * `{minutes}` or an error. Its prompts are its own copies, which the
 * lemmas at the end compare with the `minutes` entry of `generate-document`.
 */
module GenerateMinutes {
  import opened Wrappers
  import opened JsText
  import opened Gateway
  import opened Template
  import GenerateDocument

  /** The parsed JSON body; each field is undefined when absent. */
  datatype MinutesRequest = MinutesRequest(
    notes: Option<string>, meetingType: Option<string>, participants: Option<string>, date: Option<string>)

  const RequiredMessage := "Meeting notes are required"

  const SystemPrompt: string :=
    "Sei un assistente specializzato nella redazione di verbali e minute di riunioni secondo gli standard aziendali e ISO.\n" +
    "Devi trasformare appunti informali in documenti formali e strutturati.\n" +
    "\n" +
    "Quando generi una minuta:\n" +
    "1. Usa una struttura professionale standard (intestazione, partecipanti, ordine del giorno, decisioni, azioni)\n" +
    "2. Mantieni un tono formale e obiettivo\n" +
    "3. Organizza i contenuti in modo logico e sequenziale\n" +
    "4. Evidenzia chiaramente le decisioni prese e le azioni da intraprendere\n" +
    "5. Includi una sezione \"Azioni e Responsabili\" con scadenze\n" +
    "\n" +
    "Usa sempre il formato italiano e segui le best practice per la documentazione aziendale."

  const UserTemplate: Template := [
    Text("Genera una minuta professionale di riunione basandoti sui seguenti appunti:\n" +
         "\n" +
         "Tipo di riunione: "),
    Slot("meetingType", "Riunione generale"),
    Text("\n" +
         "Data: "),
    Slot("date", "Data da definire"),
    Text("\n" +
         "Partecipanti: "),
    Slot("participants", "Da specificare"),
    Text("\n" +
         "\n" +
         "Appunti:\n"),
    Body,
    Text("\n" +
         "\n" +
         "Crea un verbale completo e formale che includa:\n" +
         "1. Intestazione con data, luogo, partecipanti\n" +
         "2. Ordine del giorno\n" +
         "3. Punti discussi (dettagliati)\n" +
         "4. Decisioni prese\n" +
         "5. Azioni da intraprendere con responsabili e scadenze\n" +
         "6. Prossimi passi")
  ]

  /** The fields the template reads, under the names it reads them by. */
  function RequestEnv(r: MinutesRequest): (e: Env)
    ensures Lookup(e, "meetingType") == r.meetingType
    ensures Lookup(e, "date") == r.date
    ensures Lookup(e, "participants") == r.participants
  {
    Bind(Bind(Bind(map[], "meetingType", r.meetingType), "date", r.date), "participants", r.participants)
  }

  /** The user prompt with its holes filled and the notes embedded. */
  function UserPrompt(r: MinutesRequest, notes: string): string {
    Render(UserTemplate, RequestEnv(r), notes)
  }

  /**
   * The handler. OPTIONS is answered before the body is read; an unreadable
   * body or a missing API key is thrown and caught as a 500; a request
   * without notes is refused with 400 before the key is read; otherwise
   * exactly one completion call is made.
   */
  function Handle(req: HttpRequest<MinutesRequest>, apiKey: Option<string>, upstream: Upstream): (x: Exchange)
    ensures x.call.Some? <==>
              req.verb != "OPTIONS" && req.body.Parsed? && Truthy(req.body.value.notes) && Truthy(apiKey)
    ensures x.response.status == 400 <==>
              req.verb != "OPTIONS" && req.body.Parsed? && !Truthy(req.body.value.notes)
    ensures x.call.Some? ==>
              x.call.value == Completion(Model, [
                Message(System, SystemPrompt),
                Message(User, UserPrompt(req.body.value, req.body.value.notes.value))])
    ensures x.call.Some? ==> x.response == Translate(upstream, "minutes")
    ensures req.verb != "OPTIONS" ==> x.response.headers == JsonHeaders
  {
    if req.verb == "OPTIONS" then Exchange(None, Preflight())
    else
      match req.body
      case Malformed(m) => Thrown(m)
      case Parsed(r) =>
        if !Truthy(r.notes) then Exchange(None, ErrorResponse(400, RequiredMessage))
        else Relay(apiKey, SystemPrompt, UserPrompt(r, r.notes.value), upstream, "minutes")
  }

  /** An OPTIONS request is answered before its body is looked at, with no call and no Content-Type. */
  lemma PreflightFirst(body: Body<MinutesRequest>, apiKey: Option<string>, upstream: Upstream)
    ensures Handle(HttpRequest("OPTIONS", body), apiKey, upstream) == Exchange(None, Preflight())
  {
  }

  /** A request without notes gets 400 whatever the API key and the gateway would do. */
  lemma GateFirst(verb: string, r: MinutesRequest, apiKey: Option<string>, upstream: Upstream)
    requires verb != "OPTIONS" && !Truthy(r.notes)
    ensures Handle(HttpRequest(verb, Parsed(r)), apiKey, upstream)
            == Exchange(None, ErrorResponse(400, RequiredMessage))
  {
  }

  /**
   * Errors thrown inside the handler become 500 with their message, never 400:
   * an unreadable body, a missing API key, an unreachable gateway and a
   * reply without a first choice.
   */
  lemma ThrownErrorsAre500(verb: string, r: MinutesRequest, apiKey: Option<string>, upstream: Upstream, m: string)
    requires verb != "OPTIONS"
    ensures Handle(HttpRequest(verb, Malformed(m)), apiKey, upstream) == Thrown(m)
    ensures Truthy(r.notes) && !Truthy(apiKey) ==>
              Handle(HttpRequest(verb, Parsed(r)), apiKey, upstream) == Thrown(MissingKeyMessage)
    ensures Truthy(r.notes) && Truthy(apiKey) && upstream == Unreachable(m) ==>
              Handle(HttpRequest(verb, Parsed(r)), apiKey, upstream).response == ErrorResponse(500, m)
    ensures Truthy(r.notes) && Truthy(apiKey) && upstream.Reply? && IsOk(upstream.status)
            && upstream.body == NoChoice(m) ==>
              Handle(HttpRequest(verb, Parsed(r)), apiKey, upstream).response == ErrorResponse(500, m)
  {
  }

  /**
   * The system prompt is the one `generate-document` uses for `minutes`, and
   * the user template has the same holes with the same defaults and embeds
   * the notes once, as that entry embeds the content.
   */
  lemma SameAsRegistryEntry()
    ensures SystemPrompt == GenerateDocument.MinutesSystem
    ensures Slots(UserTemplate) == Slots(GenerateDocument.MinutesUser)
    ensures BodyCount(UserTemplate) == 1
  {
    GenerateDocument.ShapeSlots(UserTemplate);
    GenerateDocument.ShapeSlots(GenerateDocument.MinutesUser);
  }

  /** Absent or empty meeting type, date and participants render as their defaults. */
  lemma AbsentFieldsUseDefaults(r: MinutesRequest, notes: string)
    requires !Truthy(r.meetingType) && !Truthy(r.date) && !Truthy(r.participants)
    ensures UserPrompt(r, notes) == Render(UserTemplate, map[], notes)
  {
    GenerateDocument.ShapeSlots(UserTemplate);
    RenderReadsOnlySlots(UserTemplate, RequestEnv(r), map[], notes);
  }

  /**
   * Field by field: meeting type, date and participants each appear as
   * given when present and non-empty, and as their own default otherwise,
   * independently of one another; the notes follow them verbatim.
   */
  lemma PromptLayout(r: MinutesRequest, notes: string)
    ensures UserPrompt(r, notes)
            == UserTemplate[0].text + OrElse(r.meetingType, "Riunione generale") + UserTemplate[2].text
               + OrElse(r.date, "Data da definire") + UserTemplate[4].text
               + OrElse(r.participants, "Da specificare") + UserTemplate[6].text
               + notes + UserTemplate[8].text
  {
    GenerateDocument.ThreeSlotLayout(UserTemplate, RequestEnv(r), notes);
  }

  /**
   * The notes are embedded verbatim, untrimmed and with no length bound:
   * for given meeting fields the prompt is a fixed prefix, the notes, and a
   * fixed suffix.
   */
  lemma NotesVerbatim(r: MinutesRequest) returns (pre: string, post: string)
    ensures forall notes :: UserPrompt(r, notes) == pre + notes + post
  {
    GenerateDocument.ShapeSlots(UserTemplate);
    pre, post := BodyFrame(UserTemplate, RequestEnv(r));
  }
}
