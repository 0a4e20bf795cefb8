/**
 * The `generate-document` handler: checks that a document type and a
 * content are present, picks the system and user prompts for the type
 * (the `procedure` pair for any type it does not know), fills the user
 * prompt's holes from `metadata` with per-field defaults, relays the two
 * messages to the AI gateway and returns `{document}` or an error.
 */
module GenerateDocument {
  import opened Wrappers
  import opened JsText
  import opened Gateway
  import opened Template

  /** The parsed JSON body; each field is undefined when absent. */
  datatype DocRequest = DocRequest(documentType: Option<string>, content: Option<string>, metadata: Option<Env>)

  const RequiredMessage := "Document type and content are required"

  /** The keys of the prompt registry. */
  const Keys: set<string> := {"minutes", "procedure", "process"}

  const MinutesSystem: string :=
    "Sei un assistente specializzato nella redazione di verbali e minute di riunioni secondo gli standard aziendali e ISO.\n" +
    "Devi trasformare appunti informali in documenti formali e strutturati.\n" +
    "\n" +
    "Quando generi una minuta:\n" +
    "1. Usa una struttura professionale standard (intestazione, partecipanti, ordine del giorno, decisioni, azioni)\n" +
    "2. Mantieni un tono formale e obiettivo\n" +
    "3. Organizza i contenuti in modo logico e sequenziale\n" +
    "4. Evidenzia chiaramente le decisioni prese e le azioni da intraprendere\n" +
    "5. Includi una sezione \"Azioni e Responsabili\" con scadenze\n" +
    "\n" +
    "Usa sempre il formato italiano e segui le best practice per la documentazione aziendale."

  const ProcedureSystem: string :=
    "Sei un esperto nella redazione di procedure operative conformi agli standard ISO 9001:2015.\n" +
    "Le tue procedure devono essere chiare, applicabili e conformi ai requisiti normativi.\n" +
    "\n" +
    "Quando generi una procedura:\n" +
    "1. Usa la struttura ISO standard: Scopo, Campo di Applicazione, Responsabilità, Descrizione Attività, Riferimenti, Allegati\n" +
    "2. Numera i punti e le sotto-attività in modo gerarchico\n" +
    "3. Usa un linguaggio imperativo e diretto (es. \"Il responsabile deve...\")\n" +
    "4. Includi punti di controllo e verifiche dove necessario\n" +
    "5. Specifica ruoli e responsabilità per ogni fase\n" +
    "6. Aggiungi riferimenti normativi pertinenti (clausole ISO)\n" +
    "7. Mantieni coerenza terminologica\n" +
    "\n" +
    "La procedura deve essere operativa e facilmente implementabile."

  const ProcessSystem: string :=
    "Sei un esperto nella mappatura e documentazione di processi aziendali secondo la logica ISO 9001 e BPMN.\n" +
    "I tuoi documenti di processo devono rappresentare chiaramente il flusso di attività.\n" +
    "\n" +
    "Quando documenti un processo:\n" +
    "1. Inizia con: Nome Processo, Obiettivo, Owner, Input, Output\n" +
    "2. Descrivi il flusso con: fasi principali, attività, decisioni, risorse necessarie\n" +
    "3. Identifica KPI e indicatori di performance\n" +
    "4. Specifica interfacce con altri processi\n" +
    "5. Indica rischi e opportunità del processo\n" +
    "6. Definisci criteri di monitoraggio e miglioramento\n" +
    "7. Usa diagrammi a blocchi testuali quando utile (es. \"FASE 1 → Controllo → FASE 2\")\n" +
    "\n" +
    "Il documento deve essere strategico ma operativo, utile per analisi e miglioramento."

  const MinutesUser: Template := [
    Text("Genera una minuta professionale di riunione basandoti sui seguenti dati:\n" +
         "\n" +
         "Tipo di riunione: "),
    Slot("meetingType", "Riunione generale"),
    Text("\n" +
         "Data: "),
    Slot("date", "Data da definire"),
    Text("\n" +
         "Partecipanti: "),
    Slot("participants", "Da specificare"),
    Text("\n" +
         "\n" +
         "Appunti/Contenuto:\n"),
    Body,
    Text("\n" +
         "\n" +
         "Crea un verbale completo e formale che includa:\n" +
         "1. Intestazione con data, luogo, partecipanti\n" +
         "2. Ordine del giorno\n" +
         "3. Punti discussi (dettagliati)\n" +
         "4. Decisioni prese\n" +
         "5. Azioni da intraprendere con responsabili e scadenze\n" +
         "6. Prossimi passi")
  ]

  const ProcedureUser: Template := [
    Text("Genera una procedura operativa completa e conforme ISO 9001:2015 sulla base delle seguenti informazioni:\n" +
         "\n" +
         "Titolo procedura: "),
    Slot("title", "Procedura"),
    Text("\n" +
         "Codice documento: "),
    Slot("code", "PROC-XXX-2024"),
    Text("\n" +
         "Area di applicazione: "),
    Slot("area", "Da definire"),
    Text("\n" +
         "\n" +
         "Descrizione/Requisiti:\n"),
    Body,
    Text("\n" +
         "\n" +
         "Struttura la procedura con:\n" +
         "1. INTESTAZIONE (Titolo, Codice, Versione, Data, Approvazione)\n" +
         "2. SCOPO - Obiettivo della procedura\n" +
         "3. CAMPO DI APPLICAZIONE - Dove si applica\n" +
         "4. RESPONSABILITÀ - Chi fa cosa\n" +
         "5. DESCRIZIONE DELLE ATTIVITÀ - Dettaglio operativo step-by-step\n" +
         "6. DOCUMENTI DI RIFERIMENTO - Standard ISO, altre procedure\n" +
         "7. REGISTRAZIONI - Documenti da compilare\n" +
         "8. ALLEGATI - Form, checklist\n" +
         "\n" +
         "Rendi la procedura operativa, chiara e conforme.")
  ]

  const ProcessUser: Template := [
    Text("Genera un documento di processo aziendale completo sulla base delle seguenti informazioni:\n" +
         "\n" +
         "Nome processo: "),
    Slot("processName", "Processo"),
    Text("\n" +
         "Codice: "),
    Slot("code", "PROC-XXX"),
    Text("\n" +
         "Owner: "),
    Slot("owner", "Da assegnare"),
    Text("\n" +
         "\n" +
         "Descrizione/Requisiti:\n"),
    Body,
    Text("\n" +
         "\n" +
         "Struttura il documento con:\n" +
         "1. IDENTIFICAZIONE PROCESSO\n" +
         "   - Nome, Codice, Owner, Data\n" +
         "   \n" +
         "2. OBIETTIVO E FINALITÀ\n" +
         "   - Perché esiste questo processo\n" +
         "   \n" +
         "3. INPUT E OUTPUT\n" +
         "   - Cosa entra e cosa esce dal processo\n" +
         "   \n" +
         "4. FLUSSO DEL PROCESSO\n" +
         "   - Fasi principali con attività dettagliate\n" +
         "   - Decisioni e punti di controllo\n" +
         "   - Responsabilità per fase\n" +
         "   \n" +
         "5. RISORSE NECESSARIE\n" +
         "   - Personale, strumenti, documenti\n" +
         "   \n" +
         "6. INDICATORI DI PERFORMANCE (KPI)\n" +
         "   - Metriche per misurare efficacia\n" +
         "   \n" +
         "7. RISCHI E OPPORTUNITÀ\n" +
         "   - Cosa può andare storto, come migliorare\n" +
         "   \n" +
         "8. INTERFACCE\n" +
         "   - Collegamenti con altri processi\n" +
         "   \n" +
         "9. MODALITÀ DI MONITORAGGIO\n" +
         "   - Come verificare che funzioni\n" +
         "\n" +
         "Rendi il documento strategico e operativo.")
  ]
  /**
   * A prompt registry: `systemPrompts` and `userPrompts`, the latter before
   * its template literals are evaluated. The handler is written against any
   * registry; the one it ships with is `Registry`.
   */
  datatype Prompts = Prompts(system: map<string, string>, user: map<string, Template>)

  /** A registry with one system prompt and one user template under each of the three keys. */
  function Table(minutes: string, procedure: string, process: string,
                 minutesUser: Template, procedureUser: Template, processUser: Template): (p: Prompts)
    ensures p.system.Keys == Keys && p.user.Keys == Keys
  {
    Prompts(map["minutes" := minutes, "procedure" := procedure, "process" := process],
            map["minutes" := minutesUser, "procedure" := procedureUser, "process" := processUser])
  }

  /** The registry of the handler. */
  const Registry: Prompts := Table(MinutesSystem, ProcedureSystem, ProcessSystem, MinutesUser, ProcedureUser, ProcessUser)

  /** The registry has the `procedure` entry the handler falls back to. */
  predicate HasFallback(p: Prompts) {
    "procedure" in p.system && "procedure" in p.user
  }

  /** The holes of the user template registered under each key. */
  function HoleKeys(key: string): set<string> {
    if key == "minutes" then {"meetingType", "date", "participants"}
    else if key == "procedure" then {"title", "code", "area"}
    else {"processName", "code", "owner"}
  }

  /**
   * The shape shared by the three user templates: text, three holes
   * separated by text, the caller's content once, closing text.
   */
  predicate ThreeSlotsThenBody(t: Template) {
    |t| == 9 && t[0].Text? && t[1].Slot? && t[2].Text? && t[3].Slot? && t[4].Text? && t[5].Slot?
    && t[6].Text? && t[7] == Body && t[8].Text?
  }

  /**
   * One registry entry under `key`: a non-empty system prompt and a user
   * template of the shared shape that opens with text and has the key's holes.
   */
  predicate Entry(system: string, user: Template, key: string) {
    && system != ""
    && ThreeSlotsThenBody(user) && user[0].text != ""
    && SlotKeys(user) == HoleKeys(key)
  }

  /** The layout of `Registry`: exactly the keys `minutes`, `procedure` and `process`, each a well-formed entry. */
  predicate WellFormed(p: Prompts) {
    && p.system.Keys == Keys && p.user.Keys == Keys
    && forall k :: k in Keys ==> Entry(p.system[k], p.user[k], k)
  }

  /** The fields of `metadata` the templates see; an absent `metadata` reads as an empty object. */
  function MetadataEnv(metadata: Option<Env>): Env {
    metadata.GetOr(map[])
  }

  /** `systemPrompts[documentType] || systemPrompts.procedure` */
  function SystemPrompt(p: Prompts, documentType: string): string
    requires HasFallback(p)
  {
    OrElse(if documentType in p.system then Some(p.system[documentType]) else None, p.system["procedure"])
  }

  /** `userPrompts[documentType] || userPrompts.procedure`, every template literal evaluated. */
  function UserPrompt(p: Prompts, documentType: string, metadata: Option<Env>, content: string): string
    requires HasFallback(p)
  {
    var env := MetadataEnv(metadata);
    OrElse(if documentType in p.user then Some(Render(p.user[documentType], env, content)) else None,
           Render(p.user["procedure"], env, content))
  }

  /** The gate at the top of the handler: both fields present and non-empty. */
  predicate Accepted(r: DocRequest) {
    Truthy(r.content) && Truthy(r.documentType)
  }

  /**
   * The handler, with prompt registry `p` (`Registry` in the deployed
   * function). OPTIONS is answered before the body is read; an unreadable
   * body or a missing API key is thrown and caught as a 500; a request
   * without type or content is refused with 400 before the key is read;
   * otherwise exactly one completion call is made.
   */
  function Handle(p: Prompts, req: HttpRequest<DocRequest>, apiKey: Option<string>, upstream: Upstream): (x: Exchange)
    requires HasFallback(p)
    ensures x.call.Some? <==>
              req.verb != "OPTIONS" && req.body.Parsed? && Accepted(req.body.value) && Truthy(apiKey)
    ensures x.response.status == 400 <==>
              req.verb != "OPTIONS" && req.body.Parsed? && !Accepted(req.body.value)
    ensures x.call.Some? ==>
              var r := req.body.value;
              x.call.value == Completion(Model, [
                Message(System, SystemPrompt(p, r.documentType.value)),
                Message(User, UserPrompt(p, r.documentType.value, r.metadata, r.content.value))])
    ensures x.call.Some? ==> x.response == Translate(upstream, "document")
    ensures req.verb != "OPTIONS" ==> x.response.headers == JsonHeaders
  {
    if req.verb == "OPTIONS" then Exchange(None, Preflight())
    else
      match req.body
      case Malformed(m) => Thrown(m)
      case Parsed(r) =>
        if !Truthy(r.content) || !Truthy(r.documentType) then
          Exchange(None, ErrorResponse(400, RequiredMessage))
        else
          var t := r.documentType.value;
          Relay(apiKey, SystemPrompt(p, t), UserPrompt(p, t, r.metadata, r.content.value), upstream, "document")
  }

  /** The registry entry a document type selects: its own when it has one, `procedure` otherwise. */
  function SelectedKey(documentType: string): string {
    if documentType in Keys then documentType else "procedure"
  }

  /** The holes of a template of the shared shape, in order. */
  lemma ShapeSlotList(t: Template)
    requires ThreeSlotsThenBody(t)
    ensures Slots(t) == [(t[1].key, t[1].fallback), (t[3].key, t[3].fallback), (t[5].key, t[5].fallback)]
  {
    assert t[9..] == [];
    SlotsStep(t, 8); SlotsStep(t, 7); SlotsStep(t, 6); SlotsStep(t, 5); SlotsStep(t, 4);
    SlotsStep(t, 3); SlotsStep(t, 2); SlotsStep(t, 1); SlotsStep(t, 0);
    assert t[0..] == t;
  }

  /** A template of the shared shape embeds the caller's text once. */
  lemma ShapeBodyCount(t: Template)
    requires ThreeSlotsThenBody(t)
    ensures BodyCount(t) == 1
  {
    assert t[9..] == [];
    BodyCountStep(t, 8); BodyCountStep(t, 7); BodyCountStep(t, 6); BodyCountStep(t, 5); BodyCountStep(t, 4);
    BodyCountStep(t, 3); BodyCountStep(t, 2); BodyCountStep(t, 1); BodyCountStep(t, 0);
    assert t[0..] == t;
  }

  /** A template of the shared shape has exactly its three holes, in order, and embeds the content once. */
  lemma ShapeSlots(t: Template)
    requires ThreeSlotsThenBody(t)
    ensures Slots(t) == [(t[1].key, t[1].fallback), (t[3].key, t[3].fallback), (t[5].key, t[5].fallback)]
    ensures SlotKeys(t) == {t[1].key, t[3].key, t[5].key}
    ensures BodyCount(t) == 1
  {
    ShapeSlotList(t);
    ShapeBodyCount(t);
    var s := Slots(t);
    assert s[0].0 == t[1].key && s[1].0 == t[3].key && s[2].0 == t[5].key;
  }

  /**
   * A template of the shared shape renders field by field: each hole shows
   * its own field when that is present and non-empty, and its own fallback
   * otherwise, whatever the other fields are.
   */
  lemma ThreeSlotLayout(t: Template, env: Env, body: string)
    requires ThreeSlotsThenBody(t)
    ensures Render(t, env, body)
            == t[0].text + SlotValue(env, t[1].key, t[1].fallback) + t[2].text
               + SlotValue(env, t[3].key, t[3].fallback) + t[4].text
               + SlotValue(env, t[5].key, t[5].fallback) + t[6].text + body + t[8].text
  {
    var head, rest := t[..4], t[4..];
    assert t == head + rest;
    RenderAppend(head, rest, env, body);
    RenderTwoSlots(head, env, body);
    RenderOneSlot(rest, env, body);
  }

  /** The holes of each registered user template, with the defaults the handler falls back to. */
  lemma TemplateDefaults()
    ensures Slots(MinutesUser) == [("meetingType", "Riunione generale"), ("date", "Data da definire"),
                                   ("participants", "Da specificare")]
    ensures Slots(ProcedureUser) == [("title", "Procedura"), ("code", "PROC-XXX-2024"), ("area", "Da definire")]
    ensures Slots(ProcessUser) == [("processName", "Processo"), ("code", "PROC-XXX"), ("owner", "Da assegnare")]
    ensures BodyCount(MinutesUser) == 1 && BodyCount(ProcedureUser) == 1 && BodyCount(ProcessUser) == 1
  {
    ShapeSlots(MinutesUser);
    ShapeSlots(ProcedureUser);
    ShapeSlots(ProcessUser);
  }

  lemma MinutesEntry()
    ensures Entry(MinutesSystem, MinutesUser, "minutes")
  {
    ShapeSlots(MinutesUser);
  }

  lemma ProcedureEntry()
    ensures Entry(ProcedureSystem, ProcedureUser, "procedure")
  {
    ShapeSlots(ProcedureUser);
  }

  lemma ProcessEntry()
    ensures Entry(ProcessSystem, ProcessUser, "process")
  {
    ShapeSlots(ProcessUser);
  }

  /** A table is well formed when each of its three entries is. */
  lemma TableWellFormed(minutes: string, procedure: string, process: string,
                        minutesUser: Template, procedureUser: Template, processUser: Template)
    requires Entry(minutes, minutesUser, "minutes")
    requires Entry(procedure, procedureUser, "procedure")
    requires Entry(process, processUser, "process")
    ensures WellFormed(Table(minutes, procedure, process, minutesUser, procedureUser, processUser))
  {
  }

  /** The shipped registry has the layout the lemmas below rely on. */
  lemma RegistryWellFormed()
    ensures WellFormed(Registry)
  {
    MinutesEntry();
    ProcedureEntry();
    ProcessEntry();
    TableWellFormed(MinutesSystem, ProcedureSystem, ProcessSystem, MinutesUser, ProcedureUser, ProcessUser);
  }

  /** In a well-formed registry the `||` fallback never fires on an entry that exists. */
  lemma EntriesNonEmpty(p: Prompts, key: string, env: Env, content: string)
    requires WellFormed(p) && key in Keys
    ensures p.system[key] != ""
    ensures Render(p.user[key], env, content) != ""
  {
    var t := p.user[key];
    assert Render(t, env, content) == t[0].text + Render(t[1..], env, content);
  }

  /**
   * The system and the user prompt always come from the same registry entry:
   * the type's own for `minutes`, `procedure` and `process`, the `procedure`
   * entry for every other type.
   */
  lemma PromptsFromSameKey(p: Prompts, documentType: string, metadata: Option<Env>, content: string)
    requires WellFormed(p)
    ensures HasFallback(p) && SelectedKey(documentType) in Keys
    ensures SystemPrompt(p, documentType) == p.system[SelectedKey(documentType)]
    ensures UserPrompt(p, documentType, metadata, content)
            == Render(p.user[SelectedKey(documentType)], MetadataEnv(metadata), content)
  {
    EntriesNonEmpty(p, SelectedKey(documentType), MetadataEnv(metadata), content);
  }

  /**
   * A metadata field that is absent or empty is rendered as the template's
   * default: the prompt is the one produced when `metadata` is absent.
   */
  lemma AbsentFieldsUseDefaults(p: Prompts, documentType: string, metadata: Option<Env>, content: string)
    requires WellFormed(p)
    requires forall k :: k in HoleKeys(SelectedKey(documentType)) ==> !Truthy(Lookup(MetadataEnv(metadata), k))
    ensures UserPrompt(p, documentType, metadata, content) == UserPrompt(p, documentType, None, content)
  {
    PromptsFromSameKey(p, documentType, metadata, content);
    PromptsFromSameKey(p, documentType, None, content);
    RenderReadsOnlySlots(p.user[SelectedKey(documentType)], MetadataEnv(metadata), map[], content);
  }

  /**
   * The user prompt the handler builds is the selected entry filled hole by
   * hole: each hole shows its own metadata field when that is present and
   * non-empty, and its own default otherwise; the content follows the
   * three holes.
   */
  lemma SelectedPromptLayout(p: Prompts, documentType: string, metadata: Option<Env>, content: string)
    requires WellFormed(p)
    ensures HasFallback(p) && SelectedKey(documentType) in Keys
    ensures var t := p.user[SelectedKey(documentType)];
            var env := MetadataEnv(metadata);
            UserPrompt(p, documentType, metadata, content)
            == t[0].text + SlotValue(env, t[1].key, t[1].fallback) + t[2].text
               + SlotValue(env, t[3].key, t[3].fallback) + t[4].text
               + SlotValue(env, t[5].key, t[5].fallback) + t[6].text + content + t[8].text
  {
    PromptsFromSameKey(p, documentType, metadata, content);
    ThreeSlotLayout(p.user[SelectedKey(documentType)], MetadataEnv(metadata), content);
  }

  /**
   * Field by field in the `minutes` prompt: meeting type, date and
   * participants each appear as given when present and non-empty, and as
   * their own default otherwise, independently of one another.
   */
  lemma MinutesFields(env: Env, content: string)
    ensures Render(MinutesUser, env, content)
            == MinutesUser[0].text + OrElse(Lookup(env, "meetingType"), "Riunione generale") + MinutesUser[2].text
               + OrElse(Lookup(env, "date"), "Data da definire") + MinutesUser[4].text
               + OrElse(Lookup(env, "participants"), "Da specificare") + MinutesUser[6].text
               + content + MinutesUser[8].text
  {
    ThreeSlotLayout(MinutesUser, env, content);
  }

  /**
   * Field by field in the `procedure` prompt, which every type outside the
   * registry also gets: title, code and area each appear as given when
   * present and non-empty, and as their own default otherwise.
   */
  lemma ProcedureFields(env: Env, content: string)
    ensures Render(ProcedureUser, env, content)
            == ProcedureUser[0].text + OrElse(Lookup(env, "title"), "Procedura") + ProcedureUser[2].text
               + OrElse(Lookup(env, "code"), "PROC-XXX-2024") + ProcedureUser[4].text
               + OrElse(Lookup(env, "area"), "Da definire") + ProcedureUser[6].text
               + content + ProcedureUser[8].text
  {
    ThreeSlotLayout(ProcedureUser, env, content);
  }

  /**
   * Field by field in the `process` prompt: process name, code and owner
   * each appear as given when present and non-empty, and as their own
   * default otherwise.
   */
  lemma ProcessFields(env: Env, content: string)
    ensures Render(ProcessUser, env, content)
            == ProcessUser[0].text + OrElse(Lookup(env, "processName"), "Processo") + ProcessUser[2].text
               + OrElse(Lookup(env, "code"), "PROC-XXX") + ProcessUser[4].text
               + OrElse(Lookup(env, "owner"), "Da assegnare") + ProcessUser[6].text
               + content + ProcessUser[8].text
  {
    ThreeSlotLayout(ProcessUser, env, content);
  }

  /** Only the selected template's holes are read: any other metadata key leaves the prompt unchanged. */
  lemma OtherMetadataIgnored(p: Prompts, documentType: string, metadata: Env, key: string, value: string,
                             content: string)
    requires WellFormed(p) && key !in HoleKeys(SelectedKey(documentType))
    ensures UserPrompt(p, documentType, Some(metadata[key := value]), content)
            == UserPrompt(p, documentType, Some(metadata), content)
  {
    PromptsFromSameKey(p, documentType, Some(metadata[key := value]), content);
    PromptsFromSameKey(p, documentType, Some(metadata), content);
    RenderReadsOnlySlots(p.user[SelectedKey(documentType)], metadata[key := value], metadata, content);
  }

  /**
   * `content` is embedded verbatim, untrimmed and with no length bound:
   * for a given type and metadata the user prompt is a fixed prefix, the
   * content, and a fixed suffix.
   */
  lemma ContentVerbatim(p: Prompts, documentType: string, metadata: Option<Env>) returns (pre: string, post: string)
    requires WellFormed(p)
    ensures HasFallback(p)
    ensures forall c :: UserPrompt(p, documentType, metadata, c) == pre + c + post
  {
    var key := SelectedKey(documentType);
    PromptsFromSameKey(p, documentType, metadata, "");
    ShapeSlots(p.user[key]);
    pre, post := BodyFrame(p.user[key], MetadataEnv(metadata));
    forall c ensures UserPrompt(p, documentType, metadata, c) == pre + c + post {
      PromptsFromSameKey(p, documentType, metadata, c);
    }
  }

  /** An OPTIONS request is answered before its body is looked at, with no call and no Content-Type. */
  lemma PreflightFirst(p: Prompts, body: Body<DocRequest>, apiKey: Option<string>, upstream: Upstream)
    requires HasFallback(p)
    ensures Handle(p, HttpRequest("OPTIONS", body), apiKey, upstream) == Exchange(None, Preflight())
  {
  }

  /** A request without type or content gets 400 whatever the API key and the gateway would do. */
  lemma GateFirst(p: Prompts, verb: string, r: DocRequest, apiKey: Option<string>, upstream: Upstream)
    requires HasFallback(p) && verb != "OPTIONS" && !Accepted(r)
    ensures Handle(p, HttpRequest(verb, Parsed(r)), apiKey, upstream)
            == Exchange(None, ErrorResponse(400, RequiredMessage))
  {
  }

  /**
   * Errors thrown inside the handler become 500 with their message, never 400:
   * an unreadable body, a missing API key, an unreachable gateway and a
   * reply without a first choice.
   */
  lemma ThrownErrorsAre500(p: Prompts, verb: string, r: DocRequest, apiKey: Option<string>, upstream: Upstream,
                           m: string)
    requires HasFallback(p) && verb != "OPTIONS"
    ensures Handle(p, HttpRequest(verb, Malformed(m)), apiKey, upstream) == Thrown(m)
    ensures Accepted(r) && !Truthy(apiKey) ==>
              Handle(p, HttpRequest(verb, Parsed(r)), apiKey, upstream) == Thrown(MissingKeyMessage)
    ensures Accepted(r) && Truthy(apiKey) && upstream == Unreachable(m) ==>
              Handle(p, HttpRequest(verb, Parsed(r)), apiKey, upstream).response == ErrorResponse(500, m)
    ensures Accepted(r) && Truthy(apiKey) && upstream.Reply? && IsOk(upstream.status) && upstream.body == NoChoice(m) ==>
              Handle(p, HttpRequest(verb, Parsed(r)), apiKey, upstream).response == ErrorResponse(500, m)
  {
  }

  /**
   * A type outside the registry is served with the `procedure` prompts;
   * exactly one call is made and a successful reply yields `{document}`.
   */
  lemma UnknownTypeUsesProcedure(p: Prompts, r: DocRequest, apiKey: Option<string>, text: string, status: int)
    requires WellFormed(p) && Accepted(r) && Truthy(apiKey) && r.documentType.value !in Keys && IsOk(status)
    ensures HasFallback(p)
    ensures var x := Handle(p, HttpRequest("POST", Parsed(r)), apiKey, Reply(status, FirstChoice(text)));
            && x.call == Some(Completion(Model, [
                 Message(System, p.system["procedure"]),
                 Message(User, Render(p.user["procedure"], MetadataEnv(r.metadata), r.content.value))]))
            && x.response == Response(200, JsonHeaders, Field("document", text))
  {
    PromptsFromSameKey(p, r.documentType.value, r.metadata, r.content.value);
  }
}
