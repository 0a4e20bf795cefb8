/**
 * The `DocumentGenerator` component: a form for the three registered
 * document types with per-type metadata fields. `generate` refuses blank
 * content, sends the raw content with exactly the fields the selected
 * type's template reads, and reports the handler's `error` on failure.
 * Changing the type clears the content, the result and every field.
 */
module DocumentGenerator {
  import opened Wrappers
  import opened JsText
  import opened Template
  import opened Toasts
  import GenerateDocument
  import Gateway

  datatype Kind = Minutes | Procedure | Process

  /** The registry key and the value sent as `documentType`. */
  function KindKey(k: Kind): (key: string)
    ensures key in GenerateDocument.Keys && GenerateDocument.SelectedKey(key) == key
  {
    match k
    case Minutes => "minutes"
    case Procedure => "procedure"
    case Process => "process"
  }

  function KindLabel(k: Kind): string {
    match k
    case Minutes => "Minuta di Riunione"
    case Procedure => "Procedura Operativa"
    case Process => "Documentazione Processo"
  }

  const EmptyContentMessage := "Inserisci il contenuto del documento da generare"

  const FailureFallback := "Errore durante la generazione"

  /** How the `fetch` settles: a response with its status flag and JSON fields, or a thrown error. */
  datatype Reply = Responded(ok: bool, document: string, error: Option<string>) | Failed(fault: Fault)

  class GeneratorForm {
    var kind: Kind
    var content: string
    var result: string
    var title: string
    var code: string
    var meetingType: string
    var participants: string
    var date: string
    var area: string
    var processName: string
    var owner: string
    var isGenerating: bool
    /** The toasts shown so far, oldest first. */
    var toasts: seq<Toast>

    /** Every metadata field is empty. */
    predicate FieldsCleared()
      reads this
    {
      title == "" && code == "" && meetingType == "" && participants == "" && date == ""
      && area == "" && processName == "" && owner == ""
    }

    constructor()
      ensures kind == Procedure && content == "" && result == "" && FieldsCleared()
      ensures !isGenerating && toasts == []
    {
      kind, content, result := Procedure, "", "";
      title, code, meetingType, participants, date := "", "", "", "", "";
      area, processName, owner := "", "", "";
      isGenerating, toasts := false, [];
    }

    /**
     * The `metadata` record, filled branch by branch: exactly the holes of
     * the selected type's template, each carrying the field entered for it.
     */
    method Metadata() returns (metadata: map<string, string>)
      ensures metadata.Keys == GenerateDocument.HoleKeys(KindKey(kind))
      ensures kind == Minutes ==>
                metadata == map["meetingType" := meetingType, "participants" := participants, "date" := date]
      ensures kind == Procedure ==> metadata == map["title" := title, "code" := code, "area" := area]
      ensures kind == Process ==> metadata == map["processName" := processName, "code" := code, "owner" := owner]
    {
      metadata := map[];
      if kind == Minutes {
        metadata := metadata["meetingType" := meetingType];
        metadata := metadata["participants" := participants];
        metadata := metadata["date" := date];
      } else if kind == Procedure {
        metadata := metadata["title" := title];
        metadata := metadata["code" := code];
        metadata := metadata["area" := area];
      } else if kind == Process {
        metadata := metadata["processName" := processName];
        metadata := metadata["code" := code];
        metadata := metadata["owner" := owner];
      }
    }

    /**
     * The synchronous part of `generateDocument`: blank content is refused
     * with a toast and nothing is sent; otherwise the result is cleared,
     * the spinner starts, and the request carries the type, the content as
     * typed, and the metadata of the selected type.
     */
    method StartGenerate() returns (request: Option<GenerateDocument.DocRequest>)
      modifies this
      ensures AllSpace(old(content)) ==>
                request.None? && toasts == old(toasts) + [ErrorToast(EmptyContentMessage)]
                && result == old(result) && isGenerating == old(isGenerating)
      ensures !AllSpace(old(content)) ==>
                request.Some? && request.value.documentType == Some(KindKey(kind))
                && request.value.content == Some(content)
                && request.value.metadata.Some?
                && request.value.metadata.value.Keys == GenerateDocument.HoleKeys(KindKey(kind))
                && result == "" && isGenerating && toasts == old(toasts)
      ensures !AllSpace(old(content)) && kind == Minutes ==>
                request.value.metadata
                == Some(map["meetingType" := meetingType, "participants" := participants, "date" := date])
      ensures !AllSpace(old(content)) && kind == Procedure ==>
                request.value.metadata == Some(map["title" := title, "code" := code, "area" := area])
      ensures !AllSpace(old(content)) && kind == Process ==>
                request.value.metadata == Some(map["processName" := processName, "code" := code, "owner" := owner])
      ensures kind == old(kind) && content == old(content)
      ensures title == old(title) && code == old(code) && meetingType == old(meetingType)
      ensures participants == old(participants) && date == old(date) && area == old(area)
      ensures processName == old(processName) && owner == old(owner)
    {
      TrimEmptyIff(content);
      if Trim(content) == "" {
        toasts := toasts + [ErrorToast(EmptyContentMessage)];
        return None;
      }
      isGenerating := true;
      result := "";
      var metadata := Metadata();
      request := Some(GenerateDocument.DocRequest(Some(KindKey(kind)), Some(content), Some(metadata)));
    }

    /**
     * The part after the `fetch` settles. A non-ok response reports the
     * handler's `error`, or the fallback when it has none; the spinner
     * stops whatever happened.
     */
    method FinishGenerate(reply: Reply)
      modifies this
      ensures !isGenerating
      ensures reply.Responded? && reply.ok ==>
                result == reply.document
                && toasts == old(toasts) + [Toast("Documento Generato", KindLabel(kind) + " generato con successo", false)]
      ensures reply.Responded? && !reply.ok ==>
                result == old(result) && toasts == old(toasts) + [ErrorToast(OrElse(reply.error, FailureFallback))]
      ensures reply.Failed? ==>
                result == old(result) && toasts == old(toasts) + [ErrorToast(Shown(reply.fault, FailureFallback))]
      ensures kind == old(kind) && content == old(content)
      ensures title == old(title) && code == old(code) && meetingType == old(meetingType)
      ensures participants == old(participants) && date == old(date) && area == old(area)
      ensures processName == old(processName) && owner == old(owner)
    {
      match reply {
        case Responded(ok, document, error) =>
          if !ok {
            toasts := toasts + [ErrorToast(OrElse(error, FailureFallback))];
          } else {
            result := document;
            toasts := toasts + [Toast("Documento Generato", KindLabel(kind) + " generato con successo", false)];
          }
        case Failed(fault) =>
          toasts := toasts + [ErrorToast(Shown(fault, FailureFallback))];
      }
      isGenerating := false;
    }

    /** `resetForm`: the content, the result and all eight metadata fields become empty. */
    method ResetForm()
      modifies this
      ensures content == "" && result == "" && FieldsCleared()
      ensures kind == old(kind) && isGenerating == old(isGenerating) && toasts == old(toasts)
    {
      content := "";
      result := "";
      title := "";
      code := "";
      meetingType := "";
      participants := "";
      date := "";
      area := "";
      processName := "";
      owner := "";
    }

    /** Selecting a type: the type changes and the form is reset. */
    method ChangeType(k: Kind)
      modifies this
      ensures kind == k && content == "" && result == "" && FieldsCleared()
      ensures isGenerating == old(isGenerating) && toasts == old(toasts)
    {
      kind := k;
      ResetForm();
    }
  }

  /**
   * A request the component sends passes the handler's gate and is served
   * with its own type's prompts, never the `procedure` fallback: the user
   * prompt is that type's template filled from the metadata sent.
   */
  lemma SentRequestUsesOwnTemplate(p: GenerateDocument.Prompts, k: Kind, content: string,
                                   metadata: map<string, string>, apiKey: Option<string>, upstream: Gateway.Upstream)
    requires GenerateDocument.WellFormed(p) && !AllSpace(content) && Truthy(apiKey)
    ensures GenerateDocument.HasFallback(p)
    ensures var r := GenerateDocument.DocRequest(Some(KindKey(k)), Some(content), Some(metadata));
            && GenerateDocument.Accepted(r)
            && GenerateDocument.Handle(p, Gateway.HttpRequest("POST", Gateway.Parsed(r)), apiKey, upstream).call
               == Some(Gateway.Completion(Gateway.Model, [
                    Gateway.Message(Gateway.System, p.system[KindKey(k)]),
                    Gateway.Message(Gateway.User, Render(p.user[KindKey(k)], metadata, content))]))
  {
    GenerateDocument.PromptsFromSameKey(p, KindKey(k), Some(metadata), content);
  }
}
