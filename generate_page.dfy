/**
 * The `Generate` page: a form over any of thirteen document types (or a
 * custom one), validated by `generateDocumentSchema`, whose `generate`
 * button invokes the `generate-document` handler with the validated type,
 * content and a `{title, code, standard}` metadata object.
 */
module GeneratePage {
  import opened Wrappers
  import opened JsText
  import opened Template
  import opened Gateway
  import opened Validations
  import opened Toasts
  import GenerateDocument

  /** The values of the type selector, in display order. */
  const DocumentTypes: seq<string> := [
    "procedure", "process", "minutes", "manuale_qualita", "istruzione_lavoro", "modulistica", "piano_audit",
    "report_audit", "analisi_rischi", "piano_miglioramento", "gestione_nc", "azioni_correttive", "custom"]

  const CustomType := "custom"

  const InitialStandard := "ISO 9001:2015"

  const SuccessToast := Toast("Documento Generato", "Il documento è stato generato con successo", false)

  const FailureFallback := "Errore durante la generazione"

  /** What `supabase.functions.invoke` settles to: the response's `document`, or a raised error. */
  datatype Invocation = Returned(document: string) | Raised(fault: Fault)

  /** The object handed to the validator: the custom type counts only when `custom` is selected. */
  function ValidationInput(documentType: string, customType: string, title: string, code: string,
                           standard: string, content: string): (f: GenerateFields)
    ensures f.documentType == documentType && f.title == title && f.content == content
    ensures f.code == code && f.standard == standard
    ensures f.customType == (if documentType == CustomType then customType else "")
  {
    GenerateFields(documentType, if documentType == CustomType then customType else "", title,
                   OrElse(Some(code), ""), OrElse(Some(standard), ""), content)
  }

  /**
   * The body sent to `generate-document`: the validated custom type in place
   * of `custom`, the validated content, and exactly the validated title,
   * code and standard as metadata.
   */
  function RequestBody(documentType: string, data: GenerateFields): (r: GenerateDocument.DocRequest)
    ensures r.documentType == Some(if documentType == CustomType then data.customType else data.documentType)
    ensures r.content == Some(data.content)
    ensures r.metadata.Some? && r.metadata.value.Keys == {"title", "code", "standard"}
    ensures r.metadata.value["title"] == data.title && r.metadata.value["code"] == data.code
    ensures r.metadata.value["standard"] == data.standard
  {
    GenerateDocument.DocRequest(
      Some(if documentType == CustomType then data.customType else data.documentType),
      Some(data.content),
      Some(map["title" := data.title, "code" := data.code, "standard" := data.standard]))
  }

  class GenerateForm {
    var documentType: string
    var customType: string
    var content: string
    var result: string
    var title: string
    var code: string
    var standard: string
    var isGenerating: bool
    /** The toasts shown so far, oldest first. */
    var toasts: seq<Toast>

    function Input(): GenerateFields
      reads this
    {
      ValidationInput(documentType, customType, title, code, standard, content)
    }

    constructor()
      ensures documentType == "" && customType == "" && content == "" && result == ""
      ensures title == "" && code == "" && standard == InitialStandard
      ensures !isGenerating && toasts == []
    {
      documentType, customType, content, result := "", "", "", "";
      title, code, standard := "", "", InitialStandard;
      isGenerating, toasts := false, [];
    }

    /**
     * The synchronous part of `generateDocument`, up to the invocation. An
     * input the validator refuses shows its first message and sends
     * nothing; otherwise the result is cleared, the spinner starts and the
     * request body is built from the validated data.
     */
    method StartGenerate() returns (request: Option<GenerateDocument.DocRequest>)
      modifies this
      ensures var v := ValidateGenerate(old(Input()));
              if v.Failure? then
                request.None? && toasts == old(toasts) + [ErrorToast(v.error[0])]
                && result == old(result) && isGenerating == old(isGenerating)
              else
                request == Some(RequestBody(documentType, v.value))
                && result == "" && isGenerating && toasts == old(toasts)
      ensures documentType == old(documentType) && customType == old(customType) && content == old(content)
      ensures title == old(title) && code == old(code) && standard == old(standard)
    {
      var input := Input();
      var validation := ValidateGenerate(input);
      if validation.Failure? {
        toasts := toasts + [ErrorToast(validation.error[0])];
        request := None;
      } else {
        isGenerating, result := true, "";
        request := Some(RequestBody(documentType, validation.value));
      }
    }

    /**
     * The part after the invocation settles: the document becomes the
     * result, or the error is shown; the spinner stops either way.
     */
    method FinishGenerate(outcome: Invocation)
      modifies this
      ensures !isGenerating
      ensures outcome.Returned? ==> result == outcome.document && toasts == old(toasts) + [SuccessToast]
      ensures outcome.Raised? ==>
                result == old(result) && toasts == old(toasts) + [ErrorToast(Shown(outcome.fault, FailureFallback))]
      ensures documentType == old(documentType) && customType == old(customType) && content == old(content)
      ensures title == old(title) && code == old(code) && standard == old(standard)
    {
      match outcome {
        case Returned(document) =>
          result := document;
          toasts := toasts + [SuccessToast];
        case Raised(fault) =>
          toasts := toasts + [ErrorToast(Shown(fault, FailureFallback))];
      }
      isGenerating := false;
    }
  }

  /**
   * Once the form validates, the handler refuses the request with 400
   * exactly when `custom` is selected and the custom type is blank: the
   * validator lets a blank custom type through, trimmed to the empty
   * string, and that empty string is sent as the type.
   */
  lemma ServerRejectsOnlyBlankCustomType(documentType: string, customType: string, title: string, code: string,
                                         standard: string, content: string, verb: string,
                                         p: GenerateDocument.Prompts, apiKey: Option<string>, upstream: Upstream)
    requires GenerateDocument.HasFallback(p) && verb != "OPTIONS"
    requires ValidateGenerate(ValidationInput(documentType, customType, title, code, standard, content)).Success?
    ensures var data := ValidateGenerate(ValidationInput(documentType, customType, title, code, standard, content)).value;
            var x := GenerateDocument.Handle(p, HttpRequest(verb, Parsed(RequestBody(documentType, data))), apiKey, upstream);
            x.response.status == 400 <==> documentType == CustomType && AllSpace(customType)
  {
    var f := ValidationInput(documentType, customType, title, code, standard, content);
    GenerateAcceptsIff(f);
    GenerateOutput(f);
    TrimEmptyIff(customType);
  }

  /** Once the form validates, the type sent is the selected one, or the trimmed custom text for `custom`. */
  lemma SentType(documentType: string, customType: string, title: string, code: string, standard: string,
                 content: string)
    requires ValidateGenerate(ValidationInput(documentType, customType, title, code, standard, content)).Success?
    ensures var data := ValidateGenerate(ValidationInput(documentType, customType, title, code, standard, content)).value;
            RequestBody(documentType, data).documentType.value
            == if documentType == CustomType then Trim(customType) else documentType
  {
    GenerateOutput(ValidationInput(documentType, customType, title, code, standard, content));
  }

  /** The keys the listed types select: their own for the first three, `procedure` for the rest. */
  lemma ListedKeys()
    ensures forall i | 0 <= i < 3 :: GenerateDocument.SelectedKey(DocumentTypes[i]) == DocumentTypes[i]
    ensures forall i | 3 <= i < |DocumentTypes| :: GenerateDocument.SelectedKey(DocumentTypes[i]) == "procedure"
  {
  }

  /**
   * What a listed type other than `custom` sends, once the form validates:
   * the first three, `procedure`, `process` and `minutes`, select their own
   * prompts, and the other nine select the `procedure` ones.
   */
  lemma ListedTypesSelection(i: nat, customType: string, title: string, code: string, standard: string,
                             content: string)
    requires i < |DocumentTypes| && DocumentTypes[i] != CustomType
    requires ValidateGenerate(ValidationInput(DocumentTypes[i], customType, title, code, standard, content)).Success?
    ensures |DocumentTypes| == 13 && DocumentTypes[..3] == ["procedure", "process", "minutes"]
    ensures DocumentTypes[12] == CustomType
    ensures var data := ValidateGenerate(ValidationInput(DocumentTypes[i], customType, title, code, standard, content)).value;
            var key := GenerateDocument.SelectedKey(RequestBody(DocumentTypes[i], data).documentType.value);
            (i < 3 ==> key == DocumentTypes[i]) && (3 <= i ==> key == "procedure")
  {
    SentType(DocumentTypes[i], customType, title, code, standard, content);
    ListedKeys();
  }

  /**
   * With `custom` selected and the form valid, the type sent is the trimmed
   * custom text: it selects its own prompts when it is `minutes`,
   * `procedure` or `process`, and the `procedure` ones for any other text.
   */
  lemma CustomTypeSelection(customType: string, title: string, code: string, standard: string, content: string)
    requires ValidateGenerate(ValidationInput(CustomType, customType, title, code, standard, content)).Success?
    ensures var data := ValidateGenerate(ValidationInput(CustomType, customType, title, code, standard, content)).value;
            var sent := RequestBody(CustomType, data).documentType.value;
            && sent == Trim(customType)
            && GenerateDocument.SelectedKey(sent)
               == (if Trim(customType) in GenerateDocument.Keys then Trim(customType) else "procedure")
  {
    SentType(CustomType, customType, title, code, standard, content);
  }

  /** The `standard` sent in the metadata is read by no template, so it cannot change the prompt. */
  lemma StandardNeverReachesPrompt(p: GenerateDocument.Prompts, documentType: string, metadata: Env,
                                   s1: string, s2: string, content: string)
    requires GenerateDocument.WellFormed(p)
    ensures GenerateDocument.HasFallback(p)
    ensures GenerateDocument.UserPrompt(p, documentType, Some(metadata["standard" := s1]), content)
            == GenerateDocument.UserPrompt(p, documentType, Some(metadata["standard" := s2]), content)
  {
    GenerateDocument.OtherMetadataIgnored(p, documentType, metadata, "standard", s1, content);
    GenerateDocument.OtherMetadataIgnored(p, documentType, metadata, "standard", s2, content);
  }
}
