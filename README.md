# Standard Pathfinder: document generation, compliance analysis and upload

Standard Pathfinder helps small Italian companies write and check quality documents for ISO 9001:2015. This project models its request-shaping and response-mapping core in Dafny:

- **Three serverless handlers.** `generate-document`, `generate-minutes` and `analyze-compliance` each check one or two required fields. They fill a prompt template from the request and make one two-message call to the AI gateway, then translate the gateway's answer into an HTTP response.
- **Three form schemas** in `validations.ts`. Each trims, then bounds lengths.
- **Three client components.** They validate a form and build the request body or the database record. They also keep React state: a spinner flag, the result, the toasts shown, and the form fields.

Modules:

| module | file | what it holds |
|---|---|---|
| `Wrappers` | `wrappers.dfy` | `Option` and `Result` |
| `JsText` | `js_text.dfy` | The JavaScript string operations the code uses: `trim`, `indexOf`/`replace` with a string pattern, `split(c).pop()`, `String(n)`, and `x \|\| fallback` on an optional string. |
| `Gateway` | `gateway.dfy` | What the handlers share: CORS preflight, JSON responses, the completion call and the status translation. The network is abstract: the gateway's reply is a parameter, and each handler returns the call it made with its response. |
| `Template` | `template.dfy` | A prompt is a sequence of fixed text, named holes with fallbacks (`${metadata?.title \|\| 'Procedura'}`) and one embedding point for the caller's main text. |
| `GenerateDocument`, `GenerateMinutes`, `AnalyzeCompliance` | one file each | The handlers as total functions. |
| `Validations` | `validations.dfy` | The schemas as rules per field, results in field order, and the parse output. |
| `Toasts` | `toasts.dfy` | The toast shown to the user, and how a caught error becomes its description. |
| `GeneratePage`, `DocumentGenerator`, `DocumentUpload` | one file each | The client code. Each component's state is a class whose methods update its fields. |

Two behaviours of the client code, as the model states them:

- **`resetForm` in `DocumentGenerator` clears all eight metadata fields**: title, code, area, processName, owner, meetingType, date and participants (`src/components/DocumentGenerator.tsx:123-134`).
- **A custom type on the Generate page** whose trimmed text is `minutes`, `procedure` or `process` selects that entry's prompts. Any other custom text that is not blank selects the `procedure` prompts; a blank one is refused with 400 before the lookup.

## Model

| member | source | states |
|---|---|---|
| JsText.TrimSurroundings | src/lib/validations.ts:4 | What `.trim()` removes is whitespace at the two ends only. The rest of the input is kept unchanged, in the middle. |
| JsText.Trim | src/lib/validations.ts:4 | `.trim()`: the result is no longer than the input and has no whitespace at either end. What it removes is stated by `TrimSurroundings`. |
| JsText.TrimIdempotent | src/lib/validations.ts:4 | Trimming a trimmed string changes nothing. |
| JsText.TrimEmptyIff | src/components/DocumentGenerator.tsx:55 | `s.trim()` is empty exactly when `s` is whitespace only. |
| JsText.IndexOfFrom | src/components/DocumentUpload.tsx:83 | `indexOf` returns the first occurrence at or after the start, or -1 exactly when there is none. |
| JsText.ReplaceFirst | src/components/DocumentUpload.tsx:83 | `replace` with a string pattern replaces the first occurrence only. It has no contract of its own: `IndexOfFrom` states the occurrence it finds, and `DocumentUpload.BaseNameCutsFirstOccurrence` states the cut. |
| JsText.LastIndexBelowFound | src/components/DocumentUpload.tsx:82 | The backward search stops at a `c`, and no `c` lies between that index and the bound. |
| JsText.LastIndexOfIsLast | src/components/DocumentUpload.tsx:82 | The index found holds the last `c`, with none after it. It is -1 exactly when `c` does not occur. |
| JsText.LastPieceIsSuffix | src/components/DocumentUpload.tsx:82 | `split(c).pop()` is a suffix without `c`. It is the whole string exactly when `c` does not occur, and otherwise a `c` precedes it. |
| JsText.LastPiece | src/components/DocumentUpload.tsx:82 | `split(c).pop()`: no longer than the input. `LastPieceIsSuffix` states that it is the text after the last `c`. |
| JsText.Decimal | src/components/DocumentUpload.tsx:84 | `Date.now()` in a template literal is a non-empty string of digits, and it denotes the number. |
| JsText.OrElse | supabase/functions/generate-document/index.ts:152 | `v \|\| fallback` is `v` when `v` is present and non-empty, and `fallback` otherwise. |
| Gateway.Preflight | supabase/functions/generate-document/index.ts:9-11 | The OPTIONS answer has no body, status 200, and exactly the CORS headers, which hold no Content-Type. |
| Gateway.Translate | supabase/functions/generate-document/index.ts:172-204 | Only 200, 402, 429 and 500 come out, always with the JSON headers. Status 200 comes out exactly when the gateway answered 2xx with a first choice, and only it carries the result key; every other status carries `error`. |
| Gateway.StatusTable | supabase/functions/generate-document/index.ts:172-204 | 429 and 402 pass through with their fixed messages. Any other non-2xx becomes 500 `Errore nel servizio AI`. A 2xx with a first choice becomes 200 with that text. A 2xx without one is a thrown error, so 500. |
| Gateway.Relay | supabase/functions/generate-document/index.ts:23-170 | A call is made exactly when the API key is set. The call carries `google/gemini-2.5-flash` and two messages, system then user. Its response is the translated reply. Without a key the handler throws `LOVABLE_API_KEY is not configured` before any call. |
| Template.Bind | supabase/functions/generate-minutes/index.ts:14 | An object literal built from optional fields: a field that is present is read back as given, and every other key is unaffected. |
| Template.Render | supabase/functions/generate-document/index.ts:72-88 | Evaluating a template literal: its pieces in order, each hole as its field or its default. It has no contract of its own: `RenderStep`, `RenderOneSlot`, `RenderTwoSlots`, `BodyVerbatim` and `RenderReadsOnlySlots` state it. |
| Template.RenderReadsOnlySlots | supabase/functions/generate-document/index.ts:74-76 | A template reads nothing but its holes. Two field sets that agree on every hole (both falsy, or the same text) render alike. |
| Template.BodyVerbatim | supabase/functions/generate-document/index.ts:79 | With one embedding point, the caller's text appears verbatim, between a prefix and a suffix that do not depend on it. |
| Template.BodyFrame | supabase/functions/generate-document/index.ts:79 | For fixed fields, a template with one embedding point is a fixed prefix and suffix around any caller text. |
| Template.BodyRecoverable | supabase/functions/generate-document/index.ts:79 | With one embedding point, the rendered prompt determines the caller's text. |
| Template.BodyIndex | supabase/functions/generate-document/index.ts:79 | Finds the first embedding point: there is none before it, and the pieces after it hold all the others. |
| Template.RenderOneSlot | supabase/functions/analyze-compliance/index.ts:39-47 | A text–hole–text–body–text template renders its pieces in order. |
| Template.RenderTwoSlots | supabase/functions/generate-document/index.ts:74-75 | A text–hole–text–hole template renders its pieces in order, each hole as its field or its default. |
| GenerateDocument.Table | supabase/functions/generate-document/index.ts:29-150 | `systemPrompts` and `userPrompts` are keyed by exactly `minutes`, `procedure` and `process`. |
| GenerateDocument.ShapeSlotList | supabase/functions/generate-document/index.ts:71-150 | The holes of a user template of the shared shape are its three hole pieces, in order. |
| GenerateDocument.ShapeBodyCount | supabase/functions/generate-document/index.ts:71-150 | A user template of the shared shape embeds the content exactly once. |
| GenerateDocument.ShapeSlots | supabase/functions/generate-document/index.ts:71-150 | A user template of the shared shape has exactly its three holes, in order, and embeds the content once. |
| GenerateDocument.ThreeSlotLayout | supabase/functions/generate-document/index.ts:71-150 | A template of the shared shape renders as text, then each of its three holes as its own field or its own default, then the content, then the closing text. |
| GenerateDocument.TemplateDefaults | supabase/functions/generate-document/index.ts:71-150 | The holes and defaults of each user template. `minutes`: meetingType/Riunione generale, date/Data da definire, participants/Da specificare. `procedure`: title/Procedura, code/PROC-XXX-2024, area/Da definire. `process`: processName/Processo, code/PROC-XXX, owner/Da assegnare. Each embeds `content` once. |
| GenerateDocument.MinutesEntry | supabase/functions/generate-document/index.ts:72-88 | The `minutes` entry has a non-empty system prompt and a template of the shared shape over its three holes. |
| GenerateDocument.ProcedureEntry | supabase/functions/generate-document/index.ts:89-109 | The `procedure` entry has a non-empty system prompt and a template of the shared shape over its three holes. |
| GenerateDocument.ProcessEntry | supabase/functions/generate-document/index.ts:110-150 | The `process` entry has a non-empty system prompt and a template of the shared shape over its three holes. |
| GenerateDocument.TableWellFormed | supabase/functions/generate-document/index.ts:29-150 | A table is well formed when its three entries are. |
| GenerateDocument.RegistryWellFormed | supabase/functions/generate-document/index.ts:29-150 | The shipped registry is well formed, so every lemma stated for a well-formed registry holds of it. |
| GenerateDocument.EntriesNonEmpty | supabase/functions/generate-document/index.ts:152-153 | The entries are never falsy, so the `\|\|` fallback never fires on a key that exists. |
| GenerateDocument.PromptsFromSameKey | supabase/functions/generate-document/index.ts:152-153 | The system prompt and the user prompt come from the same entry: the type's own for the three keys, `procedure` for every other type. |
| GenerateDocument.SystemPrompt | supabase/functions/generate-document/index.ts:152 | `systemPrompts[documentType] \|\| systemPrompts.procedure`. It has no contract of its own: `PromptsFromSameKey` states which entry it returns. |
| GenerateDocument.UserPrompt | supabase/functions/generate-document/index.ts:153 | `userPrompts[documentType] \|\| userPrompts.procedure`, every template literal evaluated. It has no contract of its own: `PromptsFromSameKey` and `SelectedPromptLayout` state it. |
| GenerateDocument.Handle | supabase/functions/generate-document/index.ts:8-213 | A call is made exactly when the request is not OPTIONS, the body parses, type and content are truthy, and the key is set. The response is 400 exactly when the body parses and type or content is missing. The call carries the looked-up prompts. The response is the translated reply, with JSON headers except on OPTIONS. |
| GenerateDocument.PreflightFirst | supabase/functions/generate-document/index.ts:9-11 | An OPTIONS request gets the preflight answer whatever its body, with no call. |
| GenerateDocument.GateFirst | supabase/functions/generate-document/index.ts:16-21 | A missing type or content gives 400 `Document type and content are required`, whatever the key and the gateway, with no call. |
| GenerateDocument.ThrownErrorsAre500 | supabase/functions/generate-document/index.ts:206-211 | An unreadable body, a missing key, an unreachable gateway and a 2xx without a first choice all give 500 with the thrown message, never 400. |
| GenerateDocument.AbsentFieldsUseDefaults | supabase/functions/generate-document/index.ts:74-76 | When every hole of the selected template is absent or empty, the prompt equals the one built with no `metadata` at all, so each hole shows its default. |
| GenerateDocument.SelectedPromptLayout | supabase/functions/generate-document/index.ts:152-153 | For any type and metadata, the user prompt is the selected entry filled hole by hole: each hole independently shows its metadata field when present and non-empty, and its default otherwise. |
| GenerateDocument.MinutesFields | supabase/functions/generate-document/index.ts:72-88 | In the `minutes` prompt, meeting type, date and participants each show their field when present and non-empty, and otherwise `Riunione generale`, `Data da definire` and `Da specificare`, independently of one another. |
| GenerateDocument.ProcedureFields | supabase/functions/generate-document/index.ts:89-109 | In the `procedure` prompt, title, code and area each show their field when present and non-empty, and otherwise `Procedura`, `PROC-XXX-2024` and `Da definire`, independently of one another. |
| GenerateDocument.ProcessFields | supabase/functions/generate-document/index.ts:110-150 | In the `process` prompt, process name, code and owner each show their field when present and non-empty, and otherwise `Processo`, `PROC-XXX` and `Da assegnare`, independently of one another. |
| GenerateDocument.OtherMetadataIgnored | supabase/functions/generate-document/index.ts:71-150 | A metadata key that is not a hole of the selected template does not change the prompt. |
| GenerateDocument.ContentVerbatim | supabase/functions/generate-document/index.ts:79 | For a given type and metadata, the user prompt is a fixed prefix, then `content` untrimmed and unbounded, then a fixed suffix. |
| GenerateDocument.UnknownTypeUsesProcedure | supabase/functions/generate-document/index.ts:152-153 | A type outside the registry is served with both `procedure` prompts. A 2xx reply gives 200 `{document}`. |
| GenerateMinutes.RequestEnv | supabase/functions/generate-minutes/index.ts:14 | The template sees `meetingType`, `date` and `participants` exactly as they came in the body. |
| GenerateMinutes.UserPrompt | supabase/functions/generate-minutes/index.ts:40-55 | The minutes user prompt. It has no contract of its own: `PromptLayout`, `AbsentFieldsUseDefaults` and `NotesVerbatim` state it. |
| GenerateMinutes.Handle | supabase/functions/generate-minutes/index.ts:8-115 | A call is made exactly when the request is not OPTIONS, the body parses, `notes` is truthy, and the key is set. The response is 400 exactly when the body parses without notes. The call carries the fixed system prompt and then the filled user prompt. The response is the translated reply under `minutes`. |
| GenerateMinutes.PreflightFirst | supabase/functions/generate-minutes/index.ts:9-11 | An OPTIONS request gets the preflight answer, with no call. |
| GenerateMinutes.GateFirst | supabase/functions/generate-minutes/index.ts:16-21 | Missing notes give 400 `Meeting notes are required`, whatever the key and the gateway. |
| GenerateMinutes.ThrownErrorsAre500 | supabase/functions/generate-minutes/index.ts:14-113 | An unreadable body, a missing key, an unreachable gateway and a 2xx without a first choice all give 500 with the thrown message, never 400. |
| GenerateMinutes.SameAsRegistryEntry | supabase/functions/generate-minutes/index.ts:28-38 | The system prompt is the `minutes` system entry of `generate-document`. The user template has the same holes and defaults as that entry and embeds the notes once. |
| GenerateMinutes.AbsentFieldsUseDefaults | supabase/functions/generate-minutes/index.ts:42-44 | When meeting type, date and participants are absent or empty, the prompt shows the three defaults. |
| GenerateMinutes.PromptLayout | supabase/functions/generate-minutes/index.ts:40-55 | Meeting type, date and participants each show their field when present and non-empty, and their own default otherwise, independently of one another; the notes follow them. |
| GenerateMinutes.NotesVerbatim | supabase/functions/generate-minutes/index.ts:46-47 | For given meeting fields, the prompt is a fixed prefix, then the notes verbatim, then a fixed suffix. |
| AnalyzeCompliance.Handle | supabase/functions/analyze-compliance/index.ts:8-107 | A call is made exactly when the request is not OPTIONS, the body parses, `documentText` is truthy, and the key is set. The response is 400 exactly when the body parses without it. The system prompt is the same for every input. The response is the translated reply under `analysis`. |
| AnalyzeCompliance.PreflightFirst | supabase/functions/analyze-compliance/index.ts:9-11 | An OPTIONS request gets the preflight answer, with no call. |
| AnalyzeCompliance.GateFirst | supabase/functions/analyze-compliance/index.ts:16-21 | A missing text gives 400 `Document text is required`, whatever the key and the gateway. |
| AnalyzeCompliance.ThrownErrorsAre500 | supabase/functions/analyze-compliance/index.ts:14-105 | An unreadable body, a missing key, an unreachable gateway and a 2xx without a first choice all give 500 with the thrown message, never 400. |
| AnalyzeCompliance.UserPrompt | supabase/functions/analyze-compliance/index.ts:39-47 | The compliance user prompt. It has no contract of its own: `PromptLayout` states it. |
| AnalyzeCompliance.PromptLayout | supabase/functions/analyze-compliance/index.ts:39-41 | The prompt holds the standard, or `ISO 9001:2015` when it is absent or empty, then the document text verbatim. |
| AnalyzeCompliance.AnyNonEmptyTextForwarded | supabase/functions/analyze-compliance/index.ts:39-47 | With a key set, any non-empty text is sent as it is, even a single blank or one beyond 50000 characters. |
| Validations.CheckMeaning | src/lib/validations.ts:4 | A `trim().min().max()` chain accepts exactly when the normalised length is within the bounds, inclusive. It outputs the normalised string. On failure it reports the minimum's message when that check fails, and the maximum's otherwise. |
| Validations.Check | src/lib/validations.ts:4 | A `trim().min().max()` chain. It has no contract of its own: `CheckMeaning` and `CheckIdempotent` state it. |
| Validations.OrEmpty | src/lib/validations.ts:5 | `.optional().or(z.literal(''))`. It has no contract of its own: `OrEmptyIsRule` and `BlankOptionalIsEmpty` state it. |
| Validations.OrEmptyIsRule | src/lib/validations.ts:5 | With no minimum, `.optional().or(z.literal(''))` behaves exactly like the rule alone. |
| Validations.CheckIdempotent | src/lib/validations.ts:4 | A trimming rule accepts its own output and returns it unchanged. |
| Validations.IssuesEmptyIff | src/lib/validations.ts:3-10 | There are no issues exactly when every field parses. |
| Validations.FirstIssueIsFirstFailure | src/pages/Generate.tsx:70 | `errors[0]` is the message of the first failing field in declaration order. |
| Validations.UploadFieldsMeaning | src/lib/validations.ts:5-8 | The four optional upload fields parse exactly like their rules. |
| Validations.ValidateUpload | src/lib/validations.ts:3-10 | A failed parse reports the failing fields' messages in order, and at least one. |
| Validations.UploadAcceptsIff | src/lib/validations.ts:3-10 | Accepted exactly when all hold: the trimmed title has 1 to 200 characters; the trimmed code, description, author and version are within 50, 2000, 100 and 20; the untrimmed category is non-empty. |
| Validations.UploadOutput | src/lib/validations.ts:3-10 | The output holds the trimmed strings, and the category untrimmed. |
| Validations.UploadRevalidates | src/lib/validations.ts:3-10 | Parsing the output again succeeds and returns it unchanged. |
| Validations.ValidateCompliance | src/lib/validations.ts:12-22 | A failed parse reports the failing fields' messages in order, and at least one. |
| Validations.ComplianceAcceptsIff | src/lib/validations.ts:12-22 | Accepted exactly when the trimmed text has 10 to 50000 characters and the trimmed standard at most 100. |
| Validations.ComplianceOutput | src/lib/validations.ts:12-22 | The output holds the trimmed strings. |
| Validations.ComplianceRevalidates | src/lib/validations.ts:12-22 | Parsing the output again succeeds and returns it unchanged. |
| Validations.GenerateFieldsMeaning | src/lib/validations.ts:26-29 | The three optional generate fields parse exactly like their rules. |
| Validations.ValidateGenerate | src/lib/validations.ts:24-34 | A failed parse reports the failing fields' messages in order, and at least one. |
| Validations.GenerateAcceptsIff | src/lib/validations.ts:24-34 | Accepted exactly when all hold: the untrimmed type is non-empty; the trimmed custom type is at most 100; the trimmed title is 1 to 200; code is at most 50 and standard at most 100; the trimmed content is 10 to 50000. |
| Validations.GenerateOutput | src/lib/validations.ts:24-34 | The output holds the trimmed strings, and the type untrimmed. |
| Validations.GenerateRevalidates | src/lib/validations.ts:24-34 | Parsing the output again succeeds and returns it unchanged. |
| Validations.BlankTypeAndCategoryPass | src/lib/validations.ts:9 | A whitespace-only type or category passes untrimmed, where a whitespace-only title fails. |
| Validations.BlankOptionalIsEmpty | src/lib/validations.ts:5-8 | Every optional field accepts `""` and whitespace-only text, and outputs `""`. |
| Toasts.ErrorToast | src/pages/Generate.tsx:71-75 | The error toast is destructive and carries the given description. |
| Toasts.Shown | src/pages/Generate.tsx:108 | A caught `Error` shows its message, even an empty one. Anything else shows the fallback. |
| GeneratePage.ValidationInput | src/pages/Generate.tsx:60-67 | The custom type reaches the validator only when `custom` is selected, and `""` otherwise. The other fields are passed as they are. |
| GeneratePage.GenerateForm.constructor | src/pages/Generate.tsx:15-24 | Every field starts empty except the standard, `ISO 9001:2015`. The spinner is off and no toast has been shown. |
| GeneratePage.RequestBody | src/pages/Generate.tsx:83-92 | The type sent is the validated custom type for `custom`, and the validated type otherwise. The content is the validated content. The metadata is exactly `{title, code, standard}` from the validated data. |
| GeneratePage.GenerateForm.StartGenerate | src/pages/Generate.tsx:58-81 | A refused input shows its first message and sends nothing. Otherwise the result is cleared, the spinner starts and the request body is built from the validated data. The form fields are unchanged. |
| GeneratePage.GenerateForm.FinishGenerate | src/pages/Generate.tsx:95-113 | The document becomes the result with the success toast, or the error is shown. The spinner stops either way. |
| GeneratePage.ServerRejectsOnlyBlankCustomType | src/pages/Generate.tsx:60-92 | Once the form validates, the handler answers 400 exactly when `custom` is selected with a blank custom type. |
| GeneratePage.SentType | src/pages/Generate.tsx:85 | Once the form validates, the type sent is the selected one, or the trimmed custom text when `custom` is selected. |
| GeneratePage.ListedTypesSelection | src/pages/Generate.tsx:26-40 | Of the thirteen listed types, `custom` is the last. Once the form validates, the type sent for procedure, process or minutes selects its own prompts. The type sent for any of the other nine selects `procedure`. |
| GeneratePage.CustomTypeSelection | src/pages/Generate.tsx:85 | With `custom` selected and the form valid, the trimmed custom text is sent. It selects its own prompts when it is `minutes`, `procedure` or `process`, and the `procedure` ones otherwise. A blank text is refused with 400 before the lookup (`ServerRejectsOnlyBlankCustomType`). |
| GeneratePage.StandardNeverReachesPrompt | src/pages/Generate.tsx:87-91 | The `standard` sent in the metadata never changes the prompt. |
| DocumentGenerator.KindKey | src/components/DocumentGenerator.tsx:11 | Each of the three types is a registry key that selects its own entry. |
| DocumentGenerator.KindLabel | src/components/DocumentGenerator.tsx:36-40 | `documentTypeLabels`, used in the success toast that `GeneratorForm.FinishGenerate` states. It has no contract of its own. |
| DocumentGenerator.GeneratorForm.constructor | src/components/DocumentGenerator.tsx:15-34 | The type starts as `procedure`. The content, the result and every metadata field are empty. The spinner is off and no toast has been shown. |
| DocumentGenerator.GeneratorForm.Metadata | src/components/DocumentGenerator.tsx:68-82 | The keys sent are exactly the holes of the selected type's template. Each carries the field entered for it. |
| DocumentGenerator.GeneratorForm.StartGenerate | src/components/DocumentGenerator.tsx:54-96 | Blank content is refused with a toast and nothing is sent. Otherwise the spinner starts, the result is cleared, and the request carries the type, the raw content, and metadata keyed by exactly that type's holes, each holding the field entered for it. |
| DocumentGenerator.GeneratorForm.FinishGenerate | src/components/DocumentGenerator.tsx:100-120 | An ok response becomes the result with the success toast. A non-ok response shows `data.error`, or the fallback when that is absent or empty. A thrown error shows its message. The spinner stops whatever happened. |
| DocumentGenerator.GeneratorForm.ResetForm | src/components/DocumentGenerator.tsx:123-134 | Content, result and all eight metadata fields become empty. The type, the spinner and the toasts are kept. |
| DocumentGenerator.GeneratorForm.ChangeType | src/components/DocumentGenerator.tsx:163-166 | Selecting a type sets it and resets the form. |
| DocumentGenerator.SentRequestUsesOwnTemplate | src/components/DocumentGenerator.tsx:68-96 | A request the component sends passes the handler's gate. It is served with its own type's prompts, never the `procedure` fallback, filled from the metadata sent. |
| DocumentUpload.ExtensionIsTail | src/components/DocumentUpload.tsx:82 | The extension is the dot-free tail of the name. It is the whole name exactly when there is no dot, and otherwise follows the last dot. |
| DocumentUpload.NoDotKeepsName | src/components/DocumentUpload.tsx:82-83 | A name without a dot is its own extension and its own base name. |
| DocumentUpload.BaseNameCutsFirstOccurrence | src/components/DocumentUpload.tsx:83 | With a dot in the name, the base name cuts out the first occurrence of `.ext`, which may lie inside an earlier segment. |
| DocumentUpload.BaseNameOfPlainName | src/components/DocumentUpload.tsx:83 | When `.ext` occurs only at the end, the base name is everything before it. |
| DocumentUpload.BaseNameCutsEarlierSegment | src/components/DocumentUpload.tsx:83 | `x.bc.b` has extension `b` and base name `xc.b`. |
| DocumentUpload.FileExtension | src/components/DocumentUpload.tsx:82 | `file.name.split('.').pop()`. It has no contract of its own: `ExtensionIsTail` states it. |
| DocumentUpload.BaseName | src/components/DocumentUpload.tsx:83 | The name with its first occurrence of `.` plus the extension removed. It has no contract of its own: `BaseNameCutsFirstOccurrence`, `BaseNameOfPlainName` and `NoDotKeepsName` state it. |
| DocumentUpload.StoredName | src/components/DocumentUpload.tsx:84 | `<base>-<timestamp>.<ext>`. It has no contract of its own: `StoredNameKeepsExtension` states it. |
| DocumentUpload.StoragePath | src/components/DocumentUpload.tsx:85 | `<user>/<stored name>`. It has no contract of its own: `StoragePathLayout` states it. |
| DocumentUpload.StoragePathLayout | src/components/DocumentUpload.tsx:84-85 | The storage path is the user's folder followed by the stored name, and keeps the file's original extension. |
| DocumentUpload.StoredFile | src/components/DocumentUpload.tsx:76-95 | The stored path, name and size when a file was uploaded, and nothing otherwise. It has no contract of its own: `NewRow` states the columns it fills. |
| DocumentUpload.LastPieceAfterDot | src/components/DocumentUpload.tsx:84 | Appending a dot and a dot-free text makes that text the extension. |
| DocumentUpload.StoredNameKeepsExtension | src/components/DocumentUpload.tsx:84 | `<base>-<timestamp>.<ext>` has the original extension. |
| DocumentUpload.NullIfEmpty | src/components/DocumentUpload.tsx:103 | `v \|\| null` is null exactly for the empty string, and `v` otherwise. |
| DocumentUpload.NewRow | src/components/DocumentUpload.tsx:99-113 | In the record, an empty code, description or author becomes null, and an empty version becomes `1.0`. The status and user are the ones given. The three file columns hold the stored path, name and size, or are null together when no file was stored. |
| DocumentUpload.UploadDialog.constructor | src/components/DocumentUpload.tsx:23-33 | The form starts at its defaults: status `draft`, version `1.0`, no file, every other field empty. The dialog is closed, the spinner is off and no toast has been shown. |
| DocumentUpload.UploadDialog.ResetForm | src/components/DocumentUpload.tsx:35-44 | The form returns to its defaults: status `draft`, version `1.0`, no file, every other field empty. |
| DocumentUpload.UploadDialog.Submit | src/components/DocumentUpload.tsx:76-136 | A file is uploaded to `<user>/<base>-<timestamp>.<ext>` exactly when one is attached. An upload error prevents the insert. The record inserted is `NewRow` over the stored file. Only full success resets the form and closes the dialog; otherwise the form and the dialog are unchanged. The spinner stops. |
| DocumentUpload.UploadDialog.HandleUpload | src/components/DocumentUpload.tsx:46-137 | A refused form shows its first message, and a missing user the sign-in message, before any storage or database effect, with the form and the dialog unchanged. With a valid form and a signed-in user: the file is uploaded to `<user>/<base>-<timestamp>.<ext>` exactly when one is attached; the insert happens exactly when there is no file or its upload succeeded; the record is `NewRow` over the validated form, the status, the user and the stored file; an upload or insert error is shown; full success shows the success toast, resets the form and closes the dialog, and anything less leaves the form and the dialog as they were. The spinner stops. |

## Left out

- Prompt wording is kept as string constants. Properties are about the holes, the defaults and where the caller's text goes. The output of the language model is not modelled.
- The network is not modelled. The AI gateway `fetch`, `supabase.functions.invoke`, the storage upload and the table insert are parameters: the reply (`Upstream`, `Invocation`, `Reply`) or the error (`Fault`) they settle to.
- `Date.now()`, `file.size` and the signed-in user are parameters.
- The registry is looked up by exact match over its three keys. A plain JavaScript object would also answer prototype keys such as `toString`.
- Lengths are counted in characters, not in UTF-16 code units.
- Zod is not modelled beyond string inputs and the `message` of each issue. Other issue fields and non-string values are not.
- JSON fields of other types are not modelled. Request and reply fields are strings or absent, so a numeric `metadata` value or a reply with no `document` is not.
- The `'Unknown error'` fallback in the handlers' `catch` is not modelled. Every value thrown there is an `Error`, so its message is what the handler returns.
- React rendering is not modelled: labels, descriptions, placeholders, the copy-to-clipboard button, the `onUploadSuccess` callback and the dialog's own open/close control.
- The two `generateDocument` functions are each split at their `await` into a start method and a finish method. `HandleUpload` is one method that takes the outcomes of its awaited calls (user, storage and insert) as parameters. Interleaving with another click while a request is pending is not modelled.
- Console logging is not modelled.
- GenerateDocument lemmas are stated for any well-formed prompt registry. `GenerateDocument.RegistryWellFormed` shows that the shipped registry is one.
- Validations.ValidateUpload: the contract states the failure side only; acceptance and output are stated by `UploadAcceptsIff` and `UploadOutput`. The same holds for `ValidateCompliance` and `ValidateGenerate`.
