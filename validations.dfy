/**
 * The three form schemas. Each field is a string rule: optionally trim,
 * then check a minimum and a maximum length, in that order, each with its
 * own message. An optional field is the rule `.optional().or(z.literal(''))`.
 * A schema checks every field in declaration order and fails with the
 * messages of the failing fields, in that order; its output holds the
 * trimmed strings.
 */
module Validations {
  import opened Wrappers
  import opened JsText

  /** One `z.string()` chain: `.trim()` or not, `.min(n, msg)`, and maybe `.max(n, msg)`. */
  datatype Rule = Rule(trim: bool, min: nat, minMessage: string, max: Option<nat>, maxMessage: string)

  /** The string the length checks see and the parse outputs. */
  function Normal(rule: Rule, s: string): string {
    if rule.trim then Trim(s) else s
  }

  /** Parsing a string against a rule: the normalised string, or the first failed check's message. */
  function Check(rule: Rule, s: string): Result<string, string>
  {
    var v := Normal(rule, s);
    if |v| < rule.min then Failure(rule.minMessage)
    else if rule.max.Some? && |v| > rule.max.value then Failure(rule.maxMessage)
    else Success(v)
  }

  /**
   * A rule accepts exactly the strings whose normalised length is within
   * its bounds, outputs the normalised string, and otherwise reports the
   * minimum's message when that check fails and the maximum's when only it does.
   */
  lemma CheckMeaning(rule: Rule, s: string)
    ensures Check(rule, s).Success? <==>
              rule.min <= |Normal(rule, s)| && (rule.max.Some? ==> |Normal(rule, s)| <= rule.max.value)
    ensures Check(rule, s).Success? ==> Check(rule, s).value == Normal(rule, s)
    ensures Check(rule, s).Failure? ==>
              Check(rule, s).error == (if |Normal(rule, s)| < rule.min then rule.minMessage else rule.maxMessage)
  {
  }

  /**
   * `rule.optional().or(z.literal(''))` on a string: the first option that
   * parses cleanly wins; when neither does, the issues of the rule (which
   * failed without aborting) are reported, not those of the literal.
   */
  function OrEmpty(rule: Rule, s: string): Result<string, string> {
    var inner := Check(rule, s);
    if inner.Success? then inner
    else if s == "" then Success("")
    else inner
  }

  /** With no minimum, the `''` alternative adds nothing: the rule alone already accepts it. */
  lemma OrEmptyIsRule(rule: Rule, s: string)
    requires rule.min == 0
    ensures OrEmpty(rule, s) == Check(rule, s)
  {
    if s == "" {
      assert Normal(rule, s) == "";
    }
  }

  /** A trimming rule accepts its own output and returns it unchanged. */
  lemma CheckIdempotent(rule: Rule, s: string)
    requires rule.trim && Check(rule, s).Success?
    ensures Check(rule, Check(rule, s).value) == Check(rule, s)
  {
    TrimIdempotent(s);
  }

  /** The messages of the failing fields, in field order. */
  function Issues(results: seq<Result<string, string>>): (issues: seq<string>)
    ensures |issues| <= |results|
  {
    if results == [] then []
    else (if results[0].Failure? then [results[0].error] else []) + Issues(results[1..])
  }

  /** There are no messages exactly when every field parses. */
  lemma {:induction false} IssuesEmptyIff(results: seq<Result<string, string>>)
    ensures Issues(results) == [] <==> forall i :: 0 <= i < |results| ==> results[i].Success?
  {
    if results != [] {
      IssuesEmptyIff(results[1..]);
      assert forall i :: 1 <= i < |results| ==> results[i] == results[1..][i - 1];
    }
  }

  /** The message a caller shows, `errors[0]`, is that of the first failing field. */
  lemma {:induction false} FirstIssueIsFirstFailure(results: seq<Result<string, string>>, i: nat)
    requires i < |results| && results[i].Failure?
    requires forall j :: 0 <= j < i ==> results[j].Success?
    ensures Issues(results) != [] && Issues(results)[0] == results[i].error
  {
    if i > 0 {
      FirstIssueIsFirstFailure(results[1..], i - 1);
    }
  }

  // documentUploadSchema

  const UploadTitle := Rule(true, 1, "Il titolo è obbligatorio", Some(200), "Il titolo deve essere meno di 200 caratteri")
  const UploadCode := Rule(true, 0, "", Some(50), "Il codice deve essere meno di 50 caratteri")
  const UploadDescription :=
    Rule(true, 0, "", Some(2000), "La descrizione deve essere meno di 2000 caratteri")
  const UploadAuthor := Rule(true, 0, "", Some(100), "L'autore deve essere meno di 100 caratteri")
  const UploadVersion := Rule(true, 0, "", Some(20), "La versione deve essere meno di 20 caratteri")
  const UploadCategory := Rule(false, 1, "La categoria è obbligatoria", None, "")

  datatype UploadFields = UploadFields(
    title: string, code: string, description: string, author: string, version: string, category: string)

  function UploadResults(f: UploadFields): seq<Result<string, string>> {
    [Check(UploadTitle, f.title), OrEmpty(UploadCode, f.code), OrEmpty(UploadDescription, f.description),
     OrEmpty(UploadAuthor, f.author), OrEmpty(UploadVersion, f.version), Check(UploadCategory, f.category)]
  }

  /** The optional fields reduced to their rule. */
  lemma UploadFieldsMeaning(f: UploadFields)
    ensures UploadResults(f) == [Check(UploadTitle, f.title), Check(UploadCode, f.code),
                                 Check(UploadDescription, f.description), Check(UploadAuthor, f.author),
                                 Check(UploadVersion, f.version), Check(UploadCategory, f.category)]
  {
    OrEmptyIsRule(UploadCode, f.code);
    OrEmptyIsRule(UploadDescription, f.description);
    OrEmptyIsRule(UploadAuthor, f.author);
    OrEmptyIsRule(UploadVersion, f.version);
  }

  /** `documentUploadSchema.safeParse`: the parsed fields, or the messages of the failing fields in order. */
  function ValidateUpload(f: UploadFields): (r: Result<UploadFields, seq<string>>)
    ensures r.Failure? ==> r.error == Issues(UploadResults(f)) && r.error != []
  {
    var rs := UploadResults(f);
    if !(rs[0].Success? && rs[1].Success? && rs[2].Success? && rs[3].Success? && rs[4].Success? && rs[5].Success?) then
      IssuesEmptyIff(rs);
      Failure(Issues(rs))
    else
      Success(UploadFields(rs[0].value, rs[1].value, rs[2].value, rs[3].value, rs[4].value, rs[5].value))
  }

  /**
   * Accepted exactly when the trimmed title has 1 to 200 characters, the
   * trimmed code, description, author and version are within 50, 2000, 100
   * and 20, and the untrimmed category is not empty. The bounds are
   * inclusive, whatever the wording of the messages.
   */
  lemma UploadAcceptsIff(f: UploadFields)
    ensures ValidateUpload(f).Success? <==>
              1 <= |Trim(f.title)| <= 200 && |Trim(f.code)| <= 50 && |Trim(f.description)| <= 2000
              && |Trim(f.author)| <= 100 && |Trim(f.version)| <= 20 && 1 <= |f.category|
  {
    UploadFieldsMeaning(f);
    CheckMeaning(UploadTitle, f.title);
    CheckMeaning(UploadCode, f.code);
    CheckMeaning(UploadDescription, f.description);
    CheckMeaning(UploadAuthor, f.author);
    CheckMeaning(UploadVersion, f.version);
    CheckMeaning(UploadCategory, f.category);
  }

  /** The output holds the trimmed strings (the untrimmed ones for fields without `.trim()`). */
  lemma UploadOutput(f: UploadFields)
    requires ValidateUpload(f).Success?
    ensures ValidateUpload(f).value == UploadFields(Trim(f.title), Trim(f.code), Trim(f.description), Trim(f.author),
              Trim(f.version), f.category)
  {
    UploadFieldsMeaning(f);
    var rs := UploadResults(f);
    assert rs[0].Success? && rs[1].Success? && rs[2].Success? && rs[3].Success? && rs[4].Success? && rs[5].Success?;
  }

  /** The output of a successful parse parses again to itself. */
  lemma UploadRevalidates(f: UploadFields)
    requires ValidateUpload(f).Success?
    ensures ValidateUpload(ValidateUpload(f).value) == ValidateUpload(f)
  {
    var g := ValidateUpload(f).value;
    UploadOutput(f);
    UploadAcceptsIff(f);
    TrimIdempotent(f.title);
    TrimIdempotent(f.code);
    TrimIdempotent(f.description);
    TrimIdempotent(f.author);
    TrimIdempotent(f.version);
    UploadAcceptsIff(g);
    UploadOutput(g);
  }

  // analyzeComplianceSchema

  const ComplianceText := Rule(true, 10, "Il testo del documento deve contenere almeno 10 caratteri", Some(50000),
                               "Il testo del documento deve essere meno di 50000 caratteri")
  const ComplianceStandard := Rule(true, 0, "", Some(100), "Lo standard deve essere meno di 100 caratteri")

  datatype ComplianceFields = ComplianceFields(documentText: string, standard: string)

  function ComplianceResults(f: ComplianceFields): seq<Result<string, string>> {
    [Check(ComplianceText, f.documentText), OrEmpty(ComplianceStandard, f.standard)]
  }

  /** `analyzeComplianceSchema.safeParse`: the parsed fields, or the messages of the failing fields in order. */
  function ValidateCompliance(f: ComplianceFields): (r: Result<ComplianceFields, seq<string>>)
    ensures r.Failure? ==> r.error == Issues(ComplianceResults(f)) && r.error != []
  {
    var rs := ComplianceResults(f);
    if !(rs[0].Success? && rs[1].Success?) then
      IssuesEmptyIff(rs);
      Failure(Issues(rs))
    else Success(ComplianceFields(rs[0].value, rs[1].value))
  }

  /**
   * Accepted exactly when the trimmed text has 10 to 50000 characters and
   * the trimmed standard at most 100.
   */
  lemma ComplianceAcceptsIff(f: ComplianceFields)
    ensures ValidateCompliance(f).Success? <==> 10 <= |Trim(f.documentText)| <= 50000 && |Trim(f.standard)| <= 100
  {
    CheckMeaning(ComplianceText, f.documentText);
    CheckMeaning(ComplianceStandard, f.standard);
    OrEmptyIsRule(ComplianceStandard, f.standard);
  }

  /** The output holds the trimmed strings (the untrimmed ones for fields without `.trim()`). */
  lemma ComplianceOutput(f: ComplianceFields)
    requires ValidateCompliance(f).Success?
    ensures ValidateCompliance(f).value == ComplianceFields(Trim(f.documentText), Trim(f.standard))
  {
    CheckMeaning(ComplianceText, f.documentText);
    CheckMeaning(ComplianceStandard, f.standard);
    OrEmptyIsRule(ComplianceStandard, f.standard);
    var rs := ComplianceResults(f);
    assert rs[0].Success? && rs[1].Success?;
  }

  /** The output of a successful parse parses again to itself. */
  lemma ComplianceRevalidates(f: ComplianceFields)
    requires ValidateCompliance(f).Success?
    ensures ValidateCompliance(ValidateCompliance(f).value) == ValidateCompliance(f)
  {
    ComplianceOutput(f);
    TrimIdempotent(f.documentText);
    TrimIdempotent(f.standard);
  }

  // generateDocumentSchema

  const GenerateType := Rule(false, 1, "Il tipo di documento è obbligatorio", None, "")
  const GenerateCustomType :=
    Rule(true, 0, "", Some(100), "Il tipo personalizzato deve essere meno di 100 caratteri")
  const GenerateTitle := Rule(true, 1, "Il titolo è obbligatorio", Some(200), "Il titolo deve essere meno di 200 caratteri")
  const GenerateCode := Rule(true, 0, "", Some(50), "Il codice deve essere meno di 50 caratteri")
  const GenerateStandard := Rule(true, 0, "", Some(100), "Lo standard deve essere meno di 100 caratteri")
  const GenerateContent := Rule(true, 10, "Il contenuto deve contenere almeno 10 caratteri", Some(50000),
                                "Il contenuto deve essere meno di 50000 caratteri")

  datatype GenerateFields = GenerateFields(
    documentType: string, customType: string, title: string, code: string, standard: string, content: string)

  function GenerateResults(f: GenerateFields): seq<Result<string, string>> {
    [Check(GenerateType, f.documentType), OrEmpty(GenerateCustomType, f.customType), Check(GenerateTitle, f.title),
     OrEmpty(GenerateCode, f.code), OrEmpty(GenerateStandard, f.standard), Check(GenerateContent, f.content)]
  }

  /** The optional fields reduced to their rule. */
  lemma GenerateFieldsMeaning(f: GenerateFields)
    ensures GenerateResults(f) == [Check(GenerateType, f.documentType), Check(GenerateCustomType, f.customType),
                                   Check(GenerateTitle, f.title), Check(GenerateCode, f.code),
                                   Check(GenerateStandard, f.standard), Check(GenerateContent, f.content)]
  {
    OrEmptyIsRule(GenerateCustomType, f.customType);
    OrEmptyIsRule(GenerateCode, f.code);
    OrEmptyIsRule(GenerateStandard, f.standard);
  }

  /** `generateDocumentSchema.safeParse`: the parsed fields, or the messages of the failing fields in order. */
  function ValidateGenerate(f: GenerateFields): (r: Result<GenerateFields, seq<string>>)
    ensures r.Failure? ==> r.error == Issues(GenerateResults(f)) && r.error != []
  {
    var rs := GenerateResults(f);
    if !(rs[0].Success? && rs[1].Success? && rs[2].Success? && rs[3].Success? && rs[4].Success? && rs[5].Success?) then
      IssuesEmptyIff(rs);
      Failure(Issues(rs))
    else
      Success(GenerateFields(rs[0].value, rs[1].value, rs[2].value, rs[3].value, rs[4].value, rs[5].value))
  }

  /**
   * Accepted exactly when the untrimmed type is not empty, the trimmed
   * custom type has at most 100 characters, the trimmed title 1 to 200, the
   * trimmed code at most 50, the trimmed standard at most 100 and the
   * trimmed content 10 to 50000.
   */
  lemma GenerateAcceptsIff(f: GenerateFields)
    ensures ValidateGenerate(f).Success? <==>
              1 <= |f.documentType| && |Trim(f.customType)| <= 100 && 1 <= |Trim(f.title)| <= 200
              && |Trim(f.code)| <= 50 && |Trim(f.standard)| <= 100 && 10 <= |Trim(f.content)| <= 50000
  {
    GenerateFieldsMeaning(f);
    CheckMeaning(GenerateType, f.documentType);
    CheckMeaning(GenerateCustomType, f.customType);
    CheckMeaning(GenerateTitle, f.title);
    CheckMeaning(GenerateCode, f.code);
    CheckMeaning(GenerateStandard, f.standard);
    CheckMeaning(GenerateContent, f.content);
  }

  /** The output holds the trimmed strings (the untrimmed ones for fields without `.trim()`). */
  lemma GenerateOutput(f: GenerateFields)
    requires ValidateGenerate(f).Success?
    ensures ValidateGenerate(f).value == GenerateFields(f.documentType, Trim(f.customType), Trim(f.title), Trim(f.code),
                Trim(f.standard), Trim(f.content))
  {
    GenerateFieldsMeaning(f);
    var rs := GenerateResults(f);
    assert rs[0].Success? && rs[1].Success? && rs[2].Success? && rs[3].Success? && rs[4].Success? && rs[5].Success?;
  }

  /** The output of a successful parse parses again to itself. */
  lemma GenerateRevalidates(f: GenerateFields)
    requires ValidateGenerate(f).Success?
    ensures ValidateGenerate(ValidateGenerate(f).value) == ValidateGenerate(f)
  {
    var g := ValidateGenerate(f).value;
    GenerateOutput(f);
    GenerateAcceptsIff(f);
    TrimIdempotent(f.customType);
    TrimIdempotent(f.title);
    TrimIdempotent(f.code);
    TrimIdempotent(f.standard);
    TrimIdempotent(f.content);
    GenerateAcceptsIff(g);
    GenerateOutput(g);
  }

  /**
   * The required type and category are not trimmed: a blank-only value
   * passes its rule and is output as it is.
   */
  lemma BlankTypeAndCategoryPass(s: string)
    requires s != "" && AllSpace(s)
    ensures Check(GenerateType, s) == Success(s) && Check(UploadCategory, s) == Success(s)
    ensures Check(GenerateTitle, s).Failure? && Check(UploadTitle, s).Failure?
  {
    TrimEmptyIff(s);
  }

  /**
   * Optional fields accept the empty string and blank-only text, both
   * parsed to the empty string.
   */
  lemma BlankOptionalIsEmpty(rule: Rule, s: string)
    requires rule in {UploadCode, UploadDescription, UploadAuthor, UploadVersion, ComplianceStandard,
                      GenerateCustomType, GenerateCode, GenerateStandard}
    requires AllSpace(s)
    ensures OrEmpty(rule, s) == Success("")
  {
    TrimEmptyIff(s);
    OrEmptyIsRule(rule, s);
  }
}
