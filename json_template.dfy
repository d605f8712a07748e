/**
 * The example document offered for import, the limits quoted beside it, and
 * the prompt that asks an assistant to produce such a document
 * (src/lib/context/json-template.ts).
 *
 * `JSON.stringify(value, null, 2)` is a parameter: the model only relies on
 * the text it returns being embedded unchanged.
 */
module JsonTemplate {
  import opened Common
  import opened Types
  import opened JsonValidator

  const TemplateName := "My Context Set"
  /** Long literals are written in pieces of a few words. */
  const TemplateDescription := "Brief description of what " + "this context set contains"
  const TemplateText := "Additional context text, " + "examples, or relevant " + "information goes here."
  /** "クラウド" and "サーバー". */
  const Cloud := "\U{30AF}\U{30E9}\U{30A6}\U{30C9}"
  const Server := "\U{30B5}\U{30FC}\U{30D0}\U{30FC}"

  /** The template object, its fields in the order it declares them. */
  const TemplateMembers: seq<Member> := [
    Member("name", JString(TemplateName)),
    Member("description", JString(TemplateDescription)),
    Member("is_public", JBool(false)),
    Member("terms", JArray([JString("term1"), JString("term2"), JString("term3")])),
    Member("general", JArray([
      JObject([Member("key", JString("domain")), Member("value", JString("Technology"))]),
      JObject([Member("key", JString("topic")), Member("value", JString("Cloud Computing"))])])),
    Member("translation_terms", JArray([
      JObject([Member("source", JString("cloud")), Member("target", JString(Cloud))]),
      JObject([Member("source", JString("server")), Member("target", JString(Server))])])),
    Member("text", JString(TemplateText))
  ]

  const Template := JObject(TemplateMembers)

  /** The same content as form data. */
  const TemplateData := ContextSetFormData(
    TemplateName, Some(TemplateDescription), Some(TemplateText), false,
    ["term1", "term2", "term3"],
    [KeyValue("domain", "Technology"), KeyValue("topic", "Cloud Computing")],
    [SourceTarget("cloud", Cloud), SourceTarget("server", Server)])

  /** `generateContextSetTemplate`. */
  function GenerateContextSetTemplate(stringify: Json -> string): string {
    stringify(Template)
  }

  /** Reading each field of the template gives the value written there. */
  lemma {:induction false} TemplateFields()
    ensures Get(TemplateMembers, "name") == Some(JString(TemplateName))
    ensures Get(TemplateMembers, "description") == Some(JString(TemplateDescription))
    ensures Get(TemplateMembers, "is_public") == Some(JBool(false))
    ensures Get(TemplateMembers, "terms") == Some(TemplateMembers[3].value)
    ensures Get(TemplateMembers, "general") == Some(TemplateMembers[4].value)
    ensures Get(TemplateMembers, "translation_terms") == Some(TemplateMembers[5].value)
    ensures Get(TemplateMembers, "text") == Some(JString(TemplateText))
  {
    var ms := TemplateMembers;
    forall i | 0 <= i < 7
      ensures forall j :: 0 <= j < |ms| && j != i ==> ms[j].key != ms[i].key
    {
    }
    GetUnique(ms, 0);
    GetUnique(ms, 1);
    GetUnique(ms, 2);
    GetUnique(ms, 3);
    GetUnique(ms, 4);
    GetUnique(ms, 5);
    GetUnique(ms, 6);
  }

  /** The template holds, field by field, the data it imports as. */
  lemma {:induction false} TemplateHoldsData()
    ensures HoldsForm(TemplateMembers, TemplateData)
    ensures FormWithinLimits(TemplateData)
  {
    TemplateFields();
    assert TemplateMembers[3].value == JArray(MapSeq(TemplateData.terms, StringJson));
    assert TemplateMembers[4].value == JArray(MapSeq(TemplateData.general, KeyValueJson));
    assert TemplateMembers[5].value == JArray(MapSeq(TemplateData.translation_terms, SourceTargetJson));
    assert !IsSpace(TemplateName[0]);
  }

  /** The template passes every check of the importer, draws no warning, and
      imports as the same content. */
  lemma {:induction false} TemplateAccepted()
    ensures Validate(Parsed(Template)) == ValidationResult(true, [], [], Some(TemplateData))
  {
    TemplateHoldsData();
    assert forall j :: 0 <= j < |TemplateMembers| ==> IsKnownField(TemplateMembers[j].key);
    HoldsFormAccepted(TemplateMembers, TemplateData);
  }

  // ---------------------------------------------------------------------
  // The annotated template
  // ---------------------------------------------------------------------

  /** The limits as the annotated template and the prompt spell them. */
  const QuotedNameLimit := "100"
  const QuotedDescriptionLimit := "500"
  const QuotedTermsLimit := "500"
  const QuotedTermLengthLimit := "200"
  const QuotedGeneralLimit := "100"
  const QuotedKeyLimit := "100"
  const QuotedValueLimit := "500"
  const QuotedTranslationsLimit := "500"
  const QuotedTextLimit := "10,000"

  /** The numbers quoted beside the template and in the prompt are the
      limits the importer enforces. */
  lemma {:induction false} QuotedLimitsAgree()
    ensures QuotedNameLimit == NatToString(MaxNameLength)
    ensures QuotedDescriptionLimit == NatToString(MaxDescriptionLength)
    ensures QuotedTermsLimit == NatToString(MaxTerms)
    ensures QuotedTermLengthLimit == NatToString(MaxTermLength)
    ensures QuotedGeneralLimit == NatToString(MaxGeneral)
    ensures QuotedKeyLimit == NatToString(MaxKeyLength)
    ensures QuotedValueLimit == NatToString(MaxValueLength)
    ensures QuotedTranslationsLimit == NatToString(MaxTranslations)
    ensures MaxTextLength % 1000 == 0 && QuotedTextLimit == NatToString(MaxTextLength / 1000) + ",000"
  {
    assert NatToString(1) == "1";
    assert NatToString(10) == "10";
    assert NatToString(100) == "100";
    assert NatToString(2) == "2";
    assert NatToString(20) == "20";
    assert NatToString(200) == "200";
    assert NatToString(5) == "5";
    assert NatToString(50) == "50";
    assert NatToString(500) == "500";
  }

  /** The lines of `generateAnnotatedTemplate`. */
  function AnnotatedLines(): seq<string> {
    [ "{",
      "  // REQUIRED: Name of the context set (max " + QuotedNameLimit + " characters)",
      @"  ""name"": ""My Context Set"",",
      "",
      "  // OPTIONAL: Brief description (max " + QuotedDescriptionLimit + " characters)",
      @"  ""description"": ""Brief description of what this context set contains"",",
      "",
      "  // REQUIRED: Whether this context set is publicly accessible",
      @"  ""is_public"": false,",
      "",
      "  // OPTIONAL: Array of domain-specific terms/keywords (max " + QuotedTermsLimit + " terms)",
      "  // Each term: max " + QuotedTermLengthLimit + " characters",
      @"  ""terms"": [",
      @"    ""term1"",",
      @"    ""term2"",",
      @"    ""term3""",
      "  ],",
      "",
      "  // OPTIONAL: Key-value metadata pairs (max " + QuotedGeneralLimit + " pairs)",
      "  // Each key: max " + QuotedKeyLimit + " characters, each value: max " + QuotedValueLimit + " characters",
      @"  ""general"": [",
      @"    { ""key"": ""domain"", ""value"": ""Technology"" },",
      @"    { ""key"": ""topic"", ""value"": ""Cloud Computing"" }",
      "  ],",
      "",
      "  // OPTIONAL: Translation term mappings (max " + QuotedTranslationsLimit + " pairs)",
      "  // Forces specific translations for certain terms",
      @"  ""translation_terms"": [",
      @"    { ""source"": ""cloud"", ""target"": """ + Cloud + @""" },",
      @"    { ""source"": ""server"", ""target"": """ + Server + @""" }",
      "  ],",
      "",
      "  // OPTIONAL: Long-form context text (max " + QuotedTextLimit + " characters)",
      @"  ""text"": ""Additional context text, examples, or relevant information goes here.""",
      "}" ]
  }

  /** `generateAnnotatedTemplate`. */
  function GenerateAnnotatedTemplate(): string {
    Join(AnnotatedLines(), "\n")
  }

  // ---------------------------------------------------------------------
  // The prompt
  // ---------------------------------------------------------------------

  /** The prompt's text before the example document, a line break ending
      each line. */
  function PromptHead(): string {
    "I need you to analyze a document/content and create a JSON configuration for a speech-to-text context set." + "\n" +
    "" + "\n" +
    "YOUR TASK:" + "\n" +
    "1. Read and analyze the content I provide (document, file, or text)" + "\n" +
    "2. Extract important terms, keywords, technical terminology, proper nouns, and domain-specific vocabulary" + "\n" +
    "3. Identify key metadata about the domain/topic" + "\n" +
    "4. If the content contains multiple languages, create translation mappings" + "\n" +
    "5. Generate a JSON that will help improve speech recognition accuracy for this domain" + "\n" +
    "" + "\n" +
    "JSON STRUCTURE REQUIREMENTS:" + "\n" +
    "" + "\n" +
    "REQUIRED FIELDS:" + "\n" +
    "- name: string (max " + QuotedNameLimit + " characters) - Create a descriptive name based on the content domain" + "\n" +
    "- is_public: boolean - Set to false by default" + "\n" +
    "" + "\n" +
    "OPTIONAL FIELDS (Extract from provided content):" + "\n" +
    "- description: string (max " + QuotedDescriptionLimit + " characters) - Summarize what domain/topic this covers" + "\n" +
    "- terms: string[] (max " + QuotedTermsLimit + " items, each max " + QuotedTermLengthLimit + " chars)" + "\n" +
    "  * Extract: technical terms, jargon, product names, company names, acronyms, specialized vocabulary" + "\n" +
    "  * Prioritize: words that might be misrecognized by generic speech-to-text" + "\n" +
    "- general: {key: string, value: string}[] (max " + QuotedGeneralLimit + " items)" + "\n" +
    "  * Add metadata like: domain, industry, topic, language, region, etc." + "\n" +
    "  * Each key: max " + QuotedKeyLimit + " characters, each value: max " + QuotedValueLimit + " characters" + "\n" +
    "- translation_terms: {source: string, target: string}[] (max " + QuotedTranslationsLimit + " items)" + "\n" +
    "  * Create mappings if content has terms in multiple languages" + "\n" +
    "  * Help ensure accurate translation of domain-specific terms" + "\n" +
    "- text: string (max " + QuotedTextLimit + " characters)" + "\n" +
    "  * Include relevant context, examples, or background information from the content" + "\n" +
    "" + "\n" +
    "EXAMPLE OUTPUT FORMAT:" + "\n"
  }

  /** The prompt's text after the example document. */
  function PromptTail(): string {
    "\n" +
    "" + "\n" +
    "INSTRUCTIONS:" + "\n" +
    "1. Paste your document content, upload a file, or describe your content below" + "\n" +
    "2. I will analyze it and extract relevant terms automatically" + "\n" +
    "3. I will generate valid JSON that you can copy directly into your application" + "\n" +
    "" + "\n" +
    "PASTE YOUR CONTENT BELOW:" + "\n" +
    "[Your document content, file content, or description of the domain here]"
  }

  /** A prompt: the instructions, the example document, the closing request. */
  function PromptAround(head: string, stringify: Json -> string, tail: string): string {
    head + GenerateContextSetTemplate(stringify) + tail
  }

  /** `generateChatGPTPrompt`. */
  function GenerateChatGptPrompt(stringify: Json -> string): string {
    PromptAround(PromptHead(), stringify, PromptTail())
  }

  /** The prompt embeds the clean template unchanged right after the
      instructions, and the example read back by a parser that undoes the
      serialiser is accepted by the importer as the template's content. */
  lemma {:induction false} PromptExampleImports(head: string, tail: string, stringify: Json -> string,
                                                parse: string -> ParseOutcome)
    requires parse(stringify(Template)) == Parsed(Template)
    ensures var p := PromptAround(head, stringify, tail);
      var t := GenerateContextSetTemplate(stringify);
      && |p| == |head| + |t| + |tail|
      && p[|head|..|head| + |t|] == t
      && Validate(parse(p[|head|..|head| + |t|])) == ValidationResult(true, [], [], Some(TemplateData))
  {
    var t := GenerateContextSetTemplate(stringify);
    assert (head + t + tail)[|head|..|head| + |t|] == t;
    TemplateAccepted();
  }
}
