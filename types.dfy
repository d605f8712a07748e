/**
 * The records the application stores and exchanges (sessions, participants,
 * transcripts, context sets and their children), the form data a context set
 * is edited as, the engine's `Context` object, and the constant language
 * tables offered by the user interface.
 *
 * Timestamps are integers (milliseconds); `null` and optional fields are
 * `Option`.
 */
module Types {
  import opened Common

  datatype TranslationMode = OneWay | TwoWay
  datatype SessionStatus = Active | Ended

  /** A session row. `scheduled_start_time` and `creator_user_id` are columns
      the dashboard reads although the declared interface omits them. */
  datatype Session = Session(
    id: string,
    code: string,
    host_name: string,
    mode: TranslationMode,
    target_language: Option<string>,
    language_a: Option<string>,
    language_b: Option<string>,
    status: SessionStatus,
    created_at: int,
    ended_at: Option<int>,
    scheduled_start_time: Option<int>,
    creator_user_id: Option<string>)

  datatype Participant = Participant(
    id: string,
    session_id: string,
    name: string,
    preferred_language: Option<string>,
    is_host: bool,
    joined_at: int,
    left_at: Option<int>)

  datatype Transcript = Transcript(
    id: string,
    session_id: string,
    participant_id: Option<string>,
    participant_name: string,
    original_text: string,
    translated_text: Option<string>,
    source_language: Option<string>,
    target_language: Option<string>,
    is_final: bool,
    sequence_number: int,
    created_at: int)

  // ---------------------------------------------------------------------
  // Context sets
  // ---------------------------------------------------------------------

  datatype ContextSetTerm = ContextSetTerm(id: string, context_set_id: string, term: string, sort_order: int)
  datatype ContextSetGeneral = ContextSetGeneral(id: string, context_set_id: string, key: string, value: string)
  datatype ContextSetTranslationTerm = ContextSetTranslationTerm(
    id: string, context_set_id: string, source: string, target: string, sort_order: int)

  /** A context set with its child rows, as the list and detail endpoints
      return it. Creation and update times are not modelled. */
  datatype ContextSetWithDetails = ContextSetWithDetails(
    id: string,
    user_id: Option<string>,
    name: string,
    description: Option<string>,
    text: Option<string>,
    is_public: bool,
    terms: seq<ContextSetTerm>,
    general: seq<ContextSetGeneral>,
    translation_terms: seq<ContextSetTranslationTerm>,
    term_count: Option<int>,
    general_count: Option<int>,
    translation_term_count: Option<int>)

  datatype KeyValue = KeyValue(key: string, value: string)
  datatype SourceTarget = SourceTarget(source: string, target: string)

  /** The editable shape of a context set: the three lists are mandatory. */
  datatype ContextSetFormData = ContextSetFormData(
    name: string,
    description: Option<string>,
    text: Option<string>,
    is_public: bool,
    terms: seq<string>,
    general: seq<KeyValue>,
    translation_terms: seq<SourceTarget>)

  /** The engine's context object: every field is optional. */
  datatype Context = Context(
    terms: Option<seq<string>>,
    general: Option<seq<KeyValue>>,
    text: Option<string>,
    translation_terms: Option<seq<SourceTarget>>)

  const EmptyContext := Context(None, None, None, None)

  // ---------------------------------------------------------------------
  // Language tables
  // ---------------------------------------------------------------------

  datatype Language = Language(code: string, name: string, nativeName: string)
  datatype OneWayPair = OneWayPair(caption: string, target: string)
  datatype TwoWayPair = TwoWayPair(caption: string, a: string, b: string)

  const SupportedLanguages: seq<Language> := [
    Language("en", "English", "English"),
    Language("vi", "Vietnamese", "Ti\U{1EBF}ng Vi\U{1EC7}t"),
    Language("ja", "Japanese", "\U{65E5}\U{672C}\U{8A9E}")
  ]

  const OneWayPairs: seq<OneWayPair> := [
    OneWayPair("To English", "en"),
    OneWayPair("To Vietnamese", "vi"),
    OneWayPair("To Japanese", "ja")
  ]

  const TwoWayPairs: seq<TwoWayPair> := [
    TwoWayPair("English \U{2194} Vietnamese", "en", "vi"),
    TwoWayPair("Japanese \U{2194} Vietnamese", "ja", "vi"),
    TwoWayPair("Japanese \U{2194} English", "ja", "en")
  ]

  predicate IsSupported(code: string) {
    exists i :: 0 <= i < |SupportedLanguages| && SupportedLanguages[i].code == code
  }

  /** Every two-way pair joins two different languages, and every code the
      pair tables use is a supported language. */
  lemma {:induction false} LanguageTablesConsistent()
    ensures forall i :: 0 <= i < |TwoWayPairs| ==> TwoWayPairs[i].a != TwoWayPairs[i].b
    ensures forall i :: 0 <= i < |TwoWayPairs| ==> IsSupported(TwoWayPairs[i].a) && IsSupported(TwoWayPairs[i].b)
    ensures forall i :: 0 <= i < |OneWayPairs| ==> IsSupported(OneWayPairs[i].target)
  {
    assert SupportedLanguages[0].code == "en";
    assert SupportedLanguages[1].code == "vi";
    assert SupportedLanguages[2].code == "ja";
  }
}
