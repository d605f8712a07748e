/**
 * Checking a JSON document before it is imported as a context set
 * (src/lib/context/json-validator.ts).
 *
 * `JSON.parse` is not modelled: the validator receives what it produced,
 * either a JSON value or the message of the exception it threw. A parsed
 * object is a list of members in document order; a property read returns
 * the value of the last member with that name, and the object's keys are
 * the distinct names in order of first appearance, as `JSON.parse` builds
 * them.
 *
 * Every check after the top-level type check runs whatever the earlier ones
 * found, so the result lists every problem. Each problem is recorded as an
 * `Issue` and reported as the message `Message` renders for it.
 */
module JsonValidator {
  import opened Common
  import opened Types

  datatype Json =
    | JNull
    | JBool(b: bool)
    | JNumber(n: int)
    | JString(s: string)
    | JArray(items: seq<Json>)
    | JObject(members: seq<Member>)

  datatype Member = Member(key: string, value: Json)

  /** What `JSON.parse` gave: a value, or the message of the error it threw. */
  datatype ParseOutcome = Parsed(value: Json) | SyntaxError(message: string)

  datatype ValidationResult = ValidationResult(
    isValid: bool,
    errors: seq<string>,
    warnings: seq<string>,
    data: Option<ContextSetFormData>)

  /** JavaScript's `typeof` on a parsed value: arrays and `null` are objects. */
  function TypeOf(j: Json): string {
    match j
    case JBool(_) => "boolean"
    case JNumber(_) => "number"
    case JString(_) => "string"
    case _ => "object"
  }

  /** `typeof j === 'object' && j !== null`, which holds for arrays too. */
  predicate IsObjectValue(j: Json) {
    TypeOf(j) == "object" && !j.JNull?
  }

  /** `obj[k]` on a parsed object: the last member named `k`, or undefined. */
  function Get(members: seq<Member>, k: string): Option<Json> {
    if members == [] then None
    else if members[|members| - 1].key == k then Some(members[|members| - 1].value)
    else Get(members[..|members| - 1], k)
  }

  /** `j.k` on any parsed value; only objects have the properties read here. */
  function Property(j: Json, k: string): Option<Json> {
    if j.JObject? then Get(j.members, k) else None
  }

  /** `Object.keys(obj)`: each member name once, where it first appears. */
  function ObjectKeys(members: seq<Member>): seq<string> {
    Dedup(MapSeq(members, (m: Member) => m.key))
  }

  // ---------------------------------------------------------------------
  // Limits and problems
  // ---------------------------------------------------------------------

  const MaxNameLength := 100
  const MaxDescriptionLength := 500
  const MaxTextLength := 10000
  const MaxTerms := 500
  const MaxTermLength := 200
  const MaxGeneral := 100
  const MaxKeyLength := 100
  const MaxValueLength := 500
  const MaxTranslations := 500

  const KnownFields: seq<string> :=
    ["name", "description", "text", "is_public", "terms", "general", "translation_terms"]

  predicate IsKnownField(k: string) {
    k in KnownFields
  }

  datatype Issue =
    | InvalidSyntax(message: string)
    | NotAnObject
    | NameRequired
    | NameEmpty
    | NameTooLong(length: nat)
    | IsPublicNotBoolean
    | DescriptionNotString
    | DescriptionTooLong(length: nat)
    | TextNotString
    | TextTooLong(length: nat)
    | TermsNotArray
    | TooManyTerms(count: nat)
    | TermNotString(index: nat, kind: string)
    | TermTooLong(index: nat, length: nat)
    | GeneralNotArray
    | TooManyGeneral(count: nat)
    | GeneralItemNotObject(index: nat)
    | GeneralKeyNotString(index: nat)
    | GeneralKeyTooLong(index: nat, length: nat)
    | GeneralValueNotString(index: nat)
    | GeneralValueTooLong(index: nat, length: nat)
    | TranslationsNotArray
    | TooManyTranslations(count: nat)
    | TranslationItemNotObject(index: nat)
    | TranslationSourceNotString(index: nat)
    | TranslationTargetNotString(index: nat)

  function Message(issue: Issue): string {
    match issue
    case InvalidSyntax(m) => "Invalid JSON syntax: " + m
    case NotAnObject => "JSON must be an object, not an array or primitive value"
    case NameRequired => "Field \"name\" is required and must be a string"
    case NameEmpty => "Field \"name\" cannot be empty"
    case NameTooLong(n) => "Field \"name\" exceeds max length (" + NatToString(n) + "/100 characters)"
    case IsPublicNotBoolean => "Field \"is_public\" is required and must be a boolean (true or false)"
    case DescriptionNotString => "Field \"description\" must be a string"
    case DescriptionTooLong(n) => "Field \"description\" exceeds max length (" + NatToString(n) + "/500 characters)"
    case TextNotString => "Field \"text\" must be a string"
    case TextTooLong(n) => "Field \"text\" exceeds max length (" + NatToString(n) + "/10,000 characters)"
    case TermsNotArray => "Field \"terms\" must be an array"
    case TooManyTerms(n) => "Field \"terms\" exceeds max count (" + NatToString(n) + "/500 items)"
    case TermNotString(i, kind) => "terms[" + NatToString(i) + "] must be a string, got " + kind
    case TermTooLong(i, n) => "terms[" + NatToString(i) + "] exceeds max length (" + NatToString(n) + "/200 characters)"
    case GeneralNotArray => "Field \"general\" must be an array"
    case TooManyGeneral(n) => "Field \"general\" exceeds max count (" + NatToString(n) + "/100 items)"
    case GeneralItemNotObject(i) => "general[" + NatToString(i) + "] must be an object"
    case GeneralKeyNotString(i) => "general[" + NatToString(i) + "].key must be a string"
    case GeneralKeyTooLong(i, n) =>
      "general[" + NatToString(i) + "].key exceeds max length (" + NatToString(n) + "/100 characters)"
    case GeneralValueNotString(i) => "general[" + NatToString(i) + "].value must be a string"
    case GeneralValueTooLong(i, n) =>
      "general[" + NatToString(i) + "].value exceeds max length (" + NatToString(n) + "/500 characters)"
    case TranslationsNotArray => "Field \"translation_terms\" must be an array"
    case TooManyTranslations(n) => "Field \"translation_terms\" exceeds max count (" + NatToString(n) + "/500 items)"
    case TranslationItemNotObject(i) => "translation_terms[" + NatToString(i) + "] must be an object"
    case TranslationSourceNotString(i) => "translation_terms[" + NatToString(i) + "].source must be a string"
    case TranslationTargetNotString(i) => "translation_terms[" + NatToString(i) + "].target must be a string"
  }

  function WarningMessage(key: string): string {
    "Unknown field \"" + key + "\" will be ignored"
  }

  // ---------------------------------------------------------------------
  // The checks, as lists of problems
  // ---------------------------------------------------------------------

  /** `!name || typeof name !== 'string'`, then the blank check, then the
      length of the untrimmed name. */
  function NameIssues(v: Option<Json>): seq<Issue> {
    match v
    case Some(JString(s)) =>
      if s == "" then [NameRequired]
      else if Trim(s) == "" then [NameEmpty]
      else if |s| > MaxNameLength then [NameTooLong(|s|)]
      else []
    case _ => [NameRequired]
  }

  function IsPublicIssues(v: Option<Json>): seq<Issue> {
    match v
    case Some(JBool(_)) => []
    case _ => [IsPublicNotBoolean]
  }

  /** An optional string field: absent is fine, `null` is not. */
  function DescriptionIssues(v: Option<Json>): seq<Issue> {
    match v
    case None => []
    case Some(JString(s)) => if |s| > MaxDescriptionLength then [DescriptionTooLong(|s|)] else []
    case Some(_) => [DescriptionNotString]
  }

  function TextIssues(v: Option<Json>): seq<Issue> {
    match v
    case None => []
    case Some(JString(s)) => if |s| > MaxTextLength then [TextTooLong(|s|)] else []
    case Some(_) => [TextNotString]
  }

  /** The problems of each item in turn, the item's index passed along. */
  function Indexed(items: seq<Json>, f: (nat, Json) -> seq<Issue>): seq<Issue>
    decreases |items|
  {
    if items == [] then []
    else Indexed(items[..|items| - 1], f) + f(|items| - 1, items[|items| - 1])
  }

  function TermItemIssues(i: nat, item: Json): seq<Issue> {
    match item
    case JString(t) => if |t| > MaxTermLength then [TermTooLong(i, |t|)] else []
    case _ => [TermNotString(i, TypeOf(item))]
  }

  function GeneralItemIssues(i: nat, item: Json): seq<Issue> {
    if !IsObjectValue(item) then [GeneralItemNotObject(i)]
    else
      (match Property(item, "key")
       case Some(JString(k)) => if |k| > MaxKeyLength then [GeneralKeyTooLong(i, |k|)] else []
       case _ => [GeneralKeyNotString(i)]) +
      (match Property(item, "value")
       case Some(JString(v)) => if |v| > MaxValueLength then [GeneralValueTooLong(i, |v|)] else []
       case _ => [GeneralValueNotString(i)])
  }

  function TranslationItemIssues(i: nat, item: Json): seq<Issue> {
    if !IsObjectValue(item) then [TranslationItemNotObject(i)]
    else
      (if IsString(Property(item, "source")) then [] else [TranslationSourceNotString(i)]) +
      (if IsString(Property(item, "target")) then [] else [TranslationTargetNotString(i)])
  }

  predicate IsString(v: Option<Json>) {
    v.Some? && v.value.JString?
  }

  /** The optional array fields: absent is fine; otherwise the count check,
      then every item. */
  function TermsIssues(v: Option<Json>): seq<Issue> {
    match v
    case None => []
    case Some(JArray(items)) =>
      (if |items| > MaxTerms then [TooManyTerms(|items|)] else []) + Indexed(items, TermItemIssues)
    case Some(_) => [TermsNotArray]
  }

  function GeneralIssues(v: Option<Json>): seq<Issue> {
    match v
    case None => []
    case Some(JArray(items)) =>
      (if |items| > MaxGeneral then [TooManyGeneral(|items|)] else []) + Indexed(items, GeneralItemIssues)
    case Some(_) => [GeneralNotArray]
  }

  function TranslationIssues(v: Option<Json>): seq<Issue> {
    match v
    case None => []
    case Some(JArray(items)) =>
      (if |items| > MaxTranslations then [TooManyTranslations(|items|)] else []) + Indexed(items, TranslationItemIssues)
    case Some(_) => [TranslationsNotArray]
  }

  /** Every problem of a parsed object, in the order the checks run. */
  function FieldIssues(members: seq<Member>): seq<Issue> {
    NameIssues(Get(members, "name")) + IsPublicIssues(Get(members, "is_public")) + DescriptionIssues(Get(members, "description")) + TextIssues(Get(members, "text")) +
    TermsIssues(Get(members, "terms")) + GeneralIssues(Get(members, "general")) + TranslationIssues(Get(members, "translation_terms"))
  }

  function IsUnknownField(k: string): bool {
    !IsKnownField(k)
  }

  function UnknownFields(members: seq<Member>): seq<string> {
    Filter(ObjectKeys(members), IsUnknownField)
  }

  // ---------------------------------------------------------------------
  // The normalised result
  // ---------------------------------------------------------------------

  /** The text of a value known to be a string ("" otherwise). */
  function StringOf(v: Option<Json>): string {
    if v.Some? && v.value.JString? then v.value.s else ""
  }

  function TrimmedOptional(v: Option<Json>): Option<string> {
    if v.Some? then Some(Trim(StringOf(v))) else None
  }

  function ItemsOf(v: Option<Json>): seq<Json> {
    if v.Some? && v.value.JArray? then v.value.items else []
  }

  function TermOf(item: Json): string {
    StringOf(Some(item))
  }

  function KeyValueOf(item: Json): KeyValue {
    KeyValue(StringOf(Property(item, "key")), StringOf(Property(item, "value")))
  }

  function SourceTargetOf(item: Json): SourceTarget {
    SourceTarget(StringOf(Property(item, "source")), StringOf(Property(item, "target")))
  }

  /** The data object built once no problem was found. */
  function Normalised(members: seq<Member>): ContextSetFormData {
    var isPublic := Get(members, "is_public");
    ContextSetFormData(
      Trim(StringOf(Get(members, "name"))),
      TrimmedOptional(Get(members, "description")),
      TrimmedOptional(Get(members, "text")),
      isPublic.Some? && isPublic.value.JBool? && isPublic.value.b,
      MapSeq(ItemsOf(Get(members, "terms")), TermOf),
      MapSeq(ItemsOf(Get(members, "general")), KeyValueOf),
      MapSeq(ItemsOf(Get(members, "translation_terms")), SourceTargetOf))
  }

  /** The result `validateImportedJson` returns. */
  function Validate(input: ParseOutcome): ValidationResult {
    match input
    case SyntaxError(m) => ValidationResult(false, [Message(InvalidSyntax(m))], [], None)
    case Parsed(JObject(members)) =>
      var issues := FieldIssues(members);
      var warnings := MapSeq(UnknownFields(members), WarningMessage);
      if issues != [] then ValidationResult(false, MapSeq(issues, Message), warnings, None)
      else ValidationResult(true, [], warnings, Some(Normalised(members)))
    case Parsed(_) => ValidationResult(false, [Message(NotAnObject)], [], None)
  }

  // ---------------------------------------------------------------------
  // The validator
  // ---------------------------------------------------------------------

  lemma {:induction false} IndexedStep(items: seq<Json>, i: nat, f: (nat, Json) -> seq<Issue>)
    requires i < |items|
    ensures Indexed(items[..i + 1], f) == Indexed(items[..i], f) + f(i, items[i])
  {
    assert items[..i + 1][..i] == items[..i];
  }

  method CheckTerms(items: seq<Json>) returns (found: seq<Issue>)
    ensures found == Indexed(items, TermItemIssues)
  {
    found := [];
    var idx := 0;
    while idx < |items|
      invariant 0 <= idx <= |items|
      invariant found == Indexed(items[..idx], TermItemIssues)
    {
      IndexedStep(items, idx, TermItemIssues);
      var term := items[idx];
      if !term.JString? {
        found := found + [TermNotString(idx, TypeOf(term))];
      } else if |term.s| > 200 {
        found := found + [TermTooLong(idx, |term.s|)];
      }
      idx := idx + 1;
    }
    assert items[..idx] == items;
  }

  /** One `general` item: object, then key, then value. */
  method CheckGeneralItem(idx: nat, item: Json) returns (found: seq<Issue>)
    ensures found == GeneralItemIssues(idx, item)
  {
    found := [];
    if TypeOf(item) != "object" || item.JNull? {
      found := [GeneralItemNotObject(idx)];
    } else {
      var key := Property(item, "key");
      if !(key.Some? && key.value.JString?) {
        found := found + [GeneralKeyNotString(idx)];
      } else if |key.value.s| > 100 {
        found := found + [GeneralKeyTooLong(idx, |key.value.s|)];
      }
      var value := Property(item, "value");
      if !(value.Some? && value.value.JString?) {
        found := found + [GeneralValueNotString(idx)];
      } else if |value.value.s| > 500 {
        found := found + [GeneralValueTooLong(idx, |value.value.s|)];
      }
    }
  }

  /** One `translation_terms` item: object, then source, then target. */
  method CheckTranslationItem(idx: nat, item: Json) returns (found: seq<Issue>)
    ensures found == TranslationItemIssues(idx, item)
  {
    found := [];
    if TypeOf(item) != "object" || item.JNull? {
      found := [TranslationItemNotObject(idx)];
    } else {
      var source := Property(item, "source");
      if !(source.Some? && source.value.JString?) {
        found := found + [TranslationSourceNotString(idx)];
      }
      var target := Property(item, "target");
      if !(target.Some? && target.value.JString?) {
        found := found + [TranslationTargetNotString(idx)];
      }
    }
  }

  method CheckGeneral(items: seq<Json>) returns (found: seq<Issue>)
    ensures found == Indexed(items, GeneralItemIssues)
  {
    found := [];
    var idx := 0;
    while idx < |items|
      invariant 0 <= idx <= |items|
      invariant found == Indexed(items[..idx], GeneralItemIssues)
    {
      IndexedStep(items, idx, GeneralItemIssues);
      var item := items[idx];
      var each := CheckGeneralItem(idx, item);
      found := found + each;
      idx := idx + 1;
    }
    assert items[..idx] == items;
  }

  method CheckTranslations(items: seq<Json>) returns (found: seq<Issue>)
    ensures found == Indexed(items, TranslationItemIssues)
  {
    found := [];
    var idx := 0;
    while idx < |items|
      invariant 0 <= idx <= |items|
      invariant found == Indexed(items[..idx], TranslationItemIssues)
    {
      IndexedStep(items, idx, TranslationItemIssues);
      var item := items[idx];
      var each := CheckTranslationItem(idx, item);
      found := found + each;
      idx := idx + 1;
    }
    assert items[..idx] == items;
  }

  lemma {:induction false} UnknownStep(keys: seq<string>, i: nat)
    requires i < |keys|
    ensures MapSeq(Filter(keys[..i + 1], IsUnknownField), WarningMessage) ==
      MapSeq(Filter(keys[..i], IsUnknownField), WarningMessage) +
      (if IsUnknownField(keys[i]) then [WarningMessage(keys[i])] else [])
  {
    assert keys[..i + 1] == keys[..i] + [keys[i]];
    FilterAppend(keys[..i], [keys[i]], IsUnknownField);
    assert Filter([keys[i]], IsUnknownField) == (if IsUnknownField(keys[i]) then [keys[i]] else []) + Filter([], IsUnknownField);
    MapSeqAppend(Filter(keys[..i], IsUnknownField), Filter([keys[i]], IsUnknownField), WarningMessage);
  }

  /** The loop over `Object.keys`: one warning per unknown key. */
  method CollectWarnings(keys: seq<string>) returns (warnings: seq<string>)
    ensures warnings == MapSeq(Filter(keys, IsUnknownField), WarningMessage)
  {
    warnings := [];
    var idx := 0;
    while idx < |keys|
      invariant 0 <= idx <= |keys|
      invariant warnings == MapSeq(Filter(keys[..idx], IsUnknownField), WarningMessage)
    {
      UnknownStep(keys, idx);
      if !(keys[idx] in KnownFields) {
        warnings := warnings + [WarningMessage(keys[idx])];
      }
      idx := idx + 1;
    }
    assert keys[..idx] == keys;
  }

  method CheckName(members: seq<Member>) returns (found: seq<Issue>)
    ensures found == NameIssues(Get(members, "name"))
  {
    found := [];
    var name := Get(members, "name");
    if !(name.Some? && name.value.JString? && name.value.s != "") {
      found := [NameRequired];
    } else if Trim(name.value.s) == "" {
      found := [NameEmpty];
    } else if |name.value.s| > 100 {
      found := [NameTooLong(|name.value.s|)];
    }
  }

  method CheckOptionalStrings(members: seq<Member>) returns (found: seq<Issue>)
    ensures found == DescriptionIssues(Get(members, "description")) + TextIssues(Get(members, "text"))
  {
    found := [];
    var description := Get(members, "description");
    if description.Some? {
      if !description.value.JString? {
        found := found + [DescriptionNotString];
      } else if |description.value.s| > 500 {
        found := found + [DescriptionTooLong(|description.value.s|)];
      }
    }
    assert found == DescriptionIssues(Get(members, "description"));
    var text := Get(members, "text");
    if text.Some? {
      if !text.value.JString? {
        found := found + [TextNotString];
      } else if |text.value.s| > 10000 {
        found := found + [TextTooLong(|text.value.s|)];
      }
    }
  }

  method CheckTermsField(members: seq<Member>) returns (found: seq<Issue>)
    ensures found == TermsIssues(Get(members, "terms"))
  {
    found := [];
    var terms := Get(members, "terms");
    if terms.Some? {
      if !terms.value.JArray? {
        found := [TermsNotArray];
      } else {
        if |terms.value.items| > 500 {
          found := [TooManyTerms(|terms.value.items|)];
        }
        var each := CheckTerms(terms.value.items);
        found := found + each;
      }
    }
  }

  method CheckGeneralField(members: seq<Member>) returns (found: seq<Issue>)
    ensures found == GeneralIssues(Get(members, "general"))
  {
    found := [];
    var general := Get(members, "general");
    if general.Some? {
      if !general.value.JArray? {
        found := [GeneralNotArray];
      } else {
        if |general.value.items| > 100 {
          found := [TooManyGeneral(|general.value.items|)];
        }
        var each := CheckGeneral(general.value.items);
        found := found + each;
      }
    }
  }

  method CheckTranslationsField(members: seq<Member>) returns (found: seq<Issue>)
    ensures found == TranslationIssues(Get(members, "translation_terms"))
  {
    found := [];
    var translations := Get(members, "translation_terms");
    if translations.Some? {
      if !translations.value.JArray? {
        found := [TranslationsNotArray];
      } else {
        if |translations.value.items| > 500 {
          found := [TooManyTranslations(|translations.value.items|)];
        }
        var each := CheckTranslations(translations.value.items);
        found := found + each;
      }
    }
  }

  /** The field checks of an object, in the order they run. */
  method CheckFields(members: seq<Member>) returns (issues: seq<Issue>)
    ensures issues == FieldIssues(members)
  {
    issues := CheckName(members);
    var isPublic := Get(members, "is_public");
    if !(isPublic.Some? && isPublic.value.JBool?) {
      issues := issues + [IsPublicNotBoolean];
    }
    var found := CheckOptionalStrings(members);
    issues := issues + found;
    found := CheckTermsField(members);
    issues := issues + found;
    found := CheckGeneralField(members);
    issues := issues + found;
    found := CheckTranslationsField(members);
    issues := issues + found;
  }

  /** `validateImportedJson`: the checks run one after another, each adding
      its problems to the same list. */
  method ValidateImportedJson(input: ParseOutcome) returns (r: ValidationResult)
    ensures r == Validate(input)
    ensures r.isValid <==> r.errors == []
    ensures r.isValid <==> r.data.Some?
    ensures input.SyntaxError? ==> |r.errors| == 1 && r.warnings == [] && !r.isValid
    ensures input.Parsed? && !input.value.JObject? ==> r.errors == [Message(NotAnObject)] && r.warnings == []
    ensures input.Parsed? && input.value.JObject? ==>
      r.warnings == MapSeq(UnknownFields(input.value.members), WarningMessage)
  {
    if input.SyntaxError? {
      return ValidationResult(false, [Message(InvalidSyntax(input.message))], [], None);
    }
    var parsed := input.value;
    if !parsed.JObject? {
      return ValidationResult(false, [Message(NotAnObject)], [], None);
    }
    var members := parsed.members;
    var issues := CheckFields(members);
    var warnings := CollectWarnings(ObjectKeys(members));
    assert warnings == MapSeq(UnknownFields(members), WarningMessage);
    if |issues| > 0 {
      return ValidationResult(false, MapSeq(issues, Message), warnings, None);
    }
    r := ValidationResult(true, [], warnings, Some(Normalised(members)));
  }

  // ---------------------------------------------------------------------
  // The schema the checks enforce
  // ---------------------------------------------------------------------

  predicate IsStringWithin(v: Option<Json>, max: nat) {
    v.Some? && v.value.JString? && |v.value.s| <= max
  }

  predicate NameConforms(v: Option<Json>) {
    IsStringWithin(v, MaxNameLength) && !IsBlank(v.value.s)
  }

  predicate OptionalStringConforms(v: Option<Json>, max: nat) {
    v.None? || IsStringWithin(v, max)
  }

  predicate TermConforms(item: Json) {
    item.JString? && |item.s| <= MaxTermLength
  }

  predicate GeneralItemConforms(item: Json) {
    item.JObject? && IsStringWithin(Property(item, "key"), MaxKeyLength) &&
    IsStringWithin(Property(item, "value"), MaxValueLength)
  }

  predicate TranslationItemConforms(item: Json) {
    item.JObject? && IsString(Property(item, "source")) && IsString(Property(item, "target"))
  }

  predicate OptionalArrayConforms(v: Option<Json>, max: nat, each: Json -> bool) {
    v.None? ||
    (v.value.JArray? && |v.value.items| <= max &&
     forall i :: 0 <= i < |v.value.items| ==> each(v.value.items[i]))
  }

  /** The accepted documents, stated field by field. */
  predicate Conforms(members: seq<Member>) {
    && NameConforms(Get(members, "name"))
    && Get(members, "is_public").Some? && Get(members, "is_public").value.JBool?
    && OptionalStringConforms(Get(members, "description"), MaxDescriptionLength)
    && OptionalStringConforms(Get(members, "text"), MaxTextLength)
    && OptionalArrayConforms(Get(members, "terms"), MaxTerms, TermConforms)
    && OptionalArrayConforms(Get(members, "general"), MaxGeneral, GeneralItemConforms)
    && OptionalArrayConforms(Get(members, "translation_terms"), MaxTranslations, TranslationItemConforms)
  }

  /** Reading a property of an object with one more member. */
  lemma {:induction false} GetSnoc(members: seq<Member>, m: Member, k: string)
    ensures Get(members + [m], k) == if m.key == k then Some(m.value) else Get(members, k)
  {
    assert (members + [m])[..|members|] == members;
  }

  /** A member whose name no other member shares is what reading that name gives. */
  lemma {:induction false} GetUnique(members: seq<Member>, i: nat)
    requires i < |members|
    requires forall j :: 0 <= j < |members| && j != i ==> members[j].key != members[i].key
    ensures Get(members, members[i].key) == Some(members[i].value)
    decreases |members|
  {
    var n := |members| - 1;
    if i < n {
      assert members[..n][i] == members[i];
      GetUnique(members[..n], i);
    }
  }

  /** A name no member has reads as undefined. */
  lemma {:induction false} GetAbsent(members: seq<Member>, k: string)
    requires forall j :: 0 <= j < |members| ==> members[j].key != k
    ensures Get(members, k) == None
    decreases |members|
  {
    if members != [] {
      GetAbsent(members[..|members| - 1], k);
    }
  }

  /** An object using only known names draws no warning. */
  lemma {:induction false} KnownFieldsNoWarnings(members: seq<Member>)
    requires forall j :: 0 <= j < |members| ==> IsKnownField(members[j].key)
    ensures UnknownFields(members) == []
  {
    var names := MapSeq(members, (m: Member) => m.key);
    forall k | k in names ensures IsKnownField(k) {
      var j :| 0 <= j < |names| && names[j] == k;
      assert members[j].key == k;
    }
    var keys := ObjectKeys(members);
    assert forall i :: 0 <= i < |keys| ==> keys[i] in names;
    FilterNone(keys, IsUnknownField);
  }

  lemma {:induction false} IndexedEmpty(items: seq<Json>, f: (nat, Json) -> seq<Issue>)
    ensures Indexed(items, f) == [] <==> forall i :: 0 <= i < |items| ==> f(i, items[i]) == []
    decreases |items|
  {
    if items != [] {
      var n := |items| - 1;
      IndexedEmpty(items[..n], f);
      assert forall i :: 0 <= i < n ==> items[..n][i] == items[i];
    }
  }

  lemma {:induction false} NameIssuesEmpty(v: Option<Json>)
    ensures NameIssues(v) == [] <==> NameConforms(v)
  {
    if v.Some? && v.value.JString? {
      TrimEmptyIffBlank(v.value.s);
    }
  }

  lemma {:induction false} TermItemIssuesEmpty(i: nat, item: Json)
    ensures TermItemIssues(i, item) == [] <==> TermConforms(item)
  {
  }

  lemma {:induction false} GeneralItemIssuesEmpty(i: nat, item: Json)
    ensures GeneralItemIssues(i, item) == [] <==> GeneralItemConforms(item)
  {
  }

  lemma {:induction false} TranslationItemIssuesEmpty(i: nat, item: Json)
    ensures TranslationItemIssues(i, item) == [] <==> TranslationItemConforms(item)
  {
  }

  lemma {:induction false} TermsIssuesEmpty(v: Option<Json>)
    ensures TermsIssues(v) == [] <==> OptionalArrayConforms(v, MaxTerms, TermConforms)
  {
    if v.Some? && v.value.JArray? {
      var items := v.value.items;
      IndexedEmpty(items, TermItemIssues);
      forall i | 0 <= i < |items| ensures TermItemIssues(i, items[i]) == [] <==> TermConforms(items[i]) {
        TermItemIssuesEmpty(i, items[i]);
      }
    }
  }

  lemma {:induction false} GeneralIssuesEmpty(v: Option<Json>)
    ensures GeneralIssues(v) == [] <==> OptionalArrayConforms(v, MaxGeneral, GeneralItemConforms)
  {
    if v.Some? && v.value.JArray? {
      var items := v.value.items;
      IndexedEmpty(items, GeneralItemIssues);
      forall i | 0 <= i < |items| ensures GeneralItemIssues(i, items[i]) == [] <==> GeneralItemConforms(items[i]) {
        GeneralItemIssuesEmpty(i, items[i]);
      }
    }
  }

  lemma {:induction false} TranslationIssuesEmpty(v: Option<Json>)
    ensures TranslationIssues(v) == [] <==> OptionalArrayConforms(v, MaxTranslations, TranslationItemConforms)
  {
    if v.Some? && v.value.JArray? {
      var items := v.value.items;
      IndexedEmpty(items, TranslationItemIssues);
      forall i | 0 <= i < |items|
        ensures TranslationItemIssues(i, items[i]) == [] <==> TranslationItemConforms(items[i])
      {
        TranslationItemIssuesEmpty(i, items[i]);
      }
    }
  }

  lemma {:induction false} FieldIssuesEmpty(members: seq<Member>)
    ensures FieldIssues(members) == [] <==> Conforms(members)
  {
    NameIssuesEmpty(Get(members, "name"));
    TermsIssuesEmpty(Get(members, "terms"));
    GeneralIssuesEmpty(Get(members, "general"));
    TranslationIssuesEmpty(Get(members, "translation_terms"));
    assert |FieldIssues(members)| ==
      |NameIssues(Get(members, "name"))| + |IsPublicIssues(Get(members, "is_public"))| +
      |DescriptionIssues(Get(members, "description"))| + |TextIssues(Get(members, "text"))| +
      |TermsIssues(Get(members, "terms"))| + |GeneralIssues(Get(members, "general"))| +
      |TranslationIssues(Get(members, "translation_terms"))|;
  }

  /** An object is accepted exactly when it conforms to the schema; a
      document that is not an object, or not JSON, never is. */
  lemma {:induction false} ValidIffConforms(input: ParseOutcome)
    ensures Validate(input).isValid <==> input.Parsed? && input.value.JObject? && Conforms(input.value.members)
  {
    if input.Parsed? && input.value.JObject? {
      FieldIssuesEmpty(input.value.members);
    }
  }

  // ---------------------------------------------------------------------
  // Every problem is reported
  // ---------------------------------------------------------------------

  lemma {:induction false} IndexedOnePerItem(items: seq<Json>, f: (nat, Json) -> seq<Issue>)
    requires forall i :: 0 <= i < |items| ==> |f(i, items[i])| == 1
    ensures |Indexed(items, f)| == |items|
    decreases |items|
  {
    if items != [] {
      var n := |items| - 1;
      assert forall i :: 0 <= i < n ==> items[..n][i] == items[i];
      IndexedOnePerItem(items[..n], f);
    }
  }

  /** Too many terms, every one of them too long: one problem for the count
      and one per term. */
  lemma {:induction false} LongTermsAllReported(members: seq<Member>, items: seq<Json>)
    requires Get(members, "terms") == Some(JArray(items)) && |items| > MaxTerms
    requires forall i :: 0 <= i < |items| ==> items[i].JString? && |items[i].s| > MaxTermLength
    ensures |TermsIssues(Get(members, "terms"))| == |items| + 1
    ensures |Validate(Parsed(JObject(members))).errors| ==
      |NameIssues(Get(members, "name")) + IsPublicIssues(Get(members, "is_public")) + DescriptionIssues(Get(members, "description")) + TextIssues(Get(members, "text"))| +
      |items| + 1 + |GeneralIssues(Get(members, "general"))| + |TranslationIssues(Get(members, "translation_terms"))|
  {
    IndexedOnePerItem(items, TermItemIssues);
  }

  /** Looking up the fields of a document with a name, a flag and terms. */
  lemma {:induction false} ThreeMembers(name: Json, flag: Json, terms: Json)
    ensures var members := [Member("name", name), Member("is_public", flag), Member("terms", terms)];
      && Get(members, "name") == Some(name) && Get(members, "is_public") == Some(flag)
      && Get(members, "terms") == Some(terms)
      && Get(members, "description") == None && Get(members, "text") == None
      && Get(members, "general") == None && Get(members, "translation_terms") == None
  {
    var n, f, t := Member("name", name), Member("is_public", flag), Member("terms", terms);
    assert [n, f, t] == [n, f] + [t];
    assert [n, f] == [n] + [f];
    assert [n] == [] + [n];
    forall k | k in ["name", "is_public", "terms", "description", "text", "general", "translation_terms"]
      ensures Get([n, f, t], k) == if k == "terms" then Some(terms) else Get([n, f], k)
      ensures Get([n, f], k) == if k == "is_public" then Some(flag) else Get([n], k)
      ensures Get([n], k) == if k == "name" then Some(name) else None
    {
      GetSnoc([n, f], t, k);
      GetSnoc([n], f, k);
      GetSnoc([], n, k);
    }
  }

  /** A document with a valid name, a flag and more than 500 terms, each
      over 200 characters, gets one error per term and one for the count. */
  lemma {:induction false} OnlyLongTermsReported(items: seq<Json>, flag: bool)
    requires |items| > MaxTerms
    requires forall i :: 0 <= i < |items| ==> items[i].JString? && |items[i].s| > MaxTermLength
    ensures var members := [Member("name", JString("n")), Member("is_public", JBool(flag)),
                            Member("terms", JArray(items))];
      |Validate(Parsed(JObject(members))).errors| == |items| + 1
  {
    var members := [Member("name", JString("n")), Member("is_public", JBool(flag)), Member("terms", JArray(items))];
    ThreeMembers(JString("n"), JBool(flag), JArray(items));
    TrimmedIffFixed("n");
    assert NameIssues(Get(members, "name")) == [];
    LongTermsAllReported(members, items);
  }

  // ---------------------------------------------------------------------
  // Unknown fields
  // ---------------------------------------------------------------------

  lemma {:induction false} WarningMessageInjective(a: string, b: string)
    ensures WarningMessage(a) == WarningMessage(b) ==> a == b
  {
    var prefix := "Unknown field \"";
    if WarningMessage(a) == WarningMessage(b) {
      assert a == WarningMessage(a)[|prefix|..|prefix| + |a|];
      assert b == WarningMessage(b)[|prefix|..|prefix| + |b|];
    }
  }

  lemma {:induction false} WarningCount(keys: seq<string>, k: string)
    ensures Count(MapSeq(Filter(keys, IsUnknownField), WarningMessage), WarningMessage(k)) ==
      if IsUnknownField(k) then Count(keys, k) else 0
    decreases |keys|
  {
    if keys != [] {
      var head := if IsUnknownField(keys[0]) then [keys[0]] else [];
      var tail := Filter(keys[1..], IsUnknownField);
      assert Filter(keys, IsUnknownField) == head + tail;
      MapSeqAppend(head, tail, WarningMessage);
      CountAppend(MapSeq(head, WarningMessage), MapSeq(tail, WarningMessage), WarningMessage(k));
      WarningCount(keys[1..], k);
      WarningMessageInjective(keys[0], k);
    }
  }

  /** Each unknown key of the object is warned about exactly once and each
      known key never. */
  lemma {:induction false} UnknownKeysWarnedOnce(members: seq<Member>, k: string)
    ensures Count(MapSeq(UnknownFields(members), WarningMessage), WarningMessage(k)) ==
      if (exists i :: 0 <= i < |members| && members[i].key == k) && !IsKnownField(k) then 1 else 0
  {
    var names := MapSeq(members, (m: Member) => m.key);
    WarningCount(ObjectKeys(members), k);
    CountDistinct(ObjectKeys(members), k);
    assert k in ObjectKeys(members) <==> k in names;
    if k in names {
      var j :| 0 <= j < |names| && names[j] == k;
      assert members[j].key == k;
    }
    if exists i :: 0 <= i < |members| && members[i].key == k {
      var i :| 0 <= i < |members| && members[i].key == k;
      assert names[i] == k;
    }
  }

  /** Only the seven known fields are read. */
  lemma {:induction false} SameFieldsSameOutcome(a: seq<Member>, b: seq<Member>)
    requires Get(a, "name") == Get(b, "name") && Get(a, "is_public") == Get(b, "is_public")
    requires Get(a, "description") == Get(b, "description") && Get(a, "text") == Get(b, "text")
    requires Get(a, "terms") == Get(b, "terms") && Get(a, "general") == Get(b, "general")
    requires Get(a, "translation_terms") == Get(b, "translation_terms")
    ensures FieldIssues(a) == FieldIssues(b)
    ensures Normalised(a) == Normalised(b)
  {
  }

  /** A member with an unknown name changes neither the problems found nor
      the data built, so it never causes an error. */
  lemma {:induction false} UnknownMemberIgnored(members: seq<Member>, k: string, v: Json)
    requires !IsKnownField(k)
    ensures FieldIssues(members + [Member(k, v)]) == FieldIssues(members)
    ensures Normalised(members + [Member(k, v)]) == Normalised(members)
  {
    var more := members + [Member(k, v)];
    assert k != "name" && k != "description" && k != "text" && k != "is_public";
    assert k != "terms" && k != "general" && k != "translation_terms";
    GetSnoc(members, Member(k, v), "name");
    GetSnoc(members, Member(k, v), "description");
    GetSnoc(members, Member(k, v), "text");
    GetSnoc(members, Member(k, v), "is_public");
    GetSnoc(members, Member(k, v), "terms");
    GetSnoc(members, Member(k, v), "general");
    GetSnoc(members, Member(k, v), "translation_terms");
    SameFieldsSameOutcome(more, members);
  }

  // ---------------------------------------------------------------------
  // The normalised data
  // ---------------------------------------------------------------------

  /** On success the name, description and text are trimmed and the flag
      is the document's. */
  lemma {:induction false} AcceptedScalarsTrimmed(members: seq<Member>)
    requires Conforms(members)
    ensures Get(members, "name").Some? && Get(members, "name").value.JString?
    ensures Normalised(members).name == Trim(Get(members, "name").value.s)
    ensures Get(members, "is_public") == Some(JBool(Normalised(members).is_public))
    ensures Get(members, "description").None? ==> Normalised(members).description.None?
    ensures Get(members, "description").Some? ==>
      Get(members, "description").value.JString? &&
      Normalised(members).description == Some(Trim(Get(members, "description").value.s))
    ensures Get(members, "text").None? ==> Normalised(members).text.None?
    ensures Get(members, "text").Some? ==>
      Get(members, "text").value.JString? && Normalised(members).text == Some(Trim(Get(members, "text").value.s))
  {
  }

  /** On success a missing `terms` array becomes empty and the terms are
      passed through untrimmed. */
  lemma {:induction false} AcceptedTermsPassedThrough(members: seq<Member>)
    requires Conforms(members)
    ensures Get(members, "terms").None? ==> Normalised(members).terms == []
    ensures Get(members, "terms").Some? ==>
      var items := Get(members, "terms").value.items;
      && Get(members, "terms").value.JArray?
      && |Normalised(members).terms| == |items|
      && forall i :: 0 <= i < |items| ==> items[i] == JString(Normalised(members).terms[i])
  {
    var v := Get(members, "terms");
    if v.Some? {
      var items := v.value.items;
      forall i | 0 <= i < |items| ensures items[i] == JString(Normalised(members).terms[i]) {
        assert TermConforms(items[i]);
      }
    }
  }

  /** On success the general pairs are the items' own keys and values. */
  lemma {:induction false} AcceptedGeneralPassedThrough(members: seq<Member>)
    requires Conforms(members)
    ensures Get(members, "general").None? ==> Normalised(members).general == []
    ensures Get(members, "general").Some? ==>
      var items := Get(members, "general").value.items;
      && Get(members, "general").value.JArray?
      && |Normalised(members).general| == |items|
      && forall i :: 0 <= i < |items| ==>
        && Property(items[i], "key") == Some(JString(Normalised(members).general[i].key))
        && Property(items[i], "value") == Some(JString(Normalised(members).general[i].value))
  {
    var v := Get(members, "general");
    if v.Some? {
      var items := v.value.items;
      forall i | 0 <= i < |items|
        ensures Property(items[i], "key") == Some(JString(Normalised(members).general[i].key))
        ensures Property(items[i], "value") == Some(JString(Normalised(members).general[i].value))
      {
        assert GeneralItemConforms(items[i]);
      }
    }
  }

  /** On success the translation pairs are the items' own sources and targets. */
  lemma {:induction false} AcceptedTranslationsPassedThrough(members: seq<Member>)
    requires Conforms(members)
    ensures Get(members, "translation_terms").None? ==> Normalised(members).translation_terms == []
    ensures Get(members, "translation_terms").Some? ==>
      var items := Get(members, "translation_terms").value.items;
      && Get(members, "translation_terms").value.JArray?
      && |Normalised(members).translation_terms| == |items|
      && forall i :: 0 <= i < |items| ==>
        && Property(items[i], "source") == Some(JString(Normalised(members).translation_terms[i].source))
        && Property(items[i], "target") == Some(JString(Normalised(members).translation_terms[i].target))
  {
    var v := Get(members, "translation_terms");
    if v.Some? {
      var items := v.value.items;
      forall i | 0 <= i < |items|
        ensures Property(items[i], "source") == Some(JString(Normalised(members).translation_terms[i].source))
        ensures Property(items[i], "target") == Some(JString(Normalised(members).translation_terms[i].target))
      {
        assert TranslationItemConforms(items[i]);
      }
    }
  }

  // ---------------------------------------------------------------------
  // Form data as a document
  // ---------------------------------------------------------------------

  function StringJson(t: string): Json {
    JString(t)
  }

  function KeyValueJson(kv: KeyValue): Json {
    JObject([Member("key", JString(kv.key)), Member("value", JString(kv.value))])
  }

  function SourceTargetJson(st: SourceTarget): Json {
    JObject([Member("source", JString(st.source)), Member("target", JString(st.target))])
  }

  function OptionalMember(k: string, v: Option<string>): seq<Member> {
    if v.Some? then [Member(k, JString(v.value))] else []
  }

  /** The document `JSON.stringify` writes for form data, as `JSON.parse`
      reads it back: an undefined description or text is left out. */
  function FormMembers(d: ContextSetFormData): seq<Member> {
    [Member("name", JString(d.name))] + OptionalMember("description", d.description) +
    [Member("is_public", JBool(d.is_public)),
     Member("terms", JArray(MapSeq(d.terms, StringJson))),
     Member("general", JArray(MapSeq(d.general, KeyValueJson))),
     Member("translation_terms", JArray(MapSeq(d.translation_terms, SourceTargetJson)))] +
    OptionalMember("text", d.text)
  }

  /** Form data the importer gives back: trimmed, non-blank name, trimmed
      optional texts, and every limit respected. */
  predicate FormWithinLimits(d: ContextSetFormData) {
    && !IsBlank(d.name) && IsTrimmed(d.name) && |d.name| <= MaxNameLength
    && (d.description.Some? ==> IsTrimmed(d.description.value) && |d.description.value| <= MaxDescriptionLength)
    && (d.text.Some? ==> IsTrimmed(d.text.value) && |d.text.value| <= MaxTextLength)
    && |d.terms| <= MaxTerms && (forall i :: 0 <= i < |d.terms| ==> |d.terms[i]| <= MaxTermLength)
    && |d.general| <= MaxGeneral
    && (forall i :: 0 <= i < |d.general| ==>
         |d.general[i].key| <= MaxKeyLength && |d.general[i].value| <= MaxValueLength)
    && |d.translation_terms| <= MaxTranslations
  }

  /** Reading a name from two lists joined: the later list wins. */
  lemma {:induction false} GetAppend(a: seq<Member>, b: seq<Member>, k: string)
    ensures Get(a + b, k) == if Get(b, k).Some? then Get(b, k) else Get(a, k)
    decreases |b|
  {
    if b == [] {
      assert a + b == a;
    } else {
      var n := |b| - 1;
      assert (a + b)[..|a + b| - 1] == a + b[..n];
      GetAppend(a, b[..n], k);
    }
  }

  lemma {:induction false} GetFour(a: seq<Member>, b: seq<Member>, c: seq<Member>, e: seq<Member>, k: string)
    ensures Get(a + b + c + e, k) ==
      if Get(e, k).Some? then Get(e, k) else if Get(c, k).Some? then Get(c, k)
      else if Get(b, k).Some? then Get(b, k) else Get(a, k)
  {
    GetAppend(a + b + c, e, k);
    GetAppend(a + b, c, k);
    GetAppend(a, b, k);
  }

  lemma {:induction false} OptionalMemberGet(k: string, v: Option<string>, f: string)
    ensures Get(OptionalMember(k, v), f) == if f == k && v.Some? then Some(JString(v.value)) else None
  {
  }

  lemma {:induction false} FormFields(d: ContextSetFormData)
    ensures Get(FormMembers(d), "name") == Some(JString(d.name))
    ensures Get(FormMembers(d), "description") == if d.description.Some? then Some(JString(d.description.value)) else None
    ensures Get(FormMembers(d), "text") == if d.text.Some? then Some(JString(d.text.value)) else None
    ensures Get(FormMembers(d), "is_public") == Some(JBool(d.is_public))
    ensures Get(FormMembers(d), "terms") == Some(JArray(MapSeq(d.terms, StringJson)))
    ensures Get(FormMembers(d), "general") == Some(JArray(MapSeq(d.general, KeyValueJson)))
    ensures Get(FormMembers(d), "translation_terms") == Some(JArray(MapSeq(d.translation_terms, SourceTargetJson)))
  {
    var a := [Member("name", JString(d.name))];
    var b := OptionalMember("description", d.description);
    var c := [Member("is_public", JBool(d.is_public)),
              Member("terms", JArray(MapSeq(d.terms, StringJson))),
              Member("general", JArray(MapSeq(d.general, KeyValueJson))),
              Member("translation_terms", JArray(MapSeq(d.translation_terms, SourceTargetJson)))];
    var e := OptionalMember("text", d.text);
    assert FormMembers(d) == a + b + c + e;
    GetFour(a, b, c, e, "name");
    GetFour(a, b, c, e, "description");
    GetFour(a, b, c, e, "text");
    GetFour(a, b, c, e, "is_public");
    GetFour(a, b, c, e, "terms");
    GetFour(a, b, c, e, "general");
    GetFour(a, b, c, e, "translation_terms");
    OptionalMemberGet("text", d.text, "name");
    OptionalMemberGet("text", d.text, "description");
    OptionalMemberGet("text", d.text, "is_public");
    OptionalMemberGet("text", d.text, "terms");
    OptionalMemberGet("text", d.text, "general");
    OptionalMemberGet("text", d.text, "translation_terms");
    OptionalMemberGet("description", d.description, "name");
    OptionalMemberGet("description", d.description, "text");
    GetUnique(c, 0);
    GetUnique(c, 1);
    GetUnique(c, 2);
    GetUnique(c, 3);
    GetAbsent(c, "name");
    GetAbsent(c, "description");
    GetAbsent(c, "text");
  }

  /** A key/value pair object has its two string properties. */
  lemma {:induction false} PairProperties(a: string, b: string, x: string, y: string)
    requires a != b
    ensures Property(JObject([Member(a, JString(x)), Member(b, JString(y))]), a) == Some(JString(x))
    ensures Property(JObject([Member(a, JString(x)), Member(b, JString(y))]), b) == Some(JString(y))
  {
    var ms := [Member(a, JString(x)), Member(b, JString(y))];
    GetUnique(ms, 0);
    GetUnique(ms, 1);
  }

  /** The fields of a document that holds form data field by field. */
  predicate HoldsForm(ms: seq<Member>, d: ContextSetFormData) {
    && Get(ms, "name") == Some(JString(d.name))
    && Get(ms, "description") == (if d.description.Some? then Some(JString(d.description.value)) else None)
    && Get(ms, "text") == (if d.text.Some? then Some(JString(d.text.value)) else None)
    && Get(ms, "is_public") == Some(JBool(d.is_public))
    && Get(ms, "terms") == Some(JArray(MapSeq(d.terms, StringJson)))
    && Get(ms, "general") == Some(JArray(MapSeq(d.general, KeyValueJson)))
    && Get(ms, "translation_terms") == Some(JArray(MapSeq(d.translation_terms, SourceTargetJson)))
  }

  lemma {:induction false} HoldsFormConforms(ms: seq<Member>, d: ContextSetFormData)
    requires HoldsForm(ms, d) && FormWithinLimits(d)
    ensures Conforms(ms)
  {
    forall i | 0 <= i < |d.general| ensures GeneralItemConforms(KeyValueJson(d.general[i])) {
      PairProperties("key", "value", d.general[i].key, d.general[i].value);
    }
    forall i | 0 <= i < |d.translation_terms| ensures TranslationItemConforms(SourceTargetJson(d.translation_terms[i])) {
      PairProperties("source", "target", d.translation_terms[i].source, d.translation_terms[i].target);
    }
  }

  lemma {:induction false} TermsBack(ts: seq<string>)
    ensures MapSeq(ItemsOf(Some(JArray(MapSeq(ts, StringJson)))), TermOf) == ts
  {
  }

  lemma {:induction false} GeneralBack(g: seq<KeyValue>)
    ensures MapSeq(ItemsOf(Some(JArray(MapSeq(g, KeyValueJson)))), KeyValueOf) == g
  {
    forall i | 0 <= i < |g| ensures KeyValueOf(KeyValueJson(g[i])) == g[i] {
      PairProperties("key", "value", g[i].key, g[i].value);
    }
  }

  lemma {:induction false} TranslationsBack(t: seq<SourceTarget>)
    ensures MapSeq(ItemsOf(Some(JArray(MapSeq(t, SourceTargetJson)))), SourceTargetOf) == t
  {
    forall i | 0 <= i < |t| ensures SourceTargetOf(SourceTargetJson(t[i])) == t[i] {
      PairProperties("source", "target", t[i].source, t[i].target);
    }
  }

  lemma {:induction false} NameBack(s: string)
    requires IsTrimmed(s)
    ensures Trim(StringOf(Some(JString(s)))) == s
  {
    TrimmedIffFixed(s);
  }

  lemma {:induction false} OptionalBack(o: Option<string>)
    requires o.Some? ==> IsTrimmed(o.value)
    ensures TrimmedOptional(if o.Some? then Some(JString(o.value)) else None) == o
  {
    if o.Some? {
      TrimmedIffFixed(o.value);
    }
  }

  lemma {:induction false} HoldsFormNormalised(ms: seq<Member>, d: ContextSetFormData)
    requires HoldsForm(ms, d) && FormWithinLimits(d)
    ensures Normalised(ms) == d
  {
    var n := Normalised(ms);
    NameBack(d.name);
    assert n.name == d.name;
    OptionalBack(d.description);
    assert n.description == d.description;
    OptionalBack(d.text);
    assert n.text == d.text;
    assert n.is_public == d.is_public;
    TermsBack(d.terms);
    assert n.terms == d.terms;
    GeneralBack(d.general);
    assert n.general == d.general;
    TranslationsBack(d.translation_terms);
    assert n.translation_terms == d.translation_terms;
  }

  /** A conforming document using only known names is accepted without warning. */
  lemma {:induction false} AcceptedKnownFields(ms: seq<Member>)
    requires Conforms(ms)
    requires forall j :: 0 <= j < |ms| ==> IsKnownField(ms[j].key)
    ensures Validate(Parsed(JObject(ms))) == ValidationResult(true, [], [], Some(Normalised(ms)))
  {
    FieldIssuesEmpty(ms);
    KnownFieldsNoWarnings(ms);
  }

  /** A document holding form data within the limits, and only known fields,
      imports as that data with no error and no warning. */
  lemma {:induction false} HoldsFormAccepted(ms: seq<Member>, d: ContextSetFormData)
    requires HoldsForm(ms, d) && FormWithinLimits(d)
    requires forall j :: 0 <= j < |ms| ==> IsKnownField(ms[j].key)
    ensures Validate(Parsed(JObject(ms))) == ValidationResult(true, [], [], Some(d))
  {
    HoldsFormConforms(ms, d);
    AcceptedKnownFields(ms);
    HoldsFormNormalised(ms, d);
  }

  /** Writing form data within the limits as a document and importing it
      gives the same data back, with no error and no warning. */
  lemma {:induction false} FormRoundTrip(d: ContextSetFormData)
    requires FormWithinLimits(d)
    ensures Validate(Parsed(JObject(FormMembers(d)))) == ValidationResult(true, [], [], Some(d))
  {
    var ms := FormMembers(d);
    FormFields(d);
    assert forall j :: 0 <= j < |ms| ==> IsKnownField(ms[j].key);
    HoldsFormAccepted(ms, d);
  }

  lemma {:induction false} TrimWithin(s: string, max: nat)
    requires |s| <= max
    ensures IsTrimmed(Trim(s)) && |Trim(s)| <= max
  {
    TrimEnds(s);
    TrimIsSlice(s);
  }

  lemma {:induction false} AcceptedOptionalWithin(v: Option<Json>, max: nat)
    requires OptionalStringConforms(v, max)
    ensures TrimmedOptional(v).Some? ==> IsTrimmed(TrimmedOptional(v).value) && |TrimmedOptional(v).value| <= max
  {
    if v.Some? {
      TrimWithin(v.value.s, max);
    }
  }

  lemma {:induction false} AcceptedNameWithin(v: Option<Json>)
    requires NameConforms(v)
    ensures var n := Trim(StringOf(v)); !IsBlank(n) && IsTrimmed(n) && |n| <= MaxNameLength
  {
    TrimWithin(v.value.s, MaxNameLength);
    TrimEmptyIffBlank(v.value.s);
    TrimEmptyIffBlank(Trim(v.value.s));
    TrimIdempotent(v.value.s);
  }

  lemma {:induction false} AcceptedTermsWithin(v: Option<Json>)
    requires OptionalArrayConforms(v, MaxTerms, TermConforms)
    ensures var ts := MapSeq(ItemsOf(v), TermOf);
      |ts| <= MaxTerms && forall i :: 0 <= i < |ts| ==> |ts[i]| <= MaxTermLength
  {
    var ts := MapSeq(ItemsOf(v), TermOf);
    forall i | 0 <= i < |ts| ensures |ts[i]| <= MaxTermLength {
      assert TermConforms(ItemsOf(v)[i]);
    }
  }

  lemma {:induction false} AcceptedGeneralWithin(v: Option<Json>)
    requires OptionalArrayConforms(v, MaxGeneral, GeneralItemConforms)
    ensures var g := MapSeq(ItemsOf(v), KeyValueOf);
      |g| <= MaxGeneral &&
      forall i :: 0 <= i < |g| ==> |g[i].key| <= MaxKeyLength && |g[i].value| <= MaxValueLength
  {
    var g := MapSeq(ItemsOf(v), KeyValueOf);
    forall i | 0 <= i < |g| ensures |g[i].key| <= MaxKeyLength && |g[i].value| <= MaxValueLength {
      assert GeneralItemConforms(ItemsOf(v)[i]);
    }
  }

  /** Conversely, whatever the importer accepts is form data within the limits. */
  lemma {:induction false} AcceptedWithinLimits(members: seq<Member>)
    requires Conforms(members)
    ensures FormWithinLimits(Normalised(members))
  {
    var d := Normalised(members);
    AcceptedNameWithin(Get(members, "name"));
    assert !IsBlank(d.name) && IsTrimmed(d.name) && |d.name| <= MaxNameLength;
    AcceptedOptionalWithin(Get(members, "description"), MaxDescriptionLength);
    assert d.description.Some? ==> IsTrimmed(d.description.value) && |d.description.value| <= MaxDescriptionLength;
    AcceptedOptionalWithin(Get(members, "text"), MaxTextLength);
    assert d.text.Some? ==> IsTrimmed(d.text.value) && |d.text.value| <= MaxTextLength;
    AcceptedTermsWithin(Get(members, "terms"));
    assert |d.terms| <= MaxTerms && forall i :: 0 <= i < |d.terms| ==> |d.terms[i]| <= MaxTermLength;
    AcceptedGeneralWithin(Get(members, "general"));
    assert |d.general| <= MaxGeneral;
    assert forall i :: 0 <= i < |d.general| ==>
      |d.general[i].key| <= MaxKeyLength && |d.general[i].value| <= MaxValueLength;
    assert |d.translation_terms| <= MaxTranslations;
  }
}
