/**
 * The context-set collection endpoint (src/app/api/context-sets/route.ts):
 * the checks a creation request goes through, the rows it writes, the page
 * a listing reads, and the counts added to every set returned.
 *
 * The database is outside the model: the rows to insert are computed, and a
 * listing is a page of an already filtered and ordered list of sets.
 */
module ContextSetsRoute {
  import opened Common
  import opened Types

  // ---------------------------------------------------------------------
  // Creation: the checks
  // ---------------------------------------------------------------------

  /** The request body; any field may be missing. */
  datatype CreateRequest = CreateRequest(
    name: Option<string>,
    description: Option<string>,
    text: Option<string>,
    is_public: Option<bool>,
    terms: Option<seq<string>>,
    general: Option<seq<KeyValue>>,
    translation_terms: Option<seq<SourceTarget>>,
    userId: Option<string>)

  datatype CreateError =
    | NameMissing
    | UserIdRequired
    | NameTooLong
    | TextTooLong
    | TooManyTerms
    | TooManyGeneral
    | TooManyTranslations

  /** The message sent with status 400. */
  function ErrorMessage(e: CreateError): string {
    match e
    case NameMissing => "name is required"
    case UserIdRequired => "userId is required for private context sets"
    case NameTooLong => "name must be \U{2264}100 characters"
    case TextTooLong => "text must be \U{2264}10,000 characters"
    case TooManyTerms => "max 500 terms allowed"
    case TooManyGeneral => "max 100 general metadata pairs allowed"
    case TooManyTranslations => "max 500 translation terms allowed"
  }

  /** JavaScript truthiness of an optional flag. */
  predicate IsSet(b: Option<bool>) {
    b.Some? && b.value
  }

  /** The length of an optional list, 0 when it is missing. */
  function LengthOf<T>(s: Option<seq<T>>): nat {
    if s.Some? then |s.value| else 0
  }

  /** The handler's checks, in its order; the first that fails is reported. */
  function CheckCreate(b: CreateRequest): Option<CreateError> {
    if !Truthy(b.name) then Some(NameMissing)
    else if !IsSet(b.is_public) && !Truthy(b.userId) then Some(UserIdRequired)
    else if |b.name.value| > 100 then Some(NameTooLong)
    else if Truthy(b.text) && |b.text.value| > 10000 then Some(TextTooLong)
    else if b.terms.Some? && |b.terms.value| > 500 then Some(TooManyTerms)
    else if b.general.Some? && |b.general.value| > 100 then Some(TooManyGeneral)
    else if b.translation_terms.Some? && |b.translation_terms.value| > 500 then Some(TooManyTranslations)
    else None
  }

  /** Each condition on its own, as an independent reference. */
  predicate Fails(b: CreateRequest, e: CreateError) {
    match e
    case NameMissing => !Truthy(b.name)
    case UserIdRequired => !IsSet(b.is_public) && !Truthy(b.userId)
    case NameTooLong => Truthy(b.name) && |b.name.value| > 100
    case TextTooLong => Truthy(b.text) && |b.text.value| > 10000
    case TooManyTerms => LengthOf(b.terms) > 500
    case TooManyGeneral => LengthOf(b.general) > 100
    case TooManyTranslations => LengthOf(b.translation_terms) > 500
  }

  const CheckOrder: seq<CreateError> :=
    [NameMissing, UserIdRequired, NameTooLong, TextTooLong, TooManyTerms, TooManyGeneral, TooManyTranslations]

  /** The first condition of a list that fails. */
  function FirstFailing(order: seq<CreateError>, b: CreateRequest): Option<CreateError>
    decreases |order|
  {
    if order == [] then None
    else if Fails(b, order[0]) then Some(order[0])
    else FirstFailing(order[1..], b)
  }

  /** The handler reports exactly the first failing condition in its order,
      and accepts a request only when none fails. */
  lemma {:induction false} CheckCreateIsFirstFailing(b: CreateRequest)
    ensures CheckCreate(b) == FirstFailing(CheckOrder, b)
    ensures CheckCreate(b).None? <==> forall i :: 0 <= i < |CheckOrder| ==> !Fails(b, CheckOrder[i])
  {
    var o := CheckOrder;
    assert o[1..][1..][1..][1..][1..][1..][1..] == [];
    FirstFailingSpec(CheckOrder, b);
  }

  /** A reported failure does fail, and every check before it passes. */
  lemma {:induction false} FirstFailingSpec(order: seq<CreateError>, b: CreateRequest)
    ensures var r := FirstFailing(order, b);
      && (r.None? <==> forall i :: 0 <= i < |order| ==> !Fails(b, order[i]))
      && (r.Some? ==> exists k :: 0 <= k < |order| && order[k] == r.value && Fails(b, r.value) &&
                        forall i :: 0 <= i < k ==> !Fails(b, order[i]))
    decreases |order|
  {
    if order != [] && !Fails(b, order[0]) {
      FirstFailingSpec(order[1..], b);
      var r := FirstFailing(order, b);
      if r.Some? {
        var k :| 0 <= k < |order[1..]| && order[1..][k] == r.value && Fails(b, r.value) &&
                 forall i :: 0 <= i < k ==> !Fails(b, order[1..][i]);
        assert order[k + 1] == r.value;
        assert forall i :: 0 <= i < k + 1 ==> !Fails(b, order[i]) by {
          forall i | 0 <= i < k + 1 ensures !Fails(b, order[i]) {
            if i > 0 {
              assert order[i] == order[1..][i - 1];
            }
          }
        }
      }
      if forall i :: 0 <= i < |order[1..]| ==> !Fails(b, order[1..][i]) {
        forall i | 0 <= i < |order| ensures !Fails(b, order[i]) {
          if i > 0 {
            assert order[i] == order[1..][i - 1];
          }
        }
      }
    }
  }

  /** The checks look at the number of terms, pairs and translations, never
      at their contents: no term, key or value is too long to create. */
  lemma {:induction false} ItemsNotChecked(b: CreateRequest, c: CreateRequest)
    requires b.name == c.name && b.text == c.text && b.is_public == c.is_public && b.userId == c.userId
    requires b.terms.Some? == c.terms.Some? && LengthOf(b.terms) == LengthOf(c.terms)
    requires b.general.Some? == c.general.Some? && LengthOf(b.general) == LengthOf(c.general)
    requires b.translation_terms.Some? == c.translation_terms.Some?
    requires LengthOf(b.translation_terms) == LengthOf(c.translation_terms)
    ensures CheckCreate(b) == CheckCreate(c)
  {
  }

  // ---------------------------------------------------------------------
  // Creation: the rows written
  // ---------------------------------------------------------------------

  datatype SetInsert = SetInsert(
    user_id: Option<string>, name: string, description: Option<string>, text: Option<string>, is_public: bool)

  datatype TermInsert = TermInsert(context_set_id: string, term: string, sort_order: int)
  datatype GeneralInsert = GeneralInsert(context_set_id: string, key: string, value: string)
  datatype TranslationInsert = TranslationInsert(context_set_id: string, source: string, target: string, sort_order: int)

  /** `x || null` for an optional string. */
  function OrNull(s: Option<string>): Option<string> {
    if Truthy(s) then s else None
  }

  /** The context-set row of an accepted request: the name, owner and flag
      as sent, a non-empty description or text kept unchanged and an empty
      one stored as null. Because the checks passed, the row is named within
      the length limit, its text is within its limit, and a private row
      always has an owner. */
  function SetRow(b: CreateRequest): (r: SetInsert)
    requires CheckCreate(b).None?
    ensures r.name == b.name.value && r.user_id == b.userId
    ensures Truthy(b.description) ==> r.description == b.description
    ensures !Truthy(b.description) ==> r.description == None
    ensures Truthy(b.text) ==> r.text == b.text
    ensures !Truthy(b.text) ==> r.text == None
    ensures r.is_public <==> IsSet(b.is_public)
    ensures r.name != "" && |r.name| <= 100
    ensures r.text.Some? ==> r.text.value != "" && |r.text.value| <= 10000
    ensures !r.is_public ==> Truthy(r.user_id)
  {
    SetInsert(b.userId, b.name.value, OrNull(b.description), OrNull(b.text), IsSet(b.is_public))
  }

  function TermRows(setId: string, terms: seq<string>): seq<TermInsert> {
    seq(|terms|, i requires 0 <= i < |terms| => TermInsert(setId, terms[i], i))
  }

  function GeneralRows(setId: string, general: seq<KeyValue>): seq<GeneralInsert> {
    seq(|general|, i requires 0 <= i < |general| => GeneralInsert(setId, general[i].key, general[i].value))
  }

  function TranslationRows(setId: string, translations: seq<SourceTarget>): seq<TranslationInsert> {
    seq(|translations|, i requires 0 <= i < |translations| =>
      TranslationInsert(setId, translations[i].source, translations[i].target, i))
  }

  function TermOrder(t: TermInsert): int {
    t.sort_order
  }

  function TermText(t: TermInsert): string {
    t.term
  }

  function TranslationOrder(t: TranslationInsert): int {
    t.sort_order
  }

  function TranslationPair(t: TranslationInsert): SourceTarget {
    SourceTarget(t.source, t.target)
  }

  /** Terms are numbered by position, so reading the rows back in
      `sort_order` gives the terms as sent; every row belongs to the new set. */
  lemma {:induction false} TermRowsReadBack(setId: string, terms: seq<string>)
    ensures var rows := TermRows(setId, terms);
      && SortedBy(rows, TermOrder)
      && MapSeq(SortBy(rows, TermOrder), TermText) == terms
      && forall i :: 0 <= i < |rows| ==> rows[i].context_set_id == setId
  {
    SortByOfSorted(TermRows(setId, terms), TermOrder);
  }

  /** Likewise for translation pairs. */
  lemma {:induction false} TranslationRowsReadBack(setId: string, translations: seq<SourceTarget>)
    ensures var rows := TranslationRows(setId, translations);
      && SortedBy(rows, TranslationOrder)
      && MapSeq(SortBy(rows, TranslationOrder), TranslationPair) == translations
      && forall i :: 0 <= i < |rows| ==> rows[i].context_set_id == setId
  {
    SortByOfSorted(TranslationRows(setId, translations), TranslationOrder);
  }

  /** Metadata pairs carry no order of their own: each row is the pair at
      the same position. */
  lemma {:induction false} GeneralRowsArePairs(setId: string, general: seq<KeyValue>)
    ensures var rows := GeneralRows(setId, general);
      |rows| == |general| &&
      forall i :: 0 <= i < |rows| ==> rows[i].context_set_id == setId && KeyValue(rows[i].key, rows[i].value) == general[i]
  {
  }

  // ---------------------------------------------------------------------
  // Listing
  // ---------------------------------------------------------------------

  /** `Math.min(parseInt(limit || '20'), 100)`; `parseInt` is a parameter,
      and `None` stands for NaN. */
  function ListLimit(limitParam: Option<string>, parseInt: string -> Option<int>): Option<int> {
    var raw := if Truthy(limitParam) then limitParam.value else "20";
    match parseInt(raw)
    case None => None
    case Some(n) => Some(if n < 100 then n else 100)
  }

  /** `parseInt(offset || '0')`. */
  function ListOffset(offsetParam: Option<string>, parseInt: string -> Option<int>): Option<int> {
    parseInt(if Truthy(offsetParam) then offsetParam.value else "0")
  }

  /** The rows `range(from, to)` selects: positions `from` to `to`, both
      included, that exist. */
  function Page<T>(rows: seq<T>, from: int, to: int): (r: seq<T>)
    ensures from <= to + 1 ==> |r| <= to + 1 - from
    ensures from > to ==> r == []
    ensures forall i :: 0 <= i < |r| ==> 0 <= from + i < |rows| && r[i] == rows[from + i]
    ensures 0 <= from <= to && from < |rows| ==> |r| == (if to + 1 < |rows| then to + 1 else |rows|) - from
  {
    if from < 0 || from > to || from >= |rows| then []
    else rows[from..if to + 1 < |rows| then to + 1 else |rows|]
  }

  /** A listing never returns more than 100 sets, and with no limit given
      (and `parseInt` reading "20" as 20) at most 20. */
  lemma {:induction false} ListingBounded<T>(rows: seq<T>, limitParam: Option<string>, offset: int,
                                             parseInt: string -> Option<int>)
    ensures var limit := ListLimit(limitParam, parseInt);
      limit.Some? ==> |Page(rows, offset, offset + limit.value - 1)| <= 100
    ensures !Truthy(limitParam) && parseInt("20") == Some(20) ==>
      var limit := ListLimit(limitParam, parseInt);
      limit == Some(20) && |Page(rows, offset, offset + 19)| <= 20
    ensures var limit := ListLimit(limitParam, parseInt);
      limit.Some? && limit.value >= 1 && 0 <= offset < |rows| ==>
        |Page(rows, offset, offset + limit.value - 1)| ==
          if offset + limit.value <= |rows| then limit.value else |rows| - offset
  {
  }

  /** Paging walks the list without gap or overlap: the rows before an
      offset, followed by the page of `limit` rows from it, are the rows up
      to that page's end. */
  lemma {:induction false} PagesTile<T>(rows: seq<T>, offset: nat, limit: nat)
    ensures Page(rows, 0, offset - 1) + Page(rows, offset, offset + limit - 1) == Page(rows, 0, offset + limit - 1)
  {
    var endAll := if offset + limit < |rows| then offset + limit else |rows|;
    if offset < |rows| && limit > 0 {
      var endFirst := offset;
      assert Page(rows, 0, offset - 1) == rows[..endFirst];
      assert Page(rows, offset, offset + limit - 1) == rows[offset..endAll];
      assert Page(rows, 0, offset + limit - 1) == rows[..endAll];
      assert rows[..endAll] == rows[..offset] + rows[offset..endAll];
    }
  }

  /** The set as returned, with the sizes of its three lists. */
  function WithCounts(cs: ContextSetWithDetails): ContextSetWithDetails {
    cs.(term_count := Some(|cs.terms|), general_count := Some(|cs.general|),
        translation_term_count := Some(|cs.translation_terms|))
  }

  /** The counts are the lengths of the lists, and nothing else changes. */
  lemma {:induction false} CountsAreLengths(sets: seq<ContextSetWithDetails>)
    ensures var out := MapSeq(sets, WithCounts);
      |out| == |sets| &&
      forall i :: 0 <= i < |out| ==>
        && out[i].term_count == Some(|sets[i].terms|)
        && out[i].general_count == Some(|sets[i].general|)
        && out[i].translation_term_count == Some(|sets[i].translation_terms|)
        && out[i].(term_count := None, general_count := None, translation_term_count := None)
           == sets[i].(term_count := None, general_count := None, translation_term_count := None)
  {
  }
}
