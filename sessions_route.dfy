/**
 * Session creation (POST of src/app/api/sessions/route.ts): the checks a
 * request goes through, the session and host-participant rows written, the
 * invitations for the invited addresses and the links to context sets.
 *
 * The signed-in user is an optional identifier, the clock an integer `now`,
 * and `new Date(...)` a parameter returning `None` for an invalid date. The
 * generated join code is a parameter; the database inserts are outside the
 * model, which keeps only whether each of them failed.
 */
module SessionsRoute {
  import opened Common

  datatype CreateSessionRequest = CreateSessionRequest(
    hostName: Option<string>,
    title: Option<string>,
    description: Option<string>,
    mode: Option<string>,
    targetLanguage: Option<string>,
    languageA: Option<string>,
    languageB: Option<string>,
    preferredLanguage: Option<string>,
    scheduledStartTime: Option<string>,
    isPublic: Option<bool>,
    invitedEmails: Option<seq<string>>,
    contextSetIds: Option<seq<string>>)

  const OneWay := "one_way"
  const TwoWay := "two_way"

  // ---------------------------------------------------------------------
  // The checks
  // ---------------------------------------------------------------------

  datatype SessionError =
    | Unauthenticated
    | FieldsRequired
    | TargetLanguageRequired
    | LanguagesRequired
    | NotInFuture

  function Status(e: SessionError): int {
    if e.Unauthenticated? then 401 else 400
  }

  function ErrorMessage(e: SessionError): string {
    match e
    case Unauthenticated => "Authentication required to create sessions"
    case FieldsRequired => "hostName, title, and mode are required"
    case TargetLanguageRequired => "targetLanguage is required for one_way mode"
    case LanguagesRequired => "languageA and languageB are required for two_way mode"
    case NotInFuture => "Scheduled start time must be in the future"
  }

  /** The handler's checks in its order; the first that fails is reported.
      An unparseable start time compares as NaN and so is never rejected. */
  function CheckSession(user: Option<string>, b: CreateSessionRequest, now: int,
                        parseDate: string -> Option<int>): Option<SessionError>
  {
    if user.None? then Some(Unauthenticated)
    else if !Truthy(b.hostName) || !Truthy(b.mode) || !Truthy(b.title) then Some(FieldsRequired)
    else if b.mode == Some(OneWay) && !Truthy(b.targetLanguage) then Some(TargetLanguageRequired)
    else if b.mode == Some(TwoWay) && (!Truthy(b.languageA) || !Truthy(b.languageB)) then Some(LanguagesRequired)
    else if Truthy(b.scheduledStartTime) then
      match parseDate(b.scheduledStartTime.value)
      case Some(t) => if t <= now then Some(NotInFuture) else None
      case None => None
    else None
  }

  /** Each condition on its own. */
  predicate Fails(user: Option<string>, b: CreateSessionRequest, now: int,
                  parseDate: string -> Option<int>, e: SessionError)
  {
    match e
    case Unauthenticated => user.None?
    case FieldsRequired => !Truthy(b.hostName) || !Truthy(b.mode) || !Truthy(b.title)
    case TargetLanguageRequired => b.mode == Some(OneWay) && !Truthy(b.targetLanguage)
    case LanguagesRequired => b.mode == Some(TwoWay) && (!Truthy(b.languageA) || !Truthy(b.languageB))
    case NotInFuture =>
      Truthy(b.scheduledStartTime) && var t := parseDate(b.scheduledStartTime.value); t.Some? && t.value <= now
  }

  function Rank(e: SessionError): nat {
    match e
    case Unauthenticated => 0
    case FieldsRequired => 1
    case TargetLanguageRequired => 2
    case LanguagesRequired => 3
    case NotInFuture => 4
  }

  /** The reported error fails and every check before it passes; nothing is
      reported exactly when no check fails. */
  lemma {:induction false} CheckSessionIsFirstFailing(user: Option<string>, b: CreateSessionRequest, now: int,
                                                      parseDate: string -> Option<int>)
    ensures var r := CheckSession(user, b, now, parseDate);
      && (r.None? <==> forall e :: !Fails(user, b, now, parseDate, e))
      && (r.Some? ==>
            && Fails(user, b, now, parseDate, r.value)
            && forall e :: Rank(e) < Rank(r.value) ==> !Fails(user, b, now, parseDate, e))
  {
    var r := CheckSession(user, b, now, parseDate);
    if r.Some? {
      assert Fails(user, b, now, parseDate, r.value);
    } else {
      forall e ensures !Fails(user, b, now, parseDate, e) {
        match e
        case Unauthenticated =>
        case FieldsRequired =>
        case TargetLanguageRequired =>
        case LanguagesRequired =>
        case NotInFuture =>
      }
    }
  }

  /** A start time in the future, or one that does not parse, is accepted. */
  lemma {:induction false} ScheduledStartChecked(user: string, b: CreateSessionRequest, now: int,
                                                 parseDate: string -> Option<int>)
    requires Truthy(b.hostName) && Truthy(b.mode) && Truthy(b.title)
    requires b.mode == Some(OneWay) ==> Truthy(b.targetLanguage)
    requires b.mode == Some(TwoWay) ==> Truthy(b.languageA) && Truthy(b.languageB)
    requires Truthy(b.scheduledStartTime)
    ensures var t := parseDate(b.scheduledStartTime.value);
      CheckSession(Some(user), b, now, parseDate) == (if t.Some? && t.value <= now then Some(NotInFuture) else None)
  {
  }

  // ---------------------------------------------------------------------
  // The rows written
  // ---------------------------------------------------------------------

  datatype SessionInsert = SessionInsert(
    code: string,
    host_name: string,
    title: string,
    description: Option<string>,
    creator_user_id: string,
    scheduled_start_time: Option<string>,
    is_public: bool,
    allow_join_requests: bool,
    mode: string,
    target_language: Option<string>,
    language_a: Option<string>,
    language_b: Option<string>)

  /** `isPublic = false` when the field is missing. */
  function IsPublic(b: CreateSessionRequest): bool {
    b.isPublic.Some? && b.isPublic.value
  }

  function OrNull(s: Option<string>): Option<string> {
    if Truthy(s) then s else None
  }

  /** The session row of an accepted request. */
  function SessionRow(user: string, b: CreateSessionRequest, code: string): SessionInsert
    requires Truthy(b.hostName) && Truthy(b.mode) && Truthy(b.title)
  {
    var m := b.mode.value;
    SessionInsert(code, b.hostName.value, b.title.value, OrNull(b.description), user,
      OrNull(b.scheduledStartTime), IsPublic(b), !IsPublic(b), m,
      if m == OneWay then b.targetLanguage else None,
      if m == TwoWay then b.languageA else None,
      if m == TwoWay then b.languageB else None)
  }

  /** For an accepted request, the target language is set exactly in one-way
      mode and the pair exactly in two-way mode, each from the request; the
      session belongs to the user, and join requests are allowed exactly for
      a session that is not public (a missing flag meaning private). */
  lemma {:induction false} SessionRowByMode(user: string, b: CreateSessionRequest, code: string, now: int,
                                            parseDate: string -> Option<int>)
    requires CheckSession(Some(user), b, now, parseDate).None?
    ensures var r := SessionRow(user, b, code);
      && r.creator_user_id == user && r.host_name == b.hostName.value && r.mode == b.mode.value
      && (r.target_language.Some? <==> r.mode == OneWay)
      && (r.target_language.Some? ==> Truthy(r.target_language) && r.target_language == b.targetLanguage)
      && (r.language_a.Some? <==> r.mode == TwoWay) && (r.language_b.Some? <==> r.mode == TwoWay)
      && (r.mode == TwoWay ==> Truthy(r.language_a) && Truthy(r.language_b) &&
                               r.language_a == b.languageA && r.language_b == b.languageB)
      && r.allow_join_requests == !r.is_public
      && (b.isPublic.None? ==> !r.is_public)
  {
  }

  datatype ParticipantInsert = ParticipantInsert(
    session_id: string, user_id: string, name: string, is_host: bool, preferred_language: Option<string>)

  /** The host's participant row: in two-way mode the host reads the chosen
      language, or language A when none is chosen; in one-way mode none. */
  function HostRow(sessionId: string, user: string, b: CreateSessionRequest): ParticipantInsert
    requires Truthy(b.hostName) && Truthy(b.mode)
  {
    ParticipantInsert(sessionId, user, b.hostName.value, true,
      if b.mode.value == TwoWay then (if Truthy(b.preferredLanguage) then b.preferredLanguage else b.languageA)
      else None)
  }

  /** The host is always a host; a two-way host always has a language, and
      a one-way host never. */
  lemma {:induction false} HostLanguage(sessionId: string, user: string, b: CreateSessionRequest, now: int,
                                        parseDate: string -> Option<int>)
    requires CheckSession(Some(user), b, now, parseDate).None?
    ensures var h := HostRow(sessionId, user, b);
      && h.is_host && h.session_id == sessionId && h.user_id == user && h.name == b.hostName.value
      && (b.mode.value == TwoWay <==> Truthy(h.preferred_language))
      && (b.mode.value == TwoWay ==>
            h.preferred_language == (if Truthy(b.preferredLanguage) then b.preferredLanguage else b.languageA))
  {
  }

  /** The chosen language is not checked against the session's pair. */
  lemma {:induction false} HostLanguageNotChecked()
    ensures var b := CreateSessionRequest(Some("Host"), Some("Talk"), None, Some(TwoWay), None,
                                          Some("en"), Some("es"), Some("fr"), None, None, None, None);
      && CheckSession(Some("u"), b, 0, (s: string) => None).None?
      && HostRow("s", "u", b).preferred_language == Some("fr")
  {
  }

  // ---------------------------------------------------------------------
  // Invitations and context links
  // ---------------------------------------------------------------------

  datatype InvitationStatus = Pending
  datatype InvitationInsert = InvitationInsert(
    session_id: string, email: string, invited_by_user_id: string, status: InvitationStatus)

  /** The addresses invited: the normalised addresses, each once, in the
      order of their first occurrence. */
  function InvitedAddresses(invited: Option<seq<string>>): seq<string> {
    var emails := if invited.Some? then invited.value else [];
    if |emails| > 0 then Dedup(MapSeq(emails, NormalizeEmail)) else []
  }

  function InvitationRows(sessionId: string, user: string, invited: Option<seq<string>>): seq<InvitationInsert> {
    var addresses := InvitedAddresses(invited);
    seq(|addresses|, i requires 0 <= i < |addresses| => InvitationInsert(sessionId, addresses[i], user, Pending))
  }

  /** Every invitation is pending, for the new session, from the user, to a
      trimmed lower-case address; no address is invited twice; every address
      given is invited in its normalised form; and addresses keep the order
      in which they were first given. */
  lemma {:induction false} InvitationsNormalised(sessionId: string, user: string, invited: seq<string>)
    requires |invited| > 0
    ensures var rows := InvitationRows(sessionId, user, Some(invited));
      && (forall i :: 0 <= i < |rows| ==>
            rows[i].status == Pending && rows[i].session_id == sessionId && rows[i].invited_by_user_id == user &&
            IsTrimmed(rows[i].email) && IsLowerCase(rows[i].email))
      && (forall i, j :: 0 <= i < j < |rows| ==> rows[i].email != rows[j].email)
      && (forall k :: 0 <= k < |invited| ==> exists i :: 0 <= i < |rows| && rows[i].email == NormalizeEmail(invited[k]))
    ensures var normalized := MapSeq(invited, NormalizeEmail);
      var addresses := InvitedAddresses(Some(invited));
      forall i, j :: 0 <= i < j < |addresses| ==> FirstIndex(normalized, addresses[i]) < FirstIndex(normalized, addresses[j])
  {
    var normalized := MapSeq(invited, NormalizeEmail);
    var addresses := InvitedAddresses(Some(invited));
    var rows := InvitationRows(sessionId, user, Some(invited));
    forall i | 0 <= i < |rows| ensures IsTrimmed(rows[i].email) && IsLowerCase(rows[i].email) {
      var k :| 0 <= k < |normalized| && normalized[k] == addresses[i];
      NormalizedEmailShape(invited[k]);
    }
    forall k | 0 <= k < |invited|
      ensures exists i :: 0 <= i < |rows| && rows[i].email == NormalizeEmail(invited[k])
    {
      assert normalized[k] in addresses;
      var i :| 0 <= i < |addresses| && addresses[i] == normalized[k];
      assert rows[i].email == NormalizeEmail(invited[k]);
    }
    forall i, j | 0 <= i < j < |addresses|
      ensures FirstIndex(normalized, addresses[i]) < FirstIndex(normalized, addresses[j])
    {
      DedupFirstSeenOrder(normalized, i, j);
    }
  }

  lemma {:induction false} LowerPlain()
    ensures ToLower("ann@x.io") == "ann@x.io"
  {
  }

  lemma {:induction false} LowerPadded()
    ensures ToLower("Ann@X.io ") == "ann@x.io "
  {
  }

  lemma {:induction false} NormalizePadded()
    ensures NormalizeEmail("Ann@X.io ") == "ann@x.io"
  {
    LowerPadded();
    assert TrimStart("ann@x.io ") == "ann@x.io ";
    assert TrimEnd("ann@x.io ") == "ann@x.io";
    assert Trim(ToLower("Ann@X.io ")) == Trim("ann@x.io ");
  }

  lemma {:induction false} NormalizePlain()
    ensures NormalizeEmail("ann@x.io") == "ann@x.io"
  {
    LowerPlain();
    assert IsTrimmed("ann@x.io");
    TrimmedIffFixed("ann@x.io");
    assert Trim(ToLower("ann@x.io")) == Trim("ann@x.io");
  }

  /** Two addresses that normalise alike give one invitation. */
  lemma {:induction false} SameAddressInvitedOnce(e1: string, e2: string)
    requires NormalizeEmail(e1) == NormalizeEmail(e2)
    ensures InvitedAddresses(Some([e1, e2])) == [NormalizeEmail(e1)]
  {
    var n := MapSeq([e1, e2], NormalizeEmail);
    assert n[..1] == [NormalizeEmail(e1)];
    assert n[..1][..0] == [];
  }

  /** Case and surrounding white space do not make two addresses. */
  lemma {:induction false} CaseAndPaddingIgnored()
    ensures InvitedAddresses(Some(["Ann@X.io ", "ann@x.io"])) == ["ann@x.io"]
  {
    NormalizePadded();
    NormalizePlain();
    SameAddressInvitedOnce("Ann@X.io ", "ann@x.io");
  }

  datatype LinkInsert = LinkInsert(session_id: string, context_set_id: string, sort_order: int)

  /** The links to the chosen context sets, numbered by position. */
  function LinkRows(sessionId: string, ids: Option<seq<string>>): seq<LinkInsert> {
    if ids.Some? && |ids.value| > 0 then
      seq(|ids.value|, i requires 0 <= i < |ids.value| => LinkInsert(sessionId, ids.value[i], i))
    else []
  }

  function LinkOrder(l: LinkInsert): int {
    l.sort_order
  }

  function LinkedSet(l: LinkInsert): string {
    l.context_set_id
  }

  /** Reading the links back in `sort_order` gives the chosen sets in the
      order they were given. */
  lemma {:induction false} LinksKeepOrder(sessionId: string, ids: seq<string>)
    ensures var rows := LinkRows(sessionId, Some(ids));
      && SortedBy(rows, LinkOrder)
      && MapSeq(SortBy(rows, LinkOrder), LinkedSet) == ids
      && forall i :: 0 <= i < |rows| ==> rows[i].session_id == sessionId && rows[i].sort_order == i
  {
    SortByOfSorted(LinkRows(sessionId, Some(ids)), LinkOrder);
  }

  // ---------------------------------------------------------------------
  // The response
  // ---------------------------------------------------------------------

  /** Which of the four inserts failed. */
  datatype InsertFailures = InsertFailures(session: bool, participant: bool, invitations: bool, links: bool)

  datatype Response = Created | Failed(status: int, message: string)

  function ResponseAfterInserts(f: InsertFailures): Response {
    if f.session then Failed(500, "Failed to create session")
    else if f.participant then Failed(500, "Failed to add host as participant")
    else Created
  }

  /** Failing to store the invitations or the context links does not fail
      the request; failing to store the session or its host does. */
  lemma {:induction false} LaterInsertsDoNotFail(f: InsertFailures)
    ensures ResponseAfterInserts(f).Created? <==> !f.session && !f.participant
    ensures ResponseAfterInserts(f) == ResponseAfterInserts(f.(invitations := false, links := false))
  {
  }
}
