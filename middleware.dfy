/**
 * The site-wide password gate (src/middleware.ts): HTTP Basic
 * authentication in the style of RFC 7617, checked against the configured
 * user and password, and the paths the gate applies to.
 *
 * Base64 decoding is a parameter returning `None` where `atob` throws; the
 * configured values are optional strings, `None` when the variable is unset.
 */
module Middleware {
  import opened Common

  datatype Outcome =
    | Proceed
    /** 401 with a Basic challenge. */
    | Challenge(status: int, body: string, wwwAuthenticate: string)
    /** `atob` threw: the request fails with the error. */
    | DecodeError

  const Unauthorized := Challenge(401, "Authentication required", "Basic realm=\"Secure Area\"")

  /** The `n`-th piece of a split, `None` where the destructuring finds
      nothing (`undefined`). */
  function Piece(pieces: seq<string>, n: nat): Option<string> {
    if n < |pieces| then Some(pieces[n]) else None
  }

  /** The gate for one request. */
  function Authorize(header: Option<string>, atob: string -> Option<string>,
                     validUser: Option<string>, validPassword: Option<string>): Outcome
  {
    if !Truthy(header) then Unauthorized
    else
      var parts := Split(header.value, ' ');
      var scheme, encoded := parts[0], Piece(parts, 1);
      if scheme == "Basic" && Truthy(encoded) then
        match atob(encoded.value)
        case None => DecodeError
        case Some(decoded) =>
          var credentials := Split(decoded, ':');
          var user, password := credentials[0], Piece(credentials, 1);
          if Some(user) == validUser && password == validPassword then Proceed else Unauthorized
      else Unauthorized
  }

  /** The credentials a request proceeds with. */
  predicate Presents(header: Option<string>, atob: string -> Option<string>, user: string, password: Option<string>) {
    && header.Some?
    && var parts := Split(header.value, ' ');
       && parts[0] == "Basic" && |parts| > 1 && parts[1] != ""
       && atob(parts[1]).Some?
       && var credentials := Split(atob(parts[1]).value, ':');
          credentials[0] == user && Piece(credentials, 1) == password
  }

  /** A request proceeds exactly when its header is `Basic` followed by one
      space and a token that decodes to the configured user, and, after the
      first ':', to the configured password up to the next ':'; every other
      request that decodes is challenged. */
  lemma {:induction false} AuthorizeSpec(header: Option<string>, atob: string -> Option<string>,
                                         validUser: Option<string>, validPassword: Option<string>)
    ensures Authorize(header, atob, validUser, validPassword) == Proceed <==>
      validUser.Some? && Presents(header, atob, validUser.value, validPassword)
    ensures Authorize(header, atob, validUser, validPassword) != Proceed ==>
      Authorize(header, atob, validUser, validPassword) in {Unauthorized, DecodeError}
  {
    if Truthy(header) {
      assert header.value != "";
    }
  }

  /** Without the header, the answer is the challenge. */
  lemma {:induction false} NoHeaderChallenged(atob: string -> Option<string>,
                                              validUser: Option<string>, validPassword: Option<string>)
    ensures Authorize(None, atob, validUser, validPassword) == Unauthorized
    ensures Unauthorized.status == 401 && Unauthorized.wwwAuthenticate == "Basic realm=\"Secure Area\""
  {
  }

  /** With no configured user, nobody gets in. */
  lemma {:induction false} UnsetUserLocksOut(header: Option<string>, atob: string -> Option<string>,
                                             validPassword: Option<string>)
    ensures Authorize(header, atob, None, validPassword) != Proceed
  {
  }

  /** A configured password containing ':' can never be presented, since the
      presented password stops at the next ':' (RFC 7617 lets the password
      contain colons). */
  lemma {:induction false} ColonPasswordLocksOut(header: Option<string>, atob: string -> Option<string>,
                                                 validUser: Option<string>, validPassword: string)
    requires ':' in validPassword
    ensures Authorize(header, atob, validUser, Some(validPassword)) != Proceed
  {
    if Authorize(header, atob, validUser, Some(validPassword)) == Proceed {
      var parts := Split(header.value, ' ');
      var credentials := Split(atob(parts[1]).value, ':');
      SplitPiecesLackSeparator(atob(parts[1]).value, ':');
      assert false;
    }
  }

  /** With no configured password, a token decoding to the bare user name,
      with no ':' at all, is let in. */
  lemma {:induction false} UnsetPasswordAcceptsBareUser(atob: string -> Option<string>, token: string, user: string)
    requires token != "" && ' ' !in token && ':' !in user && atob(token) == Some(user)
    ensures Authorize(Some("Basic " + token), atob, Some(user), None) == Proceed
  {
    assert "Basic " + token == "Basic" + [' '] + token;
    SplitAtFirst("Basic " + token, ' ', "Basic", token);
    SplitWithout(token, ' ');
    SplitWithout(user, ':');
  }

  /** A header whose first word is not `Basic`, or whose second word is
      missing or empty, is challenged without decoding anything. */
  lemma {:induction false} MalformedHeaderChallenged(h: string, atob: string -> Option<string>,
                                                     validUser: Option<string>, validPassword: Option<string>)
    requires var parts := Split(h, ' '); parts[0] != "Basic" || |parts| < 2 || parts[1] == ""
    ensures Authorize(Some(h), atob, validUser, validPassword) == Unauthorized
  {
  }

  /** The scheme is matched case-sensitively (RFC 7235 section 2.1 makes it
      case-insensitive): a lower-case scheme is challenged, whatever the
      token. */
  lemma {:induction false} SchemeCaseSensitive(token: string, atob: string -> Option<string>,
                                               validUser: Option<string>, validPassword: Option<string>)
    ensures Authorize(Some("basic " + token), atob, validUser, validPassword) == Unauthorized
  {
    var h := "basic " + token;
    assert h == "basic" + [' '] + token;
    SplitAtFirst(h, ' ', "basic", token);
    assert Split(h, ' ')[0] == "basic";
    assert "basic"[0] != "Basic"[0];
    MalformedHeaderChallenged(h, atob, validUser, validPassword);
  }

  /** Two spaces after the scheme leave an empty token: challenged, whatever
      follows. */
  lemma {:induction false} DoubleSpaceChallenged(token: string, atob: string -> Option<string>,
                                                 validUser: Option<string>, validPassword: Option<string>)
    ensures Authorize(Some("Basic  " + token), atob, validUser, validPassword) == Unauthorized
  {
    var h := "Basic  " + token;
    assert h == "Basic" + [' '] + (" " + token);
    SplitAtFirst(h, ' ', "Basic", " " + token);
    assert Split(h, ' ')[1] == [];
    MalformedHeaderChallenged(h, atob, validUser, validPassword);
  }

  // ---------------------------------------------------------------------
  // Which paths the gate applies to
  // ---------------------------------------------------------------------

  /** The negative look-ahead of `/((?!api|_next/static|_next/image|favicon.ico).*)`;
      the '.' in `favicon.ico` is the pattern's any-character. */
  predicate ExcludedStart(rest: string) {
    || StartsWith(rest, "api")
    || StartsWith(rest, "_next/static")
    || StartsWith(rest, "_next/image")
    || (|rest| >= 11 && rest[..7] == "favicon" && rest[8..11] == "ico")
  }

  /** Whether the gate runs for a path. */
  predicate Gated(path: string) {
    |path| >= 1 && path[0] == '/' && !ExcludedStart(path[1..])
  }

  /** The API, the build assets and the icon are not gated, nor is anything
      whose name merely begins like them. */
  lemma {:induction false} ExcludedPaths(rest: string, c: char)
    ensures !Gated("/api" + rest) && !Gated("/_next/static" + rest) && !Gated("/_next/image" + rest)
    ensures !Gated("/favicon" + [c] + "ico" + rest)
  {
    assert ("/api" + rest)[1..] == "api" + rest;
    assert ("api" + rest)[..3] == "api";
    assert ("/_next/static" + rest)[1..] == "_next/static" + rest;
    assert ("_next/static" + rest)[..12] == "_next/static";
    assert ("/_next/image" + rest)[1..] == "_next/image" + rest;
    assert ("_next/image" + rest)[..11] == "_next/image";
    var f := "favicon" + [c] + "ico" + rest;
    assert ("/favicon" + [c] + "ico" + rest)[1..] == f;
    assert f[..7] == "favicon" && f[8..11] == "ico";
  }

  /** The root is gated, and so is every path whose first character after
      the '/' cannot begin an excluded name. */
  lemma {:induction false} PagesGated(rest: string)
    requires rest != [] && rest[0] != 'a' && rest[0] != '_' && rest[0] != 'f'
    ensures Gated("/") && Gated("/" + rest)
  {
    assert ("/" + rest)[1..] == rest;
    if |rest| >= 3 {
      assert rest[..3][0] == rest[0];
    }
    if |rest| >= 7 {
      assert rest[..7][0] == rest[0];
    }
    if |rest| >= 11 {
      assert rest[..11][0] == rest[0];
    }
    if |rest| >= 12 {
      assert rest[..12][0] == rest[0];
    }
  }
}
