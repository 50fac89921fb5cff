/**
 * `HealthEndpoint::checkPermissions`: the gate in front of the health report.
 * Guards run in a fixed order (token configured, header present, Bearer
 * scheme, non-blank token, digest match) and every rejection is a 401 with
 * its own error code.
 */
module HealthEndpoint {
  import opened Wrappers
  import opened PhpStrings
  import opened Hashing
  import opened Options

  datatype AuthError = TokenNotConfigured | MissingAuthorization | InvalidAuthorizationScheme | InvalidToken
  {
    function Code(): string {
      match this
      case TokenNotConfigured => "vigilant_healthchecks_token_not_configured"
      case MissingAuthorization => "vigilant_healthchecks_missing_authorization"
      case InvalidAuthorizationScheme => "vigilant_healthchecks_invalid_authorization_scheme"
      case InvalidToken => "vigilant_healthchecks_invalid_token"
    }

    function Message(): string {
      match this
      case TokenNotConfigured => ""
      case MissingAuthorization => "Missing Authorization header."
      case InvalidAuthorizationScheme => "Authorization header must use the Bearer scheme."
      case InvalidToken => "Invalid API token."
    }

    /** Every rejection is sent with HTTP status 401. */
    function HttpStatus(): int {
      401
    }
  }

  /** `true`, or the `WP_Error` carrying the reason. */
  datatype Permission = Granted | Denied(error: AuthError)

  /** PCRE `\s` (no Unicode properties): space, \t, \n, \v, \f, \r. */
  predicate IsPcreSpace(c: char) {
    c == ' ' || c == '\t' || c == '\n' || c == '\U{B}' || c == '\U{C}' || c == '\r'
  }

  function AsciiLower(c: char): char {
    if 'A' <= c <= 'Z' then (c as int + 32) as char else c
  }

  /** `Bearer` in any letter case, as the `/i` flag matches it. */
  predicate IsBearerWord(w: string) {
    |w| == 6 && forall i :: 0 <= i < 6 ==> AsciiLower(w[i]) == "bearer"[i]
  }

  /** The end of the run of PCRE spaces that starts at `i`. */
  function SkipSpaces(s: string, i: nat): (j: nat)
    requires i <= |s|
    ensures i <= j <= |s|
    ensures j == |s| || !IsPcreSpace(s[j])
    ensures forall k :: i <= k < j ==> IsPcreSpace(s[k])
    decreases |s| - i
  {
    if i < |s| && IsPcreSpace(s[i]) then SkipSpaces(s, i + 1) else i
  }

  /** The first newline at or after `i`, or the end of `s`: where `.*` stops. */
  function LineEnd(s: string, i: nat): (q: nat)
    requires i <= |s|
    ensures i <= q <= |s|
    ensures q == |s| || s[q] == '\n'
    ensures forall k :: i <= k < q ==> s[k] != '\n'
    decreases |s| - i
  {
    if i < |s| && s[i] != '\n' then LineEnd(s, i + 1) else i
  }

  /**
   * The pattern `/^Bearer\s+(.*)$/i` matches `h` with the group `(.*)`
   * capturing `t` at position `j`: the scheme word, at least one space up to
   * `j`, then `t` free of newlines, then the end of the string or a final
   * newline.
   */
  predicate RegexMatch(h: string, j: nat, t: string) {
    && |h| >= 7 && IsBearerWord(h[..6])
    && 7 <= j <= |h| - |t|
    && (forall k :: 6 <= k < j ==> IsPcreSpace(h[k]))
    && h[j..j + |t|] == t
    && (forall k :: 0 <= k < |t| ==> t[k] != '\n')
    && (h[j + |t|..] == "" || h[j + |t|..] == "\n")
  }

  /**
   * `preg_match('/^Bearer\s+(.*)$/i', $h, $m)` and the captured `$m[1]`:
   * `\s+` takes the whole run of spaces after the scheme word, `.*` stops at
   * the first newline, and `$` accepts the end of the string or a final
   * newline. Otherwise there is no match.
   */
  function MatchBearer(h: string): (m: Option<string>)
    ensures m.Some? ==> exists j :: RegexMatch(h, j, m.value)
    ensures m.Some? ==> m.value == [] || !IsPcreSpace(m.value[0])
  {
    if |h| < 7 || !IsBearerWord(h[..6]) || !IsPcreSpace(h[6]) then None
    else
      var j := SkipSpaces(h, 7);
      var q := LineEnd(h, j);
      if q + 1 >= |h| then
        assert h[q..] == "" || h[q..] == "\n";
        assert RegexMatch(h, j, h[j..q]);
        Some(h[j..q])
      else None
  }

  /** Whenever the pattern matches at all, `MatchBearer` finds a match. */
  lemma MatchBearerComplete(h: string, j: nat, t: string)
    requires RegexMatch(h, j, t)
    ensures MatchBearer(h).Some?
  {
    var j' := SkipSpaces(h, 7);
    assert j <= j';
    var q := LineEnd(h, j');
    assert q + 1 >= |h|;
  }

  /** `Bearer <token>` captures the token itself when it is one line and does not start with a space. */
  lemma BearerHeaderCapture(token: string)
    requires token != [] && !IsPcreSpace(token[0])
    requires forall k :: 0 <= k < |token| ==> token[k] != '\n'
    ensures MatchBearer(BearerHeader(token)) == Some(token)
  {
    var h := BearerHeader(token);
    assert h[..6] == "Bearer";
    assert h[7] == token[0];
    assert SkipSpaces(h, 7) == 7;
    assert forall k :: 7 <= k < |h| ==> h[k] == token[k - 7];
    assert LineEnd(h, 7) == |h|;
    assert h[7..|h|] == token;
  }

  /** `(string) $request->get_header('authorization')`: a missing header reads as ''. */
  function HeaderText(header: Option<string>): string {
    header.GetOr("")
  }

  /**
   * `checkPermissions`, given the stored token option and the request's
   * Authorization header. The result is acceptance exactly when a digest is
   * configured, the header uses the Bearer scheme, and the SHA-256 digest of
   * the trimmed token equals the stored digest; each guard fires only when all
   * earlier ones passed.
   */
  function CheckPermissions(storedToken: string, header: Option<string>, sha: Sha256): (r: Permission)
    ensures GetApiTokenDigest(storedToken) == "" ==> r == Denied(TokenNotConfigured)
    ensures GetApiTokenDigest(storedToken) != "" && HeaderText(header) == "" ==> r == Denied(MissingAuthorization)
    ensures GetApiTokenDigest(storedToken) != "" && HeaderText(header) != "" && MatchBearer(HeaderText(header)).None?
      ==> r == Denied(InvalidAuthorizationScheme)
    ensures r == Denied(InvalidToken) <==>
      GetApiTokenDigest(storedToken) != "" && HeaderText(header) != "" && MatchBearer(HeaderText(header)).Some?
      && (Trim(MatchBearer(HeaderText(header)).value) == ""
          || sha(Trim(MatchBearer(HeaderText(header)).value)) != GetApiTokenDigest(storedToken))
    ensures r == Granted <==>
      GetApiTokenDigest(storedToken) != "" && MatchBearer(HeaderText(header)).Some?
      && Trim(MatchBearer(HeaderText(header)).value) != ""
      && sha(Trim(MatchBearer(HeaderText(header)).value)) == GetApiTokenDigest(storedToken)
  {
    var tokenHash := GetApiTokenDigest(storedToken);
    if tokenHash == "" then Denied(TokenNotConfigured)
    else
      var authorization := HeaderText(header);
      if authorization == "" then Denied(MissingAuthorization)
      else match MatchBearer(authorization)
        case None => Denied(InvalidAuthorizationScheme)
        case Some(captured) =>
          var providedToken := Trim(captured);
          if providedToken == "" then Denied(InvalidToken)
          else if sha(providedToken) != tokenHash then Denied(InvalidToken)
          else Granted
  }

  /** The `Authorization` header a client sends for a token. */
  function BearerHeader(token: string): string {
    "Bearer " + token
  }

  /**
   * After a token is saved through the settings sanitiser, a request that
   * presents that token as `Bearer <token>` is accepted. The token must be
   * one line and must not start with a form feed (which `\s+` would eat but
   * `trim()` keeps).
   */
  lemma SavedTokenAuthenticates(raw: string, previous: string, sanitize: string -> string, sha: Sha256)
    requires Trim(sanitize(raw)) != "" && Trim(sanitize(raw)) != TokenPlaceholder
    requires forall k :: 0 <= k < |Trim(sanitize(raw))| ==> Trim(sanitize(raw))[k] != '\n'
    requires Trim(sanitize(raw))[0] != '\U{C}'
    ensures CheckPermissions(SanitizeApiToken(Php.Str(raw), previous, sanitize, sha),
                             Some(BearerHeader(Trim(sanitize(raw)))), sha) == Granted
  {
    var token := Trim(sanitize(raw));
    SavedTokenIsConfigured(Php.Str(raw), previous, sanitize, sha);
    BearerHeaderCapture(token);
    TrimIdempotent(sanitize(raw));
    MatchingTokenIsGranted(SanitizeApiToken(Php.Str(raw), previous, sanitize, sha), token, sha);
  }

  /** A trimmed, non-blank token that the header carries and whose digest is the stored one is accepted. */
  lemma MatchingTokenIsGranted(storedToken: string, token: string, sha: Sha256)
    requires token != "" && Trim(token) == token
    requires MatchBearer(BearerHeader(token)) == Some(token)
    requires GetApiTokenDigest(storedToken) == sha(token)
    ensures CheckPermissions(storedToken, Some(BearerHeader(token)), sha) == Granted
  {
    assert HeaderText(Some(BearerHeader(token))) == BearerHeader(token);
  }

  /** A request presenting a token whose digest differs from the stored one is rejected as an invalid token. */
  lemma WrongTokenIsRejected(storedToken: string, token: string, sha: Sha256)
    requires GetApiTokenDigest(storedToken) != ""
    requires MatchBearer(BearerHeader(token)).Some?
    requires sha(Trim(MatchBearer(BearerHeader(token)).value)) != GetApiTokenDigest(storedToken)
    ensures CheckPermissions(storedToken, Some(BearerHeader(token)), sha) == Denied(InvalidToken)
  {
  }

  /** A bare `Bearer`, with no space after it, is a scheme error. */
  lemma BareBearerIsSchemeError(storedToken: string, sha: Sha256)
    requires GetApiTokenDigest(storedToken) != ""
    ensures CheckPermissions(storedToken, Some("Bearer"), sha) == Denied(InvalidAuthorizationScheme)
  {
  }

  /** `Bearer` followed only by spaces carries a blank token, which is rejected as invalid. */
  lemma BlankBearerTokenIsInvalid(storedToken: string, sha: Sha256)
    requires GetApiTokenDigest(storedToken) != ""
    ensures CheckPermissions(storedToken, Some("Bearer   "), sha) == Denied(InvalidToken)
  {
    var h := "Bearer   ";
    assert h[..6] == "Bearer";
    assert SkipSpaces(h, 7) == |h|;
    assert LineEnd(h, |h|) == |h|;
    assert MatchBearer(h) == Some([]);
    assert Trim([]) == [];
  }

  /** The scheme word is matched in any letter case. */
  lemma LowerCaseSchemeIsAccepted()
    ensures MatchBearer("bearer abc") == Some("abc")
  {
    var h := "bearer abc";
    assert h[..6] == "bearer";
    assert IsBearerWord(h[..6]);
    assert SkipSpaces(h, 7) == 7;
    assert LineEnd(h, 7) == 10;
    assert h[7..10] == "abc";
  }
}
