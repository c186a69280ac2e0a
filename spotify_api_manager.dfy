/**
 * `spotify.api.SpotifyApiManager`: the life cycle of the Web API
 * credentials. A refresh needs both tokens and every required scope; when
 * it fails with `IllegalStateException` the user is asked to log in, and
 * the login callback hands over new tokens and releases the semaphore the
 * login waits on.
 *
 * The manager's state is a `Session` value: the tokens of the `SpotifyApi`
 * object, the semaphore's permits, the requests sent to the accounts
 * service, and the token pairs handed to `SpotifyApiConfig.updateTokens`.
 * What each request returns is a parameter. The login wait is an abstract
 * outcome: either the callback arrives within the timeout or it does not.
 * The pure functions below specify each operation; the class carries out
 * the same steps on its fields and on the configuration beans.
 */
module Manager {
  import opened Lang
  import SpotifyUtils
  import ApiConfig
  import SpringPort

  const LOGIN_CALLBACK_URI: string := "/callback"
  const CUSTOM_REDIRECT_URI_FROM_ENV: string := "redirect_uri"
  /** How long a login waits for the callback, in minutes. */
  const LOGIN_TIMEOUT: nat := 10
  /** The exit status after a login that timed out or failed. */
  const LOGIN_FAILED_STATUS: int := 182

  const TOKENS_MISSING: string := "Access and/or Refresh Tokens missing"
  const SCOPES_ADDED: string := "New required scopes have been added. A re-login is required"
  const LOGGED_IN: string := "Successfully logged in!"

  /** What a request returns once the script of replies is used up: the accounts service is unreachable. */
  const UNREACHABLE: Exception := ApiException(IOError("remote unreachable"))

  // ---------------------------------------------------------------------------
  // Redirect URI

  const REDIRECT_PREFIX: string := "http://127.0.0.1:"

  /**
   * `generateRedirectUri(port)`: a `redirect_uri` environment variable must
   * end with the callback path and is used as it is; otherwise the callback
   * on the loopback address at the given port (no port for a negative one,
   * as `URIBuilder` does).
   */
  function GenerateRedirectUri(redirectUriFromEnv: Option<string>, port: int): (r: Result<string, Exception>)
    ensures redirectUriFromEnv.Some? ==> (r.Success? <==> EndsWith(redirectUriFromEnv.value, LOGIN_CALLBACK_URI))
    ensures redirectUriFromEnv.Some? && r.Success? ==> r.value == redirectUriFromEnv.value
    ensures redirectUriFromEnv.None? ==> r.Success?
    ensures r.Failure? ==> r.error == IllegalState("'" + CUSTOM_REDIRECT_URI_FROM_ENV + "' must end with " + LOGIN_CALLBACK_URI)
  {
    if redirectUriFromEnv.Some? then
      if !EndsWith(redirectUriFromEnv.value, LOGIN_CALLBACK_URI) then
        Failure(IllegalState("'" + CUSTOM_REDIRECT_URI_FROM_ENV + "' must end with " + LOGIN_CALLBACK_URI))
      else Success(redirectUriFromEnv.value)
    else if port >= 0 then Success(REDIRECT_PREFIX + IntToString(port) + LOGIN_CALLBACK_URI)
    else Success("http://127.0.0.1" + LOGIN_CALLBACK_URI)
  }

  lemma EndsWithSuffix(s: string, suffix: string)
    ensures EndsWith(s + suffix, suffix)
  {
    assert (s + suffix)[|s|..] == suffix;
  }

  /** Every redirect URI the manager uses ends with the callback path. */
  lemma RedirectUriEndsWithCallback(redirectUriFromEnv: Option<string>, port: int)
    requires GenerateRedirectUri(redirectUriFromEnv, port).Success?
    ensures EndsWith(GenerateRedirectUri(redirectUriFromEnv, port).value, LOGIN_CALLBACK_URI)
  {
    if redirectUriFromEnv.None? {
      if port >= 0 {
        EndsWithSuffix(REDIRECT_PREFIX + IntToString(port), LOGIN_CALLBACK_URI);
      } else {
        EndsWithSuffix("http://127.0.0.1", LOGIN_CALLBACK_URI);
      }
    }
  }

  /** The default redirect URI names the port, and the port reads back from it. */
  lemma DefaultRedirectUriPort(port: int)
    requires 0 <= port <= INT_MAX
    ensures var uri := GenerateRedirectUri(None, port).value;
      && |REDIRECT_PREFIX| + |LOGIN_CALLBACK_URI| <= |uri|
      && uri[..|REDIRECT_PREFIX|] == REDIRECT_PREFIX
      && ParseInt(uri[|REDIRECT_PREFIX|..|uri| - |LOGIN_CALLBACK_URI|]) == Success(port)
  {
    var digits := IntToString(port);
    var uri := REDIRECT_PREFIX + digits + LOGIN_CALLBACK_URI;
    assert uri[|REDIRECT_PREFIX|..|uri| - |LOGIN_CALLBACK_URI|] == digits;
    assert uri[..|REDIRECT_PREFIX|] == REDIRECT_PREFIX;
    ParseIntToString(port);
  }

  // ---------------------------------------------------------------------------
  // Granted scopes

  predicate HasDuplicate(xs: seq<string>)
  {
    exists i, j | 0 <= i < j < |xs| :: xs[i] == xs[j]
  }

  /** The element `Set.of` reports as duplicate: the first one equal to an earlier one, looking from `j` on. */
  function FirstRepeatFrom(xs: seq<string>, j: nat): (r: Option<string>)
    requires j <= |xs|
    ensures r.None? <==> forall a, b | 0 <= a < b < |xs| && j <= b :: xs[a] != xs[b]
    ensures r.Some? ==> exists a, b | 0 <= a < b < |xs| && j <= b :: xs[a] == xs[b] == r.value
    decreases |xs| - j
  {
    if j == |xs| then None
    else if xs[j] in xs[..j] then
      ghost var a :| 0 <= a < j && xs[..j][a] == xs[j];
      assert xs[a] == xs[j];
      Some(xs[j])
    else
      assert forall a | 0 <= a < j :: xs[..j][a] == xs[a];
      FirstRepeatFrom(xs, j + 1)
  }

  /**
   * The scope check of `authorizationCodeRefresh`: a null scope string
   * throws on `split`; `Set.of` rejects a scope granted twice; the granted
   * scopes must contain every required scope.
   */
  function ScopeCheck(scope: Option<string>, requiredScopes: seq<string>): (r: Option<Exception>)
    ensures scope.None? ==> r == Some(NullPointer)
    ensures scope.Some? && HasDuplicate(JavaSplit(scope.value, ' ')) ==> r.Some? && r.value.IllegalArgument?
    ensures scope.Some? && !HasDuplicate(JavaSplit(scope.value, ' ')) ==>
      && (r.None? <==> forall s :: s in requiredScopes ==> s in JavaSplit(scope.value, ' '))
      && (r.Some? ==> r.value == IllegalState(SCOPES_ADDED))
  {
    if scope.None? then Some(NullPointer)
    else
      var accScopes := JavaSplit(scope.value, ' ');
      var repeated := FirstRepeatFrom(accScopes, 0);
      if repeated.Some? then Some(IllegalArgument("duplicate element: " + repeated.value))
      else if forall s | s in requiredScopes :: s in accScopes then None
      else Some(IllegalState(SCOPES_ADDED))
  }

  /** Granting exactly the required scopes, as `buildScopes` joins them, passes the check. */
  lemma RequiredScopesPass(requiredScopes: seq<string>)
    requires |requiredScopes| > 0 && requiredScopes[|requiredScopes| - 1] != ""
    requires forall i :: 0 <= i < |requiredScopes| ==> ' ' !in requiredScopes[i]
    requires !HasDuplicate(requiredScopes)
    ensures ScopeCheck(Some(SpotifyUtils.BuildScopes(requiredScopes)), requiredScopes).None?
  {
    SpotifyUtils.BuildScopesSplit(requiredScopes);
  }

  // ---------------------------------------------------------------------------
  // The session and its operations as values

  /** `AuthorizationCodeCredentials`: the fields the manager reads. */
  datatype Grant = Grant(accessToken: Option<string>, refreshToken: Option<string>, scope: Option<string>)

  /** A request to the accounts service. */
  datatype Call =
    | RefreshGrant                                              // authorizationCodeRefresh()
    | AuthorizationUri(redirectUri: string, scope: Option<string>) // authorizationCodeUri(), with its scope parameter
    | CodeGrant                                                 // authorizationCode(code)

  datatype TokenPair = TokenPair(accessToken: Option<string>, refreshToken: Option<string>)

  datatype Session = Session(
    accessToken: Option<string>,
    refreshToken: Option<string>,
    permits: nat,
    calls: seq<Call>,
    saved: seq<TokenPair>)

  /** A method that ends normally, throws, or ends the process with `System.exit`. */
  datatype Outcome<+T> = Normal(value: T) | Raised(error: Exception) | Exit(status: int)

  /** The same abrupt ending for a method of another result type. */
  function Abrupt<T, U>(o: Outcome<T>): (r: Outcome<U>)
    requires !o.Normal?
    ensures r.Raised? <==> o.Raised?
    ensures r.Raised? ==> r.error == o.error
    ensures r.Exit? ==> r.status == o.status
  {
    if o.Raised? then Raised(o.error) else Exit(o.status)
  }

  /** The new session after an operation, and what the operation gave. */
  datatype Step<+R> = Step(session: Session, result: R)

  /**
   * What one round of `refresh()` meets: the reply to the refresh request,
   * the reply to the authorization URI request, and the login callback's
   * code-grant reply if the user logs in before the timeout.
   */
  datatype Round = Round(
    refreshReply: Result<Grant, Exception>,
    uriReply: Result<string, Exception>,
    callback: Option<Result<Grant, Exception>>)

  /** Round `k` of the script; past its end every request finds the service unreachable. */
  function RoundAt(rounds: seq<Round>, k: nat): Round
  {
    if k < |rounds| then rounds[k] else Round(Failure(UNREACHABLE), Failure(UNREACHABLE), None)
  }

  /** A token of the response replaces the current one only when it is not null. */
  function Merge(current: Option<string>, provided: Option<string>): Option<string>
  {
    if provided.Some? then provided else current
  }

  /**
   * `updateTokens(acc)`: each token is kept unless the response has a new
   * one; the pair goes to the `SpotifyApi` object and to the configuration,
   * which throws `NullPointerException` for a null token; an
   * `IOException` from storing is logged and swallowed.
   */
  function UpdatedTokens(s: Session, acc: Grant): (r: Step<Option<Exception>>)
    ensures acc.accessToken.Some? ==> r.session.accessToken == acc.accessToken
    ensures acc.accessToken.None? ==> r.session.accessToken == s.accessToken
    ensures acc.refreshToken.Some? ==> r.session.refreshToken == acc.refreshToken
    ensures acc.refreshToken.None? ==> r.session.refreshToken == s.refreshToken
    ensures r.session.saved == s.saved + [TokenPair(r.session.accessToken, r.session.refreshToken)]
    ensures r.session.permits == s.permits && r.session.calls == s.calls
    ensures r.result.Some? <==> r.session.accessToken.None? || r.session.refreshToken.None?
    ensures r.result.Some? ==> r.result.value == NullPointer
  {
    var accessToken := Merge(s.accessToken, acc.accessToken);
    var refreshToken := Merge(s.refreshToken, acc.refreshToken);
    var updated := s.(accessToken := accessToken, refreshToken := refreshToken,
                      saved := s.saved + [TokenPair(accessToken, refreshToken)]);
    Step(updated, if accessToken.None? || refreshToken.None? then Some(NullPointer) else None)
  }

  /** Updating twice with the same response leaves the tokens as one update does. */
  lemma UpdateTokensIdempotent(s: Session, acc: Grant)
    ensures var once := UpdatedTokens(s, acc).session;
      var twice := UpdatedTokens(once, acc).session;
      twice.accessToken == once.accessToken && twice.refreshToken == once.refreshToken
  {
  }

  /**
   * `loginCallback(code)`: the code is exchanged for tokens, which are
   * stored, and then exactly one permit is released; an exception on the
   * way releases nothing.
   */
  function LoginCallbackSpec(s: Session, codeReply: Result<Grant, Exception>): (r: Step<Result<string, Exception>>)
    ensures r.session.calls == s.calls + [CodeGrant]
    ensures r.session.permits == s.permits + (if r.result.Success? then 1 else 0)
    ensures r.result.Success? <==> codeReply.Success? && UpdatedTokens(s, codeReply.value).result.None?
    ensures r.result.Success? ==> r.result.value == LOGGED_IN
    ensures codeReply.Failure? ==> r.result == Failure(codeReply.error) && r.session == s.(calls := s.calls + [CodeGrant])
    ensures s.accessToken.Some? ==> r.session.accessToken.Some?
    ensures s.refreshToken.Some? ==> r.session.refreshToken.Some?
  {
    var requested := s.(calls := s.calls + [CodeGrant]);
    if codeReply.Failure? then Step(requested, Failure(codeReply.error))
    else
      var u := UpdatedTokens(requested, codeReply.value);
      if u.result.Some? then Step(u.session, Failure(u.result.value))
      else Step(u.session.(permits := u.session.permits + 1), Success(LOGGED_IN))
  }

  /** The scope parameter of the authorization URI: only when the joined scopes are not blank. */
  function ScopeParameter(requiredScopes: seq<string>): (r: Option<string>)
    ensures r.None? <==> IsBlank(SpotifyUtils.BuildScopes(requiredScopes))
    ensures r.Some? ==> r.value == SpotifyUtils.BuildScopes(requiredScopes)
  {
    var scopes := SpotifyUtils.BuildScopes(requiredScopes);
    if IsBlank(scopes) then None else Some(scopes)
  }

  /**
   * `authenticate()`: the authorization URI is requested and shown; the
   * login waits for a permit. A `SpotifyApiException` or a wait that times
   * out ends the process with status 182; other exceptions pass through.
   */
  function AuthenticateSpec(s: Session, requiredScopes: seq<string>, redirectUri: string, round: Round): (r: Step<Outcome<()>>)
    ensures |r.session.calls| > |s.calls| && r.session.calls[|s.calls|] == AuthorizationUri(redirectUri, ScopeParameter(requiredScopes))
    ensures r.session.calls[..|s.calls|] == s.calls
    ensures round.uriReply.Failure? ==> r.result == (if round.uriReply.error.ApiException? then Exit(LOGIN_FAILED_STATUS) else Raised(round.uriReply.error))
    ensures round.uriReply.Success? && round.callback.None? ==>
      r.result == (if s.permits > 0 then Normal(()) else Exit(LOGIN_FAILED_STATUS))
    ensures round.uriReply.Success? && round.callback.Some? ==>
      r.result == (if LoginCallbackSpec(s, round.callback.value).session.permits > 0 then Normal(()) else Exit(LOGIN_FAILED_STATUS))
    ensures r.result.Exit? ==> r.result.status == LOGIN_FAILED_STATUS
    ensures s.accessToken.Some? ==> r.session.accessToken.Some?
    ensures s.refreshToken.Some? ==> r.session.refreshToken.Some?
  {
    var requested := s.(calls := s.calls + [AuthorizationUri(redirectUri, ScopeParameter(requiredScopes))]);
    if round.uriReply.Failure? then
      Step(requested, if round.uriReply.error.ApiException? then Exit(LOGIN_FAILED_STATUS) else Raised(round.uriReply.error))
    else
      var waited := if round.callback.Some? then LoginCallbackSpec(requested, round.callback.value).session else requested;
      if waited.permits > 0 then Step(waited.(permits := waited.permits - 1), Normal(()))
      else Step(waited, Exit(LOGIN_FAILED_STATUS))
  }

  /**
   * `authorizationCodeRefresh()`: with both tokens a refresh is requested;
   * its response must grant every required scope, and then its tokens are
   * stored and its access token returned. Without both tokens nothing is
   * requested and `IllegalStateException` is thrown.
   */
  function AuthorizationCodeRefreshSpec(s: Session, requiredScopes: seq<string>, reply: Result<Grant, Exception>): (r: Step<Result<Option<string>, Exception>>)
    ensures s.accessToken.None? || s.refreshToken.None? ==> r == Step(s, Failure(IllegalState(TOKENS_MISSING)))
    ensures s.accessToken.Some? && s.refreshToken.Some? ==> r.session.calls == s.calls + [RefreshGrant]
    ensures r.result.Success? <==>
      s.accessToken.Some? && s.refreshToken.Some? && reply.Success? && ScopeCheck(reply.value.scope, requiredScopes).None?
    ensures r.result.Success? ==>
      && r.result.value == reply.value.accessToken
      && r.session == UpdatedTokens(s.(calls := s.calls + [RefreshGrant]), reply.value).session
      && r.session.accessToken.Some? && r.session.refreshToken.Some?
    ensures r.result.Failure? ==>
      && r.session.accessToken == s.accessToken && r.session.refreshToken == s.refreshToken
      && r.session.saved == s.saved && r.session.permits == s.permits
    ensures r.result.Failure? && s.accessToken.Some? && s.refreshToken.Some? ==>
      r.result.error == (if reply.Failure? then reply.error else ScopeCheck(reply.value.scope, requiredScopes).value)
    ensures s.accessToken.Some? ==> r.session.accessToken.Some?
    ensures s.refreshToken.Some? ==> r.session.refreshToken.Some?
  {
    if s.accessToken.Some? && s.refreshToken.Some? then
      var requested := s.(calls := s.calls + [RefreshGrant]);
      if reply.Failure? then Step(requested, Failure(reply.error))
      else
        var check := ScopeCheck(reply.value.scope, requiredScopes);
        if check.Some? then Step(requested, Failure(check.value))
        else
          var u := UpdatedTokens(requested, reply.value);
          if u.result.Some? then Step(u.session, Failure(u.result.value))
          else Step(u.session, Success(reply.value.accessToken))
    else Step(s, Failure(IllegalState(TOKENS_MISSING)))
  }

  /**
   * `refresh()` from round `k` on: a refresh that succeeds ends it; an
   * `IllegalStateException` leads to a login and then another round; any
   * other exception passes through.
   */
  function RefreshSpec(s: Session, requiredScopes: seq<string>, redirectUri: string, rounds: seq<Round>, k: nat): Step<Outcome<Option<string>>>
    requires k <= |rounds|
    decreases |rounds| - k
  {
    var round := RoundAt(rounds, k);
    var attempt := AuthorizationCodeRefreshSpec(s, requiredScopes, round.refreshReply);
    if attempt.result.Success? then Step(attempt.session, Normal(attempt.result.value))
    else if !attempt.result.error.IllegalState? then Step(attempt.session, Raised(attempt.result.error))
    else
      var login := AuthenticateSpec(attempt.session, requiredScopes, redirectUri, round);
      if !login.result.Normal? then Step(login.session, Abrupt(login.result))
      else RefreshSpec(login.session, requiredScopes, redirectUri, rounds, k + 1)
  }

  /** `a` is a prefix of `b`: the requests in `a` were sent first, and `b` only adds to them. */
  predicate IsPrefix(a: seq<Call>, b: seq<Call>)
  {
    |a| <= |b| && b[..|a|] == a
  }

  lemma PrefixTransitive(a: seq<Call>, b: seq<Call>, c: seq<Call>)
    requires IsPrefix(a, b) && IsPrefix(b, c)
    ensures IsPrefix(a, c)
  {
    assert c[..|a|] == c[..|b|][..|a|];
  }

  /** `refresh()` only ever adds requests. */
  lemma {:induction false} RefreshKeepsRequests(s: Session, requiredScopes: seq<string>, redirectUri: string, rounds: seq<Round>, k: nat)
    requires k <= |rounds|
    ensures IsPrefix(s.calls, RefreshSpec(s, requiredScopes, redirectUri, rounds, k).session.calls)
    decreases |rounds| - k
  {
    var round := RoundAt(rounds, k);
    var attempt := AuthorizationCodeRefreshSpec(s, requiredScopes, round.refreshReply);
    assert IsPrefix(s.calls, attempt.session.calls) by {
      if attempt.session.calls != s.calls {
        assert attempt.session.calls == s.calls + [RefreshGrant];
      }
    }
    if attempt.result.Failure? && attempt.result.error.IllegalState? {
      var login := AuthenticateSpec(attempt.session, requiredScopes, redirectUri, round);
      PrefixTransitive(s.calls, attempt.session.calls, login.session.calls);
      if login.result.Normal? {
        RefreshKeepsRequests(login.session, requiredScopes, redirectUri, rounds, k + 1);
        PrefixTransitive(s.calls, login.session.calls, RefreshSpec(login.session, requiredScopes, redirectUri, rounds, k + 1).session.calls);
      }
    }
  }

  /**
   * How `refresh()` ends: normally only right after a granted refresh,
   * with both tokens present and stored; by exit only with status 182; and
   * tokens that were present stay present.
   */
  lemma {:induction false} RefreshEnds(s: Session, requiredScopes: seq<string>, redirectUri: string, rounds: seq<Round>, k: nat)
    requires k <= |rounds|
    ensures var e := RefreshSpec(s, requiredScopes, redirectUri, rounds, k);
      && (e.result.Normal? ==>
            && |e.session.calls| > 0 && e.session.calls[|e.session.calls| - 1] == RefreshGrant
            && e.session.accessToken.Some? && e.session.refreshToken.Some?
            && |e.session.saved| > 0
            && e.session.saved[|e.session.saved| - 1] == TokenPair(e.session.accessToken, e.session.refreshToken))
      && (e.result.Exit? ==> e.result.status == LOGIN_FAILED_STATUS)
      && (s.accessToken.Some? ==> e.session.accessToken.Some?)
      && (s.refreshToken.Some? ==> e.session.refreshToken.Some?)
    decreases |rounds| - k
  {
    var round := RoundAt(rounds, k);
    var attempt := AuthorizationCodeRefreshSpec(s, requiredScopes, round.refreshReply);
    if attempt.result.Failure? && attempt.result.error.IllegalState? {
      var login := AuthenticateSpec(attempt.session, requiredScopes, redirectUri, round);
      if login.result.Normal? {
        RefreshEnds(login.session, requiredScopes, redirectUri, rounds, k + 1);
      }
    }
  }

  /** Only an `IllegalStateException` from the refresh leads to a login; any other failure ends `refresh()` with it. */
  lemma OnlyIllegalStateLogsIn(s: Session, requiredScopes: seq<string>, redirectUri: string, rounds: seq<Round>, k: nat)
    requires k <= |rounds|
    requires AuthorizationCodeRefreshSpec(s, requiredScopes, RoundAt(rounds, k).refreshReply).result.Failure?
    ensures var attempt := AuthorizationCodeRefreshSpec(s, requiredScopes, RoundAt(rounds, k).refreshReply);
      var e := RefreshSpec(s, requiredScopes, redirectUri, rounds, k);
      && (!attempt.result.error.IllegalState? ==> e == Step(attempt.session, Raised(attempt.result.error)))
      && (attempt.result.error.IllegalState? ==>
            var login := AuthenticateSpec(attempt.session, requiredScopes, redirectUri, RoundAt(rounds, k));
            && |e.session.calls| > |attempt.session.calls|
            && e.session.calls[|attempt.session.calls|] == AuthorizationUri(redirectUri, ScopeParameter(requiredScopes))
            && (login.result.Normal? ==> e == RefreshSpec(login.session, requiredScopes, redirectUri, rounds, k + 1)))
  {
    var attempt := AuthorizationCodeRefreshSpec(s, requiredScopes, RoundAt(rounds, k).refreshReply);
    if attempt.result.error.IllegalState? {
      var login := AuthenticateSpec(attempt.session, requiredScopes, redirectUri, RoundAt(rounds, k));
      if login.result.Normal? {
        RefreshKeepsRequests(login.session, requiredScopes, redirectUri, rounds, k + 1);
        var e := RefreshSpec(login.session, requiredScopes, redirectUri, rounds, k + 1);
        assert e.session.calls[|attempt.session.calls|] == e.session.calls[..|login.session.calls|][|attempt.session.calls|];
      }
    }
  }

  // ---------------------------------------------------------------------------
  // The manager

  class SpotifyApiManager {
    const config: ApiConfig.SpotifyApiConfig
    /** `spotifyDependenciesSettings.requiredScopes()`. */
    const requiredScopes: seq<string>
    const redirectUri: string
    /** The tokens of the `SpotifyApi` object. */
    var accessToken: Option<string>
    var refreshToken: Option<string>
    /** The permits of the login semaphore. */
    var permits: nat
    var calls: seq<Call>
    var saved: seq<TokenPair>
    /** How many `SpotifyApiLoggedInEvent`s were published. */
    var loggedInEvents: nat

    function Snapshot(): Session
      reads this
    {
      Session(accessToken, refreshToken, permits, calls, saved)
    }

    /** The `SpotifyApi` object and the `OAuth2` bean hold the same tokens. */
    predicate Mirrors()
      reads this, config.botConfig
    {
      config.botConfig.accessToken == accessToken && config.botConfig.refreshToken == refreshToken
    }

    /**
     * The constructor with the `spotifyApi()` bean it provides: the tokens
     * come from the `OAuth2` bean; the semaphore starts without permits.
     */
    constructor (config: ApiConfig.SpotifyApiConfig, requiredScopes: seq<string>, redirectUri: string)
      ensures this.config == config && this.requiredScopes == requiredScopes && this.redirectUri == redirectUri
      ensures Snapshot() == Session(config.botConfig.accessToken, config.botConfig.refreshToken, 0, [], [])
      ensures loggedInEvents == 0
      ensures Mirrors()
    {
      this.config := config;
      this.requiredScopes := requiredScopes;
      this.redirectUri := redirectUri;
      accessToken := config.botConfig.accessToken;
      refreshToken := config.botConfig.refreshToken;
      permits := 0;
      calls := [];
      saved := [];
      loggedInEvents := 0;
    }

    /** `updateTokens(acc)`; a stored pair of tokens also lands in the properties. */
    method UpdateTokens(acc: Grant) returns (thrown: Option<Exception>)
      modifies this, config, config.botConfig
      ensures Step(Snapshot(), thrown) == UpdatedTokens(old(Snapshot()), acc)
      ensures loggedInEvents == old(loggedInEvents)
      ensures Mirrors()
      ensures accessToken.Some? && refreshToken.Some? ==>
        config.properties == old(config.properties)[ApiConfig.ACCESS_TOKEN := accessToken.value][ApiConfig.REFRESH_TOKEN := refreshToken.value]
    {
      var newAccessToken := accessToken;
      if acc.accessToken.Some? {
        newAccessToken := acc.accessToken;
      }
      var newRefreshToken := refreshToken;
      if acc.refreshToken.Some? {
        newRefreshToken := acc.refreshToken;
      }
      accessToken, refreshToken := newAccessToken, newRefreshToken;
      saved := saved + [TokenPair(newAccessToken, newRefreshToken)];
      var configThrown := config.UpdateTokens(newAccessToken, newRefreshToken);
      if configThrown.Some? && configThrown.value.IOError? {
        thrown := None;
      } else {
        thrown := configThrown;
      }
    }

    /** `loginCallback(code)`, given the reply to the code grant. */
    method LoginCallback(codeReply: Result<Grant, Exception>) returns (r: Result<string, Exception>)
      requires Mirrors()
      modifies this, config, config.botConfig
      ensures Step(Snapshot(), r) == LoginCallbackSpec(old(Snapshot()), codeReply)
      ensures loggedInEvents == old(loggedInEvents)
      ensures Mirrors()
    {
      calls := calls + [CodeGrant];
      if codeReply.Failure? {
        return Failure(codeReply.error);
      }
      var thrown := UpdateTokens(codeReply.value);
      if thrown.Some? {
        return Failure(thrown.value);
      }
      permits := permits + 1;
      return Success(LOGGED_IN);
    }

    /** `authenticate()`, given what this round's requests return. */
    method Authenticate(round: Round) returns (outcome: Outcome<()>)
      requires Mirrors()
      modifies this, config, config.botConfig
      ensures Step(Snapshot(), outcome) == AuthenticateSpec(old(Snapshot()), requiredScopes, redirectUri, round)
      ensures loggedInEvents == old(loggedInEvents)
      ensures Mirrors()
    {
      var scopes := SpotifyUtils.BuildScopes(requiredScopes);
      var scope: Option<string> := None;
      if !IsBlank(scopes) {
        scope := Some(scopes);
      }
      calls := calls + [AuthorizationUri(redirectUri, scope)];
      if round.uriReply.Failure? {
        if round.uriReply.error.ApiException? {
          return Exit(LOGIN_FAILED_STATUS);
        }
        return Raised(round.uriReply.error);
      }
      if round.callback.Some? {
        var response := LoginCallback(round.callback.value);
      }
      if permits == 0 {
        return Exit(LOGIN_FAILED_STATUS);
      }
      permits := permits - 1;
      return Normal(());
    }

    /** `authorizationCodeRefresh()`, given the reply to the refresh request. */
    method AuthorizationCodeRefresh(reply: Result<Grant, Exception>) returns (r: Result<Option<string>, Exception>)
      requires Mirrors()
      modifies this, config, config.botConfig
      ensures Step(Snapshot(), r) == AuthorizationCodeRefreshSpec(old(Snapshot()), requiredScopes, reply)
      ensures loggedInEvents == old(loggedInEvents)
      ensures Mirrors()
    {
      if accessToken.None? || refreshToken.None? {
        return Failure(IllegalState(TOKENS_MISSING));
      }
      calls := calls + [RefreshGrant];
      if reply.Failure? {
        return Failure(reply.error);
      }
      var check := ScopeCheck(reply.value.scope, requiredScopes);
      if check.Some? {
        return Failure(check.value);
      }
      var thrown := UpdateTokens(reply.value);
      if thrown.Some? {
        return Failure(thrown.value);
      }
      return Success(reply.value.accessToken);
    }

    /** `refresh()` from round `k` of the script on. */
    method RefreshFrom(rounds: seq<Round>, k: nat) returns (outcome: Outcome<Option<string>>)
      requires k <= |rounds| && Mirrors()
      modifies this, config, config.botConfig
      ensures Step(Snapshot(), outcome) == RefreshSpec(old(Snapshot()), requiredScopes, redirectUri, rounds, k)
      ensures loggedInEvents == old(loggedInEvents)
      ensures Mirrors()
      decreases |rounds| - k
    {
      var round := RoundAt(rounds, k);
      var attempt := AuthorizationCodeRefresh(round.refreshReply);
      if attempt.Success? {
        return Normal(attempt.value);
      }
      if !attempt.error.IllegalState? {
        return Raised(attempt.error);
      }
      var login := Authenticate(round);
      if !login.Normal? {
        return Abrupt(login);
      }
      outcome := RefreshFrom(rounds, k + 1);
    }

    /** `refresh()`. */
    method Refresh(rounds: seq<Round>) returns (outcome: Outcome<Option<string>>)
      requires Mirrors()
      modifies this, config, config.botConfig
      ensures Step(Snapshot(), outcome) == RefreshSpec(old(Snapshot()), requiredScopes, redirectUri, rounds, 0)
      ensures loggedInEvents == old(loggedInEvents)
      ensures Mirrors()
    {
      outcome := RefreshFrom(rounds, 0);
    }

    /** `initialLogin()`: a refresh, then the logged-in event, once. */
    method InitialLogin(rounds: seq<Round>) returns (outcome: Outcome<Option<string>>)
      requires Mirrors()
      modifies this, config, config.botConfig
      ensures Step(Snapshot(), outcome) == RefreshSpec(old(Snapshot()), requiredScopes, redirectUri, rounds, 0)
      ensures loggedInEvents == old(loggedInEvents) + (if outcome.Normal? then 1 else 0)
      ensures Mirrors()
    {
      outcome := Refresh(rounds);
      if outcome.Normal? {
        loggedInEvents := loggedInEvents + 1;
      }
    }
  }

  /**
   * Creating the manager: the redirect URI from the port, which
   * `SpringPortConfig.getPort()` works out, and the environment; either can
   * throw.
   */
  method NewSpotifyApiManager(config: ApiConfig.SpotifyApiConfig, requiredScopes: seq<string>,
                              springPortConfig: SpringPort.SpringPortConfig, redirectUriFromEnv: Option<string>)
    returns (r: Result<SpotifyApiManager, Exception>)
    modifies springPortConfig
    ensures var port := if old(springPortConfig.port).Some? then Success(old(springPortConfig.port).value)
                        else SpringPort.FirstPort(springPortConfig.serverPortFromApplicationProperties, springPortConfig.settingsPort);
      && (port.Failure? ==> r == Failure(port.error))
      && (port.Success? ==>
            var uri := GenerateRedirectUri(redirectUriFromEnv, port.value);
            && (uri.Failure? ==> r == Failure(uri.error))
            && (uri.Success? ==>
                  && r.Success? && fresh(r.value)
                  && r.value.config == config && r.value.requiredScopes == requiredScopes && r.value.redirectUri == uri.value
                  && r.value.Snapshot() == Session(config.botConfig.accessToken, config.botConfig.refreshToken, 0, [], [])
                  && r.value.Mirrors()))
  {
    var port := springPortConfig.GetPort();
    if port.Failure? {
      return Failure(port.error);
    }
    var redirectUri := GenerateRedirectUri(redirectUriFromEnv, port.value);
    if redirectUri.Failure? {
      return Failure(redirectUri.error);
    }
    var manager := new SpotifyApiManager(config, requiredScopes, redirectUri.value);
    return Success(manager);
  }
}
