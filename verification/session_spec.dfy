/**
 * The four handlers of the founder controller, and the token helper they
 * share, as functions from the founder table (and the request) to a `Step`:
 * how the request ends, the table afterwards, and the external calls made,
 * in order. The methods of `FounderController.FounderStore` are proved to
 * behave as these functions say.
 */
module SessionSpec {
  import opened Wrappers
  import opened FounderTypes

  datatype Step<T> = Step(out: T, founders: Store, calls: seq<Call>)

  /**
   * `generateAccessAndRefreshToken`: look the founder up, sign an access
   * token, then sign a refresh token. Every error in that block, the 404 for
   * a missing founder included, is replaced by 500 "Error generating tokens".
   * The signing extension is assumed to persist the refresh token it returns
   * on the founder's row; a call that throws is assumed to persist nothing.
   */
  function Issue(s: Store, id: FounderId, signing: Signing): (r: Step<Result<TokenPair, ApiError>>)
    ensures r.out.Success? <==> id in s && signing.access.Some? && signing.refresh.Some?
    ensures r.out.Success? ==>
              && r.out.value == TokenPair(signing.access.value, signing.refresh.value)
              && r.founders == SetRefreshToken(s, id, signing.refresh)
    ensures r.out.Failure? ==> r.out.error == ApiError(500, TokenError) && r.founders == s
    ensures OnlyTokenOf(s, r.founders, id)
    ensures 1 <= |r.calls| <= 3 && r.calls[0] == FindById(id)
    ensures |r.calls| > 1 ==> id in s
  {
    if id !in s then
      // ApiError(404, "Founder not found"), caught and replaced
      Step(Failure(ApiError(500, TokenError)), s, [FindById(id)])
    else if signing.access.None? then
      Step(Failure(ApiError(500, TokenError)), s, [FindById(id), SignAccessToken(id)])
    else if signing.refresh.None? then
      Step(Failure(ApiError(500, TokenError)), s, [FindById(id), SignAccessToken(id), SignRefreshToken(id)])
    else
      Step(Success(TokenPair(signing.access.value, signing.refresh.value)),
           SetRefreshToken(s, id, signing.refresh),
           [FindById(id), SignAccessToken(id), SignRefreshToken(id)])
  }

  /** Login passes every check it makes before issuing tokens. */
  predicate CredentialsAccepted(keys: Keys, s: Store, username: Option<string>, password: Option<string>)
    requires ValidStore(s)
  {
    && Present(username) && Present(password)
    && var found := LookupByUsername(s, username.value);
    && found.Some? && keys.comparePassword(found.value, password.value)
  }

  /** `loginFounder`. */
  function Login(keys: Keys, s: Store, username: Option<string>, password: Option<string>, signing: Signing): (r: Step<Reply>)
    requires ValidStore(s)
    ensures ValidStore(r.founders) && r.founders.Keys == s.Keys
    // missing input: rejected before the store is consulted
    ensures !Present(username) || !Present(password) ==>
              r.out == Fail(ApiError(400, MissingCredentials)) && r.calls == []
    // otherwise the username lookup comes first
    ensures Present(username) && Present(password) ==> |r.calls| > 0 && r.calls[0] == FindByUsername(username.value)
    ensures Present(username) && Present(password) && LookupByUsername(s, username.value).None? ==>
              r.out == Fail(ApiError(400, UnknownUsername)) && r.calls == [FindByUsername(username.value)]
    ensures Present(username) && Present(password) && LookupByUsername(s, username.value).Some?
            && !keys.comparePassword(LookupByUsername(s, username.value).value, password.value) ==>
              && r.out == Fail(ApiError(400, WrongPassword))
              && r.calls == [FindByUsername(username.value), ComparePassword(username.value)]
    ensures CredentialsAccepted(keys, s, username, password) && !r.out.Respond? ==>
              r.out == Fail(ApiError(500, TokenError))
    // a failure sets no cookie and writes nothing
    ensures !r.out.Respond? ==> r.out.Fail? && r.founders == s && Cookies(r.out) == []
    ensures r.out.Respond? <==>
              CredentialsAccepted(keys, s, username, password) && signing.access.Some? && signing.refresh.Some?
    ensures r.out.Respond? ==>
              var f := LookupByUsername(s, username.value).value;
              && r.out == Respond(200, LoggedIn(Some(Public(f))), LoginMessage,
                                  SessionCookies(signing.access.value, signing.refresh.value))
              && r.founders == SetRefreshToken(s, f.id, signing.refresh)
  {
    if !Present(username) || !Present(password) then
      Step(Fail(ApiError(400, MissingCredentials)), s, [])
    else
      var u, p := username.value, password.value;
      var found := LookupByUsername(s, u);
      if found.None? then
        Step(Fail(ApiError(400, UnknownUsername)), s, [FindByUsername(u)])
      else if !keys.comparePassword(found.value, p) then
        Step(Fail(ApiError(400, WrongPassword)), s, [FindByUsername(u), ComparePassword(u)])
      else
        var id := found.value.id;
        var issued := Issue(s, id, signing);
        var calls := [FindByUsername(u), ComparePassword(u)] + issued.calls;
        match issued.out
        case Failure(e) => Step(Fail(e), issued.founders, calls)
        case Success(pair) =>
          var again := LookupById(issued.founders, id);
          var profile := if again.Some? then Some(Public(again.value)) else None;
          Step(Respond(200, LoggedIn(profile), LoginMessage, SessionCookies(pair.accessToken, pair.refreshToken)),
               issued.founders, calls + [FindById(id)])
  }

  /** `logoutFounder`: null the caller's refresh token, clear both cookies. An
      update of a row that does not exist throws inside the store. */
  function Logout(s: Store, caller: FounderId): (r: Step<Reply>)
    ensures OnlyTokenOf(s, r.founders, caller)
    ensures ValidStore(s) ==> ValidStore(r.founders)
    ensures caller in s ==>
              && r.founders[caller].refreshToken == None
              && r.out == Respond(200, Empty, LogoutMessage, ClearedCookies())
    ensures caller !in s ==> r.out == StoreFault && r.founders == s
    ensures r.calls == [ClearRefreshToken(caller)]
  {
    if caller in s then
      Step(Respond(200, Empty, LogoutMessage, ClearedCookies()), SetRefreshToken(s, caller, None), [ClearRefreshToken(caller)])
    else
      Step(StoreFault, s, [ClearRefreshToken(caller)])
  }

  /** `getFounderDetail`: the row found by id, whatever it is. */
  function FounderDetail(s: Store, caller: FounderId): (r: Step<Reply>)
    ensures r.out.Respond? && r.out.status == 200 && r.out.message == DetailMessage && r.out.cookies == []
    ensures r.founders == s && r.calls == [FindById(caller)]
    ensures r.out.body.Record? && (r.out.body.founder.Some? <==> caller in s)
    ensures caller in s ==> r.out.body.founder == Some(s[caller])
  {
    Step(Respond(200, Record(LookupById(s, caller)), DetailMessage, []), s, [FindById(caller)])
  }

  /** `req.cookies.refreshToken || req.body.refreshToken`. */
  function Incoming(cookie: Option<string>, bodyToken: Option<string>): (t: Option<string>)
    ensures Present(t) <==> Present(cookie) || Present(bodyToken)
    ensures Present(cookie) ==> t == cookie
    ensures !Present(cookie) ==> t == bodyToken
  {
    if Present(cookie) then cookie else bodyToken
  }

  /** `error?.message || "Invalid refresh token"`. */
  function Rethrown(message: string): (m: string)
    ensures m != ""
    ensures message != "" ==> m == message
    ensures message == "" ==> m == InvalidRefreshToken
  {
    if message != "" then message else InvalidRefreshToken
  }

  /** The refresh token verifies, names a stored founder, and is exactly the
      token stored for that founder. */
  predicate RefreshAccepted(keys: Keys, s: Store, incoming: Option<string>) {
    && Present(incoming)
    && keys.verifyRefresh(incoming.value).Success?
    && var id := keys.verifyRefresh(incoming.value).value;
    && id in s && s[id].refreshToken == incoming
  }

  /** The `try` block of `refreshAccessToken`; an error is the thrown error's message. */
  function RefreshTry(keys: Keys, s: Store, token: string, signing: Signing): (r: Step<Result<TokenPair, string>>)
    requires token != ""  // the block is entered only past the `!incomingRefreshToken` check
    ensures |r.calls| > 0 && r.calls[0] == VerifyRefreshToken(token)
    ensures r.out.Failure? ==> r.founders == s
    // the errors the block raises itself all carry a message
    ensures r.out.Failure? && keys.verifyRefresh(token).Success? ==> r.out.error != ""
    ensures r.out.Success? <==>
              RefreshAccepted(keys, s, Some(token)) && signing.access.Some? && signing.refresh.Some?
    ensures r.out.Success? ==>
              && r.out.value == TokenPair(signing.access.value, signing.refresh.value)
              && r.founders == SetRefreshToken(s, keys.verifyRefresh(token).value, signing.refresh)
  {
    match keys.verifyRefresh(token)
    case Failure(m) => Step(Failure(m), s, [VerifyRefreshToken(token)])
    case Success(id) =>
      var calls := [VerifyRefreshToken(token), FindById(id)];
      if id !in s then
        Step(Failure(InvalidRefreshToken), s, calls)
      else if s[id].refreshToken != Some(token) then
        Step(Failure(RevokedRefreshToken), s, calls)
      else
        var issued := Issue(s, id, signing);
        match issued.out
        case Failure(e) => Step(Failure(e.message), issued.founders, calls + issued.calls)
        case Success(pair) => Step(Success(pair), issued.founders, calls + issued.calls)
  }

  /** `refreshAccessToken`. */
  function Refresh(keys: Keys, s: Store, cookie: Option<string>, bodyToken: Option<string>, signing: Signing): (r: Step<Reply>)
    // no token: rejected before verification and before the store is consulted
    ensures !Present(Incoming(cookie, bodyToken)) ==>
              r.out == Fail(ApiError(401, NoRefreshToken)) && r.founders == s && r.calls == []
    // otherwise verification comes first
    ensures Present(Incoming(cookie, bodyToken)) ==> |r.calls| > 0 && r.calls[0] == VerifyRefreshToken(Incoming(cookie, bodyToken).value)
    ensures Present(Incoming(cookie, bodyToken)) && keys.verifyRefresh(Incoming(cookie, bodyToken).value).Failure? ==>
              && r.out == Fail(ApiError(401, Rethrown(keys.verifyRefresh(Incoming(cookie, bodyToken).value).error)))
              && r.calls == [VerifyRefreshToken(Incoming(cookie, bodyToken).value)]
    ensures Present(Incoming(cookie, bodyToken)) && keys.verifyRefresh(Incoming(cookie, bodyToken).value).Success?
            && keys.verifyRefresh(Incoming(cookie, bodyToken).value).value !in s ==>
              && r.out == Fail(ApiError(401, InvalidRefreshToken))
              && r.calls == [VerifyRefreshToken(Incoming(cookie, bodyToken).value),
                             FindById(keys.verifyRefresh(Incoming(cookie, bodyToken).value).value)]
    ensures Present(Incoming(cookie, bodyToken)) && keys.verifyRefresh(Incoming(cookie, bodyToken).value).Success?
            && keys.verifyRefresh(Incoming(cookie, bodyToken).value).value in s
            && s[keys.verifyRefresh(Incoming(cookie, bodyToken).value).value].refreshToken != Incoming(cookie, bodyToken) ==>
              && r.out == Fail(ApiError(401, RevokedRefreshToken))
              && r.calls == [VerifyRefreshToken(Incoming(cookie, bodyToken).value),
                             FindById(keys.verifyRefresh(Incoming(cookie, bodyToken).value).value)]
    ensures RefreshAccepted(keys, s, Incoming(cookie, bodyToken)) && !r.out.Respond? ==>
              r.out == Fail(ApiError(401, TokenError))
    // every failure is a 401 with a non-empty message, sets no cookie and writes nothing
    ensures !r.out.Respond? ==>
              r.out.Fail? && r.out.error.status == 401 && r.out.error.message != ""
              && r.founders == s && Cookies(r.out) == []
    ensures r.out.Respond? <==>
              RefreshAccepted(keys, s, Incoming(cookie, bodyToken)) && signing.access.Some? && signing.refresh.Some?
    ensures r.out.Respond? ==>
              var id := keys.verifyRefresh(Incoming(cookie, bodyToken).value).value;
              && r.out == Respond(200, Tokens(signing.access.value, signing.refresh.value), RefreshMessage,
                                  SessionCookies(signing.access.value, signing.refresh.value))
              && r.founders == SetRefreshToken(s, id, signing.refresh)
  {
    var incoming := Incoming(cookie, bodyToken);
    if !Present(incoming) then
      Step(Fail(ApiError(401, NoRefreshToken)), s, [])
    else
      var attempt := RefreshTry(keys, s, incoming.value, signing);
      match attempt.out
      case Failure(m) => Step(Fail(ApiError(401, Rethrown(m))), attempt.founders, attempt.calls)
      case Success(pair) =>
        Step(Respond(200, Tokens(pair.accessToken, pair.refreshToken), RefreshMessage,
                     SessionCookies(pair.accessToken, pair.refreshToken)),
             attempt.founders, attempt.calls)
  }
}
