/**
 * The founder controller as an object over the founder table. Each handler
 * is a method that takes the parsed request, walks through its checks with
 * early exits, and updates the table in place; its postcondition ties the
 * reply, the new table and the calls it made to the matching function of
 * `SessionSpec`. The call log is a ghost out-parameter.
 */
module FounderController {
  import opened Wrappers
  import opened FounderTypes
  import opened SessionSpec

  class FounderStore {
    var founders: Store
    const keys: Keys

    ghost predicate Valid()
      reads this
    {
      ValidStore(founders)
    }

    constructor (rows: Store, keys: Keys)
      requires ValidStore(rows)
      ensures Valid() && founders == rows && this.keys == keys
    {
      founders := rows;
      this.keys := keys;
    }

    /** `generateAccessAndRefreshToken`. */
    method GenerateAccessAndRefreshToken(founderId: FounderId, signing: Signing)
      returns (tokens: Result<TokenPair, ApiError>, ghost calls: seq<Call>)
      requires Valid()
      modifies this
      ensures Valid()
      ensures tokens == Issue(old(founders), founderId, signing).out
      ensures founders == Issue(old(founders), founderId, signing).founders
      ensures calls == Issue(old(founders), founderId, signing).calls
    {
      calls := [FindById(founderId)];
      var founder := LookupById(founders, founderId);
      if founder.None? {
        // ApiError(404, "Founder not found"), caught by the handler's own catch
        return Failure(ApiError(500, TokenError)), calls;
      }
      calls := calls + [SignAccessToken(founderId)];
      if signing.access.None? {
        return Failure(ApiError(500, TokenError)), calls;
      }
      var accessToken := signing.access.value;
      calls := calls + [SignRefreshToken(founderId)];
      if signing.refresh.None? {
        return Failure(ApiError(500, TokenError)), calls;
      }
      var refreshToken := signing.refresh.value;
      // Assumed effect of the signing extension: it stores the refresh token it signs.
      founders := founders[founderId := founders[founderId].(refreshToken := Some(refreshToken))];
      tokens := Success(TokenPair(accessToken, refreshToken));
    }

    /** `loginFounder`. */
    method LoginFounder(username: Option<string>, password: Option<string>, signing: Signing)
      returns (reply: Reply, ghost calls: seq<Call>)
      requires Valid()
      modifies this
      ensures Valid()
      ensures reply == Login(keys, old(founders), username, password, signing).out
      ensures founders == Login(keys, old(founders), username, password, signing).founders
      ensures calls == Login(keys, old(founders), username, password, signing).calls
    {
      if !Present(username) || !Present(password) {
        return Fail(ApiError(400, MissingCredentials)), [];
      }
      var u, p := username.value, password.value;
      calls := [FindByUsername(u)];
      var founder := LookupByUsername(founders, u);
      if founder.None? {
        return Fail(ApiError(400, UnknownUsername)), calls;
      }
      calls := calls + [ComparePassword(u)];
      if !keys.comparePassword(founder.value, p) {
        return Fail(ApiError(400, WrongPassword)), calls;
      }
      var id := founder.value.id;
      var tokens, issueCalls := GenerateAccessAndRefreshToken(id, signing);
      calls := calls + issueCalls;
      if tokens.Failure? {
        return Fail(tokens.error), calls;
      }
      calls := calls + [FindById(id)];
      var loggedIn := LookupById(founders, id);
      var profile := if loggedIn.Some? then Some(Public(loggedIn.value)) else None;
      reply := Respond(200, LoggedIn(profile), LoginMessage,
                       SessionCookies(tokens.value.accessToken, tokens.value.refreshToken));
    }

    /** `logoutFounder`, for the founder the authentication layer identified. */
    method LogoutFounder(caller: FounderId) returns (reply: Reply, ghost calls: seq<Call>)
      requires Valid()
      modifies this
      ensures Valid()
      ensures reply == Logout(old(founders), caller).out
      ensures founders == Logout(old(founders), caller).founders
      ensures calls == Logout(old(founders), caller).calls
    {
      calls := [ClearRefreshToken(caller)];
      if caller !in founders {
        return StoreFault, calls;
      }
      founders := founders[caller := founders[caller].(refreshToken := None)];
      reply := Respond(200, Empty, LogoutMessage, ClearedCookies());
    }

    /** `getFounderDetail`, for the founder the authentication layer identified. */
    function GetFounderDetail(caller: FounderId): (r: Reply)
      reads this
      ensures r == FounderDetail(founders, caller).out
    {
      Respond(200, Record(LookupById(founders, caller)), DetailMessage, [])
    }

    /** `refreshAccessToken`, given the `refreshToken` cookie and body field. */
    method RefreshAccessToken(cookie: Option<string>, bodyToken: Option<string>, signing: Signing)
      returns (reply: Reply, ghost calls: seq<Call>)
      requires Valid()
      modifies this
      ensures Valid()
      ensures reply == Refresh(keys, old(founders), cookie, bodyToken, signing).out
      ensures founders == Refresh(keys, old(founders), cookie, bodyToken, signing).founders
      ensures calls == Refresh(keys, old(founders), cookie, bodyToken, signing).calls
    {
      var incoming := if Present(cookie) then cookie else bodyToken;
      if !Present(incoming) {
        return Fail(ApiError(401, NoRefreshToken)), [];
      }
      var token := incoming.value;
      // try { ... } catch (error) { throw new ApiError(401, error?.message || "Invalid refresh token") }
      var thrown: string;
      calls := [VerifyRefreshToken(token)];
      var decoded := keys.verifyRefresh(token);
      if decoded.Failure? {
        thrown := decoded.error;
      } else {
        var id := decoded.value;
        calls := calls + [FindById(id)];
        var founder := LookupById(founders, id);
        if founder.None? {
          thrown := InvalidRefreshToken;
        } else if incoming != founder.value.refreshToken {
          thrown := RevokedRefreshToken;
        } else {
          var tokens, issueCalls := GenerateAccessAndRefreshToken(id, signing);
          calls := calls + issueCalls;
          if tokens.Failure? {
            thrown := tokens.error.message;
          } else {
            var pair := tokens.value;
            return Respond(200, Tokens(pair.accessToken, pair.refreshToken), RefreshMessage,
                           SessionCookies(pair.accessToken, pair.refreshToken)), calls;
          }
        }
      }
      reply := Fail(ApiError(401, Rethrown(thrown)));
    }
  }
}
