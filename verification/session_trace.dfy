/**
 * A sequence of requests handled one after another against the founder
 * table, and what holds of every such sequence: cookies are set in pairs or
 * cleared in pairs, a founder who logged out stays without a usable refresh
 * token until that founder logs in again, and a refresh token that is no
 * longer stored is never accepted again.
 */
module SessionTrace {
  import opened Wrappers
  import opened FounderTypes
  import opened SessionSpec

  datatype Request =
    | LoginRequest(username: Option<string>, password: Option<string>, signing: Signing)
    | LogoutRequest(caller: FounderId)
    | DetailRequest(caller: FounderId)
    | RefreshRequest(cookie: Option<string>, bodyToken: Option<string>, signing: Signing)

  /** One request, dispatched to its handler. */
  function Apply(keys: Keys, s: Store, req: Request): (r: Step<Reply>)
    requires ValidStore(s)
    ensures ValidStore(r.founders) && r.founders.Keys == s.Keys
    // every handler changes at most the `refreshToken` of each row
    ensures forall id :: id in s ==> r.founders[id].(refreshToken := s[id].refreshToken) == s[id]
  {
    match req
    case LoginRequest(u, p, signing) => Login(keys, s, u, p, signing)
    case LogoutRequest(caller) => Logout(s, caller)
    case DetailRequest(caller) => FounderDetail(s, caller)
    case RefreshRequest(cookie, bodyToken, signing) => Refresh(keys, s, cookie, bodyToken, signing)
  }

  datatype Run = Run(replies: seq<Reply>, founders: Store)

  /** The requests handled in order, each against the table the previous one left. */
  function Replay(keys: Keys, s: Store, reqs: seq<Request>): (r: Run)
    requires ValidStore(s)
    ensures ValidStore(r.founders) && r.founders.Keys == s.Keys && |r.replies| == |reqs|
    decreases |reqs|
  {
    if reqs == [] then Run([], s)
    else
      var first := Apply(keys, s, reqs[0]);
      var rest := Replay(keys, first.founders, reqs[1..]);
      Run([first.out] + rest.replies, rest.founders)
  }

  /** Every reply either touches no cookie, clears both session cookies, or
      sets both, `accessToken` then `refreshToken`, httpOnly and secure. */
  lemma CookiesInPairs(keys: Keys, s: Store, req: Request)
    requires ValidStore(s)
    ensures var c := Cookies(Apply(keys, s, req).out);
            || c == []
            || c == ClearedCookies()
            || (|c| == 2 && c[0].SetCookie? && c[1].SetCookie? && c == SessionCookies(c[0].value, c[1].value))
  {
  }

  /** The request is a login naming `username`. */
  predicate LogsInAs(req: Request, username: string) {
    req.LoginRequest? && req.username == Some(username)
  }

  /** The request is a refresh whose token verifies to `id`. */
  predicate RefreshesAs(keys: Keys, req: Request, id: FounderId) {
    && req.RefreshRequest?
    && Present(Incoming(req.cookie, req.bodyToken))
    && keys.verifyRefresh(Incoming(req.cookie, req.bodyToken).value) == Success(id)
  }

  /** The refresh token a request's signer hands out, if any. */
  function SignedRefresh(req: Request): Option<string> {
    match req
    case LoginRequest(_, _, signing) => signing.refresh
    case RefreshRequest(_, _, signing) => signing.refresh
    case _ => None
  }

  /** The request is a refresh presenting `token`. */
  predicate Presents(req: Request, token: string) {
    req.RefreshRequest? && Incoming(req.cookie, req.bodyToken) == Some(token)
  }

  lemma StepKeepsRevoked(keys: Keys, s: Store, req: Request, id: FounderId)
    requires ValidStore(s) && id in s && s[id].refreshToken == None
    requires !LogsInAs(req, s[id].username)
    ensures Apply(keys, s, req).founders[id] == s[id]
    ensures !(Apply(keys, s, req).out.Respond? && RefreshesAs(keys, req, id))
  {
  }

  /** Once a founder's stored refresh token is null (after logout), no refresh
      for that founder succeeds and the token stays null, whatever other
      requests arrive, until a login naming that founder's username. */
  lemma {:induction false} RevokedUntilLogin(keys: Keys, s: Store, reqs: seq<Request>, id: FounderId)
    requires ValidStore(s) && id in s && s[id].refreshToken == None
    requires forall i :: 0 <= i < |reqs| ==> !LogsInAs(reqs[i], s[id].username)
    ensures Replay(keys, s, reqs).founders[id] == s[id]
    ensures forall i :: 0 <= i < |reqs| ==> !(Replay(keys, s, reqs).replies[i].Respond? && RefreshesAs(keys, reqs[i], id))
    decreases |reqs|
  {
    if reqs != [] {
      var first := Apply(keys, s, reqs[0]);
      StepKeepsRevoked(keys, s, reqs[0], id);
      assert forall i :: 0 <= i < |reqs[1..]| ==> reqs[1..][i] == reqs[i + 1];
      RevokedUntilLogin(keys, first.founders, reqs[1..], id);
      var run := Replay(keys, s, reqs);
      var rest := Replay(keys, first.founders, reqs[1..]);
      assert run.replies == [first.out] + rest.replies;
      forall i | 0 <= i < |reqs|
        ensures !(run.replies[i].Respond? && RefreshesAs(keys, reqs[i], id))
      {
        if i > 0 {
          assert run.replies[i] == rest.replies[i - 1];
          assert reqs[i] == reqs[1..][i - 1];
        }
      }
    }
  }

  /** No founder holds `token` as the current refresh token. */
  ghost predicate NotStored(s: Store, token: string) {
    forall id :: id in s ==> s[id].refreshToken != Some(token)
  }

  lemma StepKeepsStale(keys: Keys, s: Store, req: Request, token: string)
    requires ValidStore(s) && NotStored(s, token)
    requires SignedRefresh(req) != Some(token)
    ensures NotStored(Apply(keys, s, req).founders, token)
    ensures !(Apply(keys, s, req).out.Respond? && Presents(req, token))
  {
  }

  /** Supersession: a refresh token that no founder holds any more (replaced
      by a later login or refresh, or nulled by logout) is refused by every
      later refresh, as long as no signer hands out the same string again. */
  lemma {:induction false} StaleTokenNeverAccepted(keys: Keys, s: Store, reqs: seq<Request>, token: string)
    requires ValidStore(s) && NotStored(s, token)
    requires forall i :: 0 <= i < |reqs| ==> SignedRefresh(reqs[i]) != Some(token)
    ensures NotStored(Replay(keys, s, reqs).founders, token)
    ensures forall i :: 0 <= i < |reqs| ==> !(Replay(keys, s, reqs).replies[i].Respond? && Presents(reqs[i], token))
    decreases |reqs|
  {
    if reqs != [] {
      var first := Apply(keys, s, reqs[0]);
      StepKeepsStale(keys, s, reqs[0], token);
      assert forall i :: 0 <= i < |reqs[1..]| ==> reqs[1..][i] == reqs[i + 1];
      StaleTokenNeverAccepted(keys, first.founders, reqs[1..], token);
      var run := Replay(keys, s, reqs);
      var rest := Replay(keys, first.founders, reqs[1..]);
      assert run.replies == [first.out] + rest.replies;
      forall i | 0 <= i < |reqs|
        ensures !(run.replies[i].Respond? && Presents(reqs[i], token))
      {
        if i > 0 {
          assert run.replies[i] == rest.replies[i - 1];
          assert reqs[i] == reqs[1..][i - 1];
        }
      }
    }
  }
}
