/**
 * The data the founder session controller works on: the stored founder
 * record, what a handler sends back (status, body, message, cookie
 * directives), and the foreign pieces it calls (token verification,
 * password comparison, token signing), which enter the model as values.
 */
module FounderTypes {
  import opened Wrappers

  type FounderId = string

  /** A row of the founder table. `refreshToken` is the one nullable slot
      holding the refresh token currently accepted for this founder. */
  datatype Founder = Founder(
    id: FounderId,
    username: string,
    name: string,
    email: string,
    password: string,            // stored password hash
    phone: Option<string>,
    avatar: Option<string>,
    refreshToken: Option<string>)

  /** The founder table, keyed by id. */
  type Store = map<FounderId, Founder>

  /** What login sends back about the founder: id, name, username, email.
      Password hash and refresh token have no field here. */
  datatype PublicFounder = PublicFounder(id: FounderId, name: string, username: string, email: string)

  function Public(f: Founder): (p: PublicFounder)
    ensures p.id == f.id && p.name == f.name && p.username == f.username && p.email == f.email
  {
    PublicFounder(f.id, f.name, f.username, f.email)
  }

  /** The projection does not depend on the password hash, phone, avatar or
      refresh token: rows that differ only there project alike. */
  lemma PublicHidesSecrets(f: Founder, g: Founder)
    requires f.id == g.id && f.name == g.name && f.username == g.username && f.email == g.email
    ensures Public(f) == Public(g)
  {
  }

  /** A cookie directive attached to a response. */
  datatype Cookie =
    | SetCookie(name: string, value: string, httpOnly: bool, secure: bool)
    | ClearCookie(name: string, httpOnly: bool, secure: bool)

  const AccessCookie := "accessToken"
  const RefreshCookie := "refreshToken"

  /** Both session cookies set, with the options { httpOnly: true, secure: true }. */
  function SessionCookies(accessToken: string, refreshToken: string): (c: seq<Cookie>)
    ensures |c| == 2 && c[0].SetCookie? && c[1].SetCookie?
    ensures c[0].name == AccessCookie && c[0].value == accessToken
    ensures c[1].name == RefreshCookie && c[1].value == refreshToken
    ensures forall i :: 0 <= i < |c| ==> c[i].httpOnly && c[i].secure
  {
    [SetCookie(AccessCookie, accessToken, true, true), SetCookie(RefreshCookie, refreshToken, true, true)]
  }

  /** Both session cookies cleared, with the same options. */
  function ClearedCookies(): (c: seq<Cookie>)
    ensures |c| == 2 && c[0].ClearCookie? && c[1].ClearCookie?
    ensures c[0].name == AccessCookie && c[1].name == RefreshCookie
    ensures forall i :: 0 <= i < |c| ==> c[i].httpOnly && c[i].secure
  {
    [ClearCookie(AccessCookie, true, true), ClearCookie(RefreshCookie, true, true)]
  }

  /** An `ApiError(status, message)` thrown by a handler. */
  datatype ApiError = ApiError(status: nat, message: string)

  /** The `data` of the JSON `ApiResponse`. */
  datatype Body =
    | Empty                                            // {}
    | LoggedIn(profile: Option<PublicFounder>)         // the re-fetched projection, null if not found
    | Record(founder: Option<Founder>)                 // the whole row, null if not found
    | Tokens(accessToken: string, refreshToken: string)

  /** How a request ends: a response built on `res`, an `ApiError` thrown to
      the async wrapper, or an exception of the store that is not an `ApiError`. */
  datatype Reply =
    | Respond(status: nat, body: Body, message: string, cookies: seq<Cookie>)
    | Fail(error: ApiError)
    | StoreFault

  /** The cookie directives a reply carries; a thrown error carries none. */
  function Cookies(r: Reply): seq<Cookie> {
    if r.Respond? then r.cookies else []
  }

  datatype TokenPair = TokenPair(accessToken: string, refreshToken: string)

  /** What the two signing extensions of the store return for one request;
      `None` where that call throws. */
  datatype Signing = Signing(access: Option<string>, refresh: Option<string>)

  /** The process-wide configuration the handlers consult: `jwt.verify` under
      the refresh-token secret (the decoded id, or the thrown error's message)
      and the store's password comparison for a found founder. */
  datatype Keys = Keys(
    verifyRefresh: string -> Result<FounderId, string>,
    comparePassword: (Founder, string) -> bool)

  /** The external calls a handler makes, in the order it makes them. */
  datatype Call =
    | FindByUsername(username: string)
    | ComparePassword(username: string)
    | FindById(id: FounderId)
    | SignAccessToken(id: FounderId)
    | SignRefreshToken(id: FounderId)
    | ClearRefreshToken(id: FounderId)
    | VerifyRefreshToken(token: string)

  const MissingCredentials := "Username and Password are required"
  const UnknownUsername := "Invalid username or password"
  const WrongPassword := "Invalid Password"
  const LoginMessage := "Founder successfully logged in."
  const LogoutMessage := "Founder logged out"
  const DetailMessage := "Founder details fetched successfully"
  const NoRefreshToken := "Unauthorized request"
  const InvalidRefreshToken := "Invalid refresh token"
  const RevokedRefreshToken := "Refresh token is expired or used"
  const RefreshMessage := "Access token refreshed successfully"
  const FounderNotFound := "Founder not found"
  const TokenError := "Error generating tokens"

  /** JavaScript truthiness of a string that may be missing: neither
      undefined/null nor "". */
  predicate Present(v: Option<string>) {
    v.Some? && v.value != ""
  }

  /** The table's own constraints: every row is filed under its id, and
      usernames are unique. */
  ghost predicate ValidStore(s: Store) {
    && (forall id :: id in s ==> s[id].id == id)
    && (forall a, b :: a in s && b in s && s[a].username == s[b].username ==> a == b)
  }

  /** `findUnique({ where: { id } })`. */
  function LookupById(s: Store, id: FounderId): (r: Option<Founder>)
    ensures r.Some? <==> id in s
    ensures r.Some? ==> r.value == s[id]
  {
    if id in s then Some(s[id]) else None
  }

  /** `findUnique({ where: { username } })`. */
  function LookupByUsername(s: Store, username: string): (r: Option<Founder>)
    requires ValidStore(s)
    ensures r.Some? <==> exists id :: id in s && s[id].username == username
    ensures r.Some? ==> r.value.id in s && s[r.value.id] == r.value && r.value.username == username
  {
    if exists id :: id in s && s[id].username == username then
      var id :| id in s && s[id].username == username;
      Some(s[id])
    else
      None
  }

  /** The store after `update({ where: { id }, data: { refreshToken: t } })`. */
  function SetRefreshToken(s: Store, id: FounderId, t: Option<string>): (s': Store)
    requires id in s
    ensures s'.Keys == s.Keys
    ensures s'[id].refreshToken == t
    ensures OnlyTokenOf(s, s', id)
    ensures Public(s'[id]) == Public(s[id])
  {
    s[id := s[id].(refreshToken := t)]
  }

  /** Only the `refreshToken` of `id` may differ between the two tables. */
  ghost predicate OnlyTokenOf(s: Store, s': Store, id: FounderId) {
    && s'.Keys == s.Keys
    && (forall x :: x in s && x != id ==> s'[x] == s[x])
    && (id in s ==> s'[id].(refreshToken := s[id].refreshToken) == s[id])
  }
}
