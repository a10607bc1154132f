/**
 * Properties that relate two handler calls: what logout, login and refresh
 * leave behind for the next refresh, and what login reveals about usernames.
 */
module SessionProperties {
  import opened Wrappers
  import opened FounderTypes
  import opened SessionSpec

  /** After logout stores null, a refresh token that verifies to the caller is
      refused as expired or used, whatever it is and wherever it comes from. */
  lemma LogoutRevokes(keys: Keys, s: Store, caller: FounderId, cookie: Option<string>, bodyToken: Option<string>, signing: Signing)
    requires caller in s
    requires Present(Incoming(cookie, bodyToken))
    requires keys.verifyRefresh(Incoming(cookie, bodyToken).value) == Success(caller)
    ensures Refresh(keys, Logout(s, caller).founders, cookie, bodyToken, signing).out == Fail(ApiError(401, RevokedRefreshToken))
  {
  }

  /** A refresh token that has been used once is refused the second time, as
      long as the signer did not hand out the very same string again. */
  lemma RefreshTokenIsSingleUse(keys: Keys, s: Store, cookie: Option<string>, bodyToken: Option<string>, signing: Signing, next: Signing)
    requires Refresh(keys, s, cookie, bodyToken, signing).out.Respond?
    requires signing.refresh != Incoming(cookie, bodyToken)
    ensures Refresh(keys, Refresh(keys, s, cookie, bodyToken, signing).founders, cookie, bodyToken, next).out
            == Fail(ApiError(401, RevokedRefreshToken))
  {
  }

  /** A successful login supersedes whatever refresh token the founder held. */
  lemma LoginSupersedes(keys: Keys, s: Store, username: Option<string>, password: Option<string>, signing: Signing,
                        oldToken: Option<string>, next: Signing)
    requires ValidStore(s)
    requires Login(keys, s, username, password, signing).out.Respond?
    requires Present(oldToken) && oldToken != signing.refresh
    requires keys.verifyRefresh(oldToken.value) == Success(LookupByUsername(s, username.value).value.id)
    ensures Refresh(keys, Login(keys, s, username, password, signing).founders, oldToken, None, next).out
            == Fail(ApiError(401, RevokedRefreshToken))
  {
  }

  /** The refresh cookie a login sets is accepted by the next refresh, provided
      it verifies to the founder who logged in; the refresh then succeeds
      exactly when signing the new pair succeeds. */
  lemma LoginThenRefresh(keys: Keys, s: Store, username: Option<string>, password: Option<string>, signing: Signing, next: Signing)
    requires ValidStore(s)
    requires Login(keys, s, username, password, signing).out.Respond?
    requires Present(signing.refresh)
    requires keys.verifyRefresh(signing.refresh.value) == Success(LookupByUsername(s, username.value).value.id)
    ensures var after := Login(keys, s, username, password, signing).founders;
            Refresh(keys, after, signing.refresh, None, next).out.Respond?
            <==> next.access.Some? && next.refresh.Some?
  {
  }

  /** With both fields present and the credentials refused, the message says
      whether the username exists: "Invalid username or password" exactly
      when it does not, "Invalid Password" exactly when it does. */
  lemma LoginRevealsUnknownUsername(keys: Keys, s: Store, username: Option<string>, password: Option<string>, signing: Signing)
    requires ValidStore(s)
    requires Present(username) && Present(password)
    requires !CredentialsAccepted(keys, s, username, password)
    ensures var r := Login(keys, s, username, password, signing).out;
            && (r == Fail(ApiError(400, UnknownUsername)) <==> LookupByUsername(s, username.value).None?)
            && (r == Fail(ApiError(400, WrongPassword)) <==> LookupByUsername(s, username.value).Some?)
  {
  }
}
