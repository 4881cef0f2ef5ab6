/**
 * Session classification and client construction (lib/pco-client.ts).
 * The cookies are passed in as `Tokens` and `Date.now()` as `now`
 * (milliseconds since the epoch).
 */
module PcoClient {
  import opened Wrappers
  import opened Js

  /** The session cookies `pco_access_token`, `pco_refresh_token` and `pco_expires_at`. */
  datatype Tokens = Tokens(accessToken: Option<string>, refreshToken: Option<string>, expiresAt: Option<string>)

  /** The upstream API client, authenticated with a bearer token. */
  datatype Client = Client(bearerToken: string)

  datatype AuthStatus = Authenticated | NeedsRefresh | Unauthenticated

  /** `getPCOClient`: a bearer client when there is an access token, `null` otherwise. */
  function GetPCOClient(t: Tokens): (c: Option<Client>)
    ensures c.None? <==> !Truthy(t.accessToken)
    ensures c.Some? ==> c.value.bearerToken == t.accessToken.value && c.value.bearerToken != ""
  {
    if Truthy(t.accessToken) then Some(Client(t.accessToken.value)) else None
  }

  /** `Date.now() < parseInt(expiresAt)`: a comparison with `NaN` is false. */
  predicate Before(now: int, deadline: Option<int>) {
    deadline.Some? && now < deadline.value
  }

  /** The access token is present and the expiry cookie names a later instant than `now`. */
  predicate AccessUnexpired(t: Tokens, now: int) {
    Truthy(t.accessToken) && Truthy(t.expiresAt) && Before(now, ParseInt(t.expiresAt.value, Unspecified))
  }

  /** `getAuthStatus`. */
  function GetAuthStatus(t: Tokens, now: int): (s: AuthStatus)
    ensures s == Authenticated <==> AccessUnexpired(t, now)
    ensures s == NeedsRefresh <==> !AccessUnexpired(t, now) && Truthy(t.refreshToken)
    ensures s == Unauthenticated <==> !AccessUnexpired(t, now) && !Truthy(t.refreshToken)
  {
    if Truthy(t.accessToken) && Truthy(t.expiresAt) && Before(now, ParseInt(t.expiresAt.value, Unspecified)) then
      Authenticated
    else if Truthy(t.refreshToken) then
      NeedsRefresh
    else
      Unauthenticated
  }

  /**
   * For the cookies as the login callback writes them (the expiry is the
   * decimal text of a millisecond instant), the session is authenticated
   * exactly until that instant and then needs a refresh.
   */
  lemma CookieSessionStatus(access: string, refresh: string, expiresAtMs: nat, now: int)
    requires access != ""
    ensures GetAuthStatus(Tokens(Some(access), Some(refresh), Some(Decimal(expiresAtMs))), now)
      == if now < expiresAtMs then Authenticated
         else if refresh != "" then NeedsRefresh
         else Unauthenticated
  {
    ParseDecimal(expiresAtMs, Unspecified);
  }

  /** An expiry cookie that is blank never authenticates, whatever the clock says. */
  lemma BlankExpiryNeverAuthenticated(t: Tokens, now: int)
    requires t.expiresAt.Some? && Blank(t.expiresAt.value)
    ensures GetAuthStatus(t, now) != Authenticated
  {
    ParseBlank(t.expiresAt.value, Unspecified);
  }

  /** An authenticated session always yields a client. */
  lemma AuthenticatedHasClient(t: Tokens, now: int)
    requires GetAuthStatus(t, now) == Authenticated
    ensures GetPCOClient(t).Some?
  {
  }

  /** The client does not consult the expiry: an expired access token still yields a client. */
  lemma ClientIgnoresExpiry(t: Tokens, expiresAt: Option<string>)
    ensures GetPCOClient(t.(expiresAt := expiresAt)) == GetPCOClient(t)
  {
  }
}
