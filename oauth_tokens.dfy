// The OAuth 2.0 token lifecycle shared, line for line, by the Google Drive,
// Dropbox and OneDrive adapters: the authorization-code exchange (section
// 4.1.3 of RFC 6749), the refresh grant (section 6 of RFC 6749), and the
// isAuthenticated / ensureAuth check that reuses a fresh cached token, reloads
// the token store otherwise, and refreshes an expired token.
//
// `tokens` is the adapter's in-memory cache, `stored` the token-store entry
// in the config table. The adapters differ only in whether a refresh may
// rotate the refresh token (OneDrive) or always keeps the old one.

module OAuth {
  import opened Common
  import opened SyncTypes

  datatype Tokens = Tokens(accessToken: string, refreshToken: string, expiresAt: int)

  /** A token endpoint reply; a field the reply lacks is the empty string. */
  datatype Grant = Grant(accessToken: string, refreshToken: string, expiresIn: int)

  datatype AuthState = AuthState(tokens: Option<Tokens>, stored: Option<Tokens>)

  /** `Date.now() + expires_in * 1000`. */
  function ExpiryAt(now: int, expiresIn: int): int
  {
    now + expiresIn * 1000
  }

  /** handleAuthCode: the tokens a code exchange installs, or None when the
      exchange fails (non-2xx reply or rejected request). */
  function Exchanged(now: int, resp: Http<Grant>): (r: Option<Tokens>)
    ensures r.Some? <==> resp.Ok()
    ensures r.Some? ==>
              && r.value.accessToken == resp.body.accessToken
              && r.value.refreshToken == resp.body.refreshToken
              && r.value.expiresAt == now + resp.body.expiresIn * 1000
  {
    if resp.Ok() then Some(Tokens(resp.body.accessToken, resp.body.refreshToken, ExpiryAt(now, resp.body.expiresIn)))
    else None
  }

  /** refreshAccessToken: the new tokens, or None when there is no refresh
      token or the grant fails. With `rotate`, a reply carrying a refresh
      token replaces the old one. */
  function Refreshed(t: Tokens, resp: Http<Grant>, now: int, rotate: bool): (r: Option<Tokens>)
    ensures r.Some? <==> t.refreshToken != [] && resp.Ok()
    ensures r.Some? ==> r.value.refreshToken != []
    ensures r.Some? && !rotate ==> r.value.refreshToken == t.refreshToken
    ensures r.Some? && rotate ==>
              r.value.refreshToken == (if resp.body.refreshToken != [] then resp.body.refreshToken else t.refreshToken)
    ensures r.Some? ==> r.value.accessToken == resp.body.accessToken
    ensures r.Some? ==> r.value.expiresAt == now + resp.body.expiresIn * 1000
  {
    if t.refreshToken == [] || !resp.Ok() then None
    else
      var refresh := if rotate && resp.body.refreshToken != [] then resp.body.refreshToken else t.refreshToken;
      Some(Tokens(resp.body.accessToken, refresh, ExpiryAt(now, resp.body.expiresIn)))
  }

  /** isAuthenticated / ensureAuth: the answer and the new cache and store. */
  function CheckAuth(s: AuthState, now: int, resp: Http<Grant>, rotate: bool): (r: (bool, AuthState))
    ensures r.0 ==> r.1.tokens.Some?
    ensures r.1.stored != s.stored ==> r.0 && r.1.stored == r.1.tokens
    ensures s.tokens.Some? && s.tokens.value.expiresAt > now ==> r == (true, s)
    ensures !(s.tokens.Some? && s.tokens.value.expiresAt > now) ==>
              && (s.stored.None? ==> r == (false, AuthState(None, None)))
              && (s.stored.Some? && s.stored.value.expiresAt >= now ==>
                    r == (true, AuthState(s.stored, s.stored)))
              && (s.stored.Some? && s.stored.value.expiresAt < now ==>
                    && (r.0 <==> Refreshed(s.stored.value, resp, now, rotate).Some?)
                    && r.1.tokens == (if r.0 then Refreshed(s.stored.value, resp, now, rotate) else s.stored)
                    && r.1.stored == r.1.tokens)
  {
    if s.tokens.Some? && s.tokens.value.expiresAt > now then (true, s)
    else
      match s.stored
      case None => (false, AuthState(None, None))
      case Some(t) =>
        if t.expiresAt < now then
          match Refreshed(t, resp, now, rotate)
          case Some(n) => (true, AuthState(Some(n), Some(n)))
          case None => (false, AuthState(Some(t), s.stored))
        else (true, AuthState(Some(t), s.stored))
  }

  /** After disconnect (cache and store cleared) no check succeeds and none
      issues a request that could change anything. */
  lemma DisconnectedIsUnauthenticated(now: int, resp: Http<Grant>, rotate: bool)
    ensures CheckAuth(AuthState(None, None), now, resp, rotate) == (false, AuthState(None, None))
  {
  }

  /** Tokens installed by a successful exchange authenticate every later check
      before they expire, without a refresh and without touching the store. */
  lemma ExchangeThenAuthenticated(now: int, resp: Http<Grant>, later: int, refresh: Http<Grant>, rotate: bool)
    requires resp.Ok()
    requires later < now + resp.body.expiresIn * 1000
    ensures var t := Exchanged(now, resp);
      CheckAuth(AuthState(t, t), later, refresh, rotate) == (true, AuthState(t, t))
  {
  }

  /** A cold start (empty cache) with a stored token that is still valid loads it and succeeds. */
  lemma ColdStartLoadsStore(t: Tokens, now: int, resp: Http<Grant>, rotate: bool)
    requires t.expiresAt >= now
    ensures CheckAuth(AuthState(None, Some(t)), now, resp, rotate) == (true, AuthState(Some(t), Some(t)))
  {
  }

  /** An expired token without a refresh token cannot be renewed: the check
      fails and the expired token stays cached. */
  lemma ExpiredWithoutRefreshTokenFails(t: Tokens, now: int, resp: Http<Grant>, rotate: bool)
    requires t.expiresAt < now && t.refreshToken == []
    ensures CheckAuth(AuthState(None, Some(t)), now, resp, rotate) == (false, AuthState(Some(t), Some(t)))
  {
  }

  /** A successful refresh persists what it installs and keeps a refresh token,
      so the next check at the same instant succeeds without another refresh
      when the granted lifetime is positive. */
  lemma {:induction false} RefreshIsStable(s: AuthState, now: int, resp: Http<Grant>, next: Http<Grant>, rotate: bool)
    requires s.stored.Some? && s.stored.value.expiresAt < now
    requires !(s.tokens.Some? && s.tokens.value.expiresAt > now)
    requires resp.Ok() && resp.body.expiresIn > 0
    requires s.stored.value.refreshToken != []
    ensures var r := CheckAuth(s, now, resp, rotate);
      r.0 && r.1.tokens == r.1.stored && r.1.tokens.value.refreshToken != []
      && CheckAuth(r.1, now, next, rotate) == r
  {
    var n := Refreshed(s.stored.value, resp, now, rotate);
    assert n.Some?;
    assert n.value.expiresAt > now;
  }
}
