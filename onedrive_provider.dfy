// The OneDrive adapter: OAuth tokens under the config key "onedrive_tokens"
// (a public client, so no client secret) and one JSON file in the app's
// special folder. Its refresh is the only one that adopts a rotated refresh
// token, when the reply carries one.

module OneDriveAdapter {
  import opened Common
  import opened SyncTypes
  import opened OAuth

  const TokenKey: string := "onedrive_tokens"
  const ContentUrl: string := "https://graph.microsoft.com/v1.0/me/drive/special/approot:/" + SyncFilename + ":/content"

  datatype UploadRequest = UploadRequest(verb: string, url: string, body: SyncPayload)

  class OneDriveProvider {
    var clientId: string
    var tokens: Option<Tokens>
    var stored: Option<Tokens>

    function State(): AuthState
      reads this
    {
      AuthState(tokens, stored)
    }

    constructor (stored: Option<Tokens>)
      ensures clientId == []
      ensures State() == AuthState(None, stored)
    {
      this.clientId := [];
      this.tokens := None;
      this.stored := stored;
    }

    method SetCredentials(clientId: string)
      modifies this`clientId
      ensures this.clientId == clientId
    {
      this.clientId := clientId;
    }

    predicate IsAvailable()
      reads this
    {
      clientId != []
    }

    function Authenticate(browserOpened: bool): (ok: bool)
      reads this
      ensures ok ==> IsAvailable()
      ensures IsAvailable() ==> ok == browserOpened
    {
      clientId != [] && browserOpened
    }

    /** Keeps the old refresh token unless the reply carries a new one. */
    method RefreshAccessToken(now: int, resp: Http<Grant>) returns (ok: bool)
      requires tokens.Some?
      modifies this`tokens, this`stored
      ensures var r := Refreshed(old(tokens).value, resp, now, true);
        ok == r.Some? && (ok ==> tokens == r && stored == r) && (!ok ==> State() == old(State()))
      ensures ok <==> old(tokens).value.refreshToken != [] && resp.Ok()
      ensures ok ==> tokens.Some? && tokens.value.accessToken == resp.body.accessToken
                     && tokens.value.refreshToken == (if resp.body.refreshToken != [] then resp.body.refreshToken else old(tokens).value.refreshToken)
                     && tokens.value.expiresAt == now + resp.body.expiresIn * 1000
    {
      if tokens.value.refreshToken == [] || !resp.Ok() {
        return false;
      }
      var t := Tokens(resp.body.accessToken, tokens.value.refreshToken, ExpiryAt(now, resp.body.expiresIn));
      if resp.body.refreshToken != [] {
        t := t.(refreshToken := resp.body.refreshToken);
      }
      tokens := Some(t);
      stored := tokens;
      return true;
    }

    /** isAuthenticated and ensureAuth (the same code). */
    method IsAuthenticated(now: int, refresh: Http<Grant>) returns (ok: bool)
      modifies this`tokens, this`stored
      ensures (ok, State()) == CheckAuth(old(State()), now, refresh, true)
    {
      if tokens.Some? && tokens.value.expiresAt > now {
        return true;
      }
      tokens := stored;
      if tokens.None? {
        return false;
      }
      if tokens.value.expiresAt < now {
        ok := RefreshAccessToken(now, refresh);
        return;
      }
      return true;
    }

    method HandleAuthCode(now: int, resp: Http<Grant>) returns (ok: bool)
      modifies this`tokens, this`stored
      ensures ok == resp.Ok()
      ensures ok ==> tokens == Exchanged(now, resp) && stored == tokens
      ensures !ok ==> State() == old(State())
    {
      if !resp.Ok() {
        return false;
      }
      tokens := Some(Tokens(resp.body.accessToken, resp.body.refreshToken, ExpiryAt(now, resp.body.expiresIn)));
      stored := tokens;
      return true;
    }

    method Disconnect()
      modifies this`tokens, this`stored
      ensures State() == AuthState(None, None)
    {
      tokens := None;
      stored := None;
    }

    method Upload(payload: SyncPayload, now: int, refresh: Http<Grant>, put: Http<()>)
      returns (result: Completion, request: Option<UploadRequest>)
      modifies this`tokens, this`stored
      ensures var auth := CheckAuth(old(State()), now, refresh, true);
        && State() == auth.1
        && (request.Some? <==> auth.0)
        && (request.Some? ==> request.value == UploadRequest("PUT", ContentUrl, payload))
        && (result == Done <==> auth.0 && put.Ok())
        && (!auth.0 ==> result == Failed("Not authenticated"))
        && (auth.0 && put.Response? && !put.Ok() ==>
              result == Failed("OneDrive upload failed: " + IntToString(put.status)))
    {
      var authed := IsAuthenticated(now, refresh);
      if !authed {
        return Failed("Not authenticated"), None;
      }
      request := Some(UploadRequest("PUT", ContentUrl, payload));
      match put
      case NetworkError(e) =>
        result := Failed(e);
      case Response(status, _) =>
        result := if put.Ok() then Done else Failed("OneDrive upload failed: " + IntToString(status));
    }

    /** download never throws: no usable token, a non-2xx reply and a rejected
        request all give null. */
    method Download(now: int, refresh: Http<Grant>, get: Http<SyncPayload>) returns (d: Outcome<SyncPayload>)
      modifies this`tokens, this`stored
      ensures var auth := CheckAuth(old(State()), now, refresh, true);
        && State() == auth.1
        && !d.Threw?
        && (d.Found? <==> auth.0 && get.Ok())
        && (d.Found? ==> d.value == get.body)
    {
      var authed := IsAuthenticated(now, refresh);
      if !authed {
        return Absent;
      }
      d := if get.Ok() then Found(get.body) else Absent;
    }
  }
}
