// The Dropbox adapter: OAuth tokens under the config key "dropbox_tokens"
// and one JSON file at a fixed path, always written in overwrite mode.
// Unlike Google Drive, a failed download request is swallowed, and
// disconnect first tries to revoke the cached access token.

module DropboxAdapter {
  import opened Common
  import opened SyncTypes
  import opened OAuth

  const TokenKey: string := "dropbox_tokens"
  const FilePath: string := "/Apps/Subly/" + SyncFilename

  /** The `Dropbox-API-Arg` of an upload, with the uploaded body. */
  datatype UploadRequest = UploadRequest(path: string, mode: string, autorename: bool, mute: bool, body: SyncPayload)

  class DropboxProvider {
    var appKey: string
    var appSecret: string
    var tokens: Option<Tokens>
    var stored: Option<Tokens>

    function State(): AuthState
      reads this
    {
      AuthState(tokens, stored)
    }

    constructor (appKey: string, appSecret: string, stored: Option<Tokens>)
      ensures this.appKey == appKey && this.appSecret == appSecret
      ensures State() == AuthState(None, stored)
    {
      this.appKey := appKey;
      this.appSecret := appSecret;
      this.tokens := None;
      this.stored := stored;
    }

    method SetCredentials(appKey: string, appSecret: string)
      modifies this`appKey, this`appSecret
      ensures this.appKey == appKey && this.appSecret == appSecret
    {
      this.appKey := appKey;
      this.appSecret := appSecret;
    }

    predicate IsAvailable()
      reads this
    {
      appKey != []
    }

    function Authenticate(browserOpened: bool): (ok: bool)
      reads this
      ensures ok ==> IsAvailable()
      ensures IsAvailable() ==> ok == browserOpened
    {
      appKey != [] && browserOpened
    }

    method RefreshAccessToken(now: int, resp: Http<Grant>) returns (ok: bool)
      requires tokens.Some?
      modifies this`tokens, this`stored
      ensures var r := Refreshed(old(tokens).value, resp, now, false);
        ok == r.Some? && (ok ==> tokens == r && stored == r) && (!ok ==> State() == old(State()))
      ensures ok <==> old(tokens).value.refreshToken != [] && resp.Ok()
      ensures ok ==> tokens.Some? && tokens.value.accessToken == resp.body.accessToken
                     && tokens.value.refreshToken == old(tokens).value.refreshToken
                     && tokens.value.expiresAt == now + resp.body.expiresIn * 1000
    {
      if tokens.value.refreshToken == [] || !resp.Ok() {
        return false;
      }
      tokens := Some(Tokens(resp.body.accessToken, tokens.value.refreshToken, ExpiryAt(now, resp.body.expiresIn)));
      stored := tokens;
      return true;
    }

    /** isAuthenticated and ensureAuth (the same code). */
    method IsAuthenticated(now: int, refresh: Http<Grant>) returns (ok: bool)
      modifies this`tokens, this`stored
      ensures (ok, State()) == CheckAuth(old(State()), now, refresh, false)
    {
      if tokens.Some? && tokens.value.expiresAt > now {
        return true;
      }
      tokens := stored;
      if tokens.None? {
        return false;
      }
      if tokens.value.expiresAt < now {
        ok := RefreshAccessToken(now, refresh);
        return;
      }
      return true;
    }

    method HandleAuthCode(now: int, resp: Http<Grant>) returns (ok: bool)
      modifies this`tokens, this`stored
      ensures ok == resp.Ok()
      ensures ok ==> tokens == Exchanged(now, resp) && stored == tokens
      ensures !ok ==> State() == old(State())
    {
      if !resp.Ok() {
        return false;
      }
      tokens := Some(Tokens(resp.body.accessToken, resp.body.refreshToken, ExpiryAt(now, resp.body.expiresIn)));
      stored := tokens;
      return true;
    }

    /** disconnect: a best-effort revoke of the cached access token (its
        outcome is ignored), then cache and store are cleared. */
    method Disconnect() returns (revokeSent: bool)
      modifies this`tokens, this`stored
      ensures revokeSent <==> old(tokens).Some? && old(tokens).value.accessToken != []
      ensures State() == AuthState(None, None)
    {
      revokeSent := tokens.Some? && tokens.value.accessToken != [];
      tokens := None;
      stored := None;
    }

    method Upload(payload: SyncPayload, now: int, refresh: Http<Grant>, put: Http<()>)
      returns (result: Completion, request: Option<UploadRequest>)
      modifies this`tokens, this`stored
      ensures var auth := CheckAuth(old(State()), now, refresh, false);
        && State() == auth.1
        && (request.Some? <==> auth.0)
        && (request.Some? ==> request.value == UploadRequest(FilePath, "overwrite", false, true, payload))
        && (result == Done <==> auth.0 && put.Ok())
        && (!auth.0 ==> result == Failed("Not authenticated"))
        && (auth.0 && put.Response? && !put.Ok() ==>
              result == Failed("Dropbox upload failed: " + IntToString(put.status)))
    {
      var authed := IsAuthenticated(now, refresh);
      if !authed {
        return Failed("Not authenticated"), None;
      }
      request := Some(UploadRequest(FilePath, "overwrite", false, true, payload));
      match put
      case NetworkError(e) =>
        result := Failed(e);
      case Response(status, _) =>
        result := if put.Ok() then Done else Failed("Dropbox upload failed: " + IntToString(status));
    }

    /** download never throws: no usable token, a non-2xx reply and a rejected
        request all give null. */
    method Download(now: int, refresh: Http<Grant>, get: Http<SyncPayload>) returns (d: Outcome<SyncPayload>)
      modifies this`tokens, this`stored
      ensures var auth := CheckAuth(old(State()), now, refresh, false);
        && State() == auth.1
        && !d.Threw?
        && (d.Found? <==> auth.0 && get.Ok())
        && (d.Found? ==> d.value == get.body)
    {
      var authed := IsAuthenticated(now, refresh);
      if !authed {
        return Absent;
      }
      d := if get.Ok() then Found(get.body) else Absent;
    }
  }
}
