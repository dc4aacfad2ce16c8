// The Google Drive adapter: OAuth tokens cached in memory and persisted
// under the config key "gdrive_tokens", and one JSON file in the hidden
// app-data folder, updated in place when it exists and created otherwise.

module GDriveAdapter {
  import opened Common
  import opened SyncTypes
  import opened OAuth

  const TokenKey: string := "gdrive_tokens"
  const UploadEndpoint: string := "https://www.googleapis.com/upload/drive/v3/files"

  /** The multipart upload request the adapter sends. */
  datatype UploadRequest = UploadRequest(verb: string, url: string, parents: seq<string>, body: SyncPayload)

  /** findFileId: a rejected listing request throws, a non-2xx reply or a
      listing without files gives null, otherwise the first file's id. */
  function FileId(lookup: Http<Option<string>>): (r: Outcome<string>)
    ensures r.Threw? <==> lookup.NetworkError?
    ensures r.Found? <==> lookup.Ok() && lookup.body.Some?
    ensures r.Found? ==> r.value == lookup.body.value
  {
    match lookup
    case NetworkError(e) => Threw(e)
    case Response(_, id) => if lookup.Ok() && id.Some? then Found(id.value) else Absent
  }

  /** An existing (non-empty) file id is PATCHed in place without parents;
      otherwise a new file is POSTed into the app-data folder. */
  function RequestFor(existing: Outcome<string>, payload: SyncPayload): (req: UploadRequest)
    ensures req.body == payload
    ensures req.verb == "PATCH" <==> existing.Found? && existing.value != []
    ensures req.verb == "PATCH" ==>
              req.parents == [] && req.url == UploadEndpoint + "/" + existing.value + "?uploadType=multipart"
    ensures req.verb != "PATCH" ==>
              req.verb == "POST" && req.parents == ["appDataFolder"] && req.url == UploadEndpoint + "?uploadType=multipart"
  {
    if existing.Found? && existing.value != [] then
      UploadRequest("PATCH", UploadEndpoint + "/" + existing.value + "?uploadType=multipart", [], payload)
    else
      UploadRequest("POST", UploadEndpoint + "?uploadType=multipart", ["appDataFolder"], payload)
  }

  class GDriveProvider {
    var clientId: string
    var clientSecret: string
    var tokens: Option<Tokens>
    var stored: Option<Tokens>

    function State(): AuthState
      reads this
    {
      AuthState(tokens, stored)
    }

    /** A new adapter starts with an empty cache over whatever the store holds. */
    constructor (clientId: string, clientSecret: string, stored: Option<Tokens>)
      ensures this.clientId == clientId && this.clientSecret == clientSecret
      ensures State() == AuthState(None, stored)
    {
      this.clientId := clientId;
      this.clientSecret := clientSecret;
      this.tokens := None;
      this.stored := stored;
    }

    method SetCredentials(clientId: string, clientSecret: string)
      modifies this`clientId, this`clientSecret
      ensures this.clientId == clientId && this.clientSecret == clientSecret
    {
      this.clientId := clientId;
      this.clientSecret := clientSecret;
    }

    /** Available exactly when a client id is configured. */
    predicate IsAvailable()
      reads this
    {
      clientId != []
    }

    /** Opening the consent page needs a client id; `browserOpened` is whether the
        browser could be opened. */
    function Authenticate(browserOpened: bool): (ok: bool)
      reads this
      ensures ok ==> IsAvailable()
      ensures IsAvailable() ==> ok == browserOpened
    {
      clientId != [] && browserOpened
    }

    method LoadTokens()
      modifies this`tokens
      ensures tokens == stored
    {
      tokens := stored;
    }

    method SaveTokens()
      modifies this`stored
      ensures stored == if tokens.Some? then tokens else old(stored)
    {
      if tokens.Some? {
        stored := tokens;
      }
    }

    method RefreshAccessToken(now: int, resp: Http<Grant>) returns (ok: bool)
      requires tokens.Some?
      modifies this`tokens, this`stored
      ensures var r := Refreshed(old(tokens).value, resp, now, false);
        ok == r.Some? && (ok ==> tokens == r && stored == r) && (!ok ==> State() == old(State()))
      ensures ok <==> old(tokens).value.refreshToken != [] && resp.Ok()
      ensures ok ==> tokens.Some? && tokens.value.accessToken == resp.body.accessToken
                     && tokens.value.refreshToken == old(tokens).value.refreshToken
                     && tokens.value.expiresAt == now + resp.body.expiresIn * 1000
    {
      if tokens.value.refreshToken == [] {
        return false;
      }
      if !resp.Ok() {
        return false;
      }
      tokens := Some(Tokens(resp.body.accessToken, tokens.value.refreshToken, ExpiryAt(now, resp.body.expiresIn)));
      SaveTokens();
      return true;
    }

    /** isAuthenticated and ensureAuth (the same code). */
    method IsAuthenticated(now: int, refresh: Http<Grant>) returns (ok: bool)
      modifies this`tokens, this`stored
      ensures (ok, State()) == CheckAuth(old(State()), now, refresh, false)
    {
      if tokens.Some? && tokens.value.expiresAt > now {
        return true;
      }
      LoadTokens();
      if tokens.None? {
        return false;
      }
      if tokens.value.expiresAt < now {
        ok := RefreshAccessToken(now, refresh);
        return;
      }
      return true;
    }

    method HandleAuthCode(now: int, resp: Http<Grant>) returns (ok: bool)
      modifies this`tokens, this`stored
      ensures ok == resp.Ok()
      ensures ok ==> tokens == Exchanged(now, resp) && stored == tokens
      ensures !ok ==> State() == old(State())
    {
      if !resp.Ok() {
        return false;
      }
      tokens := Some(Tokens(resp.body.accessToken, resp.body.refreshToken, ExpiryAt(now, resp.body.expiresIn)));
      SaveTokens();
      return true;
    }

    method Disconnect()
      modifies this`tokens, this`stored
      ensures State() == AuthState(None, None)
    {
      tokens := None;
      stored := None;
    }

    /** upload: throws "Not authenticated" without a usable token, propagates a
        rejected file listing, and otherwise sends `request` and throws on a
        non-2xx reply. */
    method Upload(payload: SyncPayload, now: int, refresh: Http<Grant>, lookup: Http<Option<string>>, put: Http<()>)
      returns (result: Completion, request: Option<UploadRequest>)
      modifies this`tokens, this`stored
      ensures var auth := CheckAuth(old(State()), now, refresh, false);
        && State() == auth.1
        && (request.Some? <==> auth.0 && !lookup.NetworkError?)
        && (request.Some? ==> request.value == RequestFor(FileId(lookup), payload))
        && (result == Done <==> request.Some? && put.Ok())
        && (!auth.0 ==> result == Failed("Not authenticated"))
        && (request.Some? && put.Response? && !put.Ok() ==>
              result == Failed("GDrive upload failed: " + IntToString(put.status)))
    {
      var authed := IsAuthenticated(now, refresh);
      if !authed {
        return Failed("Not authenticated"), None;
      }
      var existing := FileId(lookup);
      if existing.Threw? {
        return Failed(existing.message), None;
      }
      request := Some(RequestFor(existing, payload));
      match put
      case NetworkError(e) =>
        result := Failed(e);
      case Response(status, _) =>
        result := if put.Ok() then Done else Failed("GDrive upload failed: " + IntToString(status));
    }

    /** download: null without a usable token or without a remote file or on a
        non-2xx reply; a rejected request propagates. */
    method Download(now: int, refresh: Http<Grant>, lookup: Http<Option<string>>, get: Http<SyncPayload>)
      returns (d: Outcome<SyncPayload>)
      modifies this`tokens, this`stored
      ensures var auth := CheckAuth(old(State()), now, refresh, false);
        && State() == auth.1
        && (!auth.0 ==> d == Absent)
        && (auth.0 && lookup.NetworkError? ==> d == Threw(lookup.message))
        && (auth.0 && !lookup.NetworkError? && !(FileId(lookup).Found? && FileId(lookup).value != []) ==> d == Absent)
        && (d.Found? <==> auth.0 && FileId(lookup).Found? && FileId(lookup).value != [] && get.Ok())
        && (d.Found? ==> d.value == get.body)
    {
      var authed := IsAuthenticated(now, refresh);
      if !authed {
        return Absent;
      }
      var fileId := FileId(lookup);
      if fileId.Threw? {
        return Threw(fileId.message);
      }
      if !(fileId.Found? && fileId.value != []) {
        return Absent;
      }
      match get
      case NetworkError(e) =>
        d := Threw(e);
      case Response(_, body) =>
        d := if get.Ok() then Found(body) else Absent;
    }
  }
}
