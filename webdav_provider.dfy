// The WebDAV adapter: Basic-auth credentials and one JSON file beside the
// configured collection URL. Authentication is a depth-0 PROPFIND on the
// collection, accepted on 207 Multi-Status (sections 9.1 and 11.1 of
// RFC 4918) or 200.

module WebDavAdapter {
  import opened Common
  import opened SyncTypes

  datatype Request = Request(verb: string, url: string, body: Option<SyncPayload>)

  /** `url.replace(/\/+$/, "")`: every trailing slash removed. */
  function StripTrailingSlashes(url: string): (r: string)
    ensures |r| <= |url| && r == url[..|r|]
    ensures r == [] || r[|r| - 1] != '/'
    ensures forall i :: |r| <= i < |url| ==> url[i] == '/'
  {
    if url != [] && url[|url| - 1] == '/' then StripTrailingSlashes(url[..|url| - 1]) else url
  }

  /** Whether `btoa` accepts the text: every character is at most U+00FF. */
  predicate Latin1(s: string)
  {
    forall i :: 0 <= i < |s| ==> s[i] as int <= 0xFF
  }

  /** The Basic credentials `user:password` can be encoded exactly when both
      halves are Latin-1 text. */
  lemma CredentialsLatin1(username: string, password: string)
    ensures Latin1(username + ":" + password) <==> Latin1(username) && Latin1(password)
  {
    var s := username + ":" + password;
    if Latin1(username) && Latin1(password) {
      forall i | 0 <= i < |s| ensures s[i] as int <= 0xFF {
        if i < |username| {
          assert s[i] == username[i];
        } else if i > |username| {
          assert s[i] == password[i - |username| - 1];
        }
      }
    }
    if Latin1(s) {
      forall i | 0 <= i < |username| ensures username[i] as int <= 0xFF {
        assert s[i] == username[i];
      }
      forall i | 0 <= i < |password| ensures password[i] as int <= 0xFF {
        assert s[|username| + 1 + i] == password[i];
      }
    }
  }

  /** What `btoa` throws on text outside Latin-1 (an InvalidCharacterError). */
  const BtoaError: string := "InvalidCharacterError"

  /** Stripping is idempotent, and a URL without a trailing slash is kept as is. */
  lemma StripTrailingSlashesStable(url: string)
    ensures StripTrailingSlashes(StripTrailingSlashes(url)) == StripTrailingSlashes(url)
    ensures (url == [] || url[|url| - 1] != '/') ==> StripTrailingSlashes(url) == url
  {
  }

  class WebDavProvider {
    var serverUrl: string
    var username: string
    var password: string

    constructor ()
      ensures serverUrl == [] && username == [] && password == []
    {
      serverUrl, username, password := [], [], [];
    }

    method SetCredentials(serverUrl: string, username: string, password: string)
      modifies this
      ensures this.serverUrl == StripTrailingSlashes(serverUrl)
      ensures this.username == username && this.password == password
    {
      this.serverUrl := StripTrailingSlashes(serverUrl);
      this.username := username;
      this.password := password;
    }

    /** The remote file sits directly under the collection. */
    function FilePath(): string
      reads this
    {
      serverUrl + "/" + SyncFilename
    }

    predicate IsAvailable()
      reads this
    {
      serverUrl != [] && username != []
    }

    /** The Authorization header can be built: `btoa` accepts `user:password`. */
    predicate CanEncode()
      reads this
    {
      Latin1(username + ":" + password)
    }

    /** isAuthenticated (and authenticate, which is the same call): without a URL
        and user name no request is made; otherwise a PROPFIND whose reply is
        207 or 200. Any other 2xx status does not count, and a rejected request is false.
        Credentials `btoa` cannot encode throw inside the `try`: false, nothing sent. */
    function IsAuthenticated(propfind: Http<()>): (r: (bool, Option<Request>))
      reads this
      ensures r.1.Some? <==> IsAvailable() && CanEncode()
      ensures r.1.Some? ==> r.1.value == Request("PROPFIND", serverUrl, None)
      ensures r.0 <==> IsAvailable() && CanEncode() && propfind.Response? && (propfind.status == 207 || propfind.status == 200)
      ensures r.0 ==> propfind.Ok()
      ensures IsAvailable() && propfind.Response? && propfind.status == 204 ==> !r.0
    {
      if serverUrl == [] || username == [] then (false, None)
      else if !CanEncode() then (false, None)
      else
        var ok := match propfind
          case NetworkError(_) => false
          case Response(status, _) => status == 207 || status == 200;
        (ok, Some(Request("PROPFIND", serverUrl, None)))
    }

    method Disconnect()
      modifies this
      ensures serverUrl == [] && username == [] && password == []
      ensures !IsAvailable()
    {
      serverUrl, username, password := [], [], [];
    }

    /** upload PUTs the payload without any authentication check and fails
        exactly on a non-2xx reply or a rejected request (the extra 201 and
        204 exemptions are already 2xx). Credentials `btoa` cannot encode
        throw before the request is made. */
    method Upload(payload: SyncPayload, put: Http<()>) returns (result: Completion, request: Option<Request>)
      ensures request.Some? <==> CanEncode()
      ensures request.Some? ==> request.value == Request("PUT", FilePath(), Some(payload))
      ensures !CanEncode() ==> result == Failed(BtoaError)
      ensures result == Done <==> CanEncode() && put.Ok()
      ensures CanEncode() && put.Response? && !put.Ok() ==> result == Failed("WebDAV upload failed: " + IntToString(put.status))
    {
      if !CanEncode() {
        return Failed(BtoaError), None;
      }
      request := Some(Request("PUT", FilePath(), Some(payload)));
      match put
      case NetworkError(e) =>
        result := Failed(e);
      case Response(status, _) =>
        if !put.Ok() && status != 201 && status != 204 {
          result := Failed("WebDAV upload failed: " + IntToString(status));
        } else {
          result := Done;
        }
    }

    /** download GETs the file and never throws: a non-2xx reply, a rejected
        request or credentials `btoa` cannot encode give null. */
    method Download(get: Http<SyncPayload>) returns (d: Outcome<SyncPayload>, request: Option<Request>)
      ensures request.Some? <==> CanEncode()
      ensures request.Some? ==> request.value == Request("GET", FilePath(), None)
      ensures !d.Threw?
      ensures d.Found? <==> CanEncode() && get.Ok()
      ensures d.Found? ==> d.value == get.body
    {
      if !CanEncode() {
        return Absent, None;
      }
      request := Some(Request("GET", FilePath(), None));
      d := if get.Ok() then Found(get.body) else Absent;
    }
  }

  /** Whatever run of slashes follows the URL the user typed, the stored
      collection URL, and so the file path, is the same. */
  lemma {:induction false} StripIgnoresExtraSlashes(url: string, slashes: string)
    requires forall i :: 0 <= i < |slashes| ==> slashes[i] == '/'
    ensures StripTrailingSlashes(url + slashes) == StripTrailingSlashes(url)
  {
    if slashes != [] {
      var shorter := slashes[..|slashes| - 1];
      assert (url + slashes)[..|url + slashes| - 1] == url + shorter;
      assert (url + slashes)[|url + slashes| - 1] == slashes[|slashes| - 1] == '/';
      StripIgnoresExtraSlashes(url, shorter);
    } else {
      assert url + slashes == url;
    }
  }
}
