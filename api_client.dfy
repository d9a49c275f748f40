/** The REST client: URL normalisation against the configured base address,
    the request headers of authenticated calls, and the turning of a server
    reply into a resolved envelope or a rejected error. */
module ApiClient {
  import opened Types
  import opened Text

  /** `NEXT_PUBLIC_API_URL` as the template literal renders it: an unset
      variable prints as "undefined". */
  function BaseText(baseUrl: Option<string>): string
  {
    match baseUrl
    case Some(b) => b
    case None => "undefined"
  }

  predicate IsAbsolute(url: string)
  {
    StartsWith(url, "http://") || StartsWith(url, "https://")
  }

  /** The path with its leading slash, if any, removed. */
  function WithoutLeadingSlash(url: string): string
  {
    if StartsWith(url, "/") then url[1..] else url
  }

  /** `normalizeUrl`: absolute URLs pass through; any other URL is appended
      to the base address behind exactly one inserted slash. */
  function NormalizeUrl(baseUrl: Option<string>, url: string): (r: string)
    ensures IsAbsolute(url) ==> r == url
    ensures !IsAbsolute(url) ==> r == BaseText(baseUrl) + "/" + WithoutLeadingSlash(url)
  {
    if IsAbsolute(url) then url
    else
      var cleanPath := if StartsWith(url, "/") then url else "/" + url;
      assert StartsWith(url, "/") ==> url == "/" + url[1..];
      BaseText(baseUrl) + cleanPath
  }

  /** With an absolute base address a second normalisation changes nothing,
      which is what makes the double normalisation of authenticated calls
      harmless. */
  lemma NormalizeIdempotent(baseUrl: Option<string>, url: string)
    requires IsAbsolute(BaseText(baseUrl))
    ensures NormalizeUrl(baseUrl, NormalizeUrl(baseUrl, url)) == NormalizeUrl(baseUrl, url)
  {
    var once := NormalizeUrl(baseUrl, url);
    if !IsAbsolute(url) {
      var b := BaseText(baseUrl);
      if StartsWith(b, "http://") {
        StartsWithExtended(b, "http://", "/" + WithoutLeadingSlash(url));
      } else {
        StartsWithExtended(b, "https://", "/" + WithoutLeadingSlash(url));
      }
      assert once == b + ("/" + WithoutLeadingSlash(url));
    }
  }

  /** With a base address that is a root-relative path, the second
      normalisation prefixes the base a second time. */
  lemma RelativeBaseDoubles(base: string, url: string)
    requires StartsWith(base, "/") && !IsAbsolute(url)
    ensures NormalizeUrl(Some(base), NormalizeUrl(Some(base), url)) == base + NormalizeUrl(Some(base), url)
  {
    var once := NormalizeUrl(Some(base), url);
    assert once == base + ("/" + WithoutLeadingSlash(url));
    StartsWithExtended(base, "/", "/" + WithoutLeadingSlash(url));
    assert once[0] == '/';
    DiffersAt(once, "http://", 0);
    DiffersAt(once, "https://", 0);
    assert "/" + once[1..] == once;
  }

  /** The options of a `fetch` call: the headers, and every other option kept
      opaque by name. */
  datatype RequestInit = RequestInit(
    other: map<string, string>,
    body: Option<seq<(string, string)>>,
    headers: Option<map<string, string>>)

  datatype HttpRequest = HttpRequest(url: string, init: RequestInit)

  /** What the server does with a request: no answer at all (the `fetch` or
      the JSON decoding rejects), an ok answer carrying an envelope, or a
      non-ok answer whose body may carry a `message` list. */
  datatype HttpReply<T> =
    | TransportError(reason: string)
    | OkReply(json: ApiResponse<T>)
    | ErrorReply(message: Option<seq<string>>)

  /** A settled promise: resolved with an envelope or rejected with an
      error message. */
  datatype Outcome<T> = Resolved(response: ApiResponse<T>) | Rejected(message: string)

  datatype Exchange<T> = Exchange(request: HttpRequest, outcome: Outcome<T>)

  /** `json.message?.join(", ") || "API Error"`. */
  function ApiErrorMessage(message: Option<seq<string>>): (r: string)
    ensures r != ""
    ensures message.None? || message.value == [] || message.value == [""] ==> r == "API Error"
    ensures message.Some? && |message.value| == 1 && message.value[0] != "" ==> r == message.value[0]
    ensures message.Some? && |message.value| >= 2 ==> r == Join(message.value, ", ")
  {
    match message
    case None => "API Error"
    case Some(parts) =>
      JoinEmptyIff(parts, ", ");
      var joined := Join(parts, ", ");
      if joined != "" then joined else "API Error"
  }

  /** `fetchWithGeneric`: normalise the URL, send the options unchanged, and
      settle according to the reply. */
  function FetchWithGeneric<T>(baseUrl: Option<string>, url: string, options: RequestInit, reply: HttpReply<T>): (e: Exchange<T>)
    ensures e.request == HttpRequest(NormalizeUrl(baseUrl, url), options)
    ensures reply.OkReply? ==> e.outcome == Resolved(reply.json)
    ensures reply.ErrorReply? ==> e.outcome == Rejected(ApiErrorMessage(reply.message))
    ensures reply.TransportError? ==> e.outcome == Rejected(reply.reason)
  {
    var request := HttpRequest(NormalizeUrl(baseUrl, url), options);
    match reply
    case TransportError(reason) => Exchange(request, Rejected(reason))
    case OkReply(json) => Exchange(request, Resolved(json))
    case ErrorReply(message) => Exchange(request, Rejected(ApiErrorMessage(message)))
  }

  /** The stored token counts only when present and non-empty. */
  predicate HasToken(storage: map<string, string>)
  {
    "token" in storage && storage["token"] != ""
  }

  /** The header block of `authFetch`: a JSON content type unless the caller
      gives one, the caller's headers, and a bearer `Authorization` built
      from the stored token, overriding the caller's, when there is one. */
  predicate AuthHeaders(callerHeaders: Option<map<string, string>>, storage: map<string, string>,
                        headers: map<string, string>)
  {
    var caller := callerHeaders.GetOr(map[]);
    && headers.Keys == {"Content-Type"} + caller.Keys + (if HasToken(storage) then {"Authorization"} else {})
    && (HasToken(storage) ==> headers["Authorization"] == "Bearer " + storage["token"])
    && (forall k :: k in caller && (k != "Authorization" || !HasToken(storage)) ==> headers[k] == caller[k])
    && ("Content-Type" !in caller ==> headers["Content-Type"] == "application/json")
  }

  /** The description above leaves no choice: it fixes every header. */
  lemma AuthHeadersUnique(callerHeaders: Option<map<string, string>>, storage: map<string, string>,
                          h1: map<string, string>, h2: map<string, string>)
    requires AuthHeaders(callerHeaders, storage, h1) && AuthHeaders(callerHeaders, storage, h2)
    ensures h1 == h2
  {
    var caller := callerHeaders.GetOr(map[]);
    forall k | k in h1.Keys
      ensures h1[k] == h2[k]
    {
      if k == "Authorization" && HasToken(storage) {
      } else if k in caller {
      } else {
        assert k == "Content-Type";
      }
    }
  }

  method BuildHeaders(callerHeaders: Option<map<string, string>>, storage: map<string, string>)
    returns (headers: map<string, string>)
    ensures AuthHeaders(callerHeaders, storage, headers)
  {
    var caller := callerHeaders.GetOr(map[]);
    headers := map["Content-Type" := "application/json"] + caller;
    if "token" in storage {
      var token := storage["token"];
      if token != "" {
        headers := headers["Authorization" := "Bearer " + token];
      }
    }
  }

  /** `authFetch`: the normalised URL is handed to `fetchWithGeneric`, which
      normalises it again; all options but the headers pass through. */
  method AuthFetch<T>(baseUrl: Option<string>, url: string, options: RequestInit,
                      storage: map<string, string>, reply: HttpReply<T>)
    returns (e: Exchange<T>)
    ensures e.request.url == NormalizeUrl(baseUrl, NormalizeUrl(baseUrl, url))
    ensures IsAbsolute(BaseText(baseUrl)) ==> e.request.url == NormalizeUrl(baseUrl, url)
    ensures e.request.init.other == options.other && e.request.init.body == options.body
    ensures e.request.init.headers.Some? && AuthHeaders(options.headers, storage, e.request.init.headers.value)
    ensures e.outcome == FetchWithGeneric(baseUrl, url, options, reply).outcome
  {
    var finalUrl := NormalizeUrl(baseUrl, url);
    var headers := BuildHeaders(options.headers, storage);
    e := FetchWithGeneric(baseUrl, finalUrl, options.(headers := Some(headers)), reply);
    if IsAbsolute(BaseText(baseUrl)) {
      NormalizeIdempotent(baseUrl, url);
    }
  }

  /** A root-relative path goes straight after the base address. */
  lemma RootPathUrl(baseUrl: Option<string>, path: string)
    requires |path| > 0 && path[0] == '/'
    ensures !IsAbsolute(path)
    ensures NormalizeUrl(baseUrl, path) == BaseText(baseUrl) + path
  {
    DiffersAt(path, "http://", 0);
    DiffersAt(path, "https://", 0);
    assert path[..1] == "/";
    assert "/" + path[1..] == path;
  }

  /** `getWantedPersonById`: an authenticated call on `/FbiWanted/<id>`. */
  method GetWantedPersonById<T>(baseUrl: Option<string>, id: string,
                                storage: map<string, string>, reply: HttpReply<T>)
    returns (e: Exchange<T>)
    ensures IsAbsolute(BaseText(baseUrl)) ==> e.request.url == BaseText(baseUrl) + "/FbiWanted/" + id
    ensures e.request.init.headers.Some? && AuthHeaders(None, storage, e.request.init.headers.value)
    ensures e.outcome == FetchWithGeneric(baseUrl, "/FbiWanted/" + id, RequestInit(map[], None, None), reply).outcome
  {
    var path := "/FbiWanted/" + id;
    e := AuthFetch(baseUrl, path, RequestInit(map[], None, None), storage, reply);
    RootPathUrl(baseUrl, path);
  }
}
