/** The request logic of client.go: turning payloads into bytes, building
    requests against the configured defaults, and the four calls Get, Post,
    GetJSON and PostJSON over an abstract transport and encoder. */
module Clients {
  import opened Base
  import opened Net
  import opened Http
  import opened JsonResponse

  /** `JSONEncoder.Marshal`, left uninterpreted. */
  type Encoder = Shape -> Result<seq<byte>>

  /** The URL parsing inside `http.NewRequest`, left uninterpreted: `None`
      when it accepts the URL, otherwise the error it reports. */
  type UrlCheck = string -> Option<Error>

  /** `Client.Defaults`: a base URL (possibly empty) and a header map, where
      `None` is a nil map, meaning "keep the headers net/http starts with". */
  datatype Defaults = Defaults(baseURL: string, headers: Option<Header>)

  /** A client: its transport, its encoder and its defaults. */
  datatype Client = Client(requester: Requester, encoder: Encoder, defaults: Defaults)

  /** The client after a raw call, and what the call returned. */
  datatype Call = Call(client: Client, result: Result<Response>)

  /** The client after a JSON call, and the wrapper the call returned. */
  datatype JsonCall = JsonCall(client: Client, response: JSONResponse)

  const JSONContentType: string := "application/json"

  /** `validateToByte`: only a byte slice or a string can be the body of a
      raw POST. */
  function ValidateToByte(d: Shape): (r: Result<seq<byte>>)
    ensures d.Bytes? ==> r == Ok(d.data)
    ensures d.Str? ==> r == Ok(d.text)
    ensures !d.Bytes? && !d.Str? ==> r == Err(PostWrongDataType)
  {
    match d
    case Bytes(b) => Ok(b)
    case Str(t) => Ok(t)
    case _ => Err(PostWrongDataType)
  }

  /** Every payload the classifier sends down the JSON path would be refused
      by a raw POST, and every payload a raw POST accepts is sent as it is. */
  lemma ClassifiedPayloadIsNotRaw(d: Shape)
    requires d != Ptr(Nil)
    ensures IsStructMapOrSlice(d) ==> ValidateToByte(d) == Err(PostWrongDataType)
    ensures ValidateToByte(d).Ok? ==> !IsStructMapOrSlice(d)
  {
  }

  /** `strings.HasPrefix`. */
  predicate HasPrefix(s: string, prefix: string)
  {
    |prefix| <= |s| && s[..|prefix|] == prefix
  }

  /** The URL a request is sent to. A URL that starts with "http" (which
      covers "https", and also a relative path such as "httpbin/x") is taken
      as it is; any other URL is appended to the base URL with no separator
      added or removed. */
  function ResolveURL(base: string, url: string): (r: string)
    ensures HasPrefix(url, "http") ==> r == url
    ensures !HasPrefix(url, "http") ==> |r| == |base| + |url| && r[..|base|] == base && r[|base|..] == url
  {
    if HasPrefix(url, "http") then url else base + url
  }

  /** Resolving is idempotent when the base is absolute or empty: a URL
      that has been resolved once resolves to itself, so the base is never
      prepended twice. */
  lemma ResolveURLIdempotent(base: string, url: string)
    requires HasPrefix(base, "http") || base == ""
    ensures ResolveURL(base, ResolveURL(base, url)) == ResolveURL(base, url)
  {
  }

  /** The cases of the client tests: a path is joined to the base, a full
      URL ignores it, and a path that happens to start with "http" is not
      joined at all. */
  lemma ResolveURLExamples()
    ensures ResolveURL("http://localhost:8080", "/test-url") == "http://localhost:8080/test-url"
    ensures ResolveURL("http://localhost:8080", "http://localhost:8080/test-full-url") == "http://localhost:8080/test-full-url"
    ensures ResolveURL("http://localhost:8080", "test-url") == "http://localhost:8080test-url"
    ensures ResolveURL("http://localhost:8080", "httpbin/get") == "httpbin/get"
  {
    assert HasPrefix("http://localhost:8080/test-full-url", "http");
    assert !HasPrefix("/test-url", "http") by { assert "/test-url"[0] != "http"[0]; }
    assert !HasPrefix("test-url", "http") by { assert "test-url"[..4] != "http"; }
    assert HasPrefix("httpbin/get", "http");
  }

  /** The header map a request starts with: the configured default headers,
      or the empty map `http.NewRequest` creates when none are configured. */
  function InitialHeader(d: Defaults): (h: Header)
  {
    if d.headers.Some? then d.headers.value else map[]
  }

  /** `Client.newRequest`. A URL that `http.NewRequest` rejects gives its
      error unchanged. Otherwise the request carries the given method and
      body, the resolved URL, and a header set that is exactly the default
      headers when they are configured (replaced, never merged) and empty
      when they are not. */
  function NewRequest(d: Defaults, verb: string, url: string, body: Option<seq<byte>>, check: UrlCheck): (r: Result<Request>)
    ensures r.Err? <==> check(ResolveURL(d.baseURL, url)).Some?
    ensures r.Err? ==> r.error == check(ResolveURL(d.baseURL, url)).value
    ensures r.Ok? ==> r.value.verb == verb && r.value.url == ResolveURL(d.baseURL, url) && r.value.body == body
    ensures r.Ok? && d.headers.Some? ==> r.value.header == d.headers.value
    ensures r.Ok? && d.headers.None? ==> r.value.header == map[]
  {
    var target := ResolveURL(d.baseURL, url);
    match check(target)
    case Some(e) => Err(e)
    case None => Ok(Request(verb, target, InitialHeader(d), body))
  }

  /** `Client.Post`. A payload that is neither bytes nor a string fails with
      errPOSTWrongDataType, and a URL that cannot be parsed fails with the
      parser's error; in both cases the transport is not called and nothing
      changes. Otherwise exactly one POST request is sent, to the resolved
      URL, with the payload bytes as body and with `Content-Type` set to
      `contentType` whatever the default headers say; every other header is
      a default header. Because the request shares its header map with the
      defaults, configured default headers gain that `Content-Type` too. */
  function Post(c: Client, url: string, contentType: string, data: Shape, check: UrlCheck): (r: Call)
    ensures r.client.encoder == c.encoder && r.client.defaults.baseURL == c.defaults.baseURL
    ensures !data.Bytes? && !data.Str? ==> r == Call(c, Err(PostWrongDataType))
    ensures (data.Bytes? || data.Str?) && check(ResolveURL(c.defaults.baseURL, url)).Some? ==>
      r == Call(c, Err(check(ResolveURL(c.defaults.baseURL, url)).value))
    ensures (data.Bytes? || data.Str?) && check(ResolveURL(c.defaults.baseURL, url)).None? ==>
      && |r.client.requester.sent| == |c.requester.sent| + 1
      && var req := r.client.requester.sent[|c.requester.sent|];
      && SentOne(c.requester, r.client.requester, req)
      && req.verb == "POST"
      && req.url == ResolveURL(c.defaults.baseURL, url)
      && req.body == Some(if data.Bytes? then data.data else data.text)
      && ContentType in req.header && req.header[ContentType] == [contentType]
      && req.header.Keys - {ContentType} == InitialHeader(c.defaults).Keys - {ContentType}
      && (forall k | k in InitialHeader(c.defaults) && k != ContentType :: k in req.header && req.header[k] == InitialHeader(c.defaults)[k])
      && r.result == c.requester.respond(c.requester.sent, req)
      && (c.defaults.headers.None? ==> r.client.defaults == c.defaults)
      && (c.defaults.headers.Some? ==> r.client.defaults.headers == Some(req.header))
  {
    match ValidateToByte(data)
    case Err(e) => Call(c, Err(e))
    case Ok(d) =>
      match NewRequest(c.defaults, "POST", url, Some(d), check)
      case Err(e) => Call(c, Err(e))
      case Ok(req) =>
        var req' := req.(header := SetHeader(req.header, ContentType, contentType));
        // With default headers configured, req.header *is* the defaults'
        // map, so the Set above also writes into Client.Defaults.Headers.
        var defaults' := if c.defaults.headers.Some? then c.defaults.(headers := Some(req'.header)) else c.defaults;
        var s := Do(c.requester, req');
        Call(Client(s.requester, c.encoder, defaults'), s.reply)
  }

  /** `Client.Get`. A URL that cannot be parsed fails with the parser's
      error and the transport is not called. Otherwise exactly one GET
      request with no body is sent to the resolved URL, carrying the initial
      header set, and its reply is returned. The defaults never change. */
  function Get(c: Client, url: string, check: UrlCheck): (r: Call)
    ensures r.client.encoder == c.encoder && r.client.defaults == c.defaults
    ensures check(ResolveURL(c.defaults.baseURL, url)).Some? ==>
      r == Call(c, Err(check(ResolveURL(c.defaults.baseURL, url)).value))
    ensures check(ResolveURL(c.defaults.baseURL, url)).None? ==>
      && |r.client.requester.sent| == |c.requester.sent| + 1
      && var req := r.client.requester.sent[|c.requester.sent|];
      && SentOne(c.requester, r.client.requester, req)
      && req == Request("GET", ResolveURL(c.defaults.baseURL, url), InitialHeader(c.defaults), None)
      && r.result == c.requester.respond(c.requester.sent, req)
  {
    match NewRequest(c.defaults, "GET", url, None, check)
    case Err(e) => Call(c, Err(e))
    case Ok(req) =>
      var s := Do(c.requester, req);
      Call(c.(requester := s.requester), s.reply)
  }

  /** `Client.GetJSON`: never fails by itself; whatever `Get` returned,
      error or response, is deferred into a fresh wrapper. */
  function GetJSON(c: Client, url: string, check: UrlCheck): (r: JsonCall)
    ensures Valid(r.response) && r.response.cache == None && r.response.readCount == 0
    ensures r.client == Get(c, url, check).client
    ensures r.response.outcome == Get(c, url, check).result
  {
    var call := Get(c, url, check);
    JsonCall(call.client, Wrap(call.result))
  }

  /** `Client.PostJSON`: never fails by itself. A payload the classifier
      accepts is marshalled first; if marshalling fails the wrapper carries
      that error and nothing else happens. The marshalled bytes, or the
      payload unchanged when the classifier refuses it, are then posted as
      `application/json`, and whatever that POST returned is deferred into a
      fresh wrapper. */
  function PostJSON(c: Client, url: string, data: Shape, check: UrlCheck): (r: JsonCall)
    requires data != Ptr(Nil)
    ensures Valid(r.response) && r.response.cache == None && r.response.readCount == 0
    ensures IsStructMapOrSlice(data) && c.encoder(data).Err? ==>
      r.client == c && r.response.outcome == Err(c.encoder(data).error)
    ensures IsStructMapOrSlice(data) && c.encoder(data).Ok? ==>
      && r.client == Post(c, url, JSONContentType, Bytes(c.encoder(data).value), check).client
      && r.response.outcome == Post(c, url, JSONContentType, Bytes(c.encoder(data).value), check).result
    ensures !IsStructMapOrSlice(data) ==>
      && r.client == Post(c, url, JSONContentType, data, check).client
      && r.response.outcome == Post(c, url, JSONContentType, data, check).result
  {
    var enc: Result<Shape> :=
      if IsStructMapOrSlice(data) then
        match c.encoder(data)
        case Err(e) => Err(e)
        case Ok(js) => Ok(Bytes(js))
      else Ok(data);
    match enc
    case Err(e) => JsonCall(c, Wrap(Err(e)))
    case Ok(payload) =>
      var call := Post(c, url, JSONContentType, payload, check);
      JsonCall(call.client, Wrap(call.result))
  }

  /** A map, struct or slice (or a pointer to one) given to PostJSON is sent
      as its marshalled bytes: one POST to the resolved URL whose body is the
      encoder's output and whose `Content-Type` is application/json, even
      when the default headers name another content type. */
  lemma PostJSONSendsMarshalled(c: Client, url: string, data: Shape, check: UrlCheck)
    requires data != Ptr(Nil) && IsStructMapOrSlice(data)
    requires c.encoder(data).Ok? && check(ResolveURL(c.defaults.baseURL, url)).None?
    ensures var r := PostJSON(c, url, data, check);
      && |r.client.requester.sent| == |c.requester.sent| + 1
      && var req := r.client.requester.sent[|c.requester.sent|];
      && SentOne(c.requester, r.client.requester, req)
      && req.verb == "POST"
      && req.url == ResolveURL(c.defaults.baseURL, url)
      && req.body == Some(c.encoder(data).value)
      && req.header[ContentType] == [JSONContentType]
      && r.response.outcome == c.requester.respond(c.requester.sent, req)
  {
  }

  /** A byte slice or string given to PostJSON is not encoded again: the
      body sent is the payload's own bytes. */
  lemma PostJSONPassesRawPayload(c: Client, url: string, data: Shape, check: UrlCheck)
    requires data.Bytes? || data.Str?
    requires check(ResolveURL(c.defaults.baseURL, url)).None?
    ensures var r := PostJSON(c, url, data, check);
      && |r.client.requester.sent| == |c.requester.sent| + 1
      && r.client.requester.sent[|c.requester.sent|].body == Some(if data.Bytes? then data.data else data.text)
  {
  }

  /** A payload that is neither JSON-shaped nor raw (nil, a number, an
      array, a pointer to bytes or to a string, a pointer to a pointer) is
      neither encoded nor sent: PostJSON's wrapper carries
      errPOSTWrongDataType and the client is untouched. */
  lemma PostJSONRefusesOtherPayloads(c: Client, url: string, data: Shape, check: UrlCheck)
    requires data != Ptr(Nil) && !IsStructMapOrSlice(data) && !data.Bytes? && !data.Str?
    ensures PostJSON(c, url, data, check) == JsonCall(c, Wrap(Err(PostWrongDataType)))
  {
  }

  /** When marshalling fails no request is sent, and every later `Parse` of
      the wrapper, however many, returns the encoder's error without
      touching a body. */
  lemma {:induction false} PostJSONEncodingErrorIsDeferred(c: Client, url: string, data: Shape, check: UrlCheck, decoders: seq<Decoder>)
    requires data != Ptr(Nil) && IsStructMapOrSlice(data) && c.encoder(data).Err?
    ensures PostJSON(c, url, data, check).client == c
    ensures var r := PostJSON(c, url, data, check);
      && ParseEach(r.response, decoders).0 == r.response
      && forall k | 0 <= k < |decoders| :: ParseEach(r.response, decoders).1[k] == Some(c.encoder(data).error)
  {
    DeferredErrorShortCircuits(PostJSON(c, url, data, check).response, decoders);
  }

  /** A GetJSON whose URL cannot be parsed sends nothing, and every `Parse`
      of its wrapper returns the parser's error. */
  lemma {:induction false} GetJSONRequestErrorIsDeferred(c: Client, url: string, check: UrlCheck, decoders: seq<Decoder>)
    requires check(ResolveURL(c.defaults.baseURL, url)).Some?
    ensures GetJSON(c, url, check).client == c
    ensures forall k | 0 <= k < |decoders| ::
      ParseEach(GetJSON(c, url, check).response, decoders).1[k] == Some(check(ResolveURL(c.defaults.baseURL, url)).value)
  {
    DeferredErrorShortCircuits(GetJSON(c, url, check).response, decoders);
  }

  /** The shared header map is observable: after a successful Post on a
      client with default headers, the next Get sends the Post's
      `Content-Type` along, although Get never sets one. */
  lemma PostContentTypeLeaksIntoDefaults(c: Client, url: string, contentType: string, data: Shape, next: string, check: UrlCheck)
    requires c.defaults.headers.Some? && (data.Bytes? || data.Str?)
    requires check(ResolveURL(c.defaults.baseURL, url)).None? && check(ResolveURL(c.defaults.baseURL, next)).None?
    ensures var after := Post(c, url, contentType, data, check).client;
      var g := Get(after, next, check);
      && |g.client.requester.sent| == |after.requester.sent| + 1
      && g.client.requester.sent[|after.requester.sent|].header[ContentType] == [contentType]
  {
  }
}
