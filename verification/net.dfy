/** The boundary to net/http: header maps, requests, responses with a body
    stream, and the `Requester` capability that sends requests. The transport
    is abstract: its replies are an arbitrary function, and every request it
    is handed is appended to a log, so that "the transport was not called"
    can be stated as "the log did not grow". */
module Net {
  import opened Base

  /** Go's http.Header: header names mapped to their lists of values. */
  type Header = map<string, seq<string>>

  /** The key `Header.Set("Content-Type", …)` writes; it is already in
      canonical MIME form, so Set stores it as written. */
  const ContentType: string := "Content-Type"

  /** `Header.Set` for a key already in canonical MIME form (the only key
      the client sets is `ContentType`): the key afterwards holds exactly the
      one given value and every other entry is left as it was. Go's
      canonicalisation of other keys is not modelled. */
  function SetHeader(h: Header, key: string, value: string): (r: Header)
    ensures r.Keys == h.Keys + {key}
    ensures r[key] == [value]
    ensures forall k | k in h && k != key :: r[k] == h[k]
  {
    h[key := [value]]
  }

  /** An outgoing request as the transport sees it; `verb` is the HTTP
      method and `body == None` is a request built with a nil body reader. */
  datatype Request = Request(verb: string, url: string, header: Header, body: Option<seq<byte>>)

  /** A response body stream: `read(n)` is what the n-th complete read
      (`io.ReadAll`, counting from 0) of the stream returns. */
  datatype Body = Body(read: nat -> Result<seq<byte>>)

  /** A response; the client never looks at status or headers. */
  datatype Response = Response(body: Body)

  /** The `Requester` capability: `respond(before, req)` is the reply to
      `req` when the requests in `before` were sent earlier, and `sent` is
      the log of every request handed to `Do` so far. */
  datatype Requester = Requester(respond: (seq<Request>, Request) -> Result<Response>, sent: seq<Request>)

  /** The requester after `Do`, paired with `Do`'s reply. */
  datatype Sent = Sent(requester: Requester, reply: Result<Response>)

  /** `Requester.Do`: the one place a request leaves the client. */
  function Do(t: Requester, req: Request): (r: Sent)
  {
    Sent(t.(sent := t.sent + [req]), t.respond(t.sent, req))
  }

  /** Exactly one request, `req`, was handed to the transport between
      `before` and `after`, and the transport itself is the same. */
  ghost predicate SentOne(before: Requester, after: Requester, req: Request)
  {
    after.respond == before.respond && after.sent == before.sent + [req]
  }
}
