# request: a Dafny model of a small Go HTTP client

The Go package `request` wraps an HTTP transport in a `Client` that sends GET
and POST requests against a configured base URL and default header set, and
offers JSON variants whose responses are parsed lazily. This project models
its decision logic as pure Dafny functions over immutable values and proves
what the code promises:

- `base.dfy` (`Base`): bytes, `Option`, `Result`, and the error values
  (`errPOSTWrongDataType` plus opaque errors from collaborators).
- `net.dfy` (`Net`): `http.Header`, requests, responses whose body stream
  answers the n-th read, and the `Requester` transport. The transport is an
  arbitrary reply function with a log of every request handed to it, so "no
  transport call" is stated as "the log did not grow".
- `http.dfy` (`Http`): the payload classifier `IsStructMapOrSlice`. Go
  reflection is replaced by an explicit `Shape` datatype.
- `json_response.dfy` (`JsonResponse`): the `JSONResponse` wrapper and its
  `Parse` state machine. The state holds the deferred error or response, the
  body cache, and a count of body reads. `Valid` is the read-count invariant.
- `client.dfy` (`Clients`): `validateToByte`, URL resolution, `newRequest`,
  `Post`, `Get`, `PostJSON` and `GetJSON`.
- `options.dfy` (`Options`): the `BaseURL` and `DefaultHeaders` options and
  the left-to-right option fold of `NewClient`.

Collaborators are parameters, never interpreted:
- the transport's reply function (`Requester.respond`);
- the encoder (`Client.encoder`, i.e. `JSONEncoder.Marshal`);
- URL parsing inside `http.NewRequest` (`UrlCheck`);
- `json.Unmarshal` into one `Parse` target (`Decoder`);
- the body stream (`Body.read`).

Shared header map. `newRequest` stores the default header map itself in the
request (client.go:167). `Post` then calls `Set("Content-Type", …)` on that
map (client.go:65). So a `Post` on a client with default headers also writes
`Content-Type` into `Defaults.Headers`. Values are immutable here, so `Post`
returns the updated client and its defaults carry that write.
`Clients.PostContentTypeLeaksIntoDefaults` shows the consequence: a later
`Get` sends the earlier POST's `Content-Type`.

Points where the code's behaviour is easy to misread, modelled as the code has it:
- `Parse` decodes with the package-level `json.Unmarshal` (client.go:137).
  The `JSONDecoder` interface exists, but `Client` never uses it.
- The body is closed only after a successful read (client.go:132). A failed
  read leaves the cache empty, so the next `Parse` reads the stream again.
  "At most once" therefore holds for successful reads.
- `http.Header` is an unordered Go map, modelled as a Dafny `map`.

## Model

| member | source | states |
|---|---|---|
| Http.IsStructMapOrSlice | http.go:5-26 | nil, bytes, strings, arrays and other scalars are not JSON; maps, structs and non-byte slices are; a pointer is judged by its target, and a pointer to bytes, a string or another pointer is not JSON; a typed nil pointer is excluded because reflection panics on it |
| Http.OnlyOneDereference | http.go:13-16 | two or more pointers in front of any value make the classifier refuse it |
| Net.SetHeader | client.go:65 | `Header.Set` on the canonical key leaves exactly the one given value under it and every other entry unchanged |
| JsonResponse.Wrap | client.go:80-86 | a fresh wrapper holds the call's outcome, no cache and no reads, and satisfies the read-count invariant |
| JsonResponse.Parse | client.go:115-138 | a deferred error is returned without reading; cached bytes are decoded without reading; otherwise the body is read once, a failed read is returned and caches nothing, a successful read is cached and decoded; the state stays valid |
| JsonResponse.BodyFetchedAtMostOnce | client.go:123-135 | in every valid state the body has been read successfully once if bytes are cached and never otherwise |
| JsonResponse.CachedParsesReuseBytes | client.go:123-124 | once bytes are cached, any number of parses change nothing and decode those same bytes |
| JsonResponse.ParseIsIdempotent | client.go:115-138 | when the first read of the body succeeds, any positive number of parses of a fresh wrapper, with the same or different targets, read the body exactly once and all decode that one read's bytes |
| JsonResponse.FailedReadIsRetried | client.go:126-134 | a failed first read caches nothing, so the next parse reads the stream again, and a successful second read is cached and decoded |
| JsonResponse.ParseEachValid | client.go:115-138 | any number of parses keep the wrapper's invariant and its outcome |
| JsonResponse.FreshBodyFetchedAtMostOnce | client.go:123-135 | however many parses follow a call, the body of its wrapper is read successfully at most once |
| JsonResponse.DeferredErrorShortCircuits | client.go:116-118 | a wrapper with an error answers every parse with that error and never reads the body |
| Clients.ValidateToByte | client.go:140-149 | a byte payload is returned unchanged, a string as its bytes, anything else is errPOSTWrongDataType |
| Clients.ClassifiedPayloadIsNotRaw | client.go:140-149 | a payload the classifier accepts is refused by the raw POST check, and one the raw check accepts is not classified as JSON |
| Clients.ResolveURL | client.go:155-160 | a URL starting with "http" is used verbatim; any other URL is the base followed by the URL, with no separator handling |
| Clients.ResolveURLIdempotent | client.go:155-160 | with an absolute or empty base, resolving an already resolved URL gives it back unchanged: the base is never prepended twice |
| Clients.ResolveURLExamples | client_test.go:264-284 | the test's joined and absolute URLs, a path without a slash, and a relative path starting with "http" that is not joined |
| Clients.NewRequest | client.go:151-171 | a URL parse error is returned unchanged; otherwise the request has the given method and body, the resolved URL, and exactly the default headers when set (replaced, not merged), or no headers when they are nil |
| Clients.Post | client.go:52-68 | a non-byte, non-string payload or an unparsable URL fails with nothing sent and nothing changed; otherwise one POST with the payload bytes and Content-Type equal to the argument is sent and its reply returned; configured default headers absorb that Content-Type |
| Clients.Get | client.go:70-78 | an unparsable URL fails with nothing sent; otherwise one GET with no body, the resolved URL and the initial headers is sent and its reply returned; defaults never change |
| Clients.GetJSON | client.go:80-86 | never fails by itself: a fresh valid wrapper holds Get's result, error included |
| Clients.PostJSON | client.go:88-107 | a classified payload is marshalled, and a marshal error is deferred with nothing sent; the marshalled bytes, or the unclassified payload unchanged, are posted as application/json and the result deferred |
| Clients.PostJSONSendsMarshalled | client.go:88-107 | a JSON-shaped payload that marshals sends exactly one POST whose body is the encoder's output and whose Content-Type is application/json |
| Clients.PostJSONPassesRawPayload | client.go:88-104 | a byte or string payload is sent as its own bytes, not re-encoded |
| Clients.PostJSONRefusesOtherPayloads | client.go:88-104 | nil, scalars, arrays and pointers to non-JSON values are neither encoded nor sent; the wrapper carries errPOSTWrongDataType |
| Clients.PostJSONEncodingErrorIsDeferred | client.go:92-99 | a marshal failure sends nothing and every later parse returns the encoder's error |
| Clients.GetJSONRequestErrorIsDeferred | client.go:80-86 | a GET whose URL cannot be parsed sends nothing and every parse returns the parse error |
| Clients.PostContentTypeLeaksIntoDefaults | client.go:59-67 | after a POST on a client with default headers, the next GET carries that POST's Content-Type |
| Options.Apply | defaults.go:7-17 | BaseURL sets only the base URL; DefaultHeaders replaces only the header map; transport and encoder are untouched |
| Options.ApplyAll | client.go:45-47 | folding the options left to right leaves transport and encoder untouched and gives each default field the value of the last option that sets it, as read from the end of the list by `LastBaseURL`/`LastHeaders`, or its old value if none does |
| Options.LastBaseURLKeptWithoutOption | defaults.go:7-11 | with no `BaseURL` option the base URL keeps its previous value |
| Options.LastBaseURLIsLastOption | defaults.go:7-11 | the reference reading picks the URL of the last `BaseURL` option, whatever options follow it |
| Options.LastHeadersKeptWithoutOption | defaults.go:13-17 | with no `DefaultHeaders` option the header map keeps its previous value |
| Options.LastHeadersIsLastOption | defaults.go:13-17 | the reference reading picks the map of the last `DefaultHeaders` option, replacing any earlier one |
| Options.NewClient | client.go:39-50 | the given transport and encoder; the base URL is that of the last `BaseURL` option or empty, and the headers those of the last `DefaultHeaders` option or nil, so with no options an empty base URL and nil headers |
| Options.ApplyAllConcat | client.go:45-47 | applying two option lists in turn equals applying their concatenation |
| Options.LaterOptionWins | client.go:45-47 | an option appended last overrides its own field and keeps the other |
| Options.NewClientWithDefaults | client_test.go:24-35 | constructing with both options yields exactly that base URL and header map |

## Left out

- The network transport (`http.Client`, TCP/TLS, redirects, timeouts): the transport is an arbitrary reply function plus a call log; response status and headers are not modelled.
- URL parsing and method validation inside `http.NewRequest`: only whether it fails, and with which error, as the `UrlCheck` parameter.
- The JSON codec (json.go) and `json.Unmarshal`: uninterpreted `Encoder` and `Decoder` functions.
- `ReadJson` (request.go): server-side body read plus decode with error wrapping, no logic of its own.
- Go reflection: replaced by the `Shape` datatype. Values of a named string type, of a named byte-slice type, and slices whose element is a named uint8 type (`[]B` with `type B uint8`) are folded into `Scalar`. Both the classifier and `validateToByte` treat them exactly like a number.
- Net.SetHeader: models `Header.Set` for keys already in canonical MIME form only (the client sets just "Content-Type"); canonicalisation of other keys is not modelled.
- Http.IsStructMapOrSlice: a typed nil pointer (`Ptr(Nil)`) makes the Go code panic; the model excludes it by precondition instead of modelling the panic.
- Clients.PostJSON: excludes a typed nil pointer payload by precondition, for the same reason (the classifier panics on it).
- A transport reply of a nil response with a nil error (which the test mocks return): `Parse` on such a wrapper dereferences nil in Go; the model's transport always returns a response or an error.
- Closing the response body and the partial bytes `io.ReadAll` returns alongside an error: neither is observable through `Parse`.
- Concurrency: the unsynchronised lazy cache of `Parse` is modelled for a single caller only.
- User-written `ClientDefaults` closures: only the two options the package defines are modelled.
- The caller's own header map passed to `DefaultHeaders` is shared with the client in Go, so the Content-Type write also reaches the caller's map; the model tracks the client's copy only.
- Direct assignment to the unexported `client` and `jsonEncoder` fields (how the tests install mocks): the transport and encoder are instead parameters of `NewClient`.
- The testify mocks of client_mock_test.go.
