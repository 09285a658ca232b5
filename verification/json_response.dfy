/** The deferred, cached JSON response of client.go (`JSONResponse` and its
    `Parse`). A wrapper either carries the error of the call that produced
    it, or a response whose body stream is read lazily by the first
    successful `Parse` and cached for every later one. */
module JsonResponse {
  import opened Base
  import opened Net

  /** `json.Unmarshal` of the cached bytes into the target of one `Parse`
      call: `None` when decoding succeeds, otherwise the decoder's error. */
  type Decoder = seq<byte> -> Option<Error>

  /** `outcome` is the deferred error or the response, `cache` the body
      bytes once they have been read, and `readCount` how many times the body
      stream has been read so far. */
  datatype JSONResponse = JSONResponse(outcome: Result<Response>, cache: Option<seq<byte>>, readCount: nat)

  /** The state invariant: a wrapper carrying an error never touches a body;
      otherwise every read of the stream failed except possibly the last one,
      and the cache holds exactly what that last, successful read returned. */
  ghost predicate Valid(j: JSONResponse)
  {
    match j.outcome
    case Err(_) => j.readCount == 0 && j.cache == None
    case Ok(resp) =>
      var failed := if j.cache.Some? then j.readCount - 1 else j.readCount;
      && failed >= 0
      && (forall i | 0 <= i < failed :: resp.body.read(i).Err?)
      && (j.cache.Some? ==> resp.body.read(failed) == Ok(j.cache.value))
  }

  /** A fresh wrapper around the outcome of a Get or Post. */
  function Wrap(outcome: Result<Response>): (j: JSONResponse)
    ensures Valid(j)
    ensures j.outcome == outcome && j.cache == None && j.readCount == 0
  {
    JSONResponse(outcome, None, 0)
  }

  /** A wrapper after one `Parse`, and the error that `Parse` returned. */
  datatype Parsed = Parsed(state: JSONResponse, error: Option<Error>)

  /** `JSONResponse.Parse`. A deferred error is returned as it is, without
      reading or decoding. Otherwise the cached bytes are decoded; when there
      are none yet, the body is read once: a failed read is returned and
      caches nothing, a successful one is cached and then decoded. */
  function Parse(j: JSONResponse, decode: Decoder): (r: Parsed)
    ensures r.state.outcome == j.outcome
    ensures j.outcome.Err? ==> r.state == j && r.error == Some(j.outcome.error)
    ensures j.cache.Some? ==> r.state == j
    ensures j.outcome.Ok? && j.cache.Some? ==> r.error == decode(j.cache.value)
    ensures j.outcome.Ok? && j.cache.None? ==>
      && r.state.readCount == j.readCount + 1
      && match j.outcome.value.body.read(j.readCount)
         case Err(e) => r.state.cache == None && r.error == Some(e)
         case Ok(b) => r.state.cache == Some(b) && r.error == decode(b)
    ensures Valid(j) ==> Valid(r.state)
  {
    match j.outcome
    case Err(e) => Parsed(j, Some(e))
    case Ok(resp) =>
      if j.cache.Some? then
        Parsed(j, decode(j.cache.value))
      else
        var read := resp.body.read(j.readCount);
        var j' := j.(readCount := j.readCount + 1);
        match read
        case Err(e) => Parsed(j', Some(e))
        case Ok(b) => Parsed(j'.(cache := Some(b)), decode(b))
  }

  /** Calls `Parse` once per decoder, in order; the final wrapper and the
      error of each call. */
  function ParseEach(j: JSONResponse, decoders: seq<Decoder>): (r: (JSONResponse, seq<Option<Error>>))
    ensures |r.1| == |decoders|
    decreases |decoders|
  {
    if decoders == [] then (j, [])
    else
      var p := Parse(j, decoders[0]);
      var rest := ParseEach(p.state, decoders[1..]);
      (rest.0, [p.error] + rest.1)
  }

  /** How many of the first `n` reads of a body succeed. */
  function SuccessfulReads(body: Body, n: nat): (count: nat)
  {
    if n == 0 then 0
    else SuccessfulReads(body, n - 1) + (if body.read(n - 1).Ok? then 1 else 0)
  }

  lemma {:induction false} NoSuccessfulReads(body: Body, n: nat)
    requires forall i | 0 <= i < n :: body.read(i).Err?
    ensures SuccessfulReads(body, n) == 0
  {
    if n > 0 {
      NoSuccessfulReads(body, n - 1);
    }
  }

  /** The body of a wrapper is fetched successfully at most once: in every
      valid state the number of successful reads so far is one when bytes
      are cached and zero otherwise. */
  lemma {:induction false} BodyFetchedAtMostOnce(j: JSONResponse)
    requires Valid(j) && j.outcome.Ok?
    ensures SuccessfulReads(j.outcome.value.body, j.readCount) == (if j.cache.Some? then 1 else 0)
    ensures SuccessfulReads(j.outcome.value.body, j.readCount) <= 1
  {
    var body := j.outcome.value.body;
    if j.cache.Some? {
      NoSuccessfulReads(body, j.readCount - 1);
    } else {
      NoSuccessfulReads(body, j.readCount);
    }
  }

  /** Once bytes are cached, any number of further `Parse` calls leave the
      wrapper as it is, read nothing and decode the same cached bytes. */
  lemma {:induction false} CachedParsesReuseBytes(j: JSONResponse, decoders: seq<Decoder>)
    requires j.outcome.Ok? && j.cache.Some?
    ensures ParseEach(j, decoders).0 == j
    ensures forall k | 0 <= k < |decoders| :: ParseEach(j, decoders).1[k] == decoders[k](j.cache.value)
    decreases |decoders|
  {
    if decoders != [] {
      CachedParsesReuseBytes(j, decoders[1..]);
      var r := ParseEach(j, decoders);
      forall k | 0 <= k < |decoders|
        ensures r.1[k] == decoders[k](j.cache.value)
      {
        if k > 0 {
          assert r.1[k] == ParseEach(j, decoders[1..]).1[k - 1];
        }
      }
    }
  }

  /** Parsing a fresh wrapper any positive number of times, with the same
      or different targets, reads the body exactly once when that read
      succeeds, and every call decodes the bytes of that one read. A body
      whose later reads would fail cannot make a later `Parse` fail. */
  lemma {:induction false} ParseIsIdempotent(resp: Response, decoders: seq<Decoder>)
    requires |decoders| > 0 && resp.body.read(0).Ok?
    ensures ParseEach(Wrap(Ok(resp)), decoders).0.readCount == 1
    ensures ParseEach(Wrap(Ok(resp)), decoders).0.cache == Some(resp.body.read(0).value)
    ensures forall k | 0 <= k < |decoders| ::
      ParseEach(Wrap(Ok(resp)), decoders).1[k] == decoders[k](resp.body.read(0).value)
  {
    var j := Wrap(Ok(resp));
    var first := Parse(j, decoders[0]);
    CachedParsesReuseBytes(first.state, decoders[1..]);
    var r := ParseEach(j, decoders);
    forall k | 0 <= k < |decoders|
      ensures r.1[k] == decoders[k](resp.body.read(0).value)
    {
      if k > 0 {
        assert r.1[k] == ParseEach(first.state, decoders[1..]).1[k - 1];
      }
    }
  }

  /** Any number of `Parse` calls keep the invariant and the outcome. */
  lemma {:induction false} ParseEachValid(j: JSONResponse, decoders: seq<Decoder>)
    requires Valid(j)
    ensures Valid(ParseEach(j, decoders).0)
    ensures ParseEach(j, decoders).0.outcome == j.outcome
    decreases |decoders|
  {
    if decoders != [] {
      ParseEachValid(Parse(j, decoders[0]).state, decoders[1..]);
    }
  }

  /** However many times a wrapper fresh from a call is parsed, its body is
      read successfully at most once. */
  lemma FreshBodyFetchedAtMostOnce(outcome: Result<Response>, decoders: seq<Decoder>)
    requires outcome.Ok?
    ensures SuccessfulReads(outcome.value.body, ParseEach(Wrap(outcome), decoders).0.readCount) <= 1
  {
    ParseEachValid(Wrap(outcome), decoders);
    BodyFetchedAtMostOnce(ParseEach(Wrap(outcome), decoders).0);
  }

  /** A failed read is not cached, so the next `Parse` reads the stream
      again: two parses of a fresh wrapper whose first read fails and second
      read succeeds read the body twice and cache the second read's bytes. */
  lemma FailedReadIsRetried(resp: Response, d: Decoder, e: Decoder)
    requires resp.body.read(0).Err? && resp.body.read(1).Ok?
    ensures ParseEach(Wrap(Ok(resp)), [d, e]).0.readCount == 2
    ensures ParseEach(Wrap(Ok(resp)), [d, e]).0.cache == Some(resp.body.read(1).value)
    ensures ParseEach(Wrap(Ok(resp)), [d, e]).1 == [Some(resp.body.read(0).error), e(resp.body.read(1).value)]
  {
    var first := Parse(Wrap(Ok(resp)), d);
    assert [d, e][1..] == [e];
    assert ParseEach(first.state, [e]).1 == [Parse(first.state, e).error];
  }

  /** A wrapper that carries an error answers every `Parse` with that error
      and never reads its body. */
  lemma {:induction false} DeferredErrorShortCircuits(j: JSONResponse, decoders: seq<Decoder>)
    requires j.outcome.Err?
    ensures ParseEach(j, decoders).0 == j
    ensures forall k | 0 <= k < |decoders| :: ParseEach(j, decoders).1[k] == Some(j.outcome.error)
    decreases |decoders|
  {
    if decoders != [] {
      DeferredErrorShortCircuits(j, decoders[1..]);
      var r := ParseEach(j, decoders);
      forall k | 0 <= k < |decoders|
        ensures r.1[k] == Some(j.outcome.error)
      {
        if k > 0 {
          assert r.1[k] == ParseEach(j, decoders[1..]).1[k - 1];
        }
      }
    }
  }
}
