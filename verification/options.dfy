/** Construction of a client (`NewClient`) and the two options of
    defaults.go. An option is a `Client -> Client` update that sets one
    field of the defaults; `NewClient` applies its options left to right to
    a client with a standard transport and encoder and zero defaults. */
module Options {
  import opened Base
  import opened Net
  import opened Clients

  /** The `ClientDefaults` values the package offers: `BaseURL(url)` and
      `DefaultHeaders(headers)` (where `None` is a nil header map). */
  datatype ClientDefault = BaseURL(url: string) | DefaultHeaders(headers: Option<Header>)

  /** Applies one option. Each option writes its own field of the defaults
      and nothing else; the header option replaces the map, never merges. */
  function Apply(c: Client, opt: ClientDefault): (r: Client)
    ensures r.requester == c.requester && r.encoder == c.encoder
    ensures opt.BaseURL? ==> r.defaults.baseURL == opt.url && r.defaults.headers == c.defaults.headers
    ensures opt.DefaultHeaders? ==> r.defaults.headers == opt.headers && r.defaults.baseURL == c.defaults.baseURL
  {
    match opt
    case BaseURL(u) => c.(defaults := c.defaults.(baseURL := u))
    case DefaultHeaders(h) => c.(defaults := c.defaults.(headers := h))
  }

  /** Reference reading of a list of options, scanning from the end: the
      URL of the last `BaseURL` option, or `fallback` when there is none. */
  function LastBaseURL(opts: seq<ClientDefault>, fallback: string): (url: string)
    decreases |opts|
  {
    if opts == [] then fallback
    else if opts[|opts| - 1].BaseURL? then opts[|opts| - 1].url
    else LastBaseURL(opts[..|opts| - 1], fallback)
  }

  /** Reference reading of a list of options, scanning from the end: the
      map of the last `DefaultHeaders` option, or `fallback` when there is
      none. */
  function LastHeaders(opts: seq<ClientDefault>, fallback: Option<Header>): (headers: Option<Header>)
    decreases |opts|
  {
    if opts == [] then fallback
    else if opts[|opts| - 1].DefaultHeaders? then opts[|opts| - 1].headers
    else LastHeaders(opts[..|opts| - 1], fallback)
  }

  /** Reading from the end agrees with consuming the first option. */
  lemma {:induction false} LastBaseURLFirst(opts: seq<ClientDefault>, fallback: string)
    requires opts != []
    ensures LastBaseURL(opts, fallback) == LastBaseURL(opts[1..], if opts[0].BaseURL? then opts[0].url else fallback)
    decreases |opts|
  {
    var n := |opts|;
    if n > 1 && !opts[n - 1].BaseURL? {
      LastBaseURLFirst(opts[..n - 1], fallback);
      assert opts[..n - 1][1..] == opts[1..][..n - 2];
    }
  }

  lemma {:induction false} LastHeadersFirst(opts: seq<ClientDefault>, fallback: Option<Header>)
    requires opts != []
    ensures LastHeaders(opts, fallback) == LastHeaders(opts[1..], if opts[0].DefaultHeaders? then opts[0].headers else fallback)
    decreases |opts|
  {
    var n := |opts|;
    if n > 1 && !opts[n - 1].DefaultHeaders? {
      LastHeadersFirst(opts[..n - 1], fallback);
      assert opts[..n - 1][1..] == opts[1..][..n - 2];
    }
  }

  /** The loop of `NewClient`: options in the order given. The transport
      and encoder are never touched, and each default field ends up as the
      last option setting it left it, or as it was if no option sets it. */
  function ApplyAll(c: Client, opts: seq<ClientDefault>): (r: Client)
    ensures r.requester == c.requester && r.encoder == c.encoder
    ensures r.defaults.baseURL == LastBaseURL(opts, c.defaults.baseURL)
    ensures r.defaults.headers == LastHeaders(opts, c.defaults.headers)
    decreases |opts|
  {
    if opts == [] then c
    else
      LastBaseURLFirst(opts, c.defaults.baseURL);
      LastHeadersFirst(opts, c.defaults.headers);
      ApplyAll(Apply(c, opts[0]), opts[1..])
  }

  /** The reference reading in the words of the options list: with no
      `BaseURL` option the base URL is kept ... */
  lemma {:induction false} LastBaseURLKeptWithoutOption(opts: seq<ClientDefault>, fallback: string)
    requires forall k | 0 <= k < |opts| :: !opts[k].BaseURL?
    ensures LastBaseURL(opts, fallback) == fallback
    decreases |opts|
  {
    if opts != [] {
      LastBaseURLKeptWithoutOption(opts[..|opts| - 1], fallback);
    }
  }

  /** ... and otherwise it is the URL of the last `BaseURL` option, whatever
      options follow it. */
  lemma {:induction false} LastBaseURLIsLastOption(opts: seq<ClientDefault>, fallback: string, i: nat)
    requires i < |opts| && opts[i].BaseURL?
    requires forall k | i < k < |opts| :: !opts[k].BaseURL?
    ensures LastBaseURL(opts, fallback) == opts[i].url
    decreases |opts|
  {
    var n := |opts|;
    if i < n - 1 {
      LastBaseURLIsLastOption(opts[..n - 1], fallback, i);
    }
  }

  /** The same two readings for the header option: with no `DefaultHeaders`
      option the headers are kept ... */
  lemma {:induction false} LastHeadersKeptWithoutOption(opts: seq<ClientDefault>, fallback: Option<Header>)
    requires forall k | 0 <= k < |opts| :: !opts[k].DefaultHeaders?
    ensures LastHeaders(opts, fallback) == fallback
    decreases |opts|
  {
    if opts != [] {
      LastHeadersKeptWithoutOption(opts[..|opts| - 1], fallback);
    }
  }

  /** ... and otherwise they are the map of the last `DefaultHeaders`
      option, a full replacement of whatever came before. */
  lemma {:induction false} LastHeadersIsLastOption(opts: seq<ClientDefault>, fallback: Option<Header>, i: nat)
    requires i < |opts| && opts[i].DefaultHeaders?
    requires forall k | i < k < |opts| :: !opts[k].DefaultHeaders?
    ensures LastHeaders(opts, fallback) == opts[i].headers
    decreases |opts|
  {
    var n := |opts|;
    if i < n - 1 {
      LastHeadersIsLastOption(opts[..n - 1], fallback, i);
    }
  }

  /** `NewClient`: the given standard transport and encoder, an empty base
      URL and nil default headers, then the options in order. */
  function NewClient(requester: Requester, encoder: Encoder, opts: seq<ClientDefault>): (r: Client)
    ensures r.requester == requester && r.encoder == encoder
    ensures opts == [] ==> r.defaults == Defaults("", None)
    ensures r.defaults.baseURL == LastBaseURL(opts, "")
    ensures r.defaults.headers == LastHeaders(opts, None)
  {
    ApplyAll(Client(requester, encoder, Defaults("", None)), opts)
  }

  /** Applying two lists of options one after the other is applying their
      concatenation. */
  lemma {:induction false} ApplyAllConcat(c: Client, a: seq<ClientDefault>, b: seq<ClientDefault>)
    ensures ApplyAll(c, a + b) == ApplyAll(ApplyAll(c, a), b)
    decreases |a|
  {
    if a == [] {
      assert a + b == b;
    } else {
      var c' := Apply(c, a[0]);
      assert (a + b)[0] == a[0] && (a + b)[1..] == a[1..] + b;
      ApplyAllConcat(c', a[1..], b);
    }
  }

  /** A later option overrides an earlier one setting the same field, and
      leaves the other field as the earlier options made it. */
  lemma LaterOptionWins(c: Client, opts: seq<ClientDefault>, last: ClientDefault)
    ensures var r := ApplyAll(c, opts + [last]);
      && (last.BaseURL? ==> r.defaults == ApplyAll(c, opts).defaults.(baseURL := last.url))
      && (last.DefaultHeaders? ==> r.defaults == ApplyAll(c, opts).defaults.(headers := last.headers))
  {
  }

  /** The client test's construction: both options given, both set. */
  lemma NewClientWithDefaults(requester: Requester, encoder: Encoder, base: string, h: Header)
    ensures NewClient(requester, encoder, [BaseURL(base), DefaultHeaders(Some(h))]).defaults == Defaults(base, Some(h))
  {
    var opts := [BaseURL(base), DefaultHeaders(Some(h))];
    assert opts[..1] == [BaseURL(base)];
    assert LastBaseURL(opts, "") == LastBaseURL([BaseURL(base)], "") == base;
  }
}
