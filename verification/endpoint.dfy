/** The endpoint configuration `WebOptions`: a target URL, an optional header
    map and an advisory `async` flag, each nullable field meaning "inherit
    from the base configuration". The PHP class mutates itself through fluent
    setters that return `$this`; here each setter returns the updated value. */
module Endpoint {
  import opened Wrappers

  /** Header name to header value. */
  type Headers = map<string, string>

  datatype WebOptions = WebOptions(url: Option<string>, headers: Option<Headers>, async: bool)

  /** The field initialisers of the class: no URL, no headers, synchronous. */
  const Unset := WebOptions(None, None, false)

  /** Setting the URL to what the getter reports changes nothing. */
  function GetUrl(o: WebOptions): (u: Option<string>)
    ensures o.(url := u) == o
  {
    o.url
  }

  /** Setting the headers to what the getter reports changes nothing. */
  function GetHeaders(o: WebOptions): (h: Option<Headers>)
    ensures o.(headers := h) == o
  {
    o.headers
  }

  /** Setting the flag to what the getter reports changes nothing. */
  function GetAsync(o: WebOptions): (a: bool)
    ensures o.(async := a) == o
  {
    o.async
  }

  function WithUrl(o: WebOptions, url: Option<string>): (r: WebOptions)
    ensures GetUrl(r) == url
    ensures GetHeaders(r) == GetHeaders(o) && GetAsync(r) == GetAsync(o)
  {
    o.(url := url)
  }

  function WithHeaders(o: WebOptions, headers: Option<Headers>): (r: WebOptions)
    ensures GetHeaders(r) == headers
    ensures GetUrl(r) == GetUrl(o) && GetAsync(r) == GetAsync(o)
  {
    o.(headers := headers)
  }

  function WithAsync(o: WebOptions, async: bool): (r: WebOptions)
    ensures GetAsync(r) == async
    ensures GetUrl(r) == GetUrl(o) && GetHeaders(r) == GetHeaders(o)
  {
    o.(async := async)
  }

  /** `new WebOptions($url, $headers, $async)`: the three setters applied in
      turn to the initialised fields. */
  function New(url: Option<string>, headers: Option<Headers>, async: bool): (r: WebOptions)
    ensures GetUrl(r) == url && GetHeaders(r) == headers && GetAsync(r) == async
  {
    WithAsync(WithHeaders(WithUrl(Unset, url), headers), async)
  }

  /** `new WebOptions()`, every argument at its default. */
  function Default(): (r: WebOptions)
    ensures GetUrl(r) == None && GetHeaders(r) == None && !GetAsync(r)
  {
    New(None, None, false)
  }

  /** The three getters observe everything: a value is rebuilt from them. */
  lemma GettersDetermine(o: WebOptions)
    ensures New(GetUrl(o), GetHeaders(o), GetAsync(o)) == o
  {
  }

  /** A setter applied twice keeps only the second value. */
  lemma LastWriteWins(o: WebOptions, u1: Option<string>, u2: Option<string>,
                      h1: Option<Headers>, h2: Option<Headers>, a1: bool, a2: bool)
    ensures WithUrl(WithUrl(o, u1), u2) == WithUrl(o, u2)
    ensures WithHeaders(WithHeaders(o, h1), h2) == WithHeaders(o, h2)
    ensures WithAsync(WithAsync(o, a1), a2) == WithAsync(o, a2)
  {
  }

  /** Setters of different fields may be applied in either order. */
  lemma SettersCommute(o: WebOptions, u: Option<string>, h: Option<Headers>, a: bool)
    ensures WithHeaders(WithUrl(o, u), h) == WithUrl(WithHeaders(o, h), u)
    ensures WithAsync(WithUrl(o, u), a) == WithUrl(WithAsync(o, a), u)
    ensures WithAsync(WithHeaders(o, h), a) == WithHeaders(WithAsync(o, a), h)
  {
  }
}
