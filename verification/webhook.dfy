/** The webhook listener: it keeps one `WebOptions` per dispatch category,
    resolves each category lazily (a copy of the base configuration, or empty
    options, on first use) and turns a flag event into at most one HTTP
    request whose failure is mapped to a flag error.

    The HTTP client is not modelled: the response the transport gives to the
    issued request is an input (`TransportOutcome`), and every operation
    returns the listener together with what it produced, since resolving a
    category fills the listener's cache. */
module Webhook {
  import opened Wrappers
  import opened Endpoint
  import Decimal

  // ---------------------------------------------------------------------------
  // State
  // ---------------------------------------------------------------------------

  /** The cache keys of the listener: the base configuration and one entry
      per request kind. */
  datatype Category = Base | Post | Put | Delete

  /** The string under which the source stores each category. */
  function Key(c: Category): (k: string)
    ensures |k| > 0
    ensures k == "_" <==> c == Base
  {
    match c
    case Base => "_"
    case Post => "POST"
    case Put => "PUT"
    case Delete => "DELETE"
  }

  /** Different categories use different keys, so a map keyed by `Category`
      holds exactly what the source's string-keyed array holds. */
  lemma KeyInjective(c: Category, d: Category)
    ensures Key(c) == Key(d) ==> c == d
  {
  }

  datatype Listener = Listener(options: map<Category, WebOptions>)

  /** What the constructor was given: a URL string, a `WebOptions` object, or
      anything else (including the default `null`). */
  datatype BaseArgument = UrlString(url: string) | OptionsObject(options: WebOptions) | Neither

  /** The constructor: a string becomes the base configuration with that URL,
      a `WebOptions` is stored as the base as it is, and anything else leaves
      the cache empty. */
  function Construct(arg: BaseArgument): (l: Listener)
    ensures arg.UrlString? ==>
              && l.options.Keys == {Base}
              && GetUrl(l.options[Base]) == Some(arg.url)
              && GetHeaders(l.options[Base]) == None
              && !GetAsync(l.options[Base])
    ensures arg.OptionsObject? ==> l.options.Keys == {Base} && l.options[Base] == arg.options
    ensures arg.Neither? ==> l.options.Keys == {}
  {
    match arg
    case UrlString(url) => Listener(map[Base := New(Some(url), None, false)])
    case OptionsObject(o) => Listener(map[Base := o])
    case Neither => Listener(map[])
  }

  /** What `baseOptions()` reports right after construction: the URL given as
      a string with no headers and synchronous delivery, the options object
      given, or empty options when neither was given. */
  lemma ConstructedBaseOptions(arg: BaseArgument)
    ensures var b := BaseOptions(Construct(arg)).1;
            match arg
            case UrlString(u) => GetUrl(b) == Some(u) && GetHeaders(b) == None && !GetAsync(b)
            case OptionsObject(o) => b == o
            case Neither => GetUrl(b) == None && GetHeaders(b) == None && !GetAsync(b)
  {
  }

  // ---------------------------------------------------------------------------
  // Resolve-once options
  // ---------------------------------------------------------------------------

  /** The value a category receives when it is first resolved: a copy of the
      base configuration when there is one, otherwise fresh empty options. */
  function InitialValue(l: Listener): WebOptions
  {
    if Base in l.options then l.options[Base] else Default()
  }

  /** `l'` is `l` with the categories `cats` resolved: no stored entry
      changes, and each category that had no entry now holds the initial
      value computed from `l`. */
  ghost predicate Extends(l: Listener, l': Listener, cats: set<Category>)
  {
    && l'.options.Keys == l.options.Keys + cats
    && (forall k :: k in l.options ==> l'.options[k] == l.options[k])
    && (forall k :: k in cats && k !in l.options ==> l'.options[k] == InitialValue(l))
  }

  /** Resolving `c` in `l` yields the listener `l'` and the options `o`. */
  ghost predicate ResolvedOnce(l: Listener, c: Category, l': Listener, o: WebOptions)
  {
    Extends(l, l', {c}) && l'.options[c] == o
  }

  /** `getOptions`. The source copies the base with `->clone()`, a method
      `WebOptions` does not define; this is the intended value copy, and
      `GetOptionsAsWritten` below models the call as written. */
  function GetOptions(l: Listener, c: Category): (r: (Listener, WebOptions))
    ensures ResolvedOnce(l, c, r.0, r.1)
    ensures c in l.options ==> r == (l, l.options[c])
  {
    if c in l.options then (l, l.options[c])
    else
      var o := if Base in l.options then l.options[Base] else Default();
      (Listener(l.options[c := o]), o)
  }

  /** `ResolvedOnce` pins down the result completely. */
  lemma ResolvedOnceUnique(l: Listener, c: Category, l1: Listener, o1: WebOptions,
                           l2: Listener, o2: WebOptions)
    requires ResolvedOnce(l, c, l1, o1) && ResolvedOnce(l, c, l2, o2)
    ensures l1 == l2 && o1 == o2
  {
  }

  /** Resolving a category a second time changes nothing and returns the
      same options. */
  lemma GetOptionsIdempotent(l: Listener, c: Category)
    ensures var (l1, o1) := GetOptions(l, c); GetOptions(l1, c) == (l1, o1)
  {
  }

  function BaseOptions(l: Listener): (r: (Listener, WebOptions))
    ensures ResolvedOnce(l, Base, r.0, r.1)
  {
    GetOptions(l, Base)
  }

  function CreationOptions(l: Listener): (r: (Listener, WebOptions))
    ensures ResolvedOnce(l, Post, r.0, r.1)
  {
    GetOptions(l, Post)
  }

  function ChangeOptions(l: Listener): (r: (Listener, WebOptions))
    ensures ResolvedOnce(l, Put, r.0, r.1)
  {
    GetOptions(l, Put)
  }

  function RemovalOptions(l: Listener): (r: (Listener, WebOptions))
    ensures ResolvedOnce(l, Delete, r.0, r.1)
  {
    GetOptions(l, Delete)
  }

  /** A caller editing the options an accessor returned, as in
      `$listener->creationOptions()->withUrl($u)`: the category is resolved
      and its entry replaced by the edited value. */
  function Reconfigure(l: Listener, c: Category, edit: WebOptions -> WebOptions): (r: Listener)
    ensures r.options.Keys == l.options.Keys + {c}
    ensures r.options[c] == edit(if c in l.options then l.options[c] else InitialValue(l))
    ensures forall k :: k in l.options && k != c ==> r.options[k] == l.options[k]
  {
    var (l1, o) := GetOptions(l, c);
    Listener(l1.options[c := edit(o)])
  }

  /** Once resolved, a category is detached from the base: editing it leaves
      the base options as they were. */
  lemma EditDoesNotReachBase(l: Listener, c: Category, edit: WebOptions -> WebOptions)
    requires c != Base
    ensures BaseOptions(Reconfigure(l, c, edit)).1 == BaseOptions(l).1
  {
  }

  /** Before its first resolution a category follows the base: an edit of
      the base shows in the category resolved afterwards. */
  lemma UnresolvedFollowsBase(l: Listener, c: Category, edit: WebOptions -> WebOptions)
    requires c != Base && c !in l.options
    ensures GetOptions(Reconfigure(l, Base, edit), c).1 == edit(BaseOptions(l).1)
  {
  }

  /** With only a base configuration stored, the creation, change and removal
      options all report the base URL, whichever accessors ran before. */
  lemma AccessorsInheritBaseUrl(l: Listener)
    requires l.options.Keys == {Base}
    ensures var (l1, b) := BaseOptions(l);
            var (l2, p) := CreationOptions(l1);
            var (l3, u) := ChangeOptions(l2);
            var (_, d) := RemovalOptions(l3);
            && GetUrl(b) == GetUrl(l.options[Base])
            && GetUrl(p) == GetUrl(l.options[Base])
            && GetUrl(u) == GetUrl(l.options[Base])
            && GetUrl(d) == GetUrl(l.options[Base])
  {
  }

  // ---------------------------------------------------------------------------
  // Two-level fallback
  // ---------------------------------------------------------------------------

  /** The URL a category's requests go to: its own URL when set, else the
      base URL when set, else the empty string. */
  function EffectiveUrl(l: Listener, c: Category): string
  {
    if c in l.options && l.options[c].url.Some? then l.options[c].url.value
    else if Base in l.options && l.options[Base].url.Some? then l.options[Base].url.value
    else ""
  }

  /** The headers a category's requests carry: its own headers when set,
      else the base headers when set, else no headers. */
  function EffectiveHeaders(l: Listener, c: Category): Headers
  {
    if c in l.options && l.options[c].headers.Some? then l.options[c].headers.value
    else if Base in l.options && l.options[Base].headers.Some? then l.options[Base].headers.value
    else map[]
  }

  /** Resolving categories never changes what any category resolves to. */
  lemma ExtendsKeepsEffective(l: Listener, l': Listener, cats: set<Category>, c: Category)
    requires Extends(l, l', cats)
    ensures EffectiveUrl(l', c) == EffectiveUrl(l, c)
    ensures EffectiveHeaders(l', c) == EffectiveHeaders(l, c)
  {
  }

  /** Resolving in two steps is resolving the union at once. */
  lemma ExtendsTransitive(l: Listener, l1: Listener, l2: Listener,
                          a: set<Category>, b: set<Category>)
    requires Extends(l, l1, a) && Extends(l1, l2, b)
    ensures Extends(l, l2, a + b)
  {
  }

  /** What resolving `c` returns: its stored entry, or the initial value when
      it has none yet. */
  function Resolved(l: Listener, c: Category): WebOptions
  {
    if c in l.options then l.options[c] else InitialValue(l)
  }

  /** Resolving categories never changes what any category would resolve to. */
  lemma ExtendsKeepsResolved(l: Listener, l': Listener, cats: set<Category>, c: Category)
    requires Extends(l, l', cats)
    ensures Resolved(l', c) == Resolved(l, c)
  {
  }

  /** The entries `getUrl` fills: the category, and the base only when the
      category's own URL is null, because `??` evaluates its right-hand side
      only then. */
  function UrlKeys(l: Listener, c: Category): set<Category>
  {
    if Resolved(l, c).url.Some? then {c} else {c, Base}
  }

  /** The entries `getHeaders` fills, by the same rule for the headers. */
  function HeaderKeys(l: Listener, c: Category): set<Category>
  {
    if Resolved(l, c).headers.Some? then {c} else {c, Base}
  }

  /** The entries one request of category `c` fills: its URL and then its
      headers are resolved. */
  function RequestKeys(l: Listener, c: Category): set<Category>
  {
    UrlKeys(l, c) + HeaderKeys(l, c)
  }

  /** `getUrl`: the category is resolved first, and the base only when the
      category's URL is null; the URL is `category url ?? base url ?? ""`. */
  function ResolveUrl(l: Listener, c: Category): (r: (Listener, string))
    ensures r.1 == EffectiveUrl(l, c)
    ensures Extends(l, r.0, UrlKeys(l, c))
  {
    var (l1, own) := GetOptions(l, c);
    match GetUrl(own)
    case Some(url) => (l1, url)
    case None =>
      var (l2, base) := BaseOptions(l1);
      ExtendsTransitive(l, l1, l2, {c}, {Base});
      assert {c} + {Base} == {c, Base};
      (l2, GetUrl(base).GetOr(""))
  }

  /** `getHeaders`: as `getUrl`, with no headers as the last resort; the
      result is never null. */
  function ResolveHeaders(l: Listener, c: Category): (r: (Listener, Headers))
    ensures r.1 == EffectiveHeaders(l, c)
    ensures Extends(l, r.0, HeaderKeys(l, c))
  {
    var (l1, own) := GetOptions(l, c);
    match GetHeaders(own)
    case Some(headers) => (l1, headers)
    case None =>
      var (l2, base) := BaseOptions(l1);
      ExtendsTransitive(l, l1, l2, {c}, {Base});
      assert {c} + {Base} == {c, Base};
      (l2, GetHeaders(base).GetOr(map[]))
  }

  /** The URL and then the headers of one request of category `c`, resolved
      in the order `notifyCreated`, `notifyChanged` and `notifyRemoved` use. */
  function ResolveRequest(l: Listener, c: Category): (r: (Listener, string, Headers))
    ensures r.1 == EffectiveUrl(l, c) && r.2 == EffectiveHeaders(l, c)
    ensures Extends(l, r.0, RequestKeys(l, c))
  {
    var (l1, url) := ResolveUrl(l, c);
    var (l2, headers) := ResolveHeaders(l1, c);
    ExtendsKeepsEffective(l, l1, UrlKeys(l, c), c);
    ExtendsKeepsResolved(l, l1, UrlKeys(l, c), c);
    ExtendsTransitive(l, l1, l2, UrlKeys(l, c), HeaderKeys(l, c));
    (l2, url, headers)
  }

  // ---------------------------------------------------------------------------
  // Requests and failures
  // ---------------------------------------------------------------------------

  /** The request methods of section 9.3 of RFC 9110 the listener uses. */
  datatype Method = POST | PUT | DELETE

  /** The flag the event is about. Only `id` is inspected; the rest is the
      opaque JSON body. A missing (`null`) id is `None`. */
  datatype Flag = Flag(key: string, value: bool, id: Option<int>)

  /** The request handed to the HTTP client: method, URL and the client
      options `json` (the body) and `headers`. */
  datatype Request = Request(verb: Method, url: string, json: Option<Flag>, headers: Option<Headers>)

  /** What the transport does with the request: it succeeds, it throws
      Guzzle's `BadResponseException` for a 4xx or 5xx response (sections
      15.5 and 15.6 of RFC 9110), or it throws anything else. */
  datatype TransportOutcome =
    | Delivered
    | BadResponse(status: int, body: string)
    | OtherFailure(reason: string)

  /** What `notify` may throw: the flag error built from a rejected request,
      with the rejection as its previous exception, or a transport failure
      passed through untouched. */
  datatype NotifyError =
    | FlagError(message: string, code: int, previous: TransportOutcome)
    | Unwrapped(failure: TransportOutcome)

  /** The result of one notification: the listener afterwards, the request
      issued (if any), and whether the call returned or threw. */
  datatype Dispatch = Dispatch(listener: Listener, request: Option<Request>, result: Result<(), NotifyError>)

  /** PHP's `$id == 0`: loose equality, under which `null` equals 0. */
  predicate IdIsZero(id: Option<int>)
    ensures IdIsZero(id) <==> id in {None, Some(0)}
  {
    match id
    case None => true
    case Some(n) => n == 0
  }

  /** PHP's `'/' . $id`, where a `null` id converts to the empty string and
      an integer to its canonical decimal text. */
  function IdSuffix(id: Option<int>): (s: string)
    ensures |s| >= 1 && s[0] == '/'
    ensures id.Some? ==> Decimal.IsCanonical(s[1..]) && Decimal.ToInt(s[1..]) == id.value
    ensures id.None? ==> s == "/"
  {
    match id
    case None => "/"
    case Some(n) =>
      var s := "/" + Decimal.FromInt(n);
      assert s[1..] == Decimal.FromInt(n);
      Decimal.IntRoundTrip(n);
      s
  }

  /** The message prefix of the flag error for each request kind. */
  function ErrorPrefix(m: Method): (p: string)
    ensures |p| > 12 && p[..5] == "Flag " && p[|p| - 7..] == " error."
  {
    match m
    case POST => "Flag creation error."
    case PUT => "Flag update error."
    case DELETE => "Flag removal error."
  }

  /** Each request kind has its own prefix. */
  lemma ErrorPrefixInjective(m1: Method, m2: Method)
    ensures ErrorPrefix(m1) == ErrorPrefix(m2) ==> m1 == m2
  {
  }

  const BodyLabel := " Returned body: "

  /** The `catch (BadResponseException $e)` of each `notify*`: a rejected
      request becomes a flag error carrying the status as its code and the
      response body in its message; any other failure is not caught. */
  function MapOutcome(m: Method, outcome: TransportOutcome): (r: Result<(), NotifyError>)
    ensures r.Success? <==> outcome.Delivered?
    ensures outcome.BadResponse? ==>
              && r.Failure? && r.error.FlagError?
              && r.error.code == outcome.status
              && r.error.previous == outcome
              && r.error.message == ErrorPrefix(m) + BodyLabel + outcome.body
    ensures outcome.OtherFailure? ==> r == Failure(Unwrapped(outcome))
  {
    match outcome
    case Delivered => Success(())
    case BadResponse(status, body) =>
      Failure(FlagError(ErrorPrefix(m) + BodyLabel + body, status, outcome))
    case OtherFailure(_) => Failure(Unwrapped(outcome))
  }

  /** The error determines the failed outcome, and for a rejected request
      also which kind of request was rejected. */
  lemma ErrorIdentifiesFailure(m1: Method, o1: TransportOutcome,
                               m2: Method, o2: TransportOutcome)
    requires !o1.Delivered?
    requires MapOutcome(m1, o1) == MapOutcome(m2, o2)
    ensures o1 == o2
    ensures o1.BadResponse? ==> m1 == m2
  {
  }

  // ---------------------------------------------------------------------------
  // Notification
  // ---------------------------------------------------------------------------

  /** `notifyCreated`: a POST of the flag to the creation URL. The headers
      are always attached: the resolved headers are never null, so the
      source's null check always passes. */
  function NotifyCreated(l: Listener, flag: Flag, outcome: TransportOutcome): (r: Dispatch)
    ensures r.request == Some(Request(POST, EffectiveUrl(l, Post), Some(flag), Some(EffectiveHeaders(l, Post))))
    ensures r.result == MapOutcome(POST, outcome)
    ensures Extends(l, r.listener, RequestKeys(l, Post))
  {
    var (l1, url, headers) := ResolveRequest(l, Post);
    Dispatch(l1, Some(Request(POST, url, Some(flag), Some(headers))), MapOutcome(POST, outcome))
  }

  /** `notifyChanged`: a PUT of the flag to the change URL followed by the
      flag id. */
  function NotifyChanged(l: Listener, flag: Flag, outcome: TransportOutcome): (r: Dispatch)
    ensures r.request == Some(Request(PUT, EffectiveUrl(l, Put) + IdSuffix(flag.id), Some(flag), Some(EffectiveHeaders(l, Put))))
    ensures r.result == MapOutcome(PUT, outcome)
    ensures Extends(l, r.listener, RequestKeys(l, Put))
  {
    var (l1, url, headers) := ResolveRequest(l, Put);
    Dispatch(l1, Some(Request(PUT, url + IdSuffix(flag.id), Some(flag), Some(headers))), MapOutcome(PUT, outcome))
  }

  /** `notifyRemoved`: a DELETE without body to the removal URL followed by
      the flag id. */
  function NotifyRemoved(l: Listener, flag: Flag, outcome: TransportOutcome): (r: Dispatch)
    ensures r.request == Some(Request(DELETE, EffectiveUrl(l, Delete) + IdSuffix(flag.id), None, Some(EffectiveHeaders(l, Delete))))
    ensures r.result == MapOutcome(DELETE, outcome)
    ensures Extends(l, r.listener, RequestKeys(l, Delete))
  {
    var (l1, url, headers) := ResolveRequest(l, Delete);
    Dispatch(l1, Some(Request(DELETE, url + IdSuffix(flag.id), None, Some(headers))), MapOutcome(DELETE, outcome))
  }

  /** `notify`: a removal always deletes; a change creates when the flag has
      no id yet and updates otherwise; any other event does nothing. */
  function Notify(l: Listener, event: string, flag: Flag, outcome: TransportOutcome): (r: Dispatch)
    ensures event == "removal" ==>
              && r.request == Some(Request(DELETE, EffectiveUrl(l, Delete) + IdSuffix(flag.id), None, Some(EffectiveHeaders(l, Delete))))
              && r.result == MapOutcome(DELETE, outcome)
              && Extends(l, r.listener, RequestKeys(l, Delete))
    ensures event == "change" && IdIsZero(flag.id) ==>
              && r.request == Some(Request(POST, EffectiveUrl(l, Post), Some(flag), Some(EffectiveHeaders(l, Post))))
              && r.result == MapOutcome(POST, outcome)
              && Extends(l, r.listener, RequestKeys(l, Post))
    ensures event == "change" && !IdIsZero(flag.id) ==>
              && r.request == Some(Request(PUT, EffectiveUrl(l, Put) + IdSuffix(flag.id), Some(flag), Some(EffectiveHeaders(l, Put))))
              && r.result == MapOutcome(PUT, outcome)
              && Extends(l, r.listener, RequestKeys(l, Put))
    ensures event != "removal" && event != "change" ==> r == Dispatch(l, None, Success(()))
  {
    if event == "removal" then NotifyRemoved(l, flag, outcome)
    else if IdIsZero(flag.id) && event == "change" then NotifyCreated(l, flag, outcome)
    else if event == "change" then NotifyChanged(l, flag, outcome)
    else Dispatch(l, None, Success(()))
  }

  /** A notification issues a request exactly when the event is a change or
      a removal, and fails exactly when it issued one the transport did not
      deliver. */
  lemma NotifyFailsOnlyOnIssuedRequest(l: Listener, event: string, flag: Flag, outcome: TransportOutcome)
    ensures var r := Notify(l, event, flag, outcome);
            && (r.request.Some? <==> event in {"change", "removal"})
            && (r.result.Failure? <==> r.request.Some? && !outcome.Delivered?)
  {
  }

  /** The URL of an updated or removed flag is the category URL, a slash and
      the canonical decimal text of the id. */
  lemma RequestUrlCarriesId(l: Listener, event: string, flag: Flag, outcome: TransportOutcome)
    requires event == "removal" || (event == "change" && !IdIsZero(flag.id))
    requires flag.id.Some?
    ensures var r := Notify(l, event, flag, outcome);
            var base := EffectiveUrl(l, if event == "removal" then Delete else Put);
            && r.request.Some?
            && |r.request.value.url| > |base| + 1
            && r.request.value.url[..|base|] == base
            && r.request.value.url[|base|] == '/'
            && Decimal.IsCanonical(r.request.value.url[|base| + 1..])
            && Decimal.ToInt(r.request.value.url[|base| + 1..]) == flag.id.value
  {
  }

  /** The inputs of the update and removal tests: no base URL and a flag with
      id 1 give requests to exactly "/1". */
  lemma IdPathOfTests()
    ensures var l := Construct(Neither);
            var flag := Flag("foo", false, Some(1));
            && Notify(l, "change", flag, Delivered).request.value.url == "/1"
            && Notify(l, "removal", flag, Delivered).request.value.url == "/1"
  {
  }

  /** A creation whose category sets both URL and headers never consults the
      base, since `??` stops at the first non-null value: on a listener
      without a base entry none is created, so resolving another category
      afterwards still does not reach the `->clone()` call. */
  lemma CompleteCategorySkipsBase(l: Listener, flag: Flag, outcome: TransportOutcome)
    requires Base !in l.options && Post in l.options
    requires GetUrl(l.options[Post]).Some? && GetHeaders(l.options[Post]).Some?
    ensures Base !in NotifyCreated(l, flag, outcome).listener.options
    ensures GetOptionsAsWritten(NotifyCreated(l, flag, outcome).listener, Put).Success?
  {
  }

  // ---------------------------------------------------------------------------
  // `getOptions` as written
  // ---------------------------------------------------------------------------

  /** `getOptions` exactly as the source writes it: copying the base calls
      `->clone()`, which `WebOptions` does not define, so that branch throws
      PHP's undefined-method error instead of returning. */
  function GetOptionsAsWritten(l: Listener, c: Category): (r: Result<(Listener, WebOptions), string>)
    ensures r.Failure? <==> c !in l.options && Base in l.options
    ensures r.Success? ==> r.value == GetOptions(l, c)
  {
    if c in l.options then Success((l, l.options[c]))
    else if Base in l.options then Failure("Call to undefined method WebOptions::clone()")
    else
      var o := Default();
      Success((Listener(l.options[c := o]), o))
  }

  /** The inputs of the option tests: a listener built on base options with
      URL `u`. As written, resolving the creation options throws; with the
      intended copy it reports `u`. */
  lemma CloneCallFails(u: string)
    ensures var l := Construct(OptionsObject(New(Some(u), None, false)));
            && GetOptionsAsWritten(l, Post).Failure?
            && GetUrl(CreationOptions(l).1) == Some(u)
  {
  }
}
