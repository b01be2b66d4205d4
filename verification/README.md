# Webhook flag listener, modelled in Dafny

This project models the webhook listener of `phputil/flags-webhooks`: a flag
listener that, when a flag is created, changed or removed, sends one HTTP
request to a configured endpoint. It covers the two classes of the core:

- `WebOptions` (module `Endpoint`, `endpoint.dfy`): the endpoint configuration
  value, with a nullable URL, nullable header map and an `async` flag, its
  constructor defaults and its fluent `with*` setters and getters.
- `WebhookListener` (module `Webhook`, `webhook.dfy`): the per-category option
  cache with resolve-once semantics, the two-level URL/header fallback to the
  base configuration, the event-to-request decision table of `notify`, and the
  mapping of a rejected request (a 4xx/5xx response, sections 15.5 and 15.6 of
  RFC 9110) to a flag error.

Supporting modules: `Wrappers` (`Option` for PHP's `null`, `Result` for
"returns or throws") and `Decimal` (PHP's conversion of an integer id to the
canonical decimal text appended to update and removal URLs, with its
inverse).

Modelling choices:

- The listener is a value `Listener(options: map<Category, WebOptions>)`.
  Each operation returns the listener afterwards, since resolving a category
  fills the cache. The four string keys `_`, `POST`, `PUT`, `DELETE` become
  the enum `Category`, and `KeyInjective` shows that no two categories share
  a key.
- The HTTP call is not performed. The transport's answer to the issued request
  is an input: `Delivered`, `BadResponse(status, body)` (Guzzle's
  `BadResponseException`) or `OtherFailure(reason)`. `notify*` return a
  `Dispatch`: the new listener, the request issued (method, URL, `json` body,
  `headers` option) and a `Result` in place of a thrown exception.
- `FlagData` is reduced to `Flag(key, value, id)`. Only `id` is read. An
  absent id is `None`. PHP's loose `id == 0` treats `null` as 0 (`IdIsZero`),
  and PHP's `'/' . null` is just `"/"` (`IdSuffix`).
- Options are values. A caller changing the object an accessor returned
  (`$l->creationOptions()->withUrl($u)`) is modelled by `Reconfigure`.

Behaviour of the code worth knowing:

- Headers are always attached. `getHeaders` ends in `?? []` and is declared
  to return an array, so the `$headers !== null` guards always pass. Every
  request carries `headers`, possibly an empty map.
- `??` evaluates its right-hand side only when the left is null. So `getUrl`
  and `getHeaders` call `baseOptions()`, and may create the base entry, only
  when the category's own value is null. `UrlKeys`, `HeaderKeys` and
  `RequestKeys` say which cache entries each step fills.
- A listener built without a base configuration keeps an empty cache. The
  base entry is created, as empty options, the first time it is resolved.
  Right after construction `baseOptions()` reports empty options
  (`ConstructedBaseOptions`).
- `getOptions` copies the base with `->clone()`, which `WebOptions` does not
  define (see Findings). The model uses the intended value copy.

## Model

| member | source | states |
|---|---|---|
| Endpoint.WithUrl | src/WebOptions.php:19-26 | after `withUrl(u)`, `getUrl()` returns `u`, including null; headers and async are untouched |
| Endpoint.WithHeaders | src/WebOptions.php:28-35 | after `withHeaders(h)`, `getHeaders()` returns `h`, including null; url and async are untouched |
| Endpoint.WithAsync | src/WebOptions.php:37-44 | after `withAsync(a)`, `getAsync()` returns `a`; url and headers are untouched |
| Endpoint.GetUrl | src/WebOptions.php:19-21 | setting the url to what `getUrl()` reports leaves the options unchanged |
| Endpoint.GetHeaders | src/WebOptions.php:28-30 | setting the headers to what `getHeaders()` reports leaves the options unchanged |
| Endpoint.GetAsync | src/WebOptions.php:37-39 | setting the flag to what `getAsync()` reports leaves the options unchanged |
| Endpoint.New | src/WebOptions.php:5-17 | the constructor applies the three setters to the initialised fields, so the getters return exactly the three arguments |
| Endpoint.Default | src/WebOptions.php:5-17 | `new WebOptions()` has null url, null headers and async false |
| Endpoint.GettersDetermine | src/WebOptions.php:9-21 | rebuilding options from their three getters gives back the same options, so the getters observe every field |
| Endpoint.LastWriteWins | src/WebOptions.php:23-44 | applying a setter twice keeps only the second value |
| Endpoint.SettersCommute | src/WebOptions.php:23-44 | setters of different fields give the same options in either order |
| Decimal.FromNat | src/WebhookListener.php:85 | the text of a natural number is at least one digit with no leading zero, and starts with "0" exactly for 0 |
| Decimal.FromInt | src/WebhookListener.php:85 | the text of an integer is canonical: a minus sign exactly when the integer is negative, then digits with no leading zero (never "-0" or "007") |
| Decimal.NatRoundTrip | src/WebhookListener.php:85 | reading back the digits of a natural number gives the number |
| Decimal.IntRoundTrip | src/WebhookListener.php:85 | reading back the text of an integer gives the integer |
| Decimal.FromIntInjective | src/WebhookListener.php:85 | different ids produce different URL suffixes |
| Decimal.CanonicalDigitsRoundTrip | src/WebhookListener.php:85 | every digit string without a leading zero is the text of the number it denotes |
| Decimal.CanonicalRoundTrip | src/WebhookListener.php:85 | every canonical numeral is the text of the integer it denotes |
| Decimal.CanonicalUnique | src/WebhookListener.php:85 | two canonical numerals that read as the same integer are the same text, so the id text is fixed by its value |
| Webhook.KeyInjective | src/WebhookListener.php:10-13 | the four cache keys are pairwise distinct, so one enum value stands for each key |
| Webhook.Key | src/WebhookListener.php:10-13 | every key is non-empty, and `_` is the key of the base entry and of nothing else |
| Webhook.Construct | src/WebhookListener.php:22-32 | a URL string gives a base entry with that url, null headers and async false; a `WebOptions` is stored as the base unchanged; any other argument leaves the cache empty |
| Webhook.ConstructedBaseOptions | src/WebhookListener.php:22-36 | right after construction `baseOptions()` reports the given URL, the given options, or empty options |
| Webhook.GetOptions | src/WebhookListener.php:122-130 | a stored entry is returned and the cache is left as it was; a missing entry is filled with the base entry, or with empty options when there is no base; no other entry changes |
| Webhook.ResolvedOnceUnique | src/WebhookListener.php:122-130 | the resolve-once rule fixes both the returned options and the cache afterwards |
| Webhook.GetOptionsIdempotent | src/WebhookListener.php:122-130 | resolving a category twice returns the same options and the second call leaves the cache unchanged |
| Webhook.BaseOptions | src/WebhookListener.php:34-36 | `baseOptions()` resolves the base entry under the resolve-once rule |
| Webhook.CreationOptions | src/WebhookListener.php:38-40 | `creationOptions()` resolves the POST entry under the resolve-once rule |
| Webhook.ChangeOptions | src/WebhookListener.php:42-44 | `changeOptions()` resolves the PUT entry under the resolve-once rule |
| Webhook.RemovalOptions | src/WebhookListener.php:46-48 | `removalOptions()` resolves the DELETE entry under the resolve-once rule |
| Webhook.Reconfigure | src/WebhookListener.php:34-48 | editing the options an accessor returned changes only that category's entry, and the edit applies to the resolved value |
| Webhook.EditDoesNotReachBase | src/WebhookListener.php:122-130 | once a category is resolved, editing it leaves `baseOptions()` as it was, because the category holds a copy of the base |
| Webhook.UnresolvedFollowsBase | src/WebhookListener.php:122-130 | a category not yet resolved takes on an edit made to the base before its first resolution |
| Webhook.AccessorsInheritBaseUrl | src/WebhookListener.php:126-127 | with only a base entry stored, the base, creation, change and removal options all report the base url, resolved in sequence |
| Webhook.ExtendsKeepsEffective | src/WebhookListener.php:122-140 | filling cache entries never changes the URL or the headers any category resolves to |
| Webhook.ExtendsTransitive | src/WebhookListener.php:122-130 | two rounds of resolution amount to resolving both sets of categories at once |
| Webhook.ExtendsKeepsResolved | src/WebhookListener.php:122-130 | filling cache entries never changes what any category would resolve to |
| Webhook.ResolveUrl | src/WebhookListener.php:132-135 | the URL is the category url if set, else the base url if set, else the empty string; the category entry is filled, and the base entry only when the category url is null |
| Webhook.ResolveHeaders | src/WebhookListener.php:137-140 | the headers are the category headers if set, else the base headers if set, else an empty map, never null; the category entry is filled, and the base entry only when the category headers are null |
| Webhook.ResolveRequest | src/WebhookListener.php:66-67 | resolving the URL and then the headers of one request gives the effective URL and headers, and fills the category entry plus the base entry only when the category url or headers are null |
| Webhook.IdIsZero | src/WebhookListener.php:55 | PHP's loose `id == 0` holds exactly for a null id and for id 0 |
| Webhook.IdSuffix | src/WebhookListener.php:85 | the suffix is a slash followed by a canonical numeral that reads back as the id, which by `Decimal.CanonicalUnique` is exactly the id's decimal text; a null id leaves just the slash |
| Webhook.ErrorPrefix | src/WebhookListener.php:77-117 | each prefix has the form "Flag ... error." |
| Webhook.ErrorPrefixInjective | src/WebhookListener.php:77-117 | the creation, update and removal prefixes are pairwise distinct |
| Webhook.MapOutcome | src/WebhookListener.php:74-79 | the call succeeds exactly when the request was delivered; a bad response becomes a flag error whose code is the status and whose message is the kind's prefix, " Returned body: " and the body; any other failure is passed on unwrapped |
| Webhook.ErrorIdentifiesFailure | src/WebhookListener.php:76-79 | the error determines the failure, and for a bad response also the kind of request (creation, update or removal) |
| Webhook.NotifyCreated | src/WebhookListener.php:64-80 | one POST to the resolved creation URL with the flag as JSON body and the resolved headers attached; the error mapping uses the creation prefix; the cache gains the POST entry, and the base entry only if the POST url or headers are null |
| Webhook.NotifyChanged | src/WebhookListener.php:82-100 | one PUT to the resolved change URL plus "/" and the id, with the flag as body and the resolved headers; the error mapping uses the update prefix; the cache gains the PUT entry, and the base entry only if the PUT url or headers are null |
| Webhook.NotifyRemoved | src/WebhookListener.php:102-120 | one DELETE without body to the resolved removal URL plus "/" and the id, with the resolved headers; the error mapping uses the removal prefix; the cache gains the DELETE entry, and the base entry only if the DELETE url or headers are null |
| Webhook.Notify | src/WebhookListener.php:50-62 | "removal" gives a DELETE whatever the id, including 0; "change" with id 0 or null gives a POST without suffix; "change" with any other id gives a PUT; each fills the cache as its request kind does; any other event issues nothing, succeeds and leaves the cache unchanged |
| Webhook.NotifyFailsOnlyOnIssuedRequest | src/WebhookListener.php:50-120 | a request is issued exactly for "change" and "removal", and `notify` fails exactly when a request was issued and not delivered |
| Webhook.RequestUrlCarriesId | src/WebhookListener.php:85 | the URL of an update or removal request is the category URL, a slash, and a canonical numeral that reads back as the flag id |
| Webhook.IdPathOfTests | spec/WebhookListener.spec.php:83-124 | with no base URL and a flag of id 1, the update and the removal requests go to exactly "/1" |
| Webhook.CompleteCategorySkipsBase | src/WebhookListener.php:132-140 | when the creation entry sets both url and headers and there is no base entry, a creation creates no base entry, so resolving another category afterwards does not reach `->clone()` |
| Webhook.GetOptionsAsWritten | src/WebhookListener.php:122-130 | as written, resolving a missing category while a base entry exists throws; in every other case it agrees with `GetOptions` |
| Webhook.CloneCallFails | src/WebhookListener.php:126-127 | for a listener built on base options with url `u`, the code as written throws on `creationOptions()`, while the intended copy reports `u` |

## Left out

- The Guzzle client, its construction from `$guzzleConfig` and the HTTP exchange itself: the transport's answer is an input, and whether a given status raises `BadResponseException` is Guzzle's decision.
- JSON serialisation of the flag: the body is the flag value itself. `FlagData`, `FlagMetadata` and `FlagException` belong to an external package that is not part of this model; the flag's value is modelled as a boolean.
- The `async` flag has no behaviour: it is stored and read back, and the listener never consults it.
- Object aliasing: a caller that keeps the `WebOptions` it passed to the constructor and mutates it later would change the base entry; options are values here, and edits go through `Reconfigure`.
- `Webhook.MapOutcome`: the flag error keeps the rejected outcome as its previous exception, not the full Guzzle exception object with its request and response.
- Headers are a map from name to one string value. PHP array order and Guzzle's list-valued headers are not modelled; the listener only passes the headers on.
- URL well-formedness: the source performs no validation, so neither does the model.
- Concurrency: the source has none.

## Findings

| source | as written | input that shows it | evidently intended | confidence | as-written member | corrected member |
|---|---|---|---|---|---|---|
| src/WebhookListener.php:126-127 | a category not yet stored is set to `$this->options[KEY_BASE]->clone()`, but `WebOptions` has no `clone` method, so PHP throws an undefined-method error | a listener built with `new WebOptions('https://foo.com')` or a URL string, then `creationOptions()`, or any `notify("change", …)` or `notify("removal", …)` | a copy of the base options (PHP's `clone $base`), as the option tests in spec/WebhookListener.spec.php:129-145 expect | high; not executed | Webhook.GetOptionsAsWritten, Webhook.CloneCallFails | Webhook.GetOptions, Webhook.AccessorsInheritBaseUrl |
