# Lightspeed Retail API client, modelled in Dafny

The `Lightspeed` class is a small Python client for the Lightspeed Retail (R-Series) REST API. It:

- keeps an OAuth bearer token and refreshes it lazily, once the clock is strictly past its expiry;
- paces requests with a leaky bucket, whose level and drip rate come from the
  `X-LS-API-Bucket-Level` and `X-LS-API-Drip-Rate` response headers;
- retries a request after each HTTP 429, at most four attempts in all, sleeping three seconds after each 429;
- builds resource URLs, where query parameters win over an id;
- walks cursor pagination by following `@attributes.next` links;
- flattens the pages for `get`.

This project models that object and proves what its operations do.

**Modules.**
- `Base` holds options, results and the exceptions that can escape.
- `Json` holds JSON values with Python truthiness and indexing.
- `Url` models `build_url`, including `urlencode(…, safe=':-')`.
- `Net` models the outside world and the log of what the client did.
- `Token` models `get_token` and `get_authorization_token`.
- `RateLimit` models the bucket.
- `Dispatch` models `request_bucket` as a function.
- `Pagination` models the link walk and flattening.
- `Client` holds the `Lightspeed` class.

**The outside world.** The network and the clock are an oracle value, `Net.World`. It holds:

- the clock reading;
- the scripted API replies, each with a latency, a status, the two headers, and a JSON body or none; a reply can also be an exception, HTTPError or not;
- the scripted answers of the token endpoint.

Sending consumes the next scripted reply and advances the clock by its latency. Sleeping advances the clock. Once the script is used up, every further request fails to connect.

**The class and its log.** The class keeps the source's mutable fields: the token expiry and bearer, and the bucket level, rate, last-request time and availability. It also keeps a ghost log of effects: sleeps, token checks, and requests sent with their verb, target and body. Every method is proved to leave exactly the state, world, log and result that the corresponding function of `Token`, `RateLimit`, `Dispatch`, `Pagination` or `Client` (`Submit`, `Collect`) gives. The properties are proved as lemmas about those functions.

**Python semantics the model keeps:**
- `finally: return s.json()` swallows a `KeyError` or `ValueError` from the header bookkeeping, so the bucket can be left partly updated.
- Only `HTTPError` is caught around the retry loop (line 153); any other transport exception escapes `request_bucket`.
- A 4xx/5xx response skips the bookkeeping but its body is still returned.
- The fourth 429's body is returned as well, after a last three-second sleep.
- `get_token` stores the new expiry before it reads `access_token`.
- `get_authorization_token` never sets the expiry.
- On the first page `r[source]` raises; on later pages a missing `source` ends the iteration quietly.
- `has_next` on something that is not a dict raises `AttributeError`.
- `urlencode(…, safe=':-')` (line 160) keeps `:` unescaped in query keys and values.

## Model

| member | source | states |
|---|---|---|
| Url.ApiUrl | lightspeed_api/lightspeed_api.py:20-24 | with an account id the API root is the account prefix, the id and `/`; without one it is empty |
| Url.QuoteChar | lightspeed_api/lightspeed_api.py:160 | a space becomes `+`, a safe character (letters, digits, `_.-~` and the extra `:-`) stays, anything else becomes `%XX` escapes; only encoded-alphabet characters come out |
| Url.QuotePlus | lightspeed_api/lightspeed_api.py:160 | a quoted string uses only the encoded alphabet and is never shorter than its input |
| Url.UrlEncode | lightspeed_api/lightspeed_api.py:160 | `urlencode` of string pairs is empty exactly when there are no pairs, and uses only the encoded alphabet plus the `=` and `&` separators |
| Url.BuildUrl | lightspeed_api/lightspeed_api.py:156-167 | truthy parameters win: urlencoded pairs when encoding, the raw query string otherwise, and a TypeError for the other kind; else a truthy id gives `source/id.json`; else `source.json` |
| Url.ParamsOverrideId | lightspeed_api/lightspeed_api.py:157-164 | with non-empty parameters the id has no influence on the URL |
| Url.BuiltUrlPrefix | lightspeed_api/lightspeed_api.py:156-167 | every URL built starts with the API root and the resource name and is longer than both |
| Url.QuotePlusKeepsSafe | lightspeed_api/lightspeed_api.py:160 | a string of safe characters is left unchanged by quoting |
| Url.QuotedHasNoSeparator | lightspeed_api/lightspeed_api.py:160 | a quoted key or value holds no `&`, `=`, `#`, `?` or space |
| Url.SaleByIdExample | lightspeed_api/lightspeed_api.py:163-164 | `build_url("Sale", id_="42")` ends in `Sale/42.json` |
| Url.ColonKeptExample | lightspeed_api/lightspeed_api.py:158-160 | encoding `{"q": "a:b"}` gives `Sale.json?q=a:b`, with the colon kept |
| Url.PlusAndSpaceExample | lightspeed_api/lightspeed_api.py:160 | quoting `a b+` gives `a+b%2B` |
| Json.Index | lightspeed_api/lightspeed_api.py:245 | `r[source]` succeeds exactly on a dict holding the key; a dict without it raises KeyError, anything else TypeError |
| Json.Truthy | lightspeed_api/lightspeed_api.py:157-170 | Python truthiness, as in `if parameters`, `elif id_` and `if next_resp`: false exactly for None, False, 0, "", [] and {} |
| Net.Send | lightspeed_api/lightspeed_api.py:126 | a request takes the next scripted reply and leaves the rest, or fails to connect once the script is used up; the clock never goes back |
| Net.FetchToken | lightspeed_api/lightspeed_api.py:83-84 | a token request takes the next scripted token answer and leaves the API script alone |
| Token.Initial | lightspeed_api/lightspeed_api.py:26-27 | a new client holds no token and an expiry already in the past |
| Token.Check | lightspeed_api/lightspeed_api.py:67-95 | each check logs one token check at the current time, refreshing exactly when the clock is strictly past the expiry, and never consumes an API reply |
| Token.CheckOutcome | lightspeed_api/lightspeed_api.py:72-95 | an unexpired token is returned unchanged; on refresh, a readable `expires_in` sets the expiry from the time of the answer, `access_token` (if present) becomes the token and is returned, and any failure returns None with the expiry possibly already moved |
| Token.CheckKeepsOrReturns | lightspeed_api/lightspeed_api.py:85-91 | after a check the stored token is either the old one or the one just returned |
| Token.RefreshedTokenReused | lightspeed_api/lightspeed_api.py:72-95 | a freshly refreshed token is handed out again without another refresh by every check up to its new expiry |
| Token.FirstCheckRefreshes | lightspeed_api/lightspeed_api.py:26-27 | the first check of a new client, at or after its creation, always refreshes |
| Token.Authorize | lightspeed_api/lightspeed_api.py:41-65 | an answer with `access_token` replaces the bearer token and returns `refresh_token` (None if absent); any other answer changes nothing and returns None; the expiry is never touched |
| Token.AuthorizeThenCheckRefreshes | lightspeed_api/lightspeed_api.py:41-65 | authorising a new client does not spare its first `get_token` a refresh |
| RateLimit.Initial | lightspeed_api/lightspeed_api.py:28-31 | a new bucket has no level, drip rate 1, 60 units and the creation time as last request |
| RateLimit.Cost | lightspeed_api/lightspeed_api.py:108-111 | a request costs 10 units exactly for post, put and delete, and 1 unit for every other verb |
| RateLimit.Admit | lightspeed_api/lightspeed_api.py:113-119 | enough units: go at once; otherwise a zero drip rate is a ZeroDivisionError, and a wait happens exactly when the drip time of the deficit exceeds the time since the last request, lasting the positive difference |
| RateLimit.AdmissionRefills | lightspeed_api/lightspeed_api.py:113-119 | with a positive drip rate, by the time a request goes, the units dripped back since the last request cover its cost |
| RateLimit.Record | lightspeed_api/lightspeed_api.py:134-151 | an error status or exception leaves the bucket alone; a success stamps the time, then sets level, availability (`total - requested`) and drip rate in turn, stopping at the first missing or malformed header |
| RateLimit.RecordForgetsPast | lightspeed_api/lightspeed_api.py:136-145 | a success carrying both headers sets the whole bucket regardless of what it held |
| Dispatch.Attempt | lightspeed_api/lightspeed_api.py:124-130 | one pass takes the next scripted reply and logs a token check, the request, and a three-second sleep exactly after a 429 |
| Dispatch.Retry | lightspeed_api/lightspeed_api.py:121-132 | the loop makes between one and the allowed number of attempts; with no script left its only reply is a connection failure; it consumes a reply whenever one is scripted |
| Dispatch.RetryRepeatsOn429 | lightspeed_api/lightspeed_api.py:123-132 | every attempt but the last was answered 429, and the loop ends early only on a reply that is not 429 |
| Dispatch.RetryTakesScript | lightspeed_api/lightspeed_api.py:123-132 | while the script lasts, the replies are the scripted ones in order and exactly that many are consumed |
| Dispatch.RetryCount | lightspeed_api/lightspeed_api.py:123-132 | the loop makes as many attempts as the script's leading 429s plus one, capped at the limit |
| Dispatch.RetryFollowsScript | lightspeed_api/lightspeed_api.py:121-132 | both of the above together: the attempts are the leading 429s and the reply after them, capped, consumed in order |
| Dispatch.AttemptLog | lightspeed_api/lightspeed_api.py:124-130 | one pass sends exactly one request, right after its token check, and sleeps only for a positive time |
| Dispatch.RetryRequests | lightspeed_api/lightspeed_api.py:123-132 | the loop sends one request per reply, each with the same verb, target and body |
| Dispatch.RetryGuarded | lightspeed_api/lightspeed_api.py:124-129 | in the loop's log every request comes right after a token check, and every sleep is positive |
| Dispatch.Deliver | lightspeed_api/lightspeed_api.py:150-154 | a response gives its JSON body whatever the status (or raises if it is not JSON), an HTTPError gives `"Error: " + message`, any other exception escapes |
| Dispatch.Request | lightspeed_api/lightspeed_api.py:97-154 | at most four attempts; none exactly when admission divides by zero, and then nothing changes; otherwise the result is what the last reply delivers and the bucket is the last reply's bookkeeping; an OK result consumes a reply |
| Dispatch.RequestSends | lightspeed_api/lightspeed_api.py:97-132 | a call sends at most four requests, one per reply, all to the given target with the given body |
| Dispatch.RequestGuarded | lightspeed_api/lightspeed_api.py:113-129 | in a call's log every request follows a token check, and no sleep is zero or negative |
| Dispatch.RequestConsumes | lightspeed_api/lightspeed_api.py:121-132 | an admitted call makes and consumes as many attempts as the leading 429s plus one, capped at four |
| Dispatch.RequestAnswers | lightspeed_api/lightspeed_api.py:121-154 | while the script lasts, a call's replies are the scripted ones and it answers with what the last of them delivers |
| Dispatch.RequestFollowsScript | lightspeed_api/lightspeed_api.py:121-154 | the two above together, for a script long enough |
| Dispatch.FourthRejectionReturned | lightspeed_api/lightspeed_api.py:123-151 | after four 429s the fourth response's body is returned and the bucket is left as it was |
| Dispatch.SuccessResetsBucket | lightspeed_api/lightspeed_api.py:136-145 | a successful first reply with both headers sets availability to `total - requested` and the header's drip rate |
| Pagination.LinkOf | lightspeed_api/lightspeed_api.py:169-170 | `resp.get('@attributes', {}).get(key, {})` raises exactly when the response or its attributes are not a dict, and finds a link exactly when the key holds a truthy value |
| Pagination.HasLink | lightspeed_api/lightspeed_api.py:169-170 | `has_next`/`has_previous` is true exactly for a link, false exactly for none, and otherwise raises AttributeError |
| Pagination.FollowLink | lightspeed_api/lightspeed_api.py:172-185 | with a link, exactly one `request_bucket("get", link)` with the link as written; otherwise None or AttributeError with nothing sent and nothing changed; a truthy answer consumes a reply |
| Pagination.Page | lightspeed_api/lightspeed_api.py:243-256 | a page is the whole response when attributes are kept, else its `source` field, which must exist on a dict |
| Pagination.Drain | lightspeed_api/lightspeed_api.py:248-257 | pages, raw responses and link targets stay in step, and the loop never un-consumes the script |
| Pagination.StopAfter | lightspeed_api/lightspeed_api.py:249-254 | the loop's exit reasons: an escaping exception exactly when the answer raised, no next link exactly when the response had none (`next_page` returns None), a falsy answer ends `while next_resp`, and a truthy one can only end it by failing `next_resp[source]` |
| Pagination.DrainYields | lightspeed_api/lightspeed_api.py:249-256 | every page the loop yields is the selection of a truthy response |
| Pagination.DrainFollowsLinks | lightspeed_api/lightspeed_api.py:248-257 | each recorded target is the next link of the response before it (the first, of the page already yielded) |
| Pagination.DrainStops | lightspeed_api/lightspeed_api.py:249-257 | the loop stops for the reason the last answer it looked at gives, and that answer is never a truthy response yielding a page behind a next link; it ends for want of a link exactly when the newest response has none (the last answer is then None); a missing `source` ends it only when attributes are not kept |
| Pagination.Paginate | lightspeed_api/lightspeed_api.py:227-257 | a URL that cannot be built raises before any request; otherwise the first page comes from the encoded URL, and a failure or a missing `source` on it yields nothing and raises |
| Pagination.PaginateFollowsLinks | lightspeed_api/lightspeed_api.py:239-257 | every page is its response's selection (truthy after the first), every later recorded target is the next link of the response before it, the walk ends for want of a link exactly when the last response has none, a missing `source` ends it only without kept attributes, and once a page is yielded the walk never stops on a truthy answer that yields a page behind a next link |
| Pagination.FollowLinkGets | lightspeed_api/lightspeed_api.py:172-185 | following a link sends only bodiless GETs, to that link exactly as the server wrote it, and nothing when there is no link |
| Pagination.DrainRequests | lightspeed_api/lightspeed_api.py:249-257 | the loop sends only bodiless GETs, to the links it recorded as targets and to the newest response's next link |
| Pagination.PaginateRequests | lightspeed_api/lightspeed_api.py:227-257 | `get_paginated` sends nothing when the URL cannot be built, and otherwise only bodiless GETs to the encoded URL, to the links it followed, and to the last response's next link |
| Pagination.DrainAnswers | lightspeed_api/lightspeed_api.py:249-257 | against plain 200 replies with units to spare, each response the loop reads is the body the server sent for the request in that position, in order |
| Pagination.PaginateAnswers | lightspeed_api/lightspeed_api.py:227-257 | the same for the whole of `get_paginated`: the first response and every later one are the server's bodies, in the order they were sent |
| Pagination.Contribution | lightspeed_api/lightspeed_api.py:199-202 | what one page adds to `get`'s list: a list's items (`extend`), a dict itself (`append`), and nothing for any other value |
| Pagination.Flatten | lightspeed_api/lightspeed_api.py:197-203 | `get`'s accumulation over the pages in order: pages that are neither lists nor dicts give an empty list, and a single page gives its contribution |
| Pagination.FlattenAppend | lightspeed_api/lightspeed_api.py:197-203 | flattening respects page order: the items of earlier pages come first |
| Pagination.FlattenMembers | lightspeed_api/lightspeed_api.py:197-203 | an item is in the flattened list exactly when some page contributes it |
| Pagination.FlattenDropsScalars | lightspeed_api/lightspeed_api.py:199-202 | a page that is neither a list nor a dict adds nothing |
| Pagination.TwoSalePagesExample | lightspeed_api/lightspeed_api.py:197-203 | two pages of one sale each flatten to the two sales in order |
| Client.Submit | lightspeed_api/lightspeed_api.py:259-303 | put, post and delete raise before sending when the URL cannot be built, and otherwise make exactly one `request_bucket` call to the unencoded URL |
| Client.SubmitSends | lightspeed_api/lightspeed_api.py:259-303 | a write sends nothing when its URL cannot be built, else at most four requests, all to that URL with the given body |
| Client.Collect | lightspeed_api/lightspeed_api.py:187-203 | `get` raises exactly when the iteration raised, with the same exception, and otherwise returns the flattening of the pages in page order |
| Client.CollectMembers | lightspeed_api/lightspeed_api.py:197-203 | an item is in `get`'s result exactly when a list page holds it or it is a dict page |
| Client.Gather | lightspeed_api/lightspeed_api.py:197-203 | the accumulation loop of `get` produces the flattening of the pages |
| Dispatch.ScriptedGet | lightspeed_api/lightspeed_api.py:97-154 | a GET admitted at once and answered 200 without rate-limit headers returns the body, consumes one reply, and keeps the bucket's availability |
| Client.TwoPageSaleWalk | lightspeed_api/lightspeed_api.py:187-257 | for any two sales and any non-empty link, a fresh client's walk over a `Sale` page linking to a second page yields both `Sale` lists from `Sale.json` and then the link, stops for want of a link, uses up the script, and `get` returns the two sales in order |
| Client.TwoPageSaleWalkExample | lightspeed_api/lightspeed_api.py:187-257 | on a fresh client, a `Sale` page linking to a second page yields both `Sale` lists, fetched from `Sale.json` and then the link, stops for want of a link, and `get` returns the two sales in order |
| Client.Lightspeed.constructor | lightspeed_api/lightspeed_api.py:12-31 | a new client has the account's API root, the initial token and bucket state, and an empty log |
| Client.Lightspeed.GetToken | lightspeed_api/lightspeed_api.py:67-95 | updates the token fields, returns and logs exactly what `Token.Check` gives, and leaves the bucket alone |
| Client.Lightspeed.GetAuthorizationToken | lightspeed_api/lightspeed_api.py:41-65 | updates the token fields and returns exactly what `Token.Authorize` gives, leaving bucket and log alone |
| Client.Lightspeed.AwaitCapacity | lightspeed_api/lightspeed_api.py:108-119 | sleeps exactly as `RateLimit.Admit` decides and reports a zero-rate division, changing no field |
| Client.Lightspeed.TryOnce | lightspeed_api/lightspeed_api.py:124-130 | one loop pass leaves the token, world and log of `Dispatch.Attempt` |
| Client.Lightspeed.SendWithRetries | lightspeed_api/lightspeed_api.py:121-132 | the `while tries <= 3` loop returns the last reply of `Dispatch.Retry` and leaves its token, world and log |
| Client.Lightspeed.RecordReply | lightspeed_api/lightspeed_api.py:134-145 | the fields become `RateLimit.Record` of the reply, token and log untouched |
| Client.Lightspeed.RequestBucket | lightspeed_api/lightspeed_api.py:97-154 | the call's outcome, fields, world and log are those of `Dispatch.Request` |
| Client.Lightspeed.FollowPage | lightspeed_api/lightspeed_api.py:172-185 | outcome, fields, world and log are those of `Pagination.FollowLink` |
| Client.Lightspeed.NextPage | lightspeed_api/lightspeed_api.py:172-176 | `next_page` is `FollowLink` on the key `next` |
| Client.Lightspeed.PreviousPage | lightspeed_api/lightspeed_api.py:181-185 | `previous_page` is `FollowLink` on the key `previous` |
| Client.Lightspeed.DrainPages | lightspeed_api/lightspeed_api.py:248-257 | the `while next_resp` loop yields the pages of `Pagination.Drain`, stops for its reason, and leaves its fields, world and log |
| Client.Lightspeed.GetPaginated | lightspeed_api/lightspeed_api.py:227-257 | the generator run to its end yields the pages of `Pagination.Paginate` and leaves its fields, world and log |
| Client.Lightspeed.Get | lightspeed_api/lightspeed_api.py:187-203 | `get` returns `Client.Collect` of the paginated run and leaves its fields, world and log |
| Client.Lightspeed.Put | lightspeed_api/lightspeed_api.py:259-274 | `put` is `Client.Submit` with verb put and the data as body |
| Client.Lightspeed.Post | lightspeed_api/lightspeed_api.py:276-290 | `post` is `Client.Submit` with verb post, no id and the data as body |
| Client.Lightspeed.Delete | lightspeed_api/lightspeed_api.py:292-303 | `delete` is `Client.Submit` with verb delete and no body |
| Client.Lightspeed.Create | lightspeed_api/lightspeed_api.py:305-316 | `create` behaves exactly as `post` |
| Client.Lightspeed.Update | lightspeed_api/lightspeed_api.py:318-329 | `update` behaves exactly as `put` |

## Left out

- The HTTP transport, TLS and the `requests.Session` object are not modelled. They are replaced by scripted replies in `Net.World`. The session's `Authorization` header update (lines 60-61, 88-89) is not modelled because it is not observable in the model.
- Serialising with `json.dumps` (lines 269, 285) is not modelled. The request body is the JSON value itself.
- `method.upper()` is not modelled. The log records the verb as the client's code spells it.
- Reading the headers is given, not computed. The split and `float()` parsing of `X-LS-API-Bucket-Level` arrives as two numbers or as "malformed". An unparseable `X-LS-API-Drip-Rate` counts as missing, which stops the update at the same point.
- Floating point is modelled as exact reals.
- The calls to `datetime.now()` inside one step are merged into one clock reading. Time passes only through sleeps and reply latencies.
- Python generators are lazy; the model runs `get_paginated` to its end. A consumer that stops early is not modelled.
- A pagination walk that never ends is not modelled. The scripted world is finite and every request after the script is used up fails to connect, so every modelled `get` and `get_paginated` ends. The `while next_resp` loop of lines 249-257 never ends when the server's `next` links never run out, for example two pages that link to each other.
- The `testing` flag and its `print`, the `print` calls on an HTTPError, and `__repr__` are not modelled because they are output only.
- The commented-out legacy code of `get` (lines 204-225) is not modelled.
- The config is assumed to hold `refresh_token`, `client_secret` and `client_id`. A missing key, which the client's bare `except` turns into None before any request, is not modelled.
- The `code` argument of `get_authorization_token` and the config values only go to the token endpoint. Its answer is scripted, so they are not parameters.
- Only some shapes of the token answer are modelled. An `expires_in` that `int()` cannot read counts as missing. An `access_token` that is not a string is not modelled.
- The `refresh_token` that `get_token` receives is ignored, as the client does.
- Only some argument shapes are modelled. `id_` may be an integer or a string and `parameters` may be string pairs or a query string. Other Python values (floats, nested sequences, bytes) are left out.
- `get`'s default of `keep_attributes=False` and `get_paginated`'s default of `True` are not modelled. `keep` is always an explicit argument.
- Concurrency is not modelled: one client is used by one caller at a time.
