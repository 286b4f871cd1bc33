# vilo, modelled in Dafny

vilo is a small WSGI web framework in one Python module, `vilo.py`. An
application is built with `buildApp()`. Routes are added with
`addRoute`/`route`, plugins with `install`, and error handlers are bound
to error tags with `onViloErrorTag`. The server calls
`app.wsgi(environ, start_response)`. For each call, `wsgi` does five things:

1. It builds a request object from the WSGI environment.
2. It builds a response object around `start_response`.
3. It finds the first route whose verbs and path match.
4. It runs that route's handler, wrapped in every plugin.
5. It turns an exception into an error response and finishes the response.

Finishing encodes the body, assembles the headers and calls `start_response` once.

This project models that core and proves properties of it.

| file | module | what it models |
|---|---|---|
| `wrappers.dfy` | `Wrappers` | `Option`, and `Min` |
| `text.dfy` | `Text` | `str.count`, `str.split(sep, n)`, `find`, `replace`, ASCII `upper`/`lower`, `strip`, `str(int)` |
| `unicode.dfy` | `Unicode` | UTF-8 (section 3 of RFC 3629) and Latin-1 codecs |
| `base64.dfy` | `Base64` | the alphabet and padding of section 4 of RFC 4648 |
| `ordered_map.dfy` | `OrderedMaps` | Python dictionaries: insertion order, last write wins |
| `python.dfy` | `Py` | Python values, exceptions (`Outcome`), and the library functions `Lib` |
| `helpers.dfy` | `Helpers` | status lines, `HttpError`, `esc`, `toBytes`/`toStr`, the Latin-1/UTF-8 converters, `dictDefaults` |
| `signing.dfy` | `Signing` | `signWrap`/`signUnwrap` |
| `routes.dfy` | `Routes` | `detectRouteMode`, `validateWildcardPath`, `buildRoute`, the wildcard match as a function |
| `requests.dfy` | `Requests` | `buildRequest`: `ekey`, the header getters, `fillBody`, `reconstructUrl`, `parseQs`, `fill_fdata`, cookies |
| `matcher.dfy` | `Matching` | `checkWildcardMatch`, `checkReMatch`, `checkRouteMatch` as methods that write the request |
| `responses.dfy` | `Responses` | `buildResponse`: headers, cookies, `redirect`, `_bytify`, `_finish`, `start_response` |
| `actions.dfy` | `Actions` | what a handler does to the response, carried out on the response object |
| `apps.dfy` | `Apps` | `buildApp`: routes, plugins, the error-tag table, `getMatchingRoute`, `wsgi` |

How the model is set up:

- **Python values.** Values are a `PyObj` datatype. Anything that can raise returns an
  `Outcome`: `Ok(value)`, `HttpErr(HttpError)` or `OtherErr(Fault)`. Each
  `assert`, `KeyError`, `TypeError`, `SyntaxError` and so on in the code is an
  `OtherErr` with the matching `Fault`.
- **Library functions.** Functions the code calls but does not define are
  fields of a `Lib` record, and every property holds for every choice of them.
  These are:
  - `json.dumps`/`json.loads`;
  - HMAC-SHA512;
  - `re.match`;
  - `parse_qsl`;
  - `SimpleCookie` loading and `Morsel.OutputString`;
  - `cgi.FieldStorage`;
  - `SplitResult.geturl`;
  - `str(x)` of an arbitrary object;
  - the traceback text.

  Where a property needs JSON to read back what it wrote, it says so as a
  precondition (`Signing.JsonRoundTrips`).
- **The environment.** The WSGI environment is a map of string variables
  plus the whole body stream, as bytes.
- **Mutable objects.** The request, the response, the application and the caller's
  option dictionary are classes whose methods change their fields.
  `start_response` is a class that records its calls.
- **Application code.** Route handlers and plugins are given by id (`Routes.Fn`). What a
  handler does is a parameter, `Apps.Handlers`. A handler's run is data:
  - the calls it makes on the response: set the status line, `setHeader`,
    `setCookie` or `redirect`;
  - then the value it returns or the exception it raises.

  `Actions.RunHandler` carries those calls out on the response object.

Two behaviours of the code are proved as they are written:

- **Status line after an unexpected exception.** When a handler raises
  anything other than an `HttpError`, `wsgi` never assigns `res.statusLine`.
  The error page therefore goes out with whatever status line the handler's
  calls left on the response (`Apps.UnexpectedKeepsStatus`): "200 OK" if it
  set none (`Apps.UnexpectedWithoutCalls`), "302 Found" after a redirect
  (`Apps.UnexpectedAfterRedirect`). The `HttpError(..., 500,
  "unexpectedError")` built there only supplies the tag.
- **Errors while building the request.** `buildRequest` runs before the
  `try`. Its exceptions, including the 413 for an oversized body, escape
  `wsgi` without any response being started
  (`Apps.TooLargeEscapes`, `Apps.BuildFailureEscapes`). The
  `requestTooLarge` handler is never reached.

The wildcard matcher is also modelled as written. Its check of a literal
last segment compares the loop's last pair, not the last segments. So
`"/*/x/y"` accepts `"/a/x/z"` (`Routes.LastLiteralUncompared`), and
`"/*/do"` rejects `"/foo/do"` (`Routes.LiteralAfterStarRejects`). A pattern
with a literal last segment and no other segment reads the unassigned
loop variable, and raises `UnboundLocalError`. Nothing rejects an empty
capture: `"/*"` matches `"/"` (`Routes.EmptyCapture`).

The 413 status line is "413 Payload Too Large", as `vilo.py` writes it;
section 15.5.14 of RFC 9110 now names that status "Content Too Large".

## Model

| member | source | states |
|---|---|---|
| Helpers.StatusLineFromCode | vilo.py:43-66 | a known code gives its line from the table, any other code gives "404 Not Found" |
| Helpers.StatusLineCode | vilo.py:43-63 | every line in the table starts with its own three-digit code and a space |
| Helpers.MakeHttpError | vilo.py:68-75 | the body and the tag are kept; a text status line is kept; an integer status is looked up, defaulting to "404 Not Found" |
| Helpers.UnescapeEsc | vilo.py:86-89 | unescaping the output of `esc` gives back the input: `&` is replaced first, so no entity is doubled or lost |
| Helpers.Esc | vilo.py:86-89 | the output of `esc` contains no `<`, `>`, `"` or `'`; `Helpers.UnescapeEsc` reads it back and `Helpers.EscConcat` shows it works character by character |
| Helpers.EscConcat | vilo.py:86-89 | `esc` works character by character: escaping a concatenation is concatenating the escapes |
| Helpers.ToBytes | vilo.py:110-113 | succeeds exactly on `bytes` and `str`; anything else raises `TypeError` |
| Helpers.ToStr | vilo.py:115-118 | a `str` is returned as it is; anything other than `str`/`bytes` raises `TypeError` |
| Helpers.ToStrToBytes | vilo.py:110-118 | `toStr` and `toBytes` invert each other on strings and on decodable bytes |
| Helpers.Latin1ToUtf8Inverse | vilo.py:120-128 | when `latin1_to_utf8(s)` succeeds, `utf8_to_latin1` of the result gives back `s` |
| Unicode.Latin1Utf8RoundTrip | vilo.py:120-128 | `latin1_to_utf8(utf8_to_latin1(s)) == s` for every string |
| Unicode.Utf8RoundTrip | vilo.py:120-128 | UTF-8 decoding undoes UTF-8 encoding |
| Helpers.WithDefaultsGet | vilo.py:91-95 | after merging, a key the dictionary had keeps its value and a missing key gets the default's value |
| Helpers.WithDefaultsKeepsOrder | vilo.py:91-95 | merging keeps the dictionary's keys first, in their order; defaults only add keys after them |
| Helpers.DictDefaults | vilo.py:91-95 | mutates the caller's dictionary in place into the merge of it with the defaults |
| Base64.RoundTrip | vilo.py:140-141 | decoding gives back the encoded bytes |
| Base64.EncodingChars | vilo.py:140-142 | the encoding is ASCII and holds neither of the separator's two characters, so `B_SIGN_SEP` cannot occur in the signature |
| Signing.SignWrap | vilo.py:136-144 | succeeds exactly when the value is JSON-serialisable and the secret is `str`/`bytes`; the result is the base64 HMAC, then `B_SIGN_SEP`, then the base64 JSON |
| Signing.SplitSigned | vilo.py:146-153 | splitting at the first `B_SIGN_SEP` recovers the two halves when the first half has no `@` |
| Signing.SignRoundTrip | vilo.py:136-159 | `signUnwrap(signWrap(v, s), s) == v` whenever JSON reads back what it writes |
| Signing.SignUnwrap | vilo.py:146-159 | a value other than `None` comes out only of a string with the separator whose decoded signature equals the HMAC of its decoded payload under the secret; `Signing.UnwrapUnsigned`, `Signing.UnwrapForged` and `Signing.UnwrapGenuine` give the three outcomes |
| Signing.UnwrapGenuine | vilo.py:146-159 | a string whose signature is the HMAC of its payload unwraps to the payload's JSON value |
| Signing.UnwrapUnsigned | vilo.py:146-148 | a non-string, or a string without `B_SIGN_SEP`, unwraps to `None` |
| Signing.UnwrapForged | vilo.py:146-157 | when the decoded signature differs from the recomputed HMAC, the result is `None` |
| Routes.DetectRouteMode | vilo.py:430-434 | `re` exactly when both parentheses occur; otherwise `wildcard` exactly when `*` occurs; otherwise `exact` |
| Routes.ValidateWildcardPath | vilo.py:436-449 | returns True exactly for a valid wildcard path; raises the assertion, or one of the three syntax errors in the code's order |
| Routes.ValidWildcardHasSlash | vilo.py:436-449 | a valid wildcard path has at least one `/` |
| Routes.ModeNamed | vilo.py:454 | only "re", "wildcard" and "exact" name a mode |
| Routes.VerbsOf | vilo.py:452 | a string verb becomes a one-element list; a list is kept |
| Routes.BuildRoute | vilo.py:451-460 | builds the route exactly when the mode is known and, for a wildcard, the path is valid; a wildcard route is always valid |
| Routes.MatchSegmentsSpec | vilo.py:472-479 | the segment loop captures the `*` segments in order and fails exactly on the first literal that differs |
| Routes.MatchLastSpec | vilo.py:481-494 | the last segment: `*` captures a slash-free rest, `**` captures the whole rest, and a literal compares the loop's last pair |
| Routes.MatchAllSpec | vilo.py:472-494 | the whole walk, on well-formed segments, as the loop's captures followed by the last segment's |
| Routes.SegmentsWellFormed | vilo.py:465-474 | after splitting a valid pattern, no check in the walk can fail |
| Routes.WildcardMatchTotal | vilo.py:462-495 | on a pattern that passed `validateWildcardPath`, no assertion in the matcher fails |
| Routes.WildcardMatchFalse | vilo.py:465-491 | the match is refused exactly in four cases: the piece counts differ; a literal segment before the last differs; a trailing `*` faces a `/`; or the pattern ends in a literal and the segment pair before it differs (the comparison of line 490 as written) |
| Routes.WildcardMatchCaptures | vilo.py:472-494 | on success, the captures are the path pieces under the `*`/`**` segments, left to right |
| Routes.StarRejectsDeeperPath | vilo.py:462-495 | `"/foo/*"` rejects `"/foo/bar/baz"` |
| Routes.DoubleStarCapturesRest | vilo.py:488-489 | `"/s/**"` on `"/s/foo/bar"` captures `"foo/bar"` |
| Routes.CapturesInOrder | vilo.py:475-489 | `"/*/**"` on `"/a/b/c"` captures `["a", "b/c"]` |
| Routes.LastLiteralUncompared | vilo.py:490-491 | `"/*/x/y"` accepts `"/a/x/z"`, because the last literal is compared through the loop variables |
| Routes.LiteralAfterStarRejects | vilo.py:490-491 | `"/*/do"` rejects `"/foo/do"`, for the same reason |
| Routes.EmptyCapture | vilo.py:462-495 | `"/*"` matches `"/"` with an empty capture |
| Matching.CheckWildcardMatch | vilo.py:462-495 | returns what the wildcard match decides; writes `req.wildcards` with the captures on success and leaves it untouched otherwise |
| Matching.WalkSegments | vilo.py:472-494 | the loop over the segments computes the specified walk, raising `UnboundLocalError` when a literal last segment follows no loop step |
| Matching.CheckReMatch | vilo.py:497-503 | True exactly when the expression matches at the start; `req.matched` is written only then |
| Matching.CheckRouteMatch | vilo.py:505-512 | dispatches on the mode; only the chosen matcher writes the request, and only on success |
| Matching.ExactRouteMatch | vilo.py:505-509 | an exact route matches exactly the equal path info; with no path info, only "/" matches |
| Matching.WildcardRouteTotal | vilo.py:505-511 | a wildcard route `addRoute` accepted never makes `checkRouteMatch` raise once the path info is read |
| Requests.Ekey | vilo.py:173-176 | an absent key gives the default; a present one is read back as UTF-8, or raises a decoding error |
| Requests.EkeyOfEncoded | vilo.py:173-176 | a variable holding the Latin-1 view of `s`'s UTF-8 bytes reads back as `s` |
| Requests.GetPathInfo | vilo.py:183 | "/" without `PATH_INFO`, else the variable read as UTF-8 |
| Requests.GetVerb | vilo.py:184 | "GET" without `REQUEST_METHOD`; the verb is always upper-case; it raises exactly when the variable is not UTF-8 read as Latin-1 |
| Requests.GetVerbOfEncoded | vilo.py:184 | a `REQUEST_METHOD` holding the Latin-1 form of `s` gives the verb `s` upper-cased |
| Requests.CgiKey | vilo.py:234-237 | the key has no `-` and is `CONTENT_TYPE`, `CONTENT_LENGTH`, or starts with `HTTP_` |
| Requests.CgiKeyNormalises | vilo.py:234-237 | upper-casing a name, or turning its `-` into `_`, does not change its key |
| Requests.GetHeader | vilo.py:234-238 | reads the variable under the header's key, or gives None |
| Requests.ContentTypeHeader | vilo.py:234-239 | `CONTENT_TYPE` has no `HTTP_` prefix |
| Requests.GetHeaderNormalised | vilo.py:234-238 | the header getter ignores case and treats `-` and `_` alike |
| Requests.ParseQs | vilo.py:242-244 | the query dictionary is well formed (which key wins is `OrderedMaps.FromPairsLastWins`) |
| Requests.StrDict | vilo.py:242-244 | the dictionary as a Python value, entries in key order |
| Requests.ParseMultipartFormData | vilo.py:248-275 | the form fields the parser returns, each under its name; a parser failure raises |
| Requests.Request.constructor | vilo.py:168-205 | a new request: no captures, no match, and empty body, URL, query and form data |
| Requests.Request.FillBody | vilo.py:197-202 | keeps the first min(n, 1 MiB) bytes of the stream; raises 413 `requestTooLarge` exactly when n > 1 MiB |
| Requests.Request.ReconstructUrl | vilo.py:207-231 | stores the URL from scheme, netloc, path and query, and the query string |
| Requests.Request.FillFdata | vilo.py:278-289 | sets the form data from the content type; fields are unchanged when it raises |
| Requests.Request.Fill | vilo.py:187-289 | the build steps in the code's order, the first that raises ending the build |
| Requests.Request.FillAfterBody | vilo.py:205-289 | the steps after the body is read, in order |
| Requests.Request.GetUnsignedCookie | vilo.py:291-294 | the cookie's value when the jar holds it, else None |
| Requests.Request.GetCookie | vilo.py:296-300 | None for a missing or empty cookie, the raw value without a secret, else `signUnwrap` of the raw value |
| Requests.Request.SignedCookieRoundTrip | vilo.py:296-300 | a cookie stored as `signWrap(v, s)` reads back as `v` with the same secret |
| Requests.BuildRequest | vilo.py:168-307 | builds a fresh request exactly when every step succeeds; otherwise raises what the first failing step raised |
| Requests.BuildTooLarge | vilo.py:197-202 | a body over 1 MiB gives `HttpError` "413 Payload Too Large" tagged `requestTooLarge` |
| Requests.BuildBody | vilo.py:197-202 | a built request's body is the whole stream, at most 1 MiB |
| Requests.BuildQuery | vilo.py:242-245 | the query data is `ParseQs` of the query string, whose dictionary keeps the last occurrence of a key (`OrderedMaps.FromPairsLastWins`) |
| Requests.ReadUrlQuery | vilo.py:222 | the query is `QUERY_STRING` read as UTF-8, or empty |
| Requests.FormDataCases | vilo.py:278-289 | urlencoded and JSON by equality, multipart by prefix, anything else (or no type) leaves `{}` |
| Requests.BuildForm | vilo.py:278-289 | the built form data is chosen by the request's content type |
| Requests.UrlHostWins | vilo.py:211-212 | a non-empty `HTTP_HOST` is the netloc |
| Requests.UrlServerPort | vilo.py:211-216 | otherwise `SERVER_NAME`, plus `:port` when the port is non-empty and not the scheme's default ("80" for http, "443" otherwise) |
| Requests.UrlPortWithoutName | vilo.py:213-216 | a non-default port with no `SERVER_NAME` raises `TypeError` (`None + ":"`) |
| OrderedMaps.FromPairsLastWins | vilo.py:244 | `dict(pairs)` holds a key exactly when a pair has it, with the value of its last pair |
| OrderedMaps.FromPairsKeyOrder | vilo.py:244 | `dict(pairs)` orders its keys by their first occurrence |
| Responses.StartResponse.Call | vilo.py:417-419 | records one `start_response` call |
| Responses.AfterSetHeader | vilo.py:323-330 | the key is the name stripped and upper-cased; `CONTENT-TYPE` goes to the content type; `CONTENT-LENGTH` raises; the map never holds either |
| Responses.SetThenGetHeader | vilo.py:323-335 | reading a header just set gives its value; other headers are unchanged |
| Responses.ApplyHeaders | vilo.py:337-342 | the pairs are set in order, stopping at the first `CONTENT-LENGTH`; they all succeed exactly when none is `CONTENT-LENGTH` |
| Responses.Response.constructor | vilo.py:310-315 | "200 OK", "text/html; charset=UTF-8", no headers and no cookies |
| Responses.Response.SetHeader | vilo.py:323-331 | changes the header state as `Responses.AfterSetHeader` says, and not at all when it raises |
| Responses.Response.GetHeader | vilo.py:333-335 | the value under the stripped, upper-cased name, or None |
| Responses.Response.SetHeaders | vilo.py:337-342 | a dictionary is taken as its items; anything but a list or dictionary fails the assertion; the pairs are set in order |
| Responses.Response.SetHeaderPairs | vilo.py:341 | the loop over the pairs leaves the state `Responses.ApplyHeaders` gives |
| Responses.PutCookie | vilo.py:346 | stores the value under the name; an existing cookie keeps its attributes and its place; other cookies are unchanged |
| Responses.SetAttribute | vilo.py:353-354 | a known attribute (case ignored) is stored lower-cased; an unknown one raises |
| Responses.SetAttributes | vilo.py:353-354 | each option is set in order; it succeeds exactly when every name is an attribute, and then all are stored; other cookies are unchanged |
| Responses.SetAttributesValues | vilo.py:353-354 | after options that all go through, each attribute holds the value of the last option naming it (case-insensitively), and an attribute no option names keeps its value |
| Responses.CookieOptionsDefaults | vilo.py:349-352 | `path` defaults to "/" and `httponly` to True, while every option the caller gave keeps its value |
| Responses.CookieOptionsHasDefaults | vilo.py:349-352 | the merged options always include `path` and `httponly` |
| Responses.CookieSetStores | vilo.py:344-356 | after `setUnsignedCookie` succeeds the cookie holds the value, with `path` and `httponly` set |
| Responses.CookieSetAttributes | vilo.py:344-356 | with lower-case option names, the cookie gets `path` "/" and `httponly` True unless the caller gave them, and every option of the caller's with its value |
| Responses.Response.SetUnsignedCookie | vilo.py:344-356 | a non-string value fails the assertion with no change; the jar becomes the stored cookie; a non-empty caller dictionary gets the defaults in place |
| Responses.Response.MergeOptions | vilo.py:349-352 | `opt or {}` then `dictDefaults`: the options gain `path` and `httponly` unless set, a non-empty caller's dictionary is updated in place and an empty or missing one is left alone |
| Responses.Response.CopyOptions | vilo.py:353-354 | the loop over the options leaves the jar `Responses.SetAttributes` gives |
| Responses.Response.SetCookie | vilo.py:358-362 | with a truthy secret the value is signed, and a signing failure changes neither the jar nor the caller's options; the signed or raw value is stored and returned; a non-empty options dict gets the defaults added in place exactly when the value is stored |
| Responses.Response.Redirect | vilo.py:380-384 | status "302 Found", a `LOCATION` header, and an empty body |
| Responses.LocationKey | vilo.py:382 | `setHeader("Location", ...)` writes the key `LOCATION` |
| Responses.BodyBytes | vilo.py:387-396 | `str` becomes its UTF-8 bytes, `bytes` stay, dict/list become their JSON, anything else `str(x)`; it fails only when JSON does |
| Responses.JsonBytes | vilo.py:394 | the UTF-8 of `json.dumps(x)`, failing when it fails |
| Responses.Response.Bytify | vilo.py:387-396 | returns the body bytes; only a dict or list sets the content type to `application/json` |
| Responses.CookieHeaders | vilo.py:402-405 | one `SET-COOKIE` header per cookie, in jar order |
| Responses.Latin1Headers | vilo.py:413-415 | every header value passes through `utf8_to_latin1`, names and order kept |
| Responses.ToLatin1Headers | vilo.py:413-415 | the loop that builds `latin1_headerList` sends exactly `Latin1Headers` of the header list: each value converted, names and order kept |
| Responses.Occurrences | vilo.py:400-410 | how many headers have a name; zero exactly when none has it |
| Responses.OccurrencesConcat | vilo.py:400-410 | counting over a concatenation adds the counts |
| Responses.FinishHeaders | vilo.py:400-410 | the list is the map entries, then the cookies, then exactly one `CONTENT-TYPE` and one `CONTENT-LENGTH` equal to `str(len(body))` |
| Responses.FinishValuesRecoverable | vilo.py:413-415 | every value sent can be read back with `latin1_to_utf8` |
| Responses.Response.Finish | vilo.py:398-419 | raises without calling `start_response` when the body cannot be encoded; otherwise calls it once with the Latin-1 status line and headers, and returns `[body]` |
| Actions.InitialState | vilo.py:310-315 | the fresh response's state is well formed |
| Actions.CookieValue | vilo.py:359 | signed when the secret is truthy, else the value itself |
| Actions.HeaderAct | vilo.py:323-331 | `setHeader` on the state: only the headers change, and nothing changes when it raises |
| Actions.CookieAct | vilo.py:358-362 | `setCookie` on the state: only the cookie jar changes, keeping what was set before a failing attribute |
| Actions.RedirectAct | vilo.py:380-384 | `redirect` on the state: "302 Found" and a `LOCATION` header |
| Actions.Act | vilo.py:323-384 | a call that raises leaves the status line and headers unchanged; setting the status line or redirecting never raises |
| Actions.ActAllKeepsStatus | vilo.py:323-362 | calls other than setting the status line and `redirect` leave the status line as it was, raising or not |
| Actions.ActAllLastStatus | vilo.py:310-384 | the status line a run leaves is the last one set, when no earlier call raised and no later call redirects or sets another |
| Actions.ActAll | vilo.py:621 | the response calls a handler makes, applied in order, keep the response well formed: the header map never holds CONTENT-TYPE or CONTENT-LENGTH and the cookie jar stays a well-formed dict |
| Actions.ActAllStops | vilo.py:323-384 | a call that raises ends the handler: later calls have no effect |
| Actions.Perform | vilo.py:323-384 | carrying out one call on the response object has the effect `Actions.Act` gives |
| Actions.PerformCookie | vilo.py:358-362 | `setCookie` without options on the response object has the effect `Actions.CookieAct` gives |
| Actions.RunHandler | vilo.py:621 | a handler's calls carried out in order, leaving the state and result `Actions.Ran` gives |
| Apps.DefaultTagMap | vilo.py:578-583 | the table holds exactly the four framework tags |
| Apps.DefaultErrorOutput | vilo.py:549-556 | JSON `{status, msg}` for a JSON request, else `<h2>line</h2><pre>msg</pre>` with both escaped, unable to inject markup, and reading back unchanged |
| Apps.UnexpectedOutput | vilo.py:563-575 | outside debug mode the fixed page; in debug mode the traceback between the fixed head and tail, escaped so that it adds no markup and reads back unchanged |
| Apps.ErrorOutput | vilo.py:549-575 | the framework's handlers return a page and do not touch the response; the application's may act on it |
| Apps.PlugLayers | vilo.py:542-546 | the plugged handler is the route's function wrapped in exactly the installed plugins, the first installed innermost |
| Apps.RouteNotFoundLine | vilo.py:605 | the no-route error is "404 Not Found" tagged `routeNotFound` |
| Apps.MatchFrom | vilo.py:601-604 | a route found lists the verb and matches; nothing is found exactly when no route with the verb matches |
| Apps.FirstMatchWins | vilo.py:601-604 | the earliest route that lists the verb and matches is the one returned |
| Apps.MatchingRoute | vilo.py:593-605 | the verb and path info are read first; the route returned is in the list, lists the verb and matches |
| Apps.MatchFromTotal | vilo.py:601-604 | with all wildcard routes valid, the search raises nothing |
| Apps.MatchingRouteTotal | vilo.py:593-605 | with all wildcard routes valid, the only error is the `routeNotFound` 404 |
| Apps.Recovered | vilo.py:622-634 | the `except` clauses keep the response state well formed; what they send is stated by `Apps.HttpErrorServed`, `Apps.TaggedErrorServed` and `Apps.UnexpectedKeepsStatus` |
| Apps.BuildFailureEscapes | vilo.py:613 | a request that cannot be built makes `wsgi` raise what the build raised, with no response started |
| Apps.TooLargeEscapes | vilo.py:613 | an oversized body makes `wsgi` raise the 413 itself, with no response started |
| Apps.OccurrencesLatin1 | vilo.py:413-415 | converting values keeps header names and their counts |
| Apps.ServedHeaders | vilo.py:607-635 | every started response has one content type and one content length, and the length reads back as the body's size |
| Apps.NotFoundServed | vilo.py:605-626 | with no matching route and the default handler, the response is "404 Not Found" with the default page |
| Apps.HttpErrorServed | vilo.py:618-628 | a handler that raises an `HttpError` whose tag is absent or unknown, after calls that went through: its own body is sent under its own status line, replacing whatever status the calls set; a body that cannot become bytes escapes `wsgi` with no response started |
| Apps.TaggedErrorServed | vilo.py:618-628 | a handler that raises an `HttpError` tagged with a framework tag: the error's status line is sent with that tag's default page for the request's content type, not the error's own body |
| Apps.UnexpectedKeepsStatus | vilo.py:629-634 | a handler whose calls succeed and which then raises a non-`HttpError` gets the default error page under the status line its calls left |
| Apps.UnexpectedWithoutCalls | vilo.py:629-634 | with no call before the exception, that status line is "200 OK" |
| Apps.UnexpectedAfterRedirect | vilo.py:629-634 | a handler that redirects and then raises a non-`HttpError` gets the error page under "302 Found" |
| Apps.App.constructor | vilo.py:519-583 | no routes, no plugins, the default error-tag table, not in debug mode |
| Apps.App.AddRoute | vilo.py:524-528 | appends the built route; a failing build raises and leaves the list unchanged |
| Apps.App.Route | vilo.py:530-536 | the decorator adds the route and returns the function unchanged |
| Apps.App.Install | vilo.py:538-540 | appends the plugin |
| Apps.App.SetDebug | vilo.py:559-561 | the flag becomes the argument's truth value |
| Apps.App.OnViloErrorTag | vilo.py:584-591 | an unknown tag raises `KeyError` with nothing changed; a known one gets the handler |
| Apps.App.PlugRoute | vilo.py:542-546 | the loop's result is `Apps.Plug` of the route's function and the plugin list |
| Apps.App.GetMatchingRoute | vilo.py:593-605 | the loop finds `Apps.MatchingRoute`; only a successful match writes the matched route's captures into the request |
| Apps.App.FindRoute | vilo.py:601-604 | the loop finds what `Apps.MatchFrom` finds; only a successful match writes its captures into the request |
| Apps.App.CallErrorHandler | vilo.py:625-634 | an error handler's run on the response object has the effect `Apps.ErrorOutput` gives |
| Apps.App.Try | vilo.py:618-621 | the `try` block on the objects has the effect `Apps.Tried` gives |
| Apps.App.Recover | vilo.py:622-634 | the `except` clauses on the objects have the effect `Apps.Recovered` gives |
| Apps.CheckRouteOn | vilo.py:602 | `checkRouteMatch` on the request object gives `Apps.Captured`'s view of it on a match and leaves it alone otherwise |
| Apps.App.Respond | vilo.py:614-635 | after the build, the response, `try` block, `except` clauses and `_finish` give what `Apps.Finished` of `Apps.Recovered` of `Apps.Tried` says |
| Apps.App.FinishReply | vilo.py:635 | `res._finish(handlerOut)` returns and calls `start_response` as `Apps.Finished` says, or passes the exception on |
| Apps.App.Wsgi | vilo.py:607-635 | returns or raises what `Apps.Served` says, and calls `start_response` exactly when a response is sent |

## Left out

- `staticFile` (vilo.py:368-378) reads a file. File I/O is not modelled.
- Traceback printing in the unexpected-error handler (vilo.py:564-566) is I/O. The traceback text is a parameter (`Lib.tracebackText`).
- `re` mode: Python's regular-expression engine is an uninterpreted function, `Lib.reMatch`. Its match object is an opaque number, and bad patterns are not modelled.
- These are uninterpreted functions:
  - `json.dumps`/`json.loads`;
  - HMAC-SHA512;
  - `parse_qsl`;
  - `SimpleCookie` parsing;
  - `Morsel.OutputString`;
  - `cgi.FieldStorage`;
  - `SplitResult.geturl`;
  - `str(x)` of arbitrary objects.

  They are library code, so every property is proved for every choice of them.
- Requests.ParseMultipartFormData: only the dictionary built from the parsed fields is modelled. The parsing of the body (RFC 7578) belongs to `cgi`.
- Morsel internals: the cookie names `SimpleCookie` refuses with `CookieError`, and the value quoting `SimpleCookie` applies, are not modelled.
- Base64.Decode: Python's lenient decoder skips characters outside the alphabet. The model's decoder refuses them. That is enough for the signing proofs, which only decode genuine encodings or state their decodings as premises.
- `escfmt`: general `%` formatting is not modelled. Its two uses, the default error page and the debug traceback page, are written out.
- Text.AsciiUpper, Text.AsciiLower, Text.Strip: Unicode case mapping and whitespace are modelled as ASCII.
- Header values that are not strings, and `setHeaders` pairs of the wrong length, are not modelled.
- Reading the body: `wsgi.input` is the whole stream as bytes, so short reads are not modelled; a missing `wsgi.input` raises `KeyError` (`Requests.ReadBody`).
- `bindApp` and the `app`/`request`/`response` fields it sets on the request and response objects are not modelled. Nothing in the core reads them.
- Actions.Act: a handler's calls on the response are modelled as given. A handler reading the response's state is not modelled, and `setCookie` calls carry no options dictionary.
- Apps.Handlers: what handlers and plugins compute is application code and is taken as a parameter. Plugins are ids that wrap a handler.
- Floating-point values are not among the modelled Python values.
- Verb matching follows `reqVerb in rt.verb` (vilo.py:602). The unused `verbMatch` lambda is not modelled.
- Digest comparison: the code compares digests with `!=`, not in constant time. Timing is not modelled.
- Lone surrogates: a Python string can hold one, and `s.encode("utf8")` then raises, in `utf8_to_latin1` (vilo.py:125-128) and in `_bytify` (vilo.py:389). A Dafny `char` cannot be a surrogate, so `Unicode.Utf8ToLatin1` and the str case of `Responses.Response.Bytify` never raise in the model.
- Helpers.MakeHttpError: `HttpError` keeps any non-int `statusLine` as given (vilo.py:71-74), so `None` or another non-str value would reach `_finish` and fail `assert type(s) is str` there (vilo.py:127, via vilo.py:418). The model's `StatusArg` admits only int and str status arguments, so that assertion failure is not modelled.
- Responses.CookieSetAttributes: the attribute values are stated for lower-case option names. With names such as "Path", two options can name one attribute, and then the last one wins; `Responses.SetAttributesValues` states that general rule.
- findNamedRoute/popNamedRoute are not part of vilo.py, so they are not modelled. A route's `name` is only stored.
