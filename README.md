# Tool envelopes and authentication of the InfoLab / huuh MCP servers

This project is a Dafny model of the core of the InfoLab MCP server and the huuh
MCP server. It covers three tools and the authentication decision procedure:

- `get_persona` and `refresh_persona` from `infolab_mcp/tools/persona.py`;
- `create_base` from `huuh_mcp/tools/base.py`;
- `authenticate` from `infolab_mcp/server.py`.

Each tool follows the same envelope:

1. It reports start and progress.
2. It asks the auth client whether the cached token is valid.
3. `create_base` then checks its inputs.
4. It builds one backend request and sends it through the API client.
5. It reports completion.
6. It returns the backend's payload unchanged, or an `{"error": ...}` dictionary. No `Exception` escapes, as long as `ctx` is given and its notifications succeed.

The collaborators are oracles. Their internals are not part of this model:

- The caller's context (`ctx`) is the class `Envelope.Trace`. It holds one ordered log of every observable effect:
  - the notifications `Info`, `Error` and `Progress`;
  - the calls on the auth client, `Validate` and `Refresh`;
  - the one backend `Request`, with its verb, endpoint, JSON body and headers.
- The auth client is the class `Envelope.AuthClient`. Its field `cached` is the cached token.
- The API client is the class `Envelope.ApiClient`.
- Each oracle method records its call and returns the answer it is given as a parameter:
  - `Returned(value)`;
  - `Raised(ValueError(text))`, or `Raised(OtherError(text))` for any other subclass of `Exception`.

Each tool is an imperative method, `Persona.GetPersona`, `Persona.RefreshPersona` or `Base.CreateBase`, and so is `authenticate`, as `Server.Authenticate`. Each method's `ensures` ties the new trace and its result to a pure function of the inputs and the oracle answers:

- `GetPersonaRun`, `RefreshPersonaRun` and `CreateBaseRun` give a `Run(events, result)`;
- `AuthenticateRun` gives an `AuthRun(events, outcome)`.

The properties are lemmas about these functions. They cover:

- which progress reports occur, in what order;
- when the backend is not called;
- the exact body keys, endpoints and headers;
- the exact error strings;
- that every tool result is either the payload unchanged or an error dictionary.

Three pieces of Python string handling are modelled exactly, each with a partner:

- `urllib.parse.quote` (`UrlQuote.Quote`) is UTF-8 encoding followed by percent-encoding (RFC 3986 section 2.1). It keeps the unreserved set of RFC 3986 section 2.3 and `/`, and writes upper-case hex. Its partner is a strict `Unquote`, which refuses overlong UTF-8 forms, surrogates and malformed escapes. A round-trip lemma connects the two. A second lemma shows that no byte string other than the UTF-8 encoding of `s` decodes to `s`. The percent-decoding step is more lenient than `quote`: it also reads lower-case hex and escaped safe bytes, so `%61` unquotes to `a` just as `a` does.
- `str.strip` (`Text.Strip`) and `str.replace("Bearer ", "")` (`Text.WithoutBearer`) are in `Text`.

Three behaviours of the code that a reader might expect to be otherwise:

- **Input check in `create_base`.** The check is plain emptiness (`not base_name`), so an input made only of whitespace is accepted and sent.
- **Cached token rejected and refresh raising.** `authenticate` raises `ValueError("Authentication failed: " + str(e))` with the refresh's own exception text. "Failed to authenticate with API key" is used only when the refreshed token is itself rejected.
- **Notification failures.** They are not swallowed by the code.

## Model

| member | source | states |
|---|---|---|
| Envelope.Trace.NotifyInfo | infolab_mcp/tools/persona.py:26 | an info notification is appended to the caller's log and nothing else changes |
| Envelope.Trace.NotifyError | infolab_mcp/tools/persona.py:32 | an error notification is appended to the caller's log |
| Envelope.Trace.ReportProgress | infolab_mcp/tools/persona.py:27 | a progress report (current, total) is appended to the caller's log |
| Envelope.AuthClient.ValidateToken | infolab_mcp/server.py:74 | the validation call, of the cached token or of a given one, is logged and its answer is returned; the cached token stays as it was unless none was cached and none was given |
| Envelope.AuthClient.RefreshToken | infolab_mcp/server.py:82 | a successful refresh replaces the cached token with the new one; a failed refresh leaves the cached token unchanged; the call is logged |
| Envelope.ApiClient.Request | infolab_mcp/tools/persona.py:40-43 | the one backend request is logged with its verb, endpoint, body and headers, and its answer is returned |
| Envelope.RefusalQuiet | infolab_mcp/tools/persona.py:30-33 | when the token check is rejected or raises, the tool ends without a request and without any further progress report |
| Envelope.SettleReports | infolab_mcp/tools/persona.py:45-52 | after the backend answers, no second request is sent; the terminal progress report (total, total) occurs exactly when the backend returned a payload |
| Envelope.ResultsClosed | infolab_mcp/tools/persona.py:49-56 | every ending of a tool is an `{"error": text}` dictionary with that single key, or the backend's payload unchanged |
| Text.Strip | infolab_mcp/tools/persona.py:99 | `str.strip()` is empty exactly when every character is Python whitespace; otherwise it starts and ends with non-whitespace |
| Text.WithoutBearer | infolab_mcp/server.py:91 | `replace("Bearer ", "")` only shortens the header, by a whole number of occurrences |
| Text.WithoutBearerNoOccurrence | infolab_mcp/server.py:91 | a header that contains no "Bearer " is passed through unchanged |
| Text.WithoutBearerDeletes | infolab_mcp/server.py:91 | an occurrence is deleted wherever it stands, not only as a prefix |
| Text.WithoutBearerPrefix | infolab_mcp/server.py:91 | for a `Bearer <t>` header, the scheme is removed and `<t>` is treated the same way |
| Text.WithoutBearerCanLeaveOne | infolab_mcp/server.py:91 | removing every occurrence can create a new one: "BeBearer arer " becomes "Bearer " |
| UrlQuote.Utf8Char | infolab_mcp/tools/persona.py:42 | one character encodes to 1 to 4 bytes, and to itself exactly when it is ASCII |
| UrlQuote.Utf8CharDecodes | infolab_mcp/tools/persona.py:42 | the encoding of one character is a well-formed UTF-8 sequence that decodes back to it |
| UrlQuote.Utf8RoundTrip | infolab_mcp/tools/persona.py:42 | UTF-8 decoding of the encoding of any string gives the string back |
| UrlQuote.ScalarOfShortest | infolab_mcp/tools/persona.py:42 | a byte sequence the decoder accepts as one character is exactly that character's UTF-8 encoding, so it is never an overlong form |
| UrlQuote.Utf8DecodeOnlyEncodings | infolab_mcp/tools/persona.py:42 | decoding is strict: any byte string that decodes to `s` is exactly the UTF-8 encoding of `s` |
| UrlQuote.UnquoteRefusesOverlong | infolab_mcp/tools/persona.py:42 | `%C0%80`, the overlong two-byte spelling of U+0000, is refused |
| UrlQuote.EncodeByte | infolab_mcp/tools/persona.py:42 | one byte becomes only unreserved characters, `/` or `%` |
| UrlQuote.PercentEncode | infolab_mcp/tools/persona.py:42 | percent-encoding produces only unreserved characters, `/` and `%` |
| UrlQuote.PercentRoundTrip | infolab_mcp/tools/persona.py:42 | percent-decoding the encoding of any byte string gives the bytes back |
| UrlQuote.Quote | infolab_mcp/tools/persona.py:42 | `quote(title)` contains only unreserved characters, `/` and `%`, so it cannot end the query parameter or start another |
| UrlQuote.QuoteRoundTrip | infolab_mcp/tools/persona.py:42 | `Unquote(quote(s))` is exactly `s` for every string |
| UrlQuote.QuoteKeepsSafe | infolab_mcp/tools/persona.py:42 | a string made only of unreserved characters and `/` is not changed by `quote` |
| Persona.GetPersonaEndpointNamesTitle | infolab_mcp/tools/persona.py:40-43 | the GET endpoint is `/mcp/get_persona?title=` followed by quoted characters only, and the title read back from it is the requested title |
| Persona.GetPersona | infolab_mcp/tools/persona.py:14-56 | the caller's log grows by exactly the events of `GetPersonaRun`, and the result is that run's result; a token that was cached stays cached |
| Persona.GetPersonaClosed | infolab_mcp/tools/persona.py:24-56 | the result is an error dictionary, or the backend's payload unchanged after the token was accepted |
| Persona.GetPersonaOpeningKept | infolab_mcp/tools/persona.py:26-30 | before the token check, the only progress report is (0,2) and nothing is sent |
| Persona.GetPersonaSentKept | infolab_mcp/tools/persona.py:36-43 | after an accepted token, the tool reports (1,2) and sends one GET of the title's endpoint, with no body and no headers |
| Persona.GetPersonaBlocks | infolab_mcp/tools/persona.py:26-52 | a refused run reports (0,2) only. An accepted run reports (0,2) and (1,2), then its one GET, then whatever the backend's answer adds |
| Persona.GetPersonaRequests | infolab_mcp/tools/persona.py:30-43 | a GET of the title's endpoint is sent exactly when the token is accepted, and no other request is sent |
| Persona.GetPersonaProgress | infolab_mcp/tools/persona.py:27-52 | progress is (0,2) alone on refusal, (0,2),(1,2),(2,2) on success, and (0,2),(1,2) on a backend error |
| Persona.GetPersonaAuthGate | infolab_mcp/tools/persona.py:30-33 | a rejected token gives exactly the authentication error, with no request and progress (0,2) only |
| Persona.GetPersonaSucceeds | infolab_mcp/tools/persona.py:27-49 | on success the payload comes back unchanged after one GET, with progress (0,2),(1,2),(2,2), strictly increasing and ending at (2,2) |
| Persona.GetPersonaErrors | infolab_mcp/tools/persona.py:50-56 | a `ValueError(m)` from the request gives `"Error retrieving persona: " + m` and no (2,2) report; any other `Exception` gives `"An unexpected error occurred: " + str(e)` |
| Persona.RefreshPersonaBodyKeys | infolab_mcp/tools/persona.py:93-100 | the body always has `title` and `new_content`; it has `course_id` exactly when `course_id` holds a non-whitespace character, and then it holds the original, unstripped value; there is no other key |
| Persona.BuildRefreshBody | infolab_mcp/tools/persona.py:93-100 | building the dictionary and adding `course_id` in place gives the body described above |
| Persona.RefreshPersona | infolab_mcp/tools/persona.py:59-125 | the caller's log grows by exactly the events of `RefreshPersonaRun`, and the result is that run's result; a token that was cached stays cached |
| Persona.RefreshPersonaClosed | infolab_mcp/tools/persona.py:79-125 | the result is an error dictionary, or the backend's payload unchanged after the token was accepted |
| Persona.RefreshPersonaBlocks | infolab_mcp/tools/persona.py:81-121 | a refused run reports (0,3) only. An accepted run reports (0,3), (1,3) and (2,3), then its one POST, then whatever the backend's answer adds |
| Persona.RefreshPersonaRequests | infolab_mcp/tools/persona.py:84-112 | one POST to `/mcp/refresh_persona` is sent exactly when the token is accepted. It carries the body and the JSON content type |
| Persona.RefreshPersonaProgress | infolab_mcp/tools/persona.py:81-121 | progress is (0,3) alone on refusal; otherwise (0,3),(1,3),(2,3), followed by (3,3) only on success |
| Persona.RefreshPersonaAuthGate | infolab_mcp/tools/persona.py:81-87 | a rejected token gives the authentication error after the (0,3) report only, with no request |
| Persona.RefreshPersonaSucceeds | infolab_mcp/tools/persona.py:81-118 | on success the payload comes back unchanged after one POST, with progress (0,3),(1,3),(2,3),(3,3), strictly increasing and ending at (3,3) |
| Persona.RefreshPersonaErrors | infolab_mcp/tools/persona.py:119-125 | a `ValueError(m)` gives `"Error updating persona: " + m` and no (3,3) report; any other `Exception` gives the unexpected-error prefix |
| Base.CreateBaseBodyKeys | huuh_mcp/tools/base.py:50-53 | the body has exactly the keys `course_name` = base_name and `course_description` = base_description |
| Base.CreateBase | huuh_mcp/tools/base.py:13-72 | the caller's log grows by exactly the events of `CreateBaseRun`, and the result is that run's result; a token that was cached stays cached |
| Base.CreateBaseClosed | huuh_mcp/tools/base.py:30-72 | the result is an error dictionary, or the payload unchanged after an accepted token and non-empty inputs |
| Base.CreateBaseOpeningKept | huuh_mcp/tools/base.py:31-35 | before the token check, the only progress report is (0,3) and nothing is sent |
| Base.CreateBaseSentKept | huuh_mcp/tools/base.py:47-60 | after both checks pass, the tool reports (1,3) and sends one POST of the two-key body with the JSON content type |
| Base.CreateBaseStoppedKept | huuh_mcp/tools/base.py:35-45 | a run stopped by the token check or by the input check reports (0,3) only and sends nothing |
| Base.CreateBaseSentRunKept | huuh_mcp/tools/base.py:47-68 | a run that passed both checks reports (0,3) and (1,3), sends the one POST and then settles |
| Base.CreateBaseBlocks | huuh_mcp/tools/base.py:31-65 | the progress reports and requests of a run are those of its opening, followed, only when the request is made, by those of the request and of the backend's answer |
| Base.CreateBaseRequests | huuh_mcp/tools/base.py:35-60 | one POST to `/mcp/create_course` with the two-key body and the JSON content type is sent exactly when the token is accepted and both inputs are non-empty |
| Base.CreateBaseProgress | huuh_mcp/tools/base.py:32-65 | progress is (0,3) alone on refusal or missing input, (0,3),(1,3),(3,3) on success, and (0,3),(1,3) on a backend error |
| Base.CreateBaseAuthGate | huuh_mcp/tools/base.py:35-41 | the token is checked before the inputs: a rejected token gives the authentication error whatever the inputs, even empty ones, with no request |
| Base.CreateBaseMissing | huuh_mcp/tools/base.py:41-45 | with an accepted token, an empty name or description gives the missing-parameters error with no request; a request is made exactly when both are non-empty, so whitespace-only inputs are sent |
| Base.CreateBaseSucceeds | huuh_mcp/tools/base.py:47-65 | on success the payload comes back unchanged with progress (0,3),(1,3),(3,3): 2 is skipped, yet the reports strictly increase and end at (3,3) |
| Base.CreateBaseErrors | huuh_mcp/tools/base.py:66-72 | a `ValueError(m)` gives `"Error creating base: " + m` and no (3,3) report; any other `Exception` gives the unexpected-error prefix |
| Server.TryAuthenticate | infolab_mcp/server.py:62-96 | the body of the `try`: the log changes exactly as `Attempt` says. When a token was cached before or the header was used, the cached token ends as `CachedAfter` says; after a successful refresh it is the new token in every case |
| Server.Authenticate | infolab_mcp/server.py:50-99 | the log grows by exactly the auth-client calls of `AuthenticateRun`; the outcome is its outcome. When a token was cached before or the header was used, the cached token changes only through `authenticate`'s own successful refresh; after that refresh it is the new token in every case |
| Server.AuthenticateNeverFalse | infolab_mcp/server.py:76-99 | `authenticate` returns true or raises a `ValueError` starting with "Authentication failed: ", never false. It returns true exactly when the last validation it made accepted the token |
| Server.AuthenticateCachedValid | infolab_mcp/server.py:72-78 | with no header or an empty one and a valid cached token, the result is true after one validation of the cached token, and `authenticate` makes no refresh of its own |
| Server.AuthenticateRefreshesOnce | infolab_mcp/server.py:79-87 | a rejected cached token is refreshed exactly once. The new token is validated and becomes the cached one. If it is rejected, the message is "Authentication failed: Failed to authenticate with API key" |
| Server.AuthenticateRefreshFails | infolab_mcp/server.py:82-99 | a refresh that raises leaves the cached token as it was, and its text is rewrapped with the prefix |
| Server.AuthenticateRefreshesAtMostOnce | infolab_mcp/server.py:71-96 | no run refreshes more than once, and a run refreshes exactly when it took the cached path and the cached token was rejected |
| Server.AuthenticateHeader | infolab_mcp/server.py:88-96 | a non-empty header is validated with every "Bearer " removed, with no refresh and the cache untouched. A rejected token gives "Authentication failed: Invalid client-provided token" |
| Server.AuthenticateHeaderToken | infolab_mcp/server.py:91-92 | a `Bearer <t>` header validates `<t>` with every further occurrence removed too; a header without any occurrence is validated as it is |
| Server.AuthenticateLookupFails | infolab_mcp/server.py:62-99 | when reading the request headers raises, nothing is validated and the exception is rewrapped with the prefix |

## Left out

- **The internals of the auth client and the API client.** This covers token caching, HTTP, timeouts and the extraction of error messages. Their files are not part of this model: validation, refresh and request are oracles whose answers are inputs.
- **`validate_token()` with no argument.** It may obtain a token internally when none is cached. That happens inside the auth client, so here it is a single validation answer, and the cached token may change in a way the model does not predict.
- Server.Authenticate, Server.TryAuthenticate, Server.AuthenticateCachedValid: `cached` follows only `authenticate`'s own `refresh_token()` call. Where no token was cached and the cached path was taken, the cached token afterwards is promised only after a successful refresh, because the first `validate_token()` may have filled it.
- **Concurrent calls and single-flight refresh coordination.** The model is one sequential call.
- **Process bootstrap.** `main`, `startup`, `shutdown`, the event loop and the tool registrations in `infolab_mcp/server.py` are not modelled.
- **`infolab_mcp/config/settings.py` and `infolab_mcp/infolab/post.py`.** They hold no logic.
- **Logging calls.**
- **`ctx` left at its default `None`.** The outer handler's own `ctx.error` then raises, and the exception escapes. The model always has a context.
- **A failing notification.** Notifications here always succeed. In the source a raising notification takes one of three paths. Outside the inner `try` it goes to the outer handler, which returns "An unexpected error occurred: …". A notification that raises inside the outer handler escapes. A `ValueError` from a notification inside the inner `try` is caught by the tool's own handler, which returns it with the tool's prefix, such as "Error retrieving persona: …". Those notifications are `report_progress(2, 3)` before the request in `refresh_persona` (`infolab_mcp/tools/persona.py:103`), where no request is then sent, and `report_progress` and `info` after the request (`infolab_mcp/tools/persona.py:46-47` and `:115-116`, `huuh_mcp/tools/base.py:62-63`). Any other `Exception` from those notifications goes to the outer handler like the rest.
- Envelope.ResultsClosed, Persona.GetPersonaClosed, Persona.RefreshPersonaClosed, Base.CreateBaseClosed, Server.AuthenticateNeverFalse: `OtherError` stands only for subclasses of `Exception`. A `BaseException` that is not an `Exception` (`asyncio.CancelledError` since Python 3.8, `KeyboardInterrupt`, `SystemExit`) passes both handlers of each tool and the handler of `authenticate` unchanged. A call cancelled while it waits on the API client then ends with no error dictionary and no `ctx.error`, and `authenticate` then neither returns true nor raises the prefixed `ValueError`. These lemmas close over the modelled exceptions only.
- **Reading the request's headers (`get_http_request()`, `request.headers.get`).** This is an input to `Server.Authenticate`: either the header value (absent, empty or present) or the exception it raised. Header-name case folding belongs to the web framework and is not modelled.
- **Lone surrogate code points in a title.** They cannot occur, because a Dafny `char` is a Unicode scalar value. In Python, `quote` would raise `UnicodeEncodeError`, a `ValueError` subclass, which `get_persona` reports with the retrieval prefix.
- **The payload's contents.** JSON numbers are integers here. The order of a dictionary's keys and the wire encoding of the body are not modelled; bodies are maps.
- **A truthy `valid` that is not a boolean.** The answer of `validate_token` is a boolean.
