# bluesky-api Python client — a Dafny model

This project models the core of `blueskyapi`, a thin Python client for a
weather-forecast HTTP API. It covers:

- the two parameter normalisers (`_prepare_comma_separated_list` and
  `_prepare_datetime`), which turn loosely typed caller values into the strings
  the API expects, or raise `TypeError`;
- the exception side (`errors.py`): the status-code table that picks
  `OverRateLimit` or `RequestError`, and the message each exception carries;
- the `Client`: its configuration, resolved with Python's `or` when it is built,
  the session headers with the bearer token, `_url`, `_get`, and the parameter
  maps that `latest_forecast` and `forecast_history` send.

Files and modules:

| file | module | contents |
|---|---|---|
| wrappers.dfy | Wrappers | `Option` (Python `None`) and `Result` (return or raise) |
| text.dfy | Text | Python `str()` of an int, `sep.join`, `str.split` as the inverse of join, and their lemmas |
| errors.dfy | Errors | `Response`, `ErrorClass`, `ApiError`, the status table, message construction |
| normalizer.dfy | Normalizer | `PyValue` (the caller's value), the two normalisers and their lemmas |
| client.dfy | RequestClient | `Session` and `Client` classes, parameter maps, `_get`'s outcome |

Python values are modelled as a closed datatype `PyValue`:
`Absent` (`None`), `Str`, `Items` (a list of ints and strings), `DateTimeValue`
and `Other` (any other non-iterable object, given by its `str()`). A raised
exception is the `Failure` side of a `Result`.

Collaborators become parameters:
- The HTTP transport is `send: Request -> Response`. The request carries the
  URL, the session's headers at call time and the parameter list.
- JSON decoding and pretty-printing is a `JsonCodec` pair: `loads` gives
  `None` where `json.loads` raises a decoding error, and `dumps` stands for
  `json.dumps(_, indent=2)`.
- The module defaults of `src/blueskyapi/default_config.py` are a
  `DefaultConfig` value, read when a client is built.
- The HTTP library's own session headers are a map.

The `Client`'s three attributes are set once in the constructor. They are
`const` fields. The session's header dictionary is updated in place, so
`Session.headers` is a mutable field changed by `UpdateHeaders`.

Where the code and the repository's tests disagree, this model follows the code:
- `tests/blueskyapi/errors_test.py:54-57` and `tests/blueskyapi/client_test.py:71`
  expect status 401 to raise `InvalidApiKey`. `src/blueskyapi/errors.py:29-31` has
  no such class, so 401 raises the base `RequestError` here.
- `tests/blueskyapi/errors_test.py:68` calls a public `request_error_from_response`.
  The code only has `_request_error_from_response`.
- The tests pass `forecast_distances`, `min_forecast_moment` and
  `max_forecast_moment`. The code's parameters are `prediction_distances`,
  `min_prediction_moment` and `max_prediction_moment`
  (`src/blueskyapi/client.py:51-90`). The model uses the code's names.
- The calls have no `dataset` parameter. The endpoints are
  `/forecasts/gfs_0p25/latest` and `/forecasts/gfs_0p25/history`.

## Model

| member | source | states |
|---|---|---|
| Text.IntToDecimal | src/blueskyapi/errors.py:14 | `str()` of an int (the status code in a message, a list element) is one or more digits, optionally after a single `-` that appears exactly for negative numbers |
| Text.NatToDecimal | src/blueskyapi/client.py:23 | `str()` of a non-negative int is a non-empty digit string with no leading zero, and `"0"` for zero |
| Text.IntDecimalRoundTrip | src/blueskyapi/errors.py:14 | reading the printed digits back gives the original int, so the printed form loses nothing |
| Text.IntToDecimalInjective | src/blueskyapi/errors.py:14 | distinct status codes print differently |
| Text.IntToDecimalChars | src/blueskyapi/client.py:23 | a printed int is made of digits and `-` only, so it never contains a comma |
| Text.IntLiteralPrefixUnique | src/blueskyapi/errors.py:14 | a printed int followed by a non-digit (as in `429 - reason`) can be read off without ambiguity |
| Text.SplitJoin | src/blueskyapi/client.py:23 | joining one or more comma-free parts with `,` is undone by splitting on `,`: same parts, same order, no extra or lost part |
| Text.JoinEnds | src/blueskyapi/client.py:23 | the joined text starts with the first part and ends with the last part |
| Text.Join | src/blueskyapi/client.py:23 | `sep.join(parts)`: no parts give `""`; otherwise the text starts with the first part, and its length is the parts' total length plus one separator between each pair of neighbours |
| Errors.ErrorByStatusCode | src/blueskyapi/errors.py:29-38 | total lookup: `OverRateLimit` if and only if the code is 429; every other code (400, 401, 1234, ...) gives `RequestError` |
| Errors.ErrorsByStatusCode | src/blueskyapi/errors.py:29-31 | `_errors_by_status_code` has exactly one entry: `codes.too_many_requests` (429, the constant `TooManyRequests`) maps to `OverRateLimit` |
| Errors.StatusLine | src/blueskyapi/errors.py:14 | the first line is `API responded with `, then the decimal status code, then ` - ` and the reason phrase, and nothing else |
| Errors.BodyText | src/blueskyapi/errors.py:15-19 | the appended body is the re-serialised document when the text decodes as JSON, and the raw text when decoding fails |
| Errors.Message | src/blueskyapi/errors.py:13-20 | the message starts with `API responded with {code} - {reason}`; it is exactly that line if and only if the body is empty; otherwise the line, a blank line, then the raw body when it is not JSON or its 2-space re-serialisation when it is |
| Errors.NewApiError | src/blueskyapi/errors.py:10-22 | `RequestError.__init__`, for either class: the exception keeps the class and the response, and its message is the full `Message` of that response, beginning with the status line |
| Errors.RequestErrorFromResponse | src/blueskyapi/errors.py:41-43 | the exception's class is the one the status code selects (`OverRateLimit` exactly for 429), it keeps the input response, and it carries that response's message |
| Errors.MessageShowsStatusCode | src/blueskyapi/errors.py:14 | the decimal status code appears in every message, right after `API responded with ` |
| Errors.MessageDeterminesStatusCode | src/blueskyapi/errors.py:14 | equal messages come from equal status codes, whatever the reasons, bodies and JSON codecs |
| Normalizer.PrepareCommaSeparatedList | src/blueskyapi/client.py:16-25 | `None` gives `None` and nothing else does; a string is returned unchanged; a list gives its elements' `str()` joined by `,` in order; a datetime or any other non-iterable raises `TypeError` with message `{name} should be an array of values or None, got {value}` |
| Normalizer.PrepareDatetime | src/blueskyapi/client.py:28-38 | `None` gives `None` and nothing else does; a datetime gives its `isoformat()`; a string is returned unchanged; a list or other value raises `TypeError` with message `{name} should be a datetime or ISO datetime string, got {value}` |
| Normalizer.ElementStr | src/blueskyapi/client.py:23 | `str(v)` of a list element: an int prints as an int literal that reads back to the same int, and a string is itself |
| Normalizer.ElementStrs | src/blueskyapi/client.py:23 | the generator `str(v) for v in value`: one text per element, in the elements' order, each the element's `str()` |
| Normalizer.ElementRepr | src/blueskyapi/client.py:37 | how an element appears inside `str()` of a list: an int as its digits; a string wrapped in the quote `ReprQuote` picks, with its text unchanged between the quotes |
| Normalizer.ReprQuote | src/blueskyapi/client.py:37 | the quote of a string's `repr`: `"` exactly when the text has a `'` and no `"`, and `'` otherwise |
| Normalizer.ElementReprs | src/blueskyapi/client.py:37 | the elements' reprs, one per element, in order, as `str()` of a list lists them |
| Normalizer.Show | src/blueskyapi/client.py:24-38 | the `{value}` of the error messages: `None` for an absent value; the text itself for a string or other object; for a list, `[`, the element reprs joined by `, `, then `]`; for a datetime, its ISO form with a space in place of the `T` |
| Normalizer.IsoFormat | src/blueskyapi/client.py:32 | `isoformat()`: the date part, `T`, then the time part |
| Normalizer.TypeErrorsNameTheParameter | src/blueskyapi/client.py:24-38 | every `TypeError` from either normaliser begins with `{name} should be` |
| Normalizer.NormalizersIdempotent | src/blueskyapi/client.py:16-38 | feeding a normalised string back in returns it unchanged |
| Normalizer.ListSplitsBack | src/blueskyapi/client.py:22-23 | a non-empty list whose elements' texts have no comma is recovered, element by element and in order, by splitting the result at commas |
| Normalizer.IntListRoundTrip | src/blueskyapi/client.py:22-23 | a non-empty list of ints normalises to a string that splits into exactly as many int literals, which read back to the same ints in the same order |
| Normalizer.ListHasNoOuterComma | src/blueskyapi/client.py:23 | the normalised list begins with the first element's text and ends with the last element's text: no leading or trailing comma |
| Normalizer.DistancesExample | src/blueskyapi/client.py:22-23 | `[0, 24]` normalises to `"0,24"` |
| RequestClient.Truthy | src/blueskyapi/client.py:43-44 | what `or` tests: an optional string is truthy exactly when it is neither `None` nor `""` |
| RequestClient.ResolveApiKey | src/blueskyapi/client.py:43 | `api_key or default`: the result is one of the two operands, and it is the given key exactly when that key is truthy (or equals the default) |
| RequestClient.ResolveBaseUrl | src/blueskyapi/client.py:44 | `base_url or default`: the given URL when it is truthy, the default otherwise; the result is the given URL and non-empty exactly when the given URL is truthy |
| RequestClient.EmptyArgumentsFallBack | src/blueskyapi/client.py:43-44 | `or` tests truthiness: an empty key or URL falls back to the default, not only `None` |
| RequestClient.SessionHeaders | src/blueskyapi/client.py:46-49 | the session's headers are the library's, plus `Authorization: Bearer {key}` when the resolved key is not `None`; no other header is added or changed |
| RequestClient.AuthorizationIffKey | src/blueskyapi/client.py:48-49 | for library headers with no Authorization header under any case spelling, the header is present if and only if the resolved key is not `None`, and removing it gives back the library's headers |
| RequestClient.AsciiLower | src/blueskyapi/client.py:49 | ASCII lower-casing: same length, upper-case letters `A`-`Z` lowered, every other character kept; header names are compared by it |
| RequestClient.Session.constructor | src/blueskyapi/client.py:46 | a new session holds the HTTP library's default headers |
| RequestClient.Session.UpdateHeaders | src/blueskyapi/client.py:49 | `headers.update(extra)`: the new entries win, and every other header keeps its old value |
| RequestClient.Client.constructor | src/blueskyapi/client.py:42-49 | the new client's key and base URL are the resolved ones, and its fresh session holds exactly `SessionHeaders` for the resolved key |
| RequestClient.Client.Url | src/blueskyapi/client.py:101-102 | the URL is the base URL followed by the endpoint: its first part is the base URL and the rest is the endpoint |
| RequestClient.UrlStartsWithBase | src/blueskyapi/client.py:101-102 | every URL the client requests begins with its base URL |
| RequestClient.GetOutcome | src/blueskyapi/client.py:96-99 | the outcome is a success if and only if the response is ok; a success is the response content; a failure is the exception classified from that response, keeping it and its message |
| RequestClient.AsClientResult | src/blueskyapi/client.py:52-63 | an exception raised by `_get` leaves the forecast call unchanged, as its `RequestError`; a returned body is passed on as it is |
| RequestClient.Client.Get | src/blueskyapi/client.py:93-99 | one GET to `_url(endpoint)` with the session's current headers and the given parameters, whose response then decides the outcome as `GetOutcome` states |
| RequestClient.RateLimitedResponse | src/blueskyapi/errors.py:29-43 | a non-ok 429 response is raised as `OverRateLimit`, and its message shows `429` |
| RequestClient.LatestForecastParams | src/blueskyapi/client.py:51-61 | the parameters are `lat`, `lon`, `prediction_distances`, `columns` in that order, with the coordinates passed through and the two lists normalised; a normaliser's `TypeError` is raised instead, the distances' first |
| RequestClient.ForecastHistoryParams | src/blueskyapi/client.py:74-89 | the parameters are `lat`, `lon`, `min_prediction_moment`, `max_prediction_moment`, `prediction_distances`, `columns` in that order, each normalised; the first normaliser to raise decides the `TypeError` |
| RequestClient.ParameterExamples | src/blueskyapi/client.py:51-90 | distances `[0, 24]` are sent as `0,24`; a string lower moment is sent verbatim, and a `None` upper moment as a `None` entry |
| RequestClient.Client.LatestForecast | src/blueskyapi/client.py:51-63 | a `TypeError` from the parameters is raised before any request; otherwise one GET to `/forecasts/gfs_0p25/latest` with those parameters and the outcome `_get` gives |
| RequestClient.Client.ForecastHistory | src/blueskyapi/client.py:65-91 | the same for `/forecasts/gfs_0p25/history` with the six history parameters |

## Left out

- `_create_dataframe` (`src/blueskyapi/client.py:10-13`): it decodes JSON into a pandas DataFrame and parses a timestamp column, both in a foreign library. The forecast calls therefore return the raw response content in this model.
- The HTTP transport, `requests.Session.get` and query-string encoding: `send` stands for them. This includes dropping `None`-valued parameters, which is the HTTP library's behaviour. The model keeps those entries as `Normalized(None)`.
- The HTTP library's own session headers, such as its identification header: they are a parameter. `Response.ok` is a field set by the transport, not computed from the status code.
- JSON parsing and pretty-printing: `JsonCodec` is a parameter, and other exceptions `json.loads` could raise are not modelled.
- How Python renders a datetime's date and time parts: `DateTime` holds the two parts as text. `isoformat()` joins them with `T` and `str()` with a space.
- Normalizer.ElementRepr: a string's `repr` is its text between the quote Python chooses, but without Python's escapes for `\`, newlines, non-printable characters, or a quote of the chosen kind when the text has both kinds.
- Normalizer.Show: the `str()` of a tuple, generator, set or other iterable is rendered as a list, because all iterables are modelled as `Items`. `Other` carries its `str()` text as given.
- Text.IntToDecimal: prints an int of any size. Since Python 3.11 (and the 2022 security releases of older versions), `str()` of an int with more than 4300 digits raises `ValueError`. At `src/blueskyapi/client.py:23` that error is not caught and escapes the forecast call. The model returns the joined string instead.
- RequestClient.SessionHeaders: header names are distinct map keys, compared exactly. The library's header dictionary ignores case, so `update` at `src/blueskyapi/client.py:49` replaces an `authorization` entry of any spelling. The model keeps both entries, which is why `AuthorizationIffKey` requires that no library header name lower-cases to `authorization`.
- RequestClient.Client.Get: `send` always returns a response. In Python `session.get` can raise, for example a connection error, a time-out, or a missing-schema error for a base URL without `http://`. `_get`, `latest_forecast` and `forecast_history` pass that exception on unchanged. Such failures are not modelled.
- List elements other than ints and strings (floats, booleans, nested lists) are not modelled.
- Latitude and longitude: they are passed through as opaque `real` values.
- `RequestError(response=None)`: calling the constructor without a response fails in Python with an attribute error. The model always has a response.
- The exception hierarchy (`Error`, `RequestError`, `OverRateLimit` as a subclass) is an enum of two classes. Catching `RequestError` also catching `OverRateLimit` is not modelled.
- `src/blueskyapi/default_config.py`: only its two constants matter, and they are passed in as `DefaultConfig`. A non-string default base URL is not modelled.
- `test.py`, `tests/conftest.py` and the integration test that replays recorded network data (`tests/blueskyapi/client_test.py:143-162`) are not part of this model.
