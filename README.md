# triagelib, modelled in Dafny

triagelib is a small Python client for the Cofense Triage REST API, built around one class, `TriageSession`.
A session is created with a host, an e-mail address, an API key, a transport flag (`ssl`) and a user agent.
It checks the types of `ssl` and `uag`, then stores everything together with a base header map.

Each public endpoint works the same way:

- it checks its arguments with `isinstance`, raising a TypeError with an exact message for the first wrong one
  (an optional argument is only checked when it is truthy);
- it appends one `key=value` piece per truthy argument, in a fixed order;
- it builds the URL: `http[s]://host/api/public/v1/<path>`, plus `?` and the `&`-joined pieces when there are any;
- it copies the base headers and sets `Content-Type`;
- it sends one GET request and classifies the status code (401 is an authentication error, other 4xx a client
  error, 5xx a server error, any other non-200 the base TriageError);
- it returns the parsed JSON, or the raw body for `attachment`.

`integration_search` differs: it builds its pieces before it runs the checks, it always puts `?` in the URL,
and it raises a ValueError only when all three of its arguments are None.

The Dafny project has one module per concern:

- `PyValues` — the Python values a caller can pass (None, bool, int, str, list), with truthiness, `isinstance`
  (a bool is an int), `str()`, `+` on strings and `str.join`.
- `Errors` — the exception classes and their hierarchy.
- `Validation` — an endpoint's ordered checks and the first one that fails.
- `Query` — the ordered, truthy-only `params.append` sequence; an `&` splitter that reads a query back.
- `Transport` — requests, responses, status classification (`_reqsend`) and JSON parsing (`_parse`).
- `Triage` — class `TriageSession`:
  - the constructor, with a static `Create` that performs the constructor's checks;
  - one method per endpoint, written step by step like the source;
  - next to each endpoint, the function that specifies the request it builds.
- `TriageProperties` — lemmas about every endpoint at once, using a `Call` datatype that names an endpoint and
  its arguments.

The network is a function parameter `send: Request -> Response`, and `json.loads` is the oracle
`isJson: string -> bool`. Each endpoint method returns its outcome together with the request it sent, if any.
Each method's contract ties both to the endpoint's specification function, and the properties are lemmas about
those functions. The session's host, flags, credentials and base header map are `const` fields. They are set once
by the constructor, so no endpoint can change the base headers.

## Model

| member | source | states |
|---|---|---|
| `Errors.TriageClassesDeriveFromTriageError` | triagelib/__init__.py:12-39 | Every triagelib exception class is a subclass of TriageError; Exception, TypeError and ValueError are not. |
| `Errors.ClientErrorSubclasses` | triagelib/__init__.py:22-29 | Exactly TriageClientError and TriageAuthError are caught by `except TriageClientError`. |
| `Errors.SubclassChain` | triagelib/__init__.py:12-39 | The hierarchy is a tree: two base classes of one class are themselves related by subclassing. |
| `PyValues.IntRoundTrip` | triagelib/__init__.py:162-163 | The decimal text `str(int)` puts into a query reads back as the same integer. |
| `PyValues.IntTextShape` | triagelib/__init__.py:162-163 | `str(int)` is never empty, starts with `-` exactly for negatives, and is otherwise decimal digits. |
| `PyValues.IntToStrInjective` | triagelib/__init__.py:162-167 | Distinct integer arguments give distinct query values. |
| `PyValues.Concat` | triagelib/__init__.py:164-165 | `"key=" + v` succeeds exactly when `v` is a str and yields the two texts side by side; otherwise it raises a TypeError. |
| `PyValues.JoinList` | triagelib/__init__.py:161 | `",".join(list)` succeeds exactly when every element is a str, and then equals the elements' texts joined by the separator; otherwise it raises a TypeError. |
| `PyValues.JoinValue` | triagelib/__init__.py:161 | On a list it is `JoinList`; on a value that is neither list nor str it raises a TypeError. |
| `Validation.FirstFailure` | triagelib/__init__.py:138-157 | No error exactly when no check fails; otherwise the error is the TypeError of a failing check before which every check passes. |
| `Validation.FirstFailureAlike` | triagelib/__init__.py:142-157 | Check lists that differ only in which falsy value an optional argument holds raise the same error. |
| `Query.Encode` | triagelib/__init__.py:161-167 | A piece starts with its key and `=`; an int-valued piece never fails; a str-valued piece fails exactly on a non-str; every failure is a TypeError. |
| `Query.ParamsForward` | triagelib/__init__.py:159-167 | The built list has one piece per truthy argument, and each truthy argument's encoding sits at its position among the truthy arguments. |
| `Query.ParamsBackward` | triagelib/__init__.py:159-167 | Every piece in the built list is the encoding of a truthy argument at that position. |
| `Query.ParamsFailure` | triagelib/__init__.py:159-167 | Building raises exactly when some truthy argument cannot be encoded, and then raises a TypeError. |
| `Query.ParamsEmpty` | triagelib/__init__.py:173-179 | No piece is built exactly when every argument is falsy. |
| `Query.ParamsAlike` | triagelib/__init__.py:159-167 | A falsy argument contributes nothing, whichever falsy value it is. |
| `Query.ParamsKeyPresent` | triagelib/__init__.py:159-167 | With distinct `=`-free keys, a key appears in the built piece list iff its argument is truthy. For the `&`-joined query string this holds only when no value contains `&` (`SplitJoin`, `UnescapedAmpersandSplits`). |
| `Query.ParamsKeyPlace` | triagelib/__init__.py:159-167 | In the built piece list, a key appears only at its argument's position. For the `&`-joined query string this holds only when no value contains `&` (`SplitJoin`, `UnescapedAmpersandSplits`). |
| `Query.ParamsOrder` | triagelib/__init__.py:159-167 | Truthy arguments appear in the order of the `append` calls. |
| `Query.SplitJoin` | triagelib/__init__.py:173-176 | Splitting the `&`-joined query at `&` gives back the pieces when no piece holds an `&`. |
| `Query.UnescapedAmpersandSplits` | triagelib/__init__.py:164 | Values are not escaped: a piece `key=x&y` (with no `&` in `key`, `x`, `y`) reads back as the two pieces `key=x` and `y`. |
| `Transport.Classify` | triagelib/__init__.py:83-96 | No exception exactly for 200. Every exception is a TriageError. It is a client error iff the status is in 400-499, an auth error iff it is 401, a server error iff it is in 500-599; it is never StateError or FailureError. |
| `Transport.ParseBody` | triagelib/__init__.py:109-118 | Returns the parsed value exactly when the body is JSON; otherwise raises a TriageError. |
| `Transport.PreflightSendsNothing` | triagelib/__init__.py:137-157 | An error raised before sending is the call's outcome whatever the server would answer. |
| `Transport.PerformReturns` | triagelib/__init__.py:186-190 | A built request returns a value iff the status is 200 (and, for JSON endpoints, the body is JSON). On 200 the binary endpoint returns the raw body as received and a JSON endpoint the value parsed from the text, or `_parse`'s TriageError when the body is not JSON; any other status raises the classified error. |
| `Triage.BaseHeaders` | triagelib/__init__.py:64-67 | The base header map has exactly Accept, VE-API-Version, user-agent and Authorization, and no Content-Type. |
| `Triage.TriageSession.constructor` | triagelib/__init__.py:58-67 | The session stores host, flag, agent, e-mail and key as given, and the base header map built from them. |
| `Triage.TriageSession.Create` | triagelib/__init__.py:48-67 | Raises iff `ssl` is not a bool or `uag` not a str, with the first failing check's TypeError; otherwise returns a fresh session holding exactly the given values. |
| `Triage.TriageSession.CreateDefault` | triagelib/__init__.py:48 | With the default `ssl=True` and user agent, construction always succeeds, uses https and sends the default user agent. |
| `Triage.TriageSession.ReqSend` | triagelib/__init__.py:69-98 | Returns the response iff its status is 200; otherwise raises the classified error. |
| `Triage.TriageSession.Finish` | triagelib/__init__.py:186-190 | Sending a built request yields the outcome the transport and the parser determine. |
| `Triage.TriageSession.ReportsQuery` | triagelib/__init__.py:159-167 | The append sequence of `reports` builds exactly the ordered, truthy-only piece list, or raises the first TypeError. |
| `Triage.TriageSession.Reports` | triagelib/__init__.py:121-190 | The request sent (if any) and the outcome are those of the `reports` specification: checks, pieces, by-id or list URL, JSON headers, send, parse. |
| `Triage.TriageSession.ProcessedQuery` | triagelib/__init__.py:227-235 | The append sequence of `processed_reports` builds exactly its ordered, truthy-only piece list. |
| `Triage.TriageSession.ProcessedReports` | triagelib/__init__.py:192-254 | Request and outcome are those of the `processed_reports` specification. |
| `Triage.TriageSession.InboxQuery` | triagelib/__init__.py:285-291 | The append sequence of `inbox_reports` builds exactly its ordered, truthy-only piece list. |
| `Triage.TriageSession.InboxReports` | triagelib/__init__.py:256-310 | Request and outcome are those of the `inbox_reports` specification. |
| `Triage.TriageSession.Attachment` | triagelib/__init__.py:312-345 | Request and outcome are those of the `attachment` specification: four unconditional checks, the id in the path, the caller's MIME type as Content-Type, the raw body returned. |
| `Triage.TriageSession.SearchQuery` | triagelib/__init__.py:356-363 | The append sequence of `integration_search` builds exactly its ordered, truthy-only piece list, raising on a truthy non-str. |
| `Triage.TriageSession.IntegrationSearch` | triagelib/__init__.py:347-396 | Request and outcome are those of the `integration_search` specification: pieces first, then checks, then the all-None test. |
| `Triage.TriageSession.ClustersQuery` | triagelib/__init__.py:430-437 | The append sequence of `clusters` builds exactly its ordered, truthy-only piece list, with `tags` inserted as a str. |
| `Triage.TriageSession.Clusters` | triagelib/__init__.py:398-456 | Request and outcome are those of the `clusters` specification. |
| `TriageProperties.UrlUnderRoot` | triagelib/__init__.py:169-179 | Every endpoint's URL is the root `http[s]://host/api/public/v1/` followed by its own path and query. |
| `TriageProperties.SchemeFollowsSsl` | triagelib/__init__.py:170 | On every endpoint, the URL starts with `https://` iff the session uses ssl, and with `http://` otherwise. |
| `TriageProperties.HeadersOfEveryCall` | triagelib/__init__.py:181-182 | Every request is a GET carrying the base map plus Content-Type as its only extra key. Content-Type is the caller's MIME type for `attachment` and `application/json` elsewhere; every other entry is the base's. |
| `TriageProperties.SessionHeaders` | triagelib/__init__.py:64-67 | With the session's own base map, a request carries exactly five headers; Authorization is `Token token=<email>:<apikey>` built from the validated strings. |
| `TriageProperties.ChecksComeFirst` | triagelib/__init__.py:137-167 | Outside `integration_search`, the first failing check is the call's error; otherwise the call fails iff building a piece fails, with that error. |
| `TriageProperties.SearchBuildsFirst` | triagelib/__init__.py:356-381 | `integration_search` raises the piece-building error first, then the first failing check; a built request always has an argument. |
| `TriageProperties.WrongTypeRaises` | triagelib/__init__.py:137-157 | If any check of any endpoint fails, the call raises a TypeError and sends nothing. |
| `TriageProperties.PreflightErrors` | triagelib/__init__.py:137-157 | An error raised before sending is a TypeError, or the ValueError of an argument-less search; it is never a TriageError. |
| `TriageProperties.NoStateOrFailureError` | triagelib/__init__.py:69-118 | Whatever the server answers, no call of any endpoint raises TriageStateError or TriageFailureError. |
| `TriageProperties.AttachmentAlwaysChecked` | triagelib/__init__.py:323-334 | With valid credentials, `attachment` succeeds iff the MIME type is a str and the id an int (or bool). The exact TypeError is given for each failure, and the id is in the path. |
| `TriageProperties.SearchNeedsAnArgument` | triagelib/__init__.py:379-380 | With valid credentials and str-or-falsy arguments, the search raises iff all three arguments are None, and then raises the ValueError; several arguments are accepted. |
| `TriageProperties.SearchChecksNeverFire` | triagelib/__init__.py:368-377 | Once the pieces are built, the search's own `isinstance` checks never raise; the only remaining error is the ValueError. |
| `TriageProperties.SearchSha256TypeError` | triagelib/__init__.py:362-363 | A truthy non-str `sha256` raises Python's concatenation TypeError, not the library's message. |
| `TriageProperties.SearchAlwaysAsks` | triagelib/__init__.py:382-384 | The search URL always carries `?`: with no truthy argument it ends in `integration_search?`. |
| `TriageProperties.KeysAreGood` | triagelib/__init__.py:159-167 | Every endpoint's argument keys are distinct and contain no `=`. |
| `TriageProperties.QueryKeys` | triagelib/__init__.py:159-167 | On every endpoint: a key is in the built piece list iff its argument is truthy, only at that argument's position, with that argument's encoding, and in the endpoint's order. For the `&`-joined query string this holds only when no value contains `&` (`SplitJoin`, `UnescapedAmpersandSplits`). |
| `TriageProperties.ListQuery` | triagelib/__init__.py:237-243 | A list endpoint's URL is the bare path iff every argument is falsy, and otherwise the path, `?` and the `&`-joined pieces. |
| `TriageProperties.ReportsById` | triagelib/__init__.py:169-172 | A truthy `report_id` (necessarily an int) gives `.../reports/<id>`; the filters are still checked but left out of the URL. |
| `TriageProperties.CategoryAndPriorityOrder` | triagelib/__init__.py:166-167 | `reports` puts `match_priority` before `category_id`; `processed_reports` puts them the other way round (lines 234-235). |
| `TriageProperties.ReportsTagsCommaJoined` | triagelib/__init__.py:161 | A non-empty `tags` list of `reports` consists of strs and becomes the first piece, `tags=` and the tags joined by commas, unescaped. |
| `TriageProperties.ClustersTagsVerbatim` | triagelib/__init__.py:432 | A truthy `tags` of `clusters` is a str and becomes the first piece `tags=<tags>` as it is. |
| `TriageProperties.ReportsFalsyIsNone` | triagelib/__init__.py:142-167 | Passing 0, False, "" or [] for an optional argument of `reports` gives the same outcome as None. |
| `TriageProperties.ProcessedFalsyIsNone` | triagelib/__init__.py:212-235 | The same for `processed_reports`. |
| `TriageProperties.InboxFalsyIsNone` | triagelib/__init__.py:274-291 | The same for `inbox_reports`. |
| `TriageProperties.ClustersFalsyIsNone` | triagelib/__init__.py:417-437 | The same for `clusters`. |
| `TriageProperties.SearchEmptyIsNotNone` | triagelib/__init__.py:379-384 | For `integration_search` an empty str is not None: all-None raises the ValueError, while `md5=""` is accepted and asks for `integration_search?`. |
| `TriageProperties.ReportsTagsAndPage` | triagelib/__init__.py:159-176 | `reports(tags=[x, y], page=n)` asks for `.../reports?tags=x,y&page=n`. |
| `TriageProperties.InboxPageTrue` | triagelib/__init__.py:287 | `inbox_reports(page=True)` passes the int check (a bool is an int) and asks for `.../inbox_reports?page=True`. |

## Left out

- Network I/O: `requests.Session().send(prep, verify=False)` is the parameter `send`. Certificate checking,
  request preparation (header canonicalisation, URL re-quoting), redirects, timeouts and connection errors are not
  modelled.
- `json.loads` is the oracle `isJson`; the parsed value is represented by the response text it parses.
- Logging (`triagelog.info/debug/error`) and the urllib3 warning suppression (lines 459-465) have no observable
  effect on results and are left out.
- `TriageStateError` and `TriageFailureError` are declared (lines 17-19, 37-39) but raised nowhere; the model
  declares them and proves that no call raises them (`NoStateOrFailureError`).
- The class attribute `debug` (line 46) is never read and is left out.
- Values are limited to None, bool, int, str and list. Floats, dicts and other objects have no constructor,
  and `repr` of a str inside a list is the text between single quotes: the switch to double quotes, and the
  escaping of quotes, backslashes, newlines and non-printable characters, are not modelled.
- Python's own messages for `str + non-str` and for `",".join` on bad input are the texts of Python 3.7 and later; the library's
  own messages are modelled exactly, including the `caterory_id` spelling and the ValueError message without `: `.
- `_reqsend` names `host` (its argument) in the 401 message and `self._triagehost` in the others; every caller
  passes `self._triagehost`, so the model uses `str()` of the session's host for both.
- The search method's docstring and error message say it takes exactly one argument, but the code only rejects
  the case where all three are None; the model follows the code (`SearchNeedsAnArgument`).
- The guard meant for `sha256` (lines 376-377) tests `md5`; it is modelled as written. It has no effect, because
  a truthy non-str `sha256` already fails while its piece is built (`SearchSha256TypeError`).
- `Query.Encode`: assumes every int has at most 4300 decimal digits. Python 3.11 and later (and the 2022
  security releases of 3.7-3.10) raise a ValueError in `str()` and `format()` of a longer int, at lines 162,
  170-172, 334 and 67 and in the logging calls; the model renders such an int as its digits.
- `setup.py` and packaging are not part of this model.
