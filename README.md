# gcore metadata collector — a Dafny model

This project models the gcore collector of os-collect-config and its API client.
The collector polls the gcore cloud API for the orchestration (heat) metadata of one
resource. The model covers four steps:

- The collector checks that seven settings are present, in a fixed order.
- It builds a client from them, unless a client was injected.
- It fetches the metadata with a bearer token. The client is meant to refresh the token
  pair on a 401, but as wired it never does (see "## Findings").
- It hands the document to the merger under the name `gcore`.

Every failure after the settings check becomes `NotAvailable`.

Modules, one per component:

- `Wrappers`: `Option`, which stands for Python's `None` or a present value.
- `Decimal`: `str(int)` as an f-string renders it, with a parser that inverts it.
- `Http`: what the client sees of `requests`. That is decoded JSON, requests and
  responses, the status check of `raise_for_status`, the raised exceptions (`Fault`),
  and a `Transport` class. The transport answers from a scripted sequence of replies
  and keeps the log of requests sent; the length of the log is the call counter.
- `Settings`: the `gcore` configuration group, as a record of seven `Option` values
  (`Conf`). It also has the setting names (`FieldName`, `Key`) and `getattr` (`Lookup`).
- `GcoreClient` (`gcoreclient.py`): the URLs and headers, and the token refresh.
  It also has the retry-on-401 `request` wrapper, the metadata fetch and the
  `HeatResourceClient` class. The class has mutable `access_token` and `refresh_token`.
  Each network step is a specification function that returns a `Step`. A `Step` holds
  the result or the raised fault, the new client state and the new network state. The
  class method that performs the step on its fields and the transport is proved equal
  to that function.
- `Gcore` (`gcore.py`): the settings check `FirstMissing`, with a reference scan
  `FirstAbsent`, and the specification `CollectOutcome`. It also has the `Collector`
  class, whose `client` attribute is built lazily.

The source's `request` takes the call to repeat as a parameter and hard-codes the step
run on a 401 (gcoreclient.py line 85). Here the call is `Func` and the step is a `Hook`
parameter; `Wiring` puts these together.
`AS_WRITTEN` is `get_metadata` as the source assembles it. `CORRECTED` is the evident
intent. `Collector.Collect` uses `AS_WRITTEN`. The lemmas about `CollectOutcome` that
take a wiring `w` hold for either wiring; `AsWrittenCollectIsOneShot`,
`CollectTwiceSameResult` and `TestConfMissingSetting` are stated for `AS_WRITTEN` only.

Where the code differs from what the client plainly means to do, the model follows the code:

- The refresh POST goes to the refresh token's value, not to the refresh endpoint.
- A refresh body without `refresh_token` raises `KeyError` after `access_token` has
  already been replaced; one might expect a failed refresh to change nothing.
- A missing key raises `KeyError`, not a decode error.
- Calling `self.refresh_token()` on a 401 (line 85) calls a string and raises
  `TypeError`; `process_refresh_token` is never run from `request`.
- Through `get_metadata`, a 401 is never retried.

## Model

| member | source | states |
|---|---|---|
| `Decimal.NatToString` | os_collect_config/gcoreclient.py:108-112 | the rendering of a natural number is a non-empty string of digits without a leading zero |
| `Decimal.IntRoundTrip` | os_collect_config/gcoreclient.py:108-112 | reading back `str(i)` gives `i`, so the integer ids lose nothing when put in a URL |
| `Http.RaiseForStatus` | os_collect_config/gcoreclient.py:116 | raises `HttpError(status)` exactly for a 4xx or 5xx status, and otherwise returns the response unchanged |
| `Http.Deliver` | os_collect_config/gcoreclient.py:115 | a URL without an http(s) scheme is refused and nothing is sent; otherwise the request is logged and the next scripted reply answers it, or a connection error if there is none |
| `Http.Transport.Send` | os_collect_config/gcoreclient.py:115 | performs `Deliver` on the transport's script and log, adding at most one call |
| `GcoreClient.CheckUnauthenticatedResponse` | os_collect_config/gcoreclient.py:23-26 | true exactly when the status code is 401 |
| `GcoreClient.FieldsAreEverySettingOnce` | os_collect_config/gcoreclient.py:93 | the heat client's FIELDS are the five base fields followed by stack_id and resource_name, and name each of the seven settings exactly once |
| `GcoreClient.ConfState` | os_collect_config/gcoreclient.py:53-55 | for every name in FIELDS, the client's attribute equals the configuration's value of that name |
| `GcoreClient.HeatResourceClient.constructor` | os_collect_config/gcoreclient.py:95-105 | the seven attributes are the seven arguments, each under its own name |
| `GcoreClient.HeatResourceClient.FromConf` | os_collect_config/gcoreclient.py:53-55 | returns a new client whose state is `ConfState(conf)` |
| `GcoreClient.RefreshUrlRoundTrip` | os_collect_config/gcoreclient.py:50-51 | the refresh URL is the API URL followed by `/v1/token/refresh`: stripping that path gives the API URL back, and an http(s) API URL gives an http(s) refresh URL |
| `GcoreClient.MetadataUrlSegments` | os_collect_config/gcoreclient.py:107-112 | after `api_url + "/v1/"`, the next two path segments of the metadata URL are the rendered project id and region id, in that order |
| `GcoreClient.MetadataUrlCarriesIds` | os_collect_config/gcoreclient.py:107-112 | the project and region ids can be parsed back from the metadata URL; it ends with `/metadata`; it is dispatchable when the API URL is |
| `GcoreClient.PyIntInjective` | os_collect_config/gcoreclient.py:110 | two ids, set or unset, that render to the same URL text are the same id |
| `GcoreClient.MetadataUrlDistinguishesIds` | os_collect_config/gcoreclient.py:107-112 | two clients on the same API URL with the same metadata URL have the same project and region ids |
| `GcoreClient.AuthHeaders` | os_collect_config/gcoreclient.py:57-62 | exactly two headers: Authorization is `"Bearer: "` followed by the current access token, and Accept is `application/json` |
| `GcoreClient.AuthHeadersCarryToken` | os_collect_config/gcoreclient.py:57-62 | the token can be read back from the Authorization header, so access tokens that render differently give different headers |
| `GcoreClient.AsToken` | os_collect_config/gcoreclient.py:78-79 | a token read from the refresh body is a JSON string or null, and it encodes back to that JSON value |
| `GcoreClient.RefreshFrame` | os_collect_config/gcoreclient.py:67-80 | a refresh sends at most its one POST and changes nothing but the two tokens; the refresh token changes only when the refresh returns normally |
| `GcoreClient.RefreshErrorStatusKeepsTokens` | os_collect_config/gcoreclient.py:73-76 | a refresh answered with an error status raises `HttpError` with that status before touching any token |
| `GcoreClient.RefreshSuccessTakesBody` | os_collect_config/gcoreclient.py:73-79 | a refresh returns normally exactly when it gets a success reply whose JSON object has both tokens; both tokens then become the body's values |
| `GcoreClient.RefreshMissingAccessKeepsTokens` | os_collect_config/gcoreclient.py:78 | a body without `access_token` raises `KeyError("access_token")` and changes nothing |
| `GcoreClient.RefreshMissingRefreshIsPartial` | os_collect_config/gcoreclient.py:78-79 | a body with `access_token` but without `refresh_token` raises `KeyError("refresh_token")` after the access token (and so the auth header) has already been replaced |
| `GcoreClient.AsWrittenRefreshNeverSent` | os_collect_config/gcoreclient.py:73-75 | the refresh POST goes to the refresh token's value; when that value has no http(s) scheme, nothing is sent, nothing changes and InvalidUrl is raised |
| `GcoreClient.CorrectedRefreshUpdatesTokens` | os_collect_config/gcoreclient.py:67-80 | when posting to the refresh endpoint, the POST carries `{"token": refresh_token}` with the JSON headers to `api_url + "/v1/token/refresh"`. A success reply installs both new tokens, and the next auth header carries the new access token |
| `GcoreClient.HeatResourceClient.ProcessRefreshToken` | os_collect_config/gcoreclient.py:67-80 | performs `ProcessRefresh` on the object's tokens and the transport |
| `GcoreClient.InvokeOutcome` | os_collect_config/gcoreclient.py:114-117 | calling the GET never changes the client |
| `GcoreClient.InvokeSendsOneGet` | os_collect_config/gcoreclient.py:114-117 | one call sends at most the metadata GET (URL and auth headers from the current state), and returns a response only after sending it; that response is exactly the scripted reply |
| `GcoreClient.HeatResourceClient.Invoke` | os_collect_config/gcoreclient.py:114-117 | performs `InvokeOutcome` on the transport |
| `GcoreClient.HookSendsOnePost` | os_collect_config/gcoreclient.py:85 | the step run on a 401 either raises without sending anything or sends exactly one POST |
| `GcoreClient.HeatResourceClient.RunHook` | os_collect_config/gcoreclient.py:85 | performs `HookOutcome`: the attribute call raises TypeError, the refresh hook runs process_refresh_token |
| `GcoreClient.RequestEndsAfter` | os_collect_config/gcoreclient.py:82-88 | `request` ends after the first call unless its response is 401. After a 401 it ends after the hook if the hook raised, and otherwise after the second call |
| `GcoreClient.RequestAtMostTwice` | os_collect_config/gcoreclient.py:82-88 | `request` only appends to the log. What it sends is nothing, GET, GET+POST, or GET+POST+GET. It sends two or more requests only when the first reply was a 401 |
| `GcoreClient.RequestReturns` | os_collect_config/gcoreclient.py:82-88 | `request` returns the last response it got, raised as `HttpError` for an error status; a fault of the first call, the hook or the retried call propagates; a normal return never has an error status; the client changes only through the hook, and not at all without a first 401 |
| `GcoreClient.RequestSecond401Raises` | os_collect_config/gcoreclient.py:84-88 | a 401 on the retried call is not retried again: it raises `HttpError(401)` after exactly GET, POST, GET |
| `GcoreClient.HeatResourceClient.Request` | os_collect_config/gcoreclient.py:82-88 | performs `RequestOutcome` on the object and the transport |
| `GcoreClient.AsWrittenGetMetadataNeverRetries` | os_collect_config/gcoreclient.py:114-120 | as wired, get_metadata never changes the client, sends at most one GET, and raises `HttpError` for any error status of the first reply, 401 included |
| `GcoreClient.AsWrittenHookRaises` | os_collect_config/gcoreclient.py:84-85 | if a 401 reaches `request`, calling the string attribute raises TypeError after the one GET: no refresh is done and the call is not retried |
| `GcoreClient.CorrectedHookRefreshes` | os_collect_config/gcoreclient.py:82-86 | with the refresh hook, a 401 on the first GET is followed by the refresh POST to the refresh endpoint, between the two calls |
| `GcoreClient.CorrectedRefreshAndRetry` | os_collect_config/gcoreclient.py:82-88 | intended protocol: replies of 401, then new tokens, then a JSON document give that document. The client holds the new tokens, and the retry used the new access token |
| `GcoreClient.CorrectedSecond401Fails` | os_collect_config/gcoreclient.py:82-88 | intended protocol: a second 401 raises `HttpError(401)` after exactly one refresh |
| `GcoreClient.CorrectedRetryServerError` | os_collect_config/gcoreclient.py:82-88 | intended protocol: 401, new tokens, then 500 raise `HttpError(500)`, and the client keeps the new tokens |
| `GcoreClient.MetadataReturns` | os_collect_config/gcoreclient.py:119-120 | get_metadata returns exactly when `request` returned a response with a JSON body, which then has no error status and is the returned document; a fault of `request` propagates, and a returned response without a JSON body raises DecodeError |
| `GcoreClient.HeatResourceClient.GetMetadataVia` | os_collect_config/gcoreclient.py:119-120 | performs `MetadataOutcome` for the given wiring: the decoded body of the response `request` returns, or DecodeError if it is not JSON |
| `GcoreClient.HeatResourceClient.GetMetadata` | os_collect_config/gcoreclient.py:119-120 | get_metadata as wired; it leaves the client's state unchanged |
| `Gcore.FirstAbsent` | os_collect_config/gcore.py:68-88 | the name the scan reports is in the list and is unset |
| `Gcore.FirstAbsentNone` | os_collect_config/gcore.py:68-88 | the scan finds nothing exactly when every listed setting is set |
| `Gcore.FirstAbsentIsFirst` | os_collect_config/gcore.py:68-88 | an unset setting with only set settings before it is the one reported |
| `Gcore.FirstMissingScansInOrder` | os_collect_config/gcore.py:68-88 | the guard chain of collect equals the scan of api_url, access_token, refresh_token, project_id, region_id, stack_id, resource_name |
| `Gcore.FirstMissingIsFirstUnset` | os_collect_config/gcore.py:68-88 | collect reports no missing setting exactly when all seven are set; otherwise it reports the first unset one in the fixed order |
| `Gcore.ValidatedFieldsAreClientFields` | os_collect_config/gcore.py:68-91 | the settings checked are exactly the client's FIELDS; after the check passes, every attribute of the client built from the configuration is set |
| `Gcore.NotConfiguredStopsEarly` | os_collect_config/gcore.py:68-88 | a missing setting gives NotConfigured with that setting's name. The client attribute stays as it was and nothing is sent |
| `Gcore.TwoErrorKindsStayApart` | os_collect_config/gcore.py:68-100 | NotConfigured occurs exactly when a setting is missing: a fetch or merger failure never becomes NotConfigured, and a missing setting never becomes NotAvailable |
| `Gcore.ConfiguredCollect` | os_collect_config/gcore.py:90-100 | once configured, an injected client is used as is; a missing one is built from the configuration and kept. Any fetch or merger failure is NotAvailable; a success is the merger's output for (document, deployment key, "gcore") |
| `Gcore.MergedIsMergerOutput` | os_collect_config/gcore.py:96-97 | a merged list comes only from a configured collect whose fetch succeeded, and it is the merger's output for that document under "gcore" |
| `Gcore.AsWrittenCollectIsOneShot` | os_collect_config/gcore.py:93-97 | as wired, one collect keeps the log it was given and adds at most the one metadata GET of the client it uses; it returns an injected client unchanged |
| `Gcore.CollectTwiceSameResult` | os_collect_config/gcore.py:93-97 | two collects against the same successful JSON reply, given twice, return the same result and keep the same client. Each keeps the log and adds at most the one metadata GET; when the metadata URL is dispatchable, each sends exactly the one metadata GET |
| `Gcore.Unset` | os_collect_config/tests/test_gcore.py:80-120 | the configuration with exactly one setting unset; the others keep their values |
| `Gcore.TestConfMissingSetting` | os_collect_config/tests/test_gcore.py:80-120 | unsetting any one setting of the test configuration gives NotConfigured naming that setting, with nothing sent and the injected client untouched |
| `Gcore.TestConfRefreshNeverSent` | os_collect_config/gcoreclient.py:73-75 | with the test configuration the refresh endpoint is `http://192.0.2.1:5000/v1/token/refresh`, but as written the POST targets `FEDCBA9876543210` and is refused unsent |
| `Gcore.Collector.constructor` | os_collect_config/gcore.py:63-64 | the client attribute is the injected client, or none |
| `Gcore.Collector.Collect` | os_collect_config/gcore.py:67-100 | performs `CollectOutcome` as wired. It keeps an injected client. Without one, it builds a new client only when the settings check passes |

## Left out

- `prepare_logging` and all logging are not modelled: they configure loggers and the HTTP debug level, which is pure side effect. NotConfigured carries the missing setting's name in place of the log line.
- Option registration and the global `CONF` object are not modelled. The configuration is passed to `Collect` as an explicit `Conf` record, along with `deployment_key`.
- `requests.Session`, HTTP transport and timeouts are replaced by the scripted `Transport`. Its `Dispatchable` check stands in for the library's URL validation: it is case-sensitive and does not check the host. Each call of `session` makes a new session; the model uses one transport.
- `Http.Json` has no case for non-integer numbers, so a document such as `{"x": 1.5}` cannot be represented. Nothing proved inspects the document: it passes unchanged from the reply to the merger.
- `response.json()` is modelled as the response's `json` field (`None` when the body is not JSON), not as a parser.
- The merger (`merged_list_from_content`) is a function parameter and its internals are not modelled. So the test's check that the first entry is keyed "gcore" with the original values is not proved; only that the result is exactly the merger's output for "gcore".
- `postprocess_refresh` is an empty hook and is not modelled (it returns nothing and changes nothing).
- GcoreClient.AsToken: a token in the refresh body that is neither a JSON string nor null is treated as DecodeError, because the client's token attributes are strings; Python would store the non-string value.
- The test's client subclass, which overrides `get_metadata`, is not modelled: an injected client is modelled by its seven attributes and the real `get_metadata`.
- `GcoreBaseClient` and `GcoreHeatResourceClient` are one class here. The base class's five-argument constructor is not modelled separately; `BASE_FIELDS` records its field list.
- Python exception classes are collapsed into `Fault`. `logger.warn` of the caught exception's message is left out.

## Findings

| source | as written | input that shows it | evidently intended | confidence | as-written member | corrected member |
|---|---|---|---|---|---|---|
| os_collect_config/gcoreclient.py:73-75 | the refresh POST is sent to `self.refresh_token`, the token's value | refresh token `FEDCBA9876543210` (the test configuration): the URL has no scheme and the POST never reaches the API | POST to `refresh_url` | high; not executed | `GcoreClient.AsWrittenRefreshNeverSent` | `GcoreClient.CorrectedRefreshUpdatesTokens` |
| os_collect_config/gcoreclient.py:85 | `self.refresh_token()` calls a string attribute | a first response with status 401 that reaches `request`: TypeError, no refresh, no retry | call `self.process_refresh_token()` | high; not executed | `GcoreClient.AsWrittenHookRaises` | `GcoreClient.CorrectedHookRefreshes` |
| os_collect_config/gcoreclient.py:116 | `_get_metadata` raises for every error status before `request` sees a 401 | first GET answered 401: HttpError(401) after one call, never a refresh | leave the status check to `request` | high; not executed | `GcoreClient.AsWrittenGetMetadataNeverRetries` | `GcoreClient.CorrectedRefreshAndRetry` |
