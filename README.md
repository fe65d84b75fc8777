# Pipedream request pipeline and three connectors, in Dafny

This project models the shared outbound-request pipeline of the Pipedream
platform (`platform/dist/axios.js`) together with three connectors that hold
real decision rules, and proves what they promise.

- **The request pipeline.**
  - `cleanObject` deletes the `undefined` properties of the headers, the
    params and an object `data`.
  - `removeSearchFromUrl` moves the URL's query string into `config.params`.
    Keys and values are JSON-unescaped, values are then percent-decoded, and
    explicit parameters win.
    The query is then stripped from the URL.
  - `oauth1ParamsSerializer` percent-encodes the characters `! ' ( ) *` left
    reserved by section 3.6 of RFC 5849.
  - `transformConfigForOauth` builds the request description sent to the
    OAuth signing service. Following section 3.4.1.3.1 of RFC 5849, only a
    form-encoded body takes part.
  - `returnDataObject` shapes a successful response.
  - `convertAxiosError` annotates a client error that carries a response.
  - `stepExport` routes debug artifacts to the caller's step.
  - `callAxios` orchestrates clean, `body` check, query extraction, signing,
    dispatch, and then guard or translate. The request interceptor of
    `create` signs first and then cleans and extracts, and never checks
    `body`.
- **Google Drive "Find Spreadsheets".** The Drive search query, built from
  `searchQuery`, `nameSearchTerm` and `folderId`, and the `url` added to
  every file found.
- **GitHub "New or Updated Issue".**
  - The webhook: the `eventTypes` filter and the gate on `action`.
  - The polling run: a list of seen full IDs. The first run only records;
    later runs emit the items not seen before.
- **Google Drive "New or Modified Comments".**
  - A per-file comment-time watermark kept in the key-value store.
  - The event meta and the change description taken from the push headers.
  - The `deploy`, `activate` and `deactivate` hooks.

JavaScript values are the datatype `JsValues.Value`. Objects are ordered
property lists, because `for…in` order is observable here: the first matching
content-type header decides, and new parameters go last. Numbers are integers
or `NaN`.

Code the pipeline calls but does not contain is a parameter, the `Library`
of oracle functions in `Pipeline`:
- URL normalisation, `decodeURIComponent`, `querystring`, `axios.getUri`
  and `JSON.stringify`;
- the HTTP transport;
- the signing service.

The contracts state what the pipeline does with whatever these return. The
connectors take the GitHub and Drive listings and `Date.parse` the same way.
The two sources' `this.$emit` is an `emitted` sequence on their classes.

Code that changes things in place is modelled as classes:
- `Pipeline.RequestConfig`, the request configuration;
- `Http.AxiosError`;
- `IssuePolling.IssuePoller`;
- `DriveComments.CommentsSource`.

Each method on these classes is proved against a function on values. The
properties are lemmas about those functions.

## Model

| member | source | states |
|---|---|---|
| Sanitize.Cleaned | platform/dist/axios.js:8-14 | a property survives cleaning exactly when its value is not `undefined`; nothing is added |
| Sanitize.CleanObject | platform/dist/axios.js:8-14 | the deleting `for…in` loop leaves exactly the non-`undefined` properties, in their order |
| Sanitize.CleanOptionalKeepsReads | platform/dist/axios.js:8-14 | a missing object (default `{}`) stays missing; in a present one every property reads as before, and a key remains exactly when it was there with a value other than `undefined` |
| Sanitize.CleanDataKeepsReads | platform/dist/axios.js:112-114 | cleaning `data` changes no property read; only a plain object loses its `undefined` members, and null, arrays and primitives are kept as they are; cleaning again changes nothing |
| Sanitize.CleanedLookup | platform/dist/axios.js:8-14 | after cleaning, a key whose value was `undefined` is absent and every other key, `null` included, reads as before |
| Sanitize.CleanedIdempotent | platform/dist/axios.js:8-14 | cleaning twice is the same as cleaning once |
| Sanitize.CleanedDistinct | platform/dist/axios.js:8-14 | cleaning keeps property names distinct |
| ResponseGuard.ThrowsOnlyOnNonObjectBody | platform/dist/axios.js:15-34 | shaping the response throws exactly when the full response is not asked for and the body is neither an object nor an array, and then only a TypeError |
| ResponseGuard.GuardedReads | platform/dist/axios.js:26-33 | on the guarded view, reading `data` fails with NonexistentDataPropertyError and every other read passes through to the body: an object's own properties, an array's `length` and each element under its index |
| JsValues.ArrayElementRead | platform/dist/axios.js:31 | `target[prop]` on an array reads each element under the decimal numeral of its index |
| JsValues.IndexRoundTrip | platform/dist/axios.js:31 | the numeral of an index denotes that index |
| ResponseGuard.NoSilentMissingData | platform/dist/axios.js:19-33 | unless the full response is asked for, reading `.data` on the result gives a truthy value or an explicit error, never a silent `undefined`; other reads see the body |
| ResponseGuard.FullResponseReads | platform/dist/axios.js:16-18 | with `returnFullResponse`, `data` and `status` read from the response itself |
| Http.AxiosError.Convert | platform/dist/axios.js:155-165 | the request is detached from the response; the name becomes `<name> - <message>`; the message becomes the JSON of the response body, or `undefined` when there is none, and is kept when serialising throws |
| Http.ExportDelivery | platform/dist/axios.js:144-154 | every effect carries the given key and payload; the payload reaches the step at most once, and does exactly when there is a step; it is logged exactly when the step has no `export` |
| QueryExtract.StripSearch | platform/dist/axios.js:56-57 | the URL without its search has an empty query string |
| QueryExtract.SplitJoin | platform/dist/axios.js:44 | splitting the query on `&` and joining again gives the query back |
| QueryExtract.JsonUnescape | platform/dist/axios.js:44 | a string body without a backslash is valid exactly when it holds no quote or control character, and then denotes itself; the result is never longer |
| QueryExtract.JsonEscapeRoundTrip | platform/dist/axios.js:44 | every string can be written as a JSON string body that unescapes back to it |
| QueryExtract.TrailingBackslashFails | platform/dist/axios.js:44 | a valid body followed by one more backslash is invalid: that backslash escapes the inserted quote |
| QueryExtract.ParseSegmentMeaning | platform/dist/axios.js:44 | a `key=value` segment is a JSON member exactly when it holds one `=` and both sides are valid string bodies, and the member is the two sides unescaped |
| QueryExtract.ParseSegmentRoundTrip | platform/dist/axios.js:44 | any key and value without `=`, escaped and joined with `=`, parse back to exactly that key and value |
| QueryExtract.UnicodeEscapeExample | platform/dist/axios.js:44 | `a=\u0041` is the member `a: "A"` |
| QueryExtract.SimpleEscapeExample | platform/dist/axios.js:44 | `a=x\n\/` is the member `a` holding `x`, a newline and `/` |
| QueryExtract.UnknownEscapeExample | platform/dist/axios.js:44 | `a=\q` is not a member |
| QueryExtract.TrailingBackslashExample | platform/dist/axios.js:44 | `a=b\` is not a member |
| QueryExtract.ParseSegments | platform/dist/axios.js:44 | the segments give members exactly when every segment is one, and then one member per segment, in order |
| QueryExtract.LastWith | platform/dist/axios.js:44 | the position found holds the key and no later member does; none is found only when no member has the key |
| QueryExtract.FromMembersLookup | platform/dist/axios.js:44 | the parsed object has a key exactly when some member has it, and its value is that of the last such member |
| QueryExtract.BuildObject | platform/dist/axios.js:44 | the JSON text parses exactly when every segment is a member, into string values only, and to a non-empty object for a non-empty segment list |
| QueryExtract.Revive | platform/dist/axios.js:44-48 | the reviver keeps the keys and their order, leaves the value under the key `""` as it is and percent-decodes every other value; it fails exactly when one of those values does not decode |
| QueryExtract.ParseQueryString | platform/dist/axios.js:44-48 | the JSON trick throws SyntaxError exactly when some segment is not a member, otherwise URIError exactly when a surviving value does not decode, and no other error; a success has at least one member |
| QueryExtract.QueryMembers | platform/dist/axios.js:44-48 | a parsed query has a key exactly when some segment names it (unescaped, not decoded), and its value is the last such segment's value, percent-decoded except under the key `""` |
| QueryExtract.MergeQueryLookup | platform/dist/axios.js:49-55 | after merging, a key that is `in` the params (own or inherited) keeps its value; a query key that is not gets its query value; other keys are untouched |
| QueryExtract.MergeQueryExtends | platform/dist/axios.js:49-55 | merging never removes or reorders an existing parameter |
| OAuth1.Oauth1ParamsSerializer | platform/dist/axios.js:61-68 | the serialised params equal the per-character escape of the standard query string and contain none of `! ' ( ) *` |
| OAuth1.ReplaceChainIsEscapeEach | platform/dist/axios.js:62-67 | the five successive global replaces equal escaping each character on its own: reserved ones become `%21 %27 %28 %29 %2A` and all others are untouched |
| OAuth1.ReplaceChainAppend | platform/dist/axios.js:62-67 | the replace chain distributes over concatenation |
| OAuth1.EscapeEachProperties | platform/dist/axios.js:61-68 | the escape holds no reserved character, is at least as long as its input, and leaves a string without reserved characters unchanged |
| OAuth1.FirstContentType | platform/dist/axios.js:82-88 | the index found is the first header whose name contains `content-type` in any case; none is found only when no header name matches |
| OAuth1.ScanContentType | platform/dist/axios.js:80-88 | the header loop with `break` sets `hasContentType` exactly when a matching header exists, and `formEncoded` exactly when the first match is form-encoded |
| OAuth1.UncleanedContentTypeHidesBody | platform/dist/axios.js:82-94 | an uncleaned `Content-Type: undefined` header still counts as a content type and hides a string body; once cleaned away, the body is signed |
| Pipeline.SanitizeKeepsReads | platform/dist/axios.js:110-114 | cleaning the configuration changes no read of its headers, params or data; afterwards no header or param holds `undefined`; cleaning again changes nothing |
| Pipeline.ExtractView | platform/dist/axios.js:36-59 | extraction fails only with TypeError("Invalid URL"), SyntaxError or URIError, and then leaves the configuration unchanged; on success only `url` and `params` change |
| Pipeline.SerializedParams | platform/dist/axios.js:71-74 | the params go to `getUri` exactly when present, and their serialised form has no reserved character |
| Pipeline.CanonicalRequest | platform/dist/axios.js:69-97 | the description has the method (`get` when it is falsy), the URL `getUri` builds with the OAuth serializer, and the body the first content-type header selects |
| Pipeline.CanonicalBody | platform/dist/axios.js:80-94 | under a first content-type other than form-encoded no body is signed; a number, boolean, null or undefined is never signed; under the form-encoded type an object is signed as it is and a string parsed as a query; with no content type only a string is signed |
| Pipeline.SignView | platform/dist/axios.js:99-107 | the OAuth serializer is installed whatever the outcome; a signing failure is thrown; on success only `Authorization` changes among the headers, and it is the signer's answer for the description of this configuration |
| Pipeline.BodyRejectedFirst | platform/dist/axios.js:109-118 | a present `body` is rejected after cleaning and before anything else happens; ConfigurationError is thrown only for a present `body` |
| Pipeline.ExtractWithoutQuery | platform/dist/axios.js:37-42 | no `url`, an empty `url`, or a resolved URL without a query leaves the configuration unchanged |
| Pipeline.ExtractMovesQuery | platform/dist/axios.js:36-59 | when extraction changes the configuration, the URL is the resolved `baseURL + url` without its query and `params` exists; a key `in` the params keeps its value; any other key named by the query gets its last segment's value, unescaped and percent-decoded (not decoded under `""`); other keys are untouched |
| Pipeline.CallSignsCleanedConfig | platform/dist/axios.js:109-125 | a successful signed `callAxios` preparation sets `Authorization` to the signer's answer for the cleaned, query-free configuration, and installs the OAuth serializer |
| Pipeline.InstanceNeverConfigurationError | platform/dist/axios.js:171-185 | the request interceptor of an instance never throws ConfigurationError |
| Pipeline.ExtractIgnoresBody | platform/dist/axios.js:36-59 | whether query extraction fails, and how, does not depend on `body` |
| Pipeline.InstanceIgnoresBody | platform/dist/axios.js:171-185 | what an instance's request interceptor throws does not depend on `body` |
| Pipeline.SigningOrderMatters | platform/dist/axios.js:171-183 | with an undefined `Content-Type` and a string body, `callAxios` (clean, then sign) signs the parsed body while an instance (sign, then clean) signs none |
| Pipeline.SignerFailureConvertedOnlyByInstance | platform/dist/axios.js:120-142 | a signing-service failure in `callAxios` is thrown before the `try` and never reaches its `catch` |
| Pipeline.InstanceConvertsSignerFailure | platform/dist/axios.js:171-198 | a signing-service failure in an instance reaches the error interceptor |
| Pipeline.RequestConfig.Sanitize | platform/dist/axios.js:110-114 | the configuration after the three `cleanObject` calls is the sanitised snapshot |
| Pipeline.RequestConfig.RemoveSearchFromUrl | platform/dist/axios.js:36-59 | the configuration after the call is the extraction result; on a throw it is unchanged and the error is the extraction error |
| Pipeline.RequestConfig.MergeUrlParams | platform/dist/axios.js:49-55 | the merge loop leaves `params` equal to the merge of the old params (or `{}`) with the query, and changes nothing else |
| Pipeline.RequestConfig.TransformConfigForOauth | platform/dist/axios.js:69-97 | returns the canonical request description of the configuration before the call, and changes only `paramsSerializer`, to the OAuth serializer |
| Pipeline.RequestConfig.Sign | platform/dist/axios.js:120-125 | the configuration and the throw after signing are those of the signing stage; `headers` is created when absent |
| Pipeline.PrepareCall | platform/dist/axios.js:109-125 | the configuration and the throw after `callAxios`'s preparation: clean, reject `body`, extract, then sign |
| Pipeline.InterceptRequest | platform/dist/axios.js:171-185 | the configuration and the throw after an instance's request interceptor: sign, then clean and extract |
| Pipeline.CatchError | platform/dist/axios.js:136-142 | an error with a response is converted and exported as `debug` whatever `debug` says; one without a response is left as it is and not exported |
| Pipeline.CallAxios | platform/dist/axios.js:109-143 | a preparation throw is thrown with no export; a response is shaped by ReturnDataObject after the `debug_config` and `debug_response` exports (when `debug`); a client error is converted, exported as `debug` and rethrown |
| Pipeline.Create | platform/dist/axios.js:166-170 | the instance keeps the step and signing configuration; the creation configuration is exported as `debug_config`, as given, exactly when its `debug` is truthy |
| Pipeline.InstanceRequest | platform/dist/axios.js:171-198 | a request through an instance: interceptor throws other than rejections propagate; a response is shaped after the `debug_response` export; a signing or transport error with a response is converted and exported as `debug`, then rethrown |
| FindSpreadsheets.Trim | components/google_drive/actions/find-spreadsheets/find-spreadsheets.mjs:65 | the trimmed query is no longer than the input and neither starts nor ends with white space |
| FindSpreadsheets.TrimStripsOuterWhiteSpace | components/google_drive/actions/find-spreadsheets/find-spreadsheets.mjs:65 | the trimmed query is a slice of the input with only white space before and after it |
| FindSpreadsheets.TrimKeepsOccurrence | components/google_drive/actions/find-spreadsheets/find-spreadsheets.mjs:65 | trimming keeps any occurrence of a text that neither starts nor ends with white space |
| FindSpreadsheets.BaseClauseAlwaysPresent | components/google_drive/actions/find-spreadsheets/find-spreadsheets.mjs:51-65 | the query passed on always contains the spreadsheet MIME-type clause |
| FindSpreadsheets.SearchQueryUse | components/google_drive/actions/find-spreadsheets/find-spreadsheets.mjs:52-55 | a `searchQuery` holding the base clause is used verbatim (trimmed); any other is appended to the base clause with `and` |
| FindSpreadsheets.SearchQueryPrecedence | components/google_drive/actions/find-spreadsheets/find-spreadsheets.mjs:52-63 | with a `searchQuery`, the name and the folder have no effect |
| FindSpreadsheets.ClauseOrder | components/google_drive/actions/find-spreadsheets/find-spreadsheets.mjs:56-63 | without a `searchQuery` the query is the base clause, then the name clause if a name is set, then the folder clause if a folder is set, with nothing to trim |
| FindSpreadsheets.DecorateFiles | components/google_drive/actions/find-spreadsheets/find-spreadsheets.mjs:69-72 | as many files as found, each with `url` set to the spreadsheet link of its id and every other field unchanged |
| FindSpreadsheets.Run | components/google_drive/actions/find-spreadsheets/find-spreadsheets.mjs:50-73 | the files listed for the composed query are returned decorated: each has its `url` set and keeps every other field; the summary counts them |
| IssuePolling.EventTypeFilter | components/github/sources/new-or-updated-issue/new-or-updated-issue.mjs:56-58 | unset `eventTypes` lets every event through, an empty list none; a listed type passes, a non-string never does under a list, and listing more types only lets more through |
| IssuePolling.WebhookGate | components/github/sources/new-or-updated-issue/new-or-updated-issue.mjs:59-73 | an issue payload is emitted exactly when its `action` is truthy and passes the filter, with ID `<action>_<now>`, timestamp `now`, the payload as event and the issue's title in the summary |
| IssuePolling.AsWrittenThrowsOnIssuePayloads | components/github/sources/new-or-updated-issue/new-or-updated-issue.mjs:65 | as written, a payload without `pull_request` that passes the gate throws TypeError instead of being emitted |
| IssuePolling.OpenedIssueExample | components/github/sources/new-or-updated-issue/new-or-updated-issue.mjs:59-73 | a concrete `opened` issue payload throws as written and is emitted as `opened_7` with summary `Issue activity (opened): "Bug"` when the title is read from the issue |
| IssuePolling.SortChoosesTimestamp | components/github/sources/new-or-updated-issue/new-or-updated-issue.mjs:78-106 | an event's ID, summary and timestamp use `created_at` exactly when `emitUpdates === false`, and `updated_at` otherwise, also when it is unset |
| IssuePolling.Unsaved | components/github/sources/new-or-updated-issue/new-or-updated-issue.mjs:92-93 | an item passes the filter exactly when its full ID is not in the list as read |
| IssuePolling.UnsavedNothingSaved | components/github/sources/new-or-updated-issue/new-or-updated-issue.mjs:92-93 | with nothing saved, every item passes the filter |
| IssuePolling.FirstRunOnlyRecords | components/github/sources/new-or-updated-issue/new-or-updated-issue.mjs:86-108 | a run with an empty saved list emits nothing and saves every fetched item's full ID, in order |
| IssuePolling.SeenIdsIgnored | components/github/sources/new-or-updated-issue/new-or-updated-issue.mjs:86-108 | the saved list only grows, by exactly the full IDs of the unsaved items; no seen ID is emitted or appended again |
| IssuePolling.LaterRunsEmitNewItems | components/github/sources/new-or-updated-issue/new-or-updated-issue.mjs:92-108 | with a non-empty saved list every unsaved item is emitted, in input order, with the full ID that is saved for it |
| IssuePolling.DuplicatesInOneBatch | components/github/sources/new-or-updated-issue/new-or-updated-issue.mjs:92-108 | two fetched items with the same full ID are both saved and both emitted, because the filter sees the list as read |
| IssuePolling.IssuePoller.OnWebhookTrigger | components/github/sources/new-or-updated-issue/new-or-updated-issue.mjs:59-73 | the webhook, with the title read from `body.issue` (the correction under Findings), emits the gate's event, throws its error or does nothing, and never changes the saved list |
| IssuePolling.IssuePoller.OnTimerTrigger | components/github/sources/new-or-updated-issue/new-or-updated-issue.mjs:74-109 | the saved list and the emitted events after the filter-and-push loop are those of one polling run with the chosen sort |
| DriveComments.HooksSetFallback | components/google_drive/sources/new-or-modified-comments/new-or-modified-comments.mjs:41-60 | after `activate` at `now` a file without a truthy stored time reads `now`; after `deactivate` it reads null; a truthy stored time is read either way |
| DriveComments.ChangesFromHeaders | components/google_drive/sources/new-or-modified-comments/new-or-modified-comments.mjs:84-99 | the change is `{}` without headers; otherwise `state`, `resourceURI` and `changed` are the three `x-goog-*` header values |
| DriveComments.MetaFields | components/google_drive/sources/new-or-modified-comments/new-or-modified-comments.mjs:69-83 | the ID is `<commentId>-<message number>` when that header is truthy, else `<commentId>-<ts>`; the summary is the content; `ts` is the parsed time, a number exactly when it parses |
| DriveComments.KeptMembers | components/google_drive/sources/new-or-modified-comments/new-or-modified-comments.mjs:111-115 | a listed comment is emitted exactly when its time is not at or below the file's threshold; an unparseable time is never skipped |
| DriveComments.KeptAll | components/google_drive/sources/new-or-modified-comments/new-or-modified-comments.mjs:111-115 | when no comment is at or below the threshold, every comment is emitted, in order |
| DriveComments.RunningMaxIsMax | components/google_drive/sources/new-or-modified-comments/new-or-modified-comments.mjs:125 | from a numeric start over numeric comment times, the running maximum is a number, at least the start and every time seen, and equal to the start or one of them |
| DriveComments.ThresholdIsFixed | components/google_drive/sources/new-or-modified-comments/new-or-modified-comments.mjs:104-126 | the threshold is the value read before the loop, not the running maximum: times 30 then 20 over threshold 10 are both emitted, leaving 30 |
| DriveComments.WatermarkNeverDecreases | components/google_drive/sources/new-or-modified-comments/new-or-modified-comments.mjs:104-126 | a stored positive watermark never goes down, and afterwards it is at least every emitted comment's time |
| DriveComments.UnparseableTimePoisonsWatermark | components/google_drive/sources/new-or-modified-comments/new-or-modified-comments.mjs:104-126 | comments with unparseable times are all emitted and leave the watermark `NaN`, so the next run falls back to the initial time |
| DriveComments.NoInitTimeSkipsNothing | components/google_drive/sources/new-or-modified-comments/new-or-modified-comments.mjs:58-60 | with no initial time and no stored time, no comment is skipped |
| DriveComments.CommentsSource.Activate | components/google_drive/sources/new-or-modified-comments/new-or-modified-comments.mjs:41-44 | the initial time becomes `now`; nothing else changes |
| DriveComments.CommentsSource.Deactivate | components/google_drive/sources/new-or-modified-comments/new-or-modified-comments.mjs:45-48 | the initial time becomes `null`; nothing else changes |
| DriveComments.CommentsSource.ProcessChanges | components/google_drive/sources/new-or-modified-comments/new-or-modified-comments.mjs:100-129 | the store and the emitted events after the loop over the changed files are those of processing the files one after another |
| DriveComments.CommentsSource.ProcessFileComments | components/google_drive/sources/new-or-modified-comments/new-or-modified-comments.mjs:103-127 | one file: the threshold and the listing use the store before the file |
| DriveComments.CommentsSource.ScanComments | components/google_drive/sources/new-or-modified-comments/new-or-modified-comments.mjs:111-127 | the comment loop emits exactly the comments above the threshold, in order, and stores the running maximum for the file only if one was emitted |
| DriveComments.CommentsSource.Deploy | components/google_drive/sources/new-or-modified-comments/new-or-modified-comments.mjs:26-40 | `deploy` processes the listed files without headers |

## Left out

- The libraries the pipeline calls are parameters (`Pipeline.Library`), not models:
  - WHATWG `URL` parsing and serialisation;
  - `decodeURIComponent`;
  - `querystring.stringify` and `querystring.parse`;
  - `axios.getUri`, `axios.create` and the default merging of an instance;
  - `JSON.stringify`;
  - the HTTP transport;
  - the POST to the signing service.
- `removeSearchFromUrl` takes the query from the normalised href: between the first `?` and the first `#`.
- `stepExport`: `cloneSafe` (from `./utils`, which is not part of this model) and the text of the console log line are left out. An exported payload is the value it had at export time.
- Interceptor registration and the `this` binding of `create` are left out. `Pipeline.Instance` keeps the step and the signing configuration.
- `async`/`await` is left out: every stage runs in sequence.
- The Drive comment listing is a finite sequence. `Date.now()` is a parameter. `Date.parse` and `new Date(x).valueOf()` are a `DateParser` oracle.
- Numbers are integers or `NaN`:
  - no fractions, infinities or `-0`;
  - `ToNumber` of a string covers only decimal digits.
- Property enumeration uses insertion order. JavaScript lists integer-like keys first; that ordering is not modelled.
- GitHub `savedItems` is a field of the poller, and its pushes carry over to the next timer run. That assumes `_getSavedItems` returns live storage that persists in place. The component's own `methods` (components/github/sources/new-or-updated-issue/new-or-updated-issue.mjs:16) replaces the shared methods rather than spreading them, so `this._getSavedItems` (line 86) is not defined in this file. Lines 86-108 never write the list back. If the list read were a fresh copy, every run would behave as a first run, and the timer would never emit. The shared module that would define it is not part of this model.
- Deduplication: both sources declare `dedupe: "unique"` (components/github/sources/new-or-updated-issue/new-or-updated-issue.mjs:15, components/google_drive/sources/new-or-modified-comments/new-or-modified-comments.mjs:24). The `emitted` sequences record the `$emit` calls, not the events the platform delivers. The platform drops an event whose meta `id` was already seen, so of the two events in `IssuePolling.DuplicatesInOneBatch` only one would be delivered.
- Drive `deploy`: the 30-day `listFilesInPage` query (lines 27-37) is left out, because it is a Drive API call. `Deploy` takes the listed files.
- The `common.hooks` calls in `activate` and `deactivate` are left out; the common module is not part of this model.
- The store is a `map` of values. The JSON serialisation of the key-value store is left out.
- DriveComments.CommentsSource.ScanComments: the source writes the store after every emitted comment. The model keeps the running value locally and writes it once after the loop. The final state is the same. A failure midway through the stream is not modelled.
- IssuePolling.IssuePoller.OnTimerTrigger: emits and pushes are collected locally and stored once after the loop, for the same reason.
- Pipeline.RequestConfig.MergeUrlParams: `config.params = {}` is created before the loop instead of in its first round. The query always has a member here, so the result is the same.
- DriveComments.RunningMaxIsMax: stated for a numeric start and numeric times only. A `NaN` among them makes `Math.max` `NaN`, and UnparseableTimePoisonsWatermark states that case.
- DriveComments.WatermarkNeverDecreases: requires a stored positive number and parseable comment times. UnparseableTimePoisonsWatermark covers an unparseable time. When a stored time is falsy, the threshold falls back to the initial time, and the lemma says nothing about that case.
- `debug_config` is documented as the pre-sanitised configuration. The code exports it in `callAxios` after cleaning, query extraction and signing (line 128). `Pipeline.CallAxios` follows the code and exports the configuration as it is at that point.
- IssuePolling.IssuePoller.OnWebhookTrigger: the method reads the title from `body.issue`, the correction recorded under Findings. The code as written reads `body.pull_request.title`; `IssuePolling.WebhookAsWritten` models that, and `IssuePolling.AsWrittenThrowsOnIssuePayloads` states what it does.
- QueryExtract.ParseSegment: a bare `"` in the query string is treated as a SyntaxError. A serialised WHATWG URL percent-encodes `"` and control characters in its query, so a normalised href never holds one. On a raw string with quotes, the JSON text could parse into members that no segment names; that case is not modelled.
- QueryExtract.JsonUnescape: a `\u` escape of a lone surrogate is rejected, because a Dafny string holds only Unicode scalar values. `JSON.parse` accepts it and yields a string with the lone surrogate. A surrogate pair written as two escapes is decoded.
- `ResponseGuard.Read`: a property read on a primitive body yields `undefined` for everything except `length`.

## Findings

| source | as written | input that shows it | evidently intended | confidence | as-written member | corrected member |
|---|---|---|---|---|---|---|
| components/github/sources/new-or-updated-issue/new-or-updated-issue.mjs:65 | the summary reads `body.pull_request.title`, but the source subscribes to `issues` events (line 53), whose payload carries `issue` and no `pull_request` | `{ action: "opened", issue: { title: "Bug" } }` with `eventTypes` unset: reading `title` of `undefined` throws TypeError, so nothing is emitted | read the title of `body.issue` and emit `Issue activity (opened): "Bug"` | not executed | IssuePolling.AsWrittenThrowsOnIssuePayloads | IssuePolling.WebhookGate |
