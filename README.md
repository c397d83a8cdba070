# Jira release webhook — a verified model

This project models the core of a small webhook service. The service is told
that a Jira issue has been released. It validates its configuration and the
request body, fetches the issue from Jira with its links, and
keeps the issues that block it (links of type "Blocks" with an
`inwardIssue`). It then posts a Slack message: a header with the issue key and
summary, an optional list of the blocking issues, and a "View in Jira" button.

All of it lives in `api/jira-release.js`. The model keeps that file's four functions
and the order in which its handler calls them:

- `JiraIssue` — `getJiraIssueDetails`: the response is an input (`Http.Reply`:
  status, status text, and the parsed body or the parser's complaint). The
  `for...of` loop that fills `blockingIssues` is the method
  `ExtractBlockingIssues`, proved against the function `CollectBlocking`. The
  reference definitions `BlockingLinks`, `EntryOf` and `IsMalformedLink` say,
  without regard to evaluation order, which links are kept, what is kept of
  them and which links make the loop throw.
- `SlackNotification` — `sendSlackNotification`: `ComposeBlocks` builds the
  block list by successive pushes. `WellShaped` states its shape, and
  `SendSlackNotification` maps the webhook's reply to the outcome.
- `Validation` — `validateEnvironmentVariables` (the environment is a map of
  strings) and `validateRequestBody`.
- `ReleaseHandler` — the order validate environment, validate body, fetch,
  post. Each outbound request is recorded as a `Call`.
- `JsValue` — parsed JSON as JavaScript values. It also models the language
  operations the source relies on: truthiness, `typeof … === 'object'`,
  property reads that throw a `TypeError` on `undefined`/`null`, `for...of`
  over arrays and strings, and the string conversion of template literals
  (`Render`). That conversion throws `Cannot convert object to primitive value`
  for an object with its own `toString` property (`Converts` says which values
  convert).
- `Errors`, `Http`, `Text`, `Wrappers` — error values and their messages, the
  reply record, string helpers (`startsWith`, `join`, `split`, decimal
  rendering) and `Result`/`Option`.
- `Scenarios` — a concrete response carried through extraction and composition, and values that have no string form.

Points where `api/jira-release.js` behaves in a way a reader might not expect:

- A blocking issue's summary comes from the link itself (api/jira-release.js:35-38).
- A key or summary that is an object with its own `toString` property passes
  validation, for example the body `{"issue":{"key":{"toString":1}}}`. The
  template literal that then renders it throws a `TypeError` (lines 12, 46, 62
  and 70), and the handler answers 500. When the request body's key is such an
  object, no request is sent at all.
- A variable set to the empty string counts as missing, as well as an absent one
  (`!process.env[env]`, line 124).
- The success response carries the key of the issue Jira returned (line 196),
  not the key from the request body.
- Error messages, including Jira's status text, are returned to the caller in
  the 500 response (line 208).

## Model

| member | source | states |
|---|---|---|
| JsValue.Prop | api/jira-release.js:31-37 | reading a property throws exactly when the value is `undefined` or `null`, with V8's "Cannot read properties of …" error; otherwise it reads the own property, or `undefined` |
| JsValue.PropOfTruthy | api/jira-release.js:148 | reading a property of a truthy value never throws (used by `ValidateRequestBody` for `body.issue` and `body.issue.key`) |
| JsValue.Render | api/jira-release.js:12 | a template literal converts a value exactly when `Converts` holds: no object that owns a `toString`, itself or among an array's elements, recursively. The text is then `ToText` (`undefined`, `null`, the decimal number, the string, `[object Object]`, or the elements joined by commas with `null`/`undefined` as empty). Otherwise it throws `Cannot convert object to primitive value` |
| JsValue.RenderElements | api/jira-release.js:12 | `join` of an array's elements from an index on converts exactly when each of those elements converts, and then gives the comma-joined text |
| JsValue.Iterated | api/jira-release.js:32 | `for...of` visits an array's elements or a string's code points; any other truthy value is "not iterable" |
| JiraIssue.LinkStepSpec | api/jira-release.js:34-39 | one loop iteration throws exactly on a malformed link; otherwise it pushes `{inwardIssue.key, inwardIssue.fields.summary}` for a "Blocks" link with a truthy `inwardIssue` and nothing for any other link |
| JiraIssue.BlockingLinksMembers | api/jira-release.js:34 | a link is kept if and only if it is a "Blocks" link with an `inwardIssue` |
| JiraIssue.BlockingLinksAppend | api/jira-release.js:30-41 | the filter preserves the tracker's order (it distributes over concatenation) |
| JiraIssue.CollectBlockingOkIff | api/jira-release.js:30-41 | the loop finishes without throwing if and only if no link is malformed |
| JiraIssue.CollectBlockingValue | api/jira-release.js:30-41 | a loop that finishes has pushed exactly the entries of the blocking links, in the tracker's order |
| JiraIssue.CollectBlockingFirstError | api/jira-release.js:32-40 | a loop that throws throws the error of the first malformed link |
| JiraIssue.CollectBlockingPrefixError | api/jira-release.js:32-40 | once an iteration throws, the loop's outcome is that error, whatever links follow |
| JiraIssue.ExtractBlockingIssues | api/jira-release.js:30-41 | the loop with `push` computes exactly `CollectBlocking` |
| JiraIssue.GetJiraIssueDetails | api/jira-release.js:9-53 | a request is made to `JIRA_BASE_URL/rest/api/3/issue/{key}?expand=issuelinks` exactly when the issue key converts to a string; otherwise the call throws `Cannot convert object to primitive value` before any request. After a request, the method computes exactly `IssueDetailsOf` for the response |
| JiraIssue.NotOkIsJiraApiError | api/jira-release.js:23-25 | a non-OK response is a `Jira API error` with its status and status text, and no details are produced |
| JiraIssue.DetailsOfIssue | api/jira-release.js:27-48 | details come only from an OK response with a JSON body. Their key and summary are the issue's, the key converts to a string, the URL is `JIRA_BASE_URL + "/browse/" + key`, and the blocking issues are the entries of the blocking links, in order |
| JiraIssue.AbsentLinksGiveNoBlocking | api/jira-release.js:30-31 | an issue whose `issuelinks` is absent or falsy yields details exactly when its key converts to a string, and they have no blocking issues |
| JiraIssue.IssueDetailsSucceedsIff | api/jira-release.js:23-48 | details are produced if and only if the response is OK, its body is JSON with `fields`, the issue's `key` converts to a string (line 46), and `fields.issuelinks` is falsy or an array without malformed links |
| SlackNotification.IssueLines | api/jira-release.js:69-70 | one line `• key: summary` per blocking issue, in order |
| SlackNotification.RenderLines | api/jira-release.js:69-70 | the issue lines are produced exactly when every blocking issue's key and summary convert to strings, and are then `IssueLines`; otherwise the `map` throws `Cannot convert object to primitive value` |
| SlackNotification.ComposeBlocks | api/jira-release.js:57-96 | the blocks are built exactly when the key, the summary and each blocking issue's key and summary convert to strings (`Renderable`), and the error is `Cannot convert object to primitive value` otherwise. When built, the header section comes first. An "Issues included in this release" section comes second exactly when there are blocking issues. A single actions block with one "View in Jira" button to the issue URL comes last. Length is 2 or 3 accordingly |
| SlackNotification.WellShapedIsUnique | api/jira-release.js:57-96 | the stated shape determines the block list completely |
| SlackNotification.IncludedLinesRecoverable | api/jira-release.js:68-79 | the middle section is the heading followed by the issue lines joined by newlines: when no key or summary contains a newline, splitting after the heading gives back exactly those lines |
| SlackNotification.SendSlackNotification | api/jira-release.js:55-120 | a message is posted exactly when the details are `Renderable`; it has fallback text `🚀 *New Release: key*` and well-shaped blocks. The outcome is the success result if and only if the details are renderable and the reply is OK. Otherwise it is `Cannot convert object to primitive value` when nothing was posted, and a `Slack webhook error` with status and status text when the reply is not OK |
| Validation.UnsetMembers | api/jira-release.js:124 | a name is reported missing if and only if it is required and absent or empty |
| Validation.UnsetAppend | api/jira-release.js:124 | the missing list keeps the order of the required list |
| Validation.NoneUnsetIffAllSet | api/jira-release.js:123-126 | nothing is missing if and only if all four variables are set |
| Validation.ValidateEnvironment | api/jira-release.js:122-141 | fails with "Missing …" listing the missing names if and only if some variable is missing. Otherwise it fails on a base URL without `http://`/`https://`, then on a Slack URL without `https://hooks.slack.com/`, and succeeds exactly when none of these holds |
| Validation.MissingInRequiredOrder | api/jira-release.js:123-127 | two missing names appear in the message in the order of the required list |
| Validation.ValidateRequestBody | api/jira-release.js:143-153 | passes if and only if the body is an object whose `issue` is an object with a truthy `key`. It fails with the "valid JSON object" error exactly when the body is not an array or object, and with the `issue.key` error otherwise |
| Validation.IssueKey | api/jira-release.js:182 | the key taken from a validated body is truthy |
| ReleaseHandler.HandleRelease | api/jira-release.js:173-211 | configuration and body errors make no request, and neither does a body key without a string form. A failed fetch, or details that a template literal cannot render, make only the issue request. Otherwise, exactly one message is posted to the Slack URL. The response is 200 with the fetched key and summary exactly when that post is answered OK, and otherwise 500 with the first error's message |
| Text.SplitJoin | api/jira-release.js:69-71 | joining with a one-character separator is undone by splitting at it, when no element contains it |
| Text.DecimalRoundTrip | api/jira-release.js:24 | the decimal rendering of a status code reads back as that code |
| Scenarios.OneInwardBlocker | api/jira-release.js:30-47 | of an inward "Blocks" link, an outward "Blocks" link and a "Relates" link, only the first is kept; the URL is the browse URL |
| Scenarios.OneLineListed | api/jira-release.js:68-79 | one blocking issue is listed as one line under the heading |
| Scenarios.NotFoundGivesNoDetails | api/jira-release.js:23-25 | a 404 gives the Jira API error and no details |
| Scenarios.KeyWithOwnToString | api/jira-release.js:148 | the body `{"issue":{"key":{"toString":1}}}` passes validation, but its key does not convert to a string |
| Scenarios.ArrayRendering | api/jira-release.js:12 | `["a", null, 7]` renders as `a,,7`; an array holding an object with its own `toString` does not render |

## Left out

- The HTTP plumbing of the handler (lines 155-171): CORS headers, the OPTIONS and non-POST branches, the `res` calls and timestamps. Only the order of the core calls and the 200/500 outcome are modelled.
- `fetch` itself: replies are inputs. A request that rejects, for example on a network failure, is not modelled. The Basic authorization header is recorded as the email and token it is built from; base64 encoding is not modelled.
- `JSON.stringify` of the Slack message: the message is a datatype, not its JSON text. `console` logging is not modelled.
- The message of a JSON parse failure is taken as given (the body's `Err` value), not derived from the response.
- Numbers are integers. Fractional values, and the exponent notation JavaScript uses from 10^21 on, are not modelled.
- JsValue.Render: integers beyond 2^53 are not rounded to doubles. `JSON.parse` rounds them, and `String` prints the shortest digits that read back as the double, so 2^64 prints as 18446744073709552000; the model prints every digit (lines 12, 46, 62, 70, 99).
- Property reads model own properties of parsed objects only. The source reads no array index, `length` or inherited property of a parsed value by name. The one inherited lookup it does trigger is the `toString`/`valueOf` of a template literal's conversion, and `Converts` models that.
- The `status` field of the success response (line 198) is never populated, so it is not modelled.
- `index.js` (Express wiring, 404 and error middleware, `listen`) and `api/health.js` (process introspection) are not part of this model.
- `api/jira-release.js` has no field-metadata lookup, custom-field heuristic or cross-reference link, so none is modelled.
- The environment is taken as unchanged between module load and the request. `validateEnvironmentVariables` reads `process.env` when it is called (lines 124, 131, 137). The fetches and the browse URL use constants captured at load (lines 4-7, used at 12, 46 and 103). The validated `Config` stands for those load-time constants; a change to the environment in between is not modelled.
