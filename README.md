# PagerDuty alert action — verified model

A GitHub Action that, when a workflow fails, raises a PagerDuty incident. It
builds a PagerDuty Events API v2 "trigger" event from the action's inputs and
the workflow run's context, posts it, and marks the step failed unless
PagerDuty answers `202 Accepted`.

This project models the two pieces of logic in `index.js`:

- **Building the event.** First the object literal: a default summary, a
  fixed source and severity, and `custom_details` holding the run URL and the
  rendered commit list with the caller's custom details spread over them.
  Then four guarded overrides, in order: summary, region, environment and
  dedup key. `Action.Initial` is the literal. `Action.Build` runs the
  overrides as a sequence of guarded updates. `Action.Conforms` states what
  the action promises about the event, and `Action.ConformsDeterminesAlert`
  shows that the promise pins the event down completely.
- **Reading the answer.** `Action.Classify` treats status 202 as success
  and every other status as failure. The failure message names the status
  code and the response data.

`Action.Run` puts the two together. It also covers the error raised when the
custom details cannot be decoded: the step fails and nothing is sent.

Files:

- `wrappers.dfy`: `Option` and `Result`.
- `text.dfy`: join with a separator, decimal rendering, infix search.
- `action.dfy`: the data model, the event builder, the status check, and
  worked scenarios (module `Scenarios`).

Host interfaces are parameters. These are the inputs (already read and
decoded), the run context (owner, repo, workflow, actor, run id, the push
event's commits), the timestamp (an opaque string), and PagerDuty's response
(a status code and the response data as JSON text).

The event object is freshly built and nothing else refers to it. The spread
copies the caller's details, so the caller's object is never aliased.
Updating a local value in `Build` therefore has the same effect as the
source's in-place field assignments.

At `index.js:36` the test is JavaScript truthiness. An empty `commits` array
is truthy, so it renders as `""`. Only a missing array gives `"No related
commits"`. `Action.FallbackOnlyWhenAbsent` and
`Scenarios.DefaultInputsWithEmptyCommitArray` state this.

## Model

| member | source | states |
|---|---|---|
| `Action.Initial` | index.js:28-44 | The literal has the default summary and no dedup key. Its custom details are exactly the caller's keys plus `run_details` and `related_commits`. Every caller key keeps the caller's value, so it wins over a computed one. The computed values remain wherever the caller supplies none. |
| `Action.Build` | index.js:28-60 | The built event satisfies `Conforms`. The routing key is the integration key. The action is `trigger`, the severity `critical`, the source `GitHub Actions`, and the timestamp the one supplied. The summary is the custom summary when it is non-empty, and otherwise `repo: Error in "workflow" run by @actor`. `dedup_key` is present iff the input is non-empty, and then equals it. A non-empty region or environment sets that key to the exact string, overwriting any caller value. Other caller keys keep their values. `run_details` is `https://github.com/owner/repo/actions/runs/runId` and `related_commits` is the rendered list, each unless the caller overrides it. No other key is present. |
| `Action.OverridesConform` | index.js:39-56 | After the spread, the guarded `region` and `environment` assignments give details that satisfy the details part of `Conforms`. A non-empty input's key holds that exact string, overwriting the caller's value. Every other caller key keeps its value. The computed defaults stay where the caller supplies none, and no other key appears. |
| `Action.ConformsDeterminesAlert` | index.js:28-60 | Two events that both satisfy the promise for the same inputs, context and timestamp are equal. So the promise leaves nothing about the event open. |
| `Action.FallbackOnlyWhenAbsent` | index.js:36-38 | `related_commits` is `"No related commits"` if and only if the event has no `commits` array. A present array, even an empty one, never renders as the fallback. |
| `Action.RelatedCommits` | index.js:36-38 | No commit array gives `"No related commits"`. An empty array gives `""`. A non-empty array's rendering begins with the first commit's `message: url` entry. `Action.FallbackOnlyWhenAbsent` (fallback iff absent) and `Action.RelatedCommitsInOrder` (input order) fix the rest of its meaning. |
| `Action.RelatedCommitsInOrder` | index.js:36-37 | Commits render in input order. The first commit's `message: url` entry comes first, then `", "` and the rendering of the rest. A single commit renders as its entry alone. |
| `Action.Classify` | index.js:9-14 | Success iff the status is 202. On success the log contains the response data. On failure the message contains the status code in decimal and the response data. |
| `Action.Run` | index.js:19-64 | If decoding the custom details fails, nothing is sent and the step fails with the decoding error's message. Otherwise the event sent satisfies `Conforms`. The step then succeeds iff PagerDuty answered 202, and on failure its message names the status and the response data. |
| `Text.JoinAppend` | index.js:37 | Joining a concatenation of two non-empty lists gives the two joins with one separator between them. So the join keeps element order. |
| `Text.Join` | index.js:37 | The `.join(', ')`, defined as the ECMAScript algorithm runs it: left to right, a separator before every element after the first. An empty list joins to `""`, and a non-empty join begins with its first element. `Text.JoinAppend` fixes the rest of its meaning. |
| `Text.DecimalString` | index.js:35 | A number renders as a non-empty string of digits. The first digit is `0` only for the number 0. |
| `Text.DecimalRoundTrip` | index.js:13 | The decimal rendering of a status code (or run id) reads back as that same number. So the failure message really names the status. |
| `Scenarios.DefaultInputsSummary` | index.js:28-60 | Take integration key `abc123`, every other input empty, and run 42 of workflow `CI` in `org/myrepo`, started by `alice`. The summary is `myrepo: Error in "CI" run by @alice` and there is no dedup key. |
| `Scenarios.DefaultInputsRunDetails` | index.js:35 | For that run, `run_details` is `https://github.com/org/myrepo/actions/runs/42`. |
| `Scenarios.DefaultInputsWithoutCommits` | index.js:34-40 | With the same inputs and no commit array, the details hold exactly `run_details` and `related_commits`, and `related_commits` is `No related commits`. |
| `Scenarios.DefaultInputsWithEmptyCommitArray` | index.js:36-38 | With the same inputs but an empty commit array, `related_commits` is `""`. |
| `Scenarios.StatusScenarios` | index.js:9-14 | Status 202 with `{"status":"success"}` succeeds. Status 400 with `{"message":"Invalid payload"}` fails with a message containing `400` and that body. |

## Left out

- Reading inputs with `core.getInput` (index.js:21, 23-26) is host input reading. The model takes the strings after reading, so the whitespace trimming `getInput` does is not modelled.
- `JSON.parse` of the custom details (index.js:22) is library decoding. The model takes the decoded object. A decoding error is an abstract `Failure` carrying its message.
- Action.Inputs: custom details are assumed to decode to a JSON object. Spreading another JSON value is not modelled (a string spreads its characters as index keys; `null` or a number adds nothing).
- Action.Value: JSON values the caller supplies are opaque, except for strings. Their structure never affects the event.
- Key order in `custom_details` is not modelled, because a `map` has no order. This affects only how the JSON is serialised.
- The clock (`new Date().toISOString()`, index.js:31) is a timestamp string passed in.
- The HTTP POST (index.js:7) is network I/O. The response is a parameter, and transport errors (caught at index.js:62-64) are not modelled. With its default settings axios throws for statuses outside 200-299. Such a status then ends in the catch handler with axios's own message instead of the message at index.js:13. axios is not part of this model, so `Classify` models lines 9-14 as written.
- `JSON.stringify` of the response data (index.js:10, 13) is library serialisation. The body is an opaque string.
- `console.log`, `core.setFailed` and the async wrapper (index.js:10, 12, 19-20, 63) are logging and process signalling. They become the `Outcome` value.
- Action.Context: the run id is a non-negative integer rendered in decimal. A missing run id (which JavaScript would render as `NaN`) is not modelled. Neither are the two bounds the decimal rendering ignores. `parseInt` of the run id is exact only below 2^53. JavaScript writes numbers from 10^21 upwards in exponent form. Real run ids and HTTP statuses are far below both.
