# ServiceOps AI agent — a Dafny model of its orchestration core

ServiceOps AI watches Azure infrastructure metrics, asks a chat-completion
model for recommendations on a polling schedule, and answers operator
questions with the current metrics as context. This project models the logic
at its centre and proves properties of it:

- the bounded chat history (20 turns, oldest evicted first) and how a chat
  turn is assembled and recorded by the direct agent (`backend/ai_agent.py`)
  and by the ReAct variant (`backend/serviceopsai_agent.py`);
- the metrics digest injected into the chat system prompt;
- the recommendation request with its failure sentinel, and one polling cycle
  of each agent, including which failures it swallows and when it skips;
- `start`, the loop of cycle-then-sleep, over a finite number of iterations,
  including the exception `time.sleep` raises for a negative or too large
  polling interval;
- the status envelope of the monitoring tool (`backend/monitoring_tool.py`);
- the dashboard logic of `frontend/app.js`: threshold classification, the
  metric cards, the system summary counts and the chat input guard.

The language model, the metrics provider and the recommendation sink are
inputs. The model is a function from a request body to `Ok(text)` or
`Err(message)`. Each provider call is a reply: `Err` when it raised, `Ok(None)`
for Python `None`, `Ok(Some(list))` otherwise. Every operation returns an
explicit outcome. A chat turn returns the reply, the new agent state and, for
the direct agent, the request bodies it sent. A polling cycle records the
requests or prompts it sent, the recommendations it handed to the sink, and
the exception it caught. Mappings are ordered `(key, value)` sequences, because Python dicts
and JavaScript objects keep insertion order.

Files: `wrappers.dfy` (Option, Result), `text.dfy` (Python `str(int)` and
`join`, JavaScript `trim`), `assoc.dfy` (ordered lookup, first match,
filter-map and its characterisation), `metrics.dfy` (snapshot data model and
Python `repr`), `conversation.dfy`, `openai_request.dfy`, `digest.dfy`,
`agent_state.dfy`, `ai_agent.dfy`, `monitoring_tool.dfy`, `react_agent.dfy`,
`polling.dfy`, `dashboard.dfy`, `scenarios.dfy` (small concrete inputs).

Behaviour of the code that a reader might not expect, kept in the model:

- `get_openai_recommendation` has no empty-snapshot check. With `[]` or `None`
  it still sends a prompt. The skip lives only in the direct agent's cycle.
- In `chat_with_ai` the first provider call and `len(current_metrics)` sit
  outside the `try`. A provider exception, or a `None` result, propagates
  instead of yielding the apology (`AiAgent.ChatWithAi` returns `Err`).
- The code appends both turns and then bounds the history once.
  `Conversation.StepwiseBoundAgrees` proves that bounding after each append
  gives the same history.
- The ReAct cycle checks only the envelope's status. A successful provider
  call that returned `[]` or `None` is still sent to the agent
  (`ReactAgent.EmptySnapshotStillAnalysed`).
- The dashboard counts statuses `critical` and `warning` only. Any other
  status, including `error`, is counted as healthy
  (`Scenarios.ErrorStatusCountsAsHealthy`).

Edge cases the model keeps:

- Python treats `bool` as numeric, so the digest may pick a boolean. JavaScript
  `typeof` does not, so a card may pick a later entry
  (`Scenarios.BooleansDivergeBetweenDigestAndCard`).
- Python's `if main_metric:` rejects an empty key. A service whose first
  reading has the key `""` gets no digest line
  (`Scenarios.EmptyKeySuppressesDigestLine`).
- A non-empty snapshot with no readings gives the empty digest, not "No
  metrics data available." (`Digest.NoReadingsNoLines`).

## Model

| member | source | states |
|---|---|---|
| Conversation.Bound | backend/ai_agent.py:151-152 | the trimmed history has at most 20 turns, all of them if there were at most 20, and is the newest suffix of the input |
| Conversation.AfterExchange | backend/ai_agent.py:147-152 | after a successful turn the history ends with the user turn then the assistant turn, is a suffix of old history plus those two, is old plus the two when they fit, and otherwise holds exactly 20 turns |
| Conversation.AfterExchangeValid | backend/ai_agent.py:147-152 | a recorded exchange keeps the history at most 20 turns long, of even length, alternating user then assistant |
| Conversation.ReplayValid | backend/ai_agent.py:37-37 | every history reachable from the empty one by successful turns is valid (at most 20, even, alternating) |
| Conversation.ReplayKeepsNewest | backend/ai_agent.py:147-152 | after any series of successful turns the history is exactly the last 20 of everything appended, in order (oldest evicted first) |
| Conversation.ManyExchangesKeepLastTen | backend/ai_agent.py:147-152 | ten or more successful turns leave exactly 20 entries: the last ten exchanges |
| Conversation.StepwiseBoundAgrees | backend/ai_agent.py:147-152 | bounding after each of the two appends gives the same history as appending both and bounding once |
| Conversation.TranscriptAppend | backend/ai_agent.py:147-148 | the turns of two consecutive series of exchanges are the turns of the first followed by those of the second |
| OpenAiRequest.MakeBody | backend/ai_agent.py:177-183 | the body always has `model` gpt-4o, `messages` and `max_tokens`, and has a `temperature` field exactly when one was supplied, carrying that value |
| AiAgent.RecommendationPrompt | backend/ai_agent.py:78-86 | the recommendation prompt contains the printed snapshot between two `####` delimiter lines |
| AiAgent.GetOpenAiRecommendation | backend/ai_agent.py:68-98 | the request is exactly a system turn then a user turn, with max_tokens 300 and no temperature; the result is the model's text on success and "Error fetching recommendation from OpenAI." on any failure |
| AiAgent.ChatSystemTurn | backend/ai_agent.py:112-133 | the chat system turn has the system role and contains both the number of records the provider returned and the metrics digest |
| AiAgent.ChatRequest | backend/ai_agent.py:118-144 | the chat messages are exactly the system turn, then the whole history oldest first, then the user turn, with max_tokens 500 and temperature 0.7 |
| AiAgent.CompleteChat | backend/ai_agent.py:139-157 | one request is sent; on failure the apology is returned and the agent is unchanged; on success the reply is the model's text and the history is the last 20 of old plus user and assistant turns |
| AiAgent.ChatWithAi | backend/ai_agent.py:100-157 | a failing or `None` first provider call propagates with nothing sent and nothing changed; otherwise exactly one chat request is sent, a failed completion returns the apology with the history untouched, a successful one returns its text and records the exchange; validity of the history is preserved |
| AiAgent.AnsweredChatCarriesDigest | backend/ai_agent.py:111-152 | an answered chat sends the digest inside the system turn and grows a history with room by exactly two turns, keeping the old turns in front |
| AiAgent.FetchAndAnalyzeMetrics | backend/ai_agent.py:47-57 | a provider exception is caught with nothing sent or posted; an absent or empty snapshot is skipped; otherwise exactly one request is sent, with the system and user turns, max_tokens 300 and no temperature, and exactly one recommendation (text or sentinel) is posted |
| Polling.Start | backend/ai_agent.py:41-45 | with an interval `time.sleep` accepts, iteration k runs the cycle on the k-th input and then sleeps for the interval, whatever earlier cycles did; with an interval it rejects, the first sleep raises and `start` ends after one cycle; no cycle ever ends the loop; the ReAct agent's `start` (`backend/serviceopsai_agent.py`, lines 71-75) is the same loop |
| Polling.SleepError | backend/ai_agent.py:45-45 | `time.sleep` accepts exactly the intervals from 0 to 9223372036 seconds; beyond that in either direction the 64-bit nanosecond conversion overflows, and a smaller negative interval is rejected as negative |
| AgentState.NewAgent | backend/ai_agent.py:29-38 | a new agent has an empty (valid) history and the configured polling interval, 300 by default |
| Digest.ServiceLine | backend/ai_agent.py:204-212 | a service yields a line exactly when its first Python-numeric non-status entry exists and has a non-empty key, and the line carries that entry |
| Digest.OneLinePerReadingService | backend/ai_agent.py:201-213 | the digest lines correspond one to one, in record and service order, to the services that yield a line |
| Digest.LinesAppend | backend/ai_agent.py:202-212 | the loops carry nothing from one record to the next: the lines of two snapshots together are the lines of each, in order |
| Digest.DigestShowsEveryLine | backend/ai_agent.py:212-214 | every rendered line `name - key: value` appears in the newline-joined digest |
| Digest.DigestFallbacks | backend/ai_agent.py:195-217 | a failed provider call gives "Metrics context not available."; an absent or empty snapshot gives "No metrics data available." |
| Digest.NoReadingsNoLines | backend/ai_agent.py:201-214 | services without a reading contribute no line, so a snapshot with none gives the empty digest |
| MonitoringTool.Run | backend/monitoring_tool.py:25-41 | a returned snapshot becomes status "success" with `metrics` unchanged; an exception becomes status "error" with its message; `metrics` is present exactly on success and `error` exactly on error; it never raises |
| ReactAgent.AnalysisPrompt | backend/serviceopsai_agent.py:90-100 | the analysis prompt contains the printed metrics |
| ReactAgent.ChatWithAi | backend/serviceopsai_agent.py:110-138 | if the agent raises, the apology is returned and the state is unchanged; otherwise the reply is the agent's text and the history is the last 20 of old plus user and assistant turns; validity is preserved |
| ReactAgent.AnalyseEnvelope | backend/serviceopsai_agent.py:79-108 | an empty envelope or a status other than "success" skips the cycle with nothing caught; a "success" envelope is analysed exactly when it has a `metrics` field, and without one the `KeyError` is caught; the one prompt is built from that field; the answer is posted once, or the agent's exception is caught and nothing posted |
| ReactAgent.FetchAndAnalyzeMetrics | backend/serviceopsai_agent.py:77-108 | a provider exception skips the cycle; a successful call sends one prompt containing the printed metrics, posts the answer once, or catches the agent's exception and posts nothing |
| ReactAgent.EmptySnapshotStillAnalysed | backend/serviceopsai_agent.py:81-86 | a successful provider call returning `[]` or `None` is still sent to the agent |
| Dashboard.ThresholdsOrdered | frontend/app.js:28-33 | in every table row the warning threshold is below the critical one |
| Dashboard.MetricStatus | frontend/app.js:27-41 | a metric outside the table is normal; for a known metric the status is critical iff value ≥ critical, warning iff warning ≤ value < critical, normal otherwise |
| Dashboard.MetricStatusMonotone | frontend/app.js:35-40 | raising a value never lowers its status |
| Dashboard.KnownMetricsUseEveryStatus | frontend/app.js:28-40 | every known metric reaches each of normal, warning and critical for some value |
| Dashboard.ServiceCard | frontend/app.js:48-75 | a service yields a card exactly when it has a JavaScript-number entry outside `status`, and the card shows the first such entry |
| Dashboard.OneCardPerReadingService | frontend/app.js:44-79 | the cards correspond one to one, in service order, to the services that have such an entry |
| Dashboard.CountStatus | frontend/app.js:87-90 | the count is exactly the number of services whose status is the given one; so it is at most the number of services and positive iff some service has that status |
| Dashboard.CountsPartition | frontend/app.js:86-126 | critical, warning and other services add up to all services |
| Dashboard.UpdateSystemSummary | frontend/app.js:82-141 | a failed request or an empty snapshot leaves the badge untouched and shows the error panel; otherwise the badge is critical iff some service of the first record is critical, warning iff none is critical and some is warning, normal otherwise; the panel shows the counts (critical + warning + healthy = total) and the recommendation when the response has one, and the error panel when it does not, with the badge already set |
| Dashboard.SummaryReadsFirstRecordOnly | frontend/app.js:86-86 | records after the first do not influence the summary |
| Dashboard.SendMessage | frontend/app.js:219-224 | input that is empty after trimming is not sent and the box keeps its text; otherwise the trimmed text, with no whitespace at either end, is sent and the box is cleared |
| Text.Trim | frontend/app.js:220-220 | the result is a slice of the input with only whitespace cut off at both ends, starts and ends with non-whitespace, and is empty iff the input is all whitespace |
| Scenarios.WarningGatewayDigest | backend/ai_agent.py:202-214 | a service `{status: "warning", ErrorRate: 4.5}` gives the digest "Gateway - ErrorRate: 4.5" |
| Scenarios.WarningGatewayChat | backend/ai_agent.py:111-152 | asking about that service sends "Gateway - ErrorRate: 4.5" upstream and appends two turns |
| Scenarios.BooleansDivergeBetweenDigestAndCard | backend/ai_agent.py:205-208 | a boolean before an integer is the digest's reading (printed "True") but the card shows the integer |
| Scenarios.EmptyKeySuppressesDigestLine | backend/ai_agent.py:210-212 | a first reading under the empty key gives no digest line, although the card shows it |
| Scenarios.ErrorStatusCountsAsHealthy | frontend/app.js:86-126 | a service with status "error" is counted healthy and the overall status stays normal |

## Left out

- The HTTP transport: the `requests.post` calls, `raise_for_status`, the response JSON indexing and `.strip()` of `_make_openai_request`, and both `send_recommendation` methods. The language model is a function from request body to text or error. The sink is recorded as the list of recommendations handed to it; its success or failure only affects logging.
- The llama_index `ReActAgent` and `OpenAI` objects, `ToolMetadata` and the agent's own memory. `agent.chat` is an abstract call that returns text or raises, and it is the same function in every cycle.
- `time.sleep`, the infinite `while True` loop and `threading.Thread`. `start` is modelled over a finite sequence of iterations. A sleep is an event in the trace, and so is the `ValueError` or `OverflowError` an out-of-range interval raises; the exact `OverflowError` wording differs between Python versions.
- Concurrent chat requests under Flask. The history is single-owner state passed in and returned.
- `backend/api.py`, the Flask routes. They call into the core but are not part of this model. `backend/azure_monitor.py` is a fixed fixture; its shape is the data model.
- Environment and configuration loading: `load_dotenv`, the API key, `API_URL`, and parsing `POLLING_INTERVAL` with `int(...)`.
- Logging.
- The wording of prompts and the indentation inside the f-strings. Prompts are abbreviated constants in the same places.
- Python `repr` escaping of strings, of any kind: no escaped quotes, backslashes, newlines, tabs or non-printable characters, and no switch to double quotes for text containing `'`. Strings are shown in single quotes as they are.
- The float-to-text conversion. A float carries the text Python prints for it.
- The frontend's DOM building, `fetch`, `setInterval`, animations, `marked.parse`, `formatTimestamp` and `formatRelativeTime`. Cards and summaries are records, not HTML, and a card keeps the raw timestamp.
- `getMetricStatus` is never called in `frontend/app.js`. It is modelled as written.
- JavaScript lists integer-like object keys first in `Object.entries`. The model keeps insertion order.
- The HTTP layer's JSON encoding may reorder keys before the dashboard sees them. The dashboard model takes the order it is given.
- Dashboard.ServiceCard: a log message that is not a string shows as empty, and `logs` must be a list. JavaScript would print a non-empty non-string message and would index into other shapes.
- Dashboard.UpdateSystemSummary: a `recommendation` field that is present but not a string is treated as missing. `marked.parse` rejects non-string input, so it also ends in the error panel.
- JavaScript `NaN` and the coercion of non-numeric values in `getMetricStatus` comparisons. Values are reals.
