# ServiceNow admin assistant: tools, counters, history and knowledge search

This project models the deterministic logic that surrounds the HTTP calls and
the language model in the ServiceNow admin assistant. It also proves
properties of that model.

- **Record tools** (`servicenow_tools.py`). These are the three tools the admin
  agent calls:
  - query, with input `table|filter`;
  - create, with input `table|json`;
  - update, with input `table|sys_id|json`.

  Each tool has two parts. `Plan` parses the tool input: it either rejects
  the input with a fixed message or builds the one request to send.
  `Render` turns the store's response into the observation text. `Run`
  composes the two around a store, which is a function from request to
  response. It returns the observation together with the requests that
  were sent, so "no request on a parse error" can be stated.
- **Lenient counters**. `get_count` maps a stats response to a count and
  defaults to 0. `get_security_stats` reads two counts inside one `try`.
- **History fold and task description** (`admin_agent.py`). The history
  turns become `ROLE: content` lines, and those lines are placed in the
  agent's task text after the current request.
- **Knowledge search** (`study_buddy.py`). The tool builds a `LIKE` filter
  and renders the articles as `Article …` blocks, with the content cut to
  800 characters.

The model follows Python's semantics where the code depends on them:

| behaviour | how the model follows it |
|---|---|
| `str.split(sep, maxsplit)` | `PyStr.SplitN` |
| `str.strip()` | uses CPython's whitespace set |
| `str.upper()` | covers ASCII letters only |
| truthiness | modelled |
| `dict.get` | modelled |
| subscripts and `[:n]` slices | modelled |
| the text of `str()` on scalars | modelled |
| KeyError, AttributeError, "not iterable" | messages follow CPython's wording |

The HTTP client, JSON decoding and `json.dumps` are parameters:

- `Remote.Store` stands for the HTTP client;
- `PyJson.Codec` holds `json.loads`, `json.dumps(indent=2)`, `str()` of a list
  or dict, and the wording of a TypeError from subscripting.

Modules, one per file:

| file | module | contents |
|---|---|---|
| `wrappers.dfy` | `Wrappers` | `Option`, `Result` |
| `py_str.dfy` | `PyStr` | Python string operations |
| `py_json.dfy` | `PyJson` | decoded JSON values and the exceptions raised on them |
| `remote.dfy` | `Remote` | requests, responses, URLs, the `Connection Failed` wrapper |
| `servicenow_tools.dfy` | `ServiceNowTools` | the record tools and the counters |
| `admin_agent.dfy` | `AdminAgent` | the history fold and task description |
| `study_buddy.dfy` | `StudyBuddy` | knowledge search |

Facts about the code that the model keeps:

- The query and create tools split at the first `|` only. The update tool
  splits at the first two pipes only, so extra pipes stay in the last
  piece.
- An empty `sys_id` is accepted.
- JSON that does not decode is reported with the same format error as a
  missing pipe. `json.JSONDecodeError` is a subclass of `ValueError`, so
  the "Invalid JSON" handlers can never run.
- The count is whatever value sits at `result.stats.count`, not
  necessarily an integer.
- Every request goes to the one fixed instance URL.

## Model

| member | source | states |
|---|---|---|
| ServiceNowTools.PlanQuery | servicenow_tools.py:171-182 | The query tool rejects exactly the inputs without a pipe, using its format error. Otherwise the table is the stripped text before the first pipe. The filter is the stripped text after it, later pipes included. The request is a GET with limit 5 and display values. |
| ServiceNowTools.QueryParseRoundTrip | servicenow_tools.py:172-182 | Joining a pipe-free table and any filter with a pipe parses back to that table and filter, both stripped. |
| ServiceNowTools.QueryRejectsWithoutPipe | servicenow_tools.py:172-175 | An input without a pipe gives the format error and sends no request. |
| ServiceNowTools.RenderQuery | servicenow_tools.py:184-199 | Status 200 gives "No records found." when the `result` is falsy (or missing and defaulting to an empty list), and the JSON dump of `result` otherwise. Any other status gives `Error: {status} - {body}`. A transport failure, an undecodable body, or a body that is not a dict gives `Connection Failed: ` plus the exception text. |
| ServiceNowTools.PlanCreate | servicenow_tools.py:205-214 | A missing pipe and JSON that does not decode both give the create format error. Otherwise the request is a POST of the decoded value, of any JSON type, to the stripped table. |
| ServiceNowTools.CreateParseRoundTrip | servicenow_tools.py:206-214 | For a pipe-free table and any JSON text, undecodable JSON gives the format error, and decodable JSON gives a POST of exactly that value. |
| ServiceNowTools.RecordOf | servicenow_tools.py:224-225 | Reading the record from a success body (the same read at servicenow_tools.py:257-258) fails in three ways. A body that does not decode raises the decoder's error. A body that is not a dict raises `'<type>' object has no attribute 'get'`. A `result` that is not a dict raises the same error naming the result's type. Otherwise the read gives the `result` dict. |
| ServiceNowTools.CreateNeverReportsInvalidJson | servicenow_tools.py:206-212 | Whatever the input and the store, the create tool never answers "Error: Invalid JSON data provided.". |
| ServiceNowTools.RenderCreate | servicenow_tools.py:216-229 | Only status 201 gives `Success! Record created. SysID: {sys_id} \nNumber: {number}`. Those fields come from the `result` dict, and a missing field prints as `None`. Every other status, 200 included, gives the status error. A transport failure gives `Connection Failed: ` plus its message. A malformed 201 body gives `Connection Failed: ` plus the text of the exception `RecordOf` names. |
| ServiceNowTools.RenderCreateLead | servicenow_tools.py:216-229 | After a request, a create observation starts with `C` for a connection failure, with `Error: ` followed by a digit for a status error, or with `Success!`. |
| ServiceNowTools.CreateSuccessOnlyOn201 | servicenow_tools.py:223-227 | The create observation starts with "Success!" if and only if a request was sent and the store answered 201 with a body whose `result` is a dict. |
| ServiceNowTools.PlanUpdate | servicenow_tools.py:235-245 | Every rejection carries the update format error, and an input with fewer than two pipes is always rejected. |
| ServiceNowTools.UpdateParseRoundTrip | servicenow_tools.py:236-247 | For a pipe-free table and id and any JSON text (pipes allowed), undecodable JSON gives the format error. Decodable JSON gives a PUT of that value to `table.strip()/sys_id.strip()`. |
| ServiceNowTools.UpdateAcceptsEmptySysId | servicenow_tools.py:237-247 | An empty record id is accepted, and the PUT goes to the collection URL followed by `/`. |
| ServiceNowTools.UpdateNeverReportsInvalidJson | servicenow_tools.py:236-245 | Whatever the input and the store, the update tool never answers "Error: Invalid JSON data provided.". |
| ServiceNowTools.RenderUpdate | servicenow_tools.py:249-262 | Only status 200 with a record gives `Success! Record updated. SysID: {sys_id}`. Every other status gives the status error. A transport failure gives `Connection Failed: ` plus its message. A malformed 200 body gives `Connection Failed: ` plus the text of the exception `RecordOf` names. |
| ServiceNowTools.RenderUpdateLead | servicenow_tools.py:249-262 | After a request, an update observation starts with `C`, with `Error: ` followed by a digit, or with `Success!`. |
| ServiceNowTools.UpdateSuccessOnlyOn200 | servicenow_tools.py:256-260 | The update observation starts with "Success!" if and only if a request was sent and the store answered 200 with a body whose `result` is a dict. |
| ServiceNowTools.Run | servicenow_tools.py:171-262 | Each tool sends at most one request, and sends none exactly when parsing fails. In that case the observation is the parse error. Otherwise the one request is the planned one, and the observation renders the store's answer to it. |
| ServiceNowTools.CountOf | servicenow_tools.py:31-43 | `get_count` never raises. A transport failure, a non-200 status, or an exception while reading the body all give 0. |
| ServiceNowTools.CountReadsStats | servicenow_tools.py:39-40 | The body shape the stats endpoint answers with, `{result: {stats: {count: v}}}`, gives exactly `v`. |
| ServiceNowTools.CountFollowsGetChain | servicenow_tools.py:37-43 | For any 200 body, an undecodable body or a level that is not a dict gives 0. Each missing key takes its default: `{}` for `result` and `stats`, 0 for `count`. Otherwise the value at `result.stats.count` is returned, whatever other keys are present. |
| ServiceNowTools.GetSecurityStats | servicenow_tools.py:107-142 | The failed-logins count is requested first, and the new-admins count is requested only if reading the first did not raise. Both fields start at 0. An exception while reading the second count keeps the first one. |
| ServiceNowTools.SecurityStatsVersusCount | servicenow_tools.py:128-142 | When neither read raises, the security stats equal the two `get_count` values. When the first read raises, the admin count stays 0. |
| AdminAgent.TurnLine | admin_agent.py:41-43 | A turn gives a line exactly when its role (default `user`) is a string. Otherwise `upper` raises an AttributeError naming the role's type. |
| AdminAgent.FormatHistory | admin_agent.py:39-43 | The history block is produced exactly when every turn's role is a string. |
| AdminAgent.FirstBadRoleRaises | admin_agent.py:40-43 | The exception comes from the earliest turn whose role is not a string. |
| AdminAgent.FormatHistoryAppend | admin_agent.py:39-43 | Formatting distributes over concatenation: `fmt(h1 + h2)` is `fmt(h1) + fmt(h2)`, and the first failure wins. |
| AdminAgent.SingleTurn | admin_agent.py:41-43 | A turn's line is the upper-cased role, then `: `, then the content copied verbatim, then a line break. |
| AdminAgent.HistoryDefaults | admin_agent.py:39-43 | An empty history gives an empty block. A turn with neither key gives `USER: \n`. |
| AdminAgent.BuildHistory | admin_agent.py:39-43 | The accumulating loop yields exactly the fold, and stops at the first exception. |
| AdminAgent.OneLinePerTurn | admin_agent.py:40-43 | With line-free roles and contents, the block holds exactly one line break per turn. |
| AdminAgent.TaskDescription | admin_agent.py:47-63 | The task description exists exactly when the history can be formatted. |
| AdminAgent.RequestBeforeHistory | admin_agent.py:48-52 | The request text appears verbatim in the description, and the history block appears verbatim after it. |
| StudyBuddy.FilterRecoversQuery | study_buddy.py:32 | The filter is `short_descriptionLIKE`, then the query unescaped, then `^workflow_state=published`. The query can be read back from it. |
| StudyBuddy.FilterInjective | study_buddy.py:32 | Different queries give different filters. |
| StudyBuddy.ArticleBlocks | study_buddy.py:49 | The records give one block each, in response order, unless some record raises. |
| StudyBuddy.FirstBadRecordRaises | study_buddy.py:49 | The first record that raises decides the exception. |
| StudyBuddy.RunKnowledge | study_buddy.py:29-53 | The search sends exactly one request, whatever the query: a GET with no body on `kb_knowledge`. Its parameters are `sysparm_query` set to `short_descriptionLIKE` + query + `^workflow_state=published`, a `sysparm_limit` of 3, and `sysparm_fields` set to `short_description,text,number`. The query can be read back verbatim from the filter. The observation renders the store's answer to that request. |
| StudyBuddy.RenderKnowledge | study_buddy.py:37-53 | A transport failure gives `Connection Failed: ` plus the message. A non-200 status gives `Error fetching data: {status}` without the body. |
| StudyBuddy.ErrorIgnoresBody | study_buddy.py:50-51 | For a non-200 status, the observation does not depend on the body. |
| StudyBuddy.KnowledgeBadBody | study_buddy.py:45-46 | A 200 whose body does not decode gives `Connection Failed: ` plus the decoder's message. A body that is not a dict gives `Connection Failed: '<type>' object has no attribute 'get'`. |
| StudyBuddy.ResultNotAList | study_buddy.py:46-49 | A truthy `result` that is not a list fails on its first element. A string or dict gives the TypeError for subscripting a `str` with `['number']`. Any other value gives `'<type>' object is not iterable`. |
| StudyBuddy.NoArticles | study_buddy.py:45-48 | A 200 whose `result` is missing or falsy gives exactly "No articles found.". |
| StudyBuddy.ArticlesInOrder | study_buddy.py:49 | A 200 with n well-formed records gives their n blocks in response order, joined by a blank line. |
| StudyBuddy.BadRecordFails | study_buddy.py:37-53 | A record that raises turns the whole observation into `Connection Failed: ` plus that exception's text. |
| StudyBuddy.MissingKeyRaises | study_buddy.py:49 | A record missing `number`, `short_description` or `text` raises a KeyError for the first missing key, in that order. |
| StudyBuddy.BlockContent | study_buddy.py:49 | For any record that has the three keys and a string `text`, whatever else it holds, the block is `Article `, then `str()` of the number, `: `, `str()` of the title, `\nContent: `, exactly the first 800 characters of the text (the whole text when shorter), and `...`. |
| PyStr.Strip | servicenow_tools.py:177-179 | `strip()` gives a piece with no whitespace at either end, never longer than its input. |
| PyStr.StripPadded | servicenow_tools.py:177-179 | Whitespace around a piece that starts and ends with non-space is removed, and nothing else is. |
| PyStr.StripIdempotent | servicenow_tools.py:177-179 | Stripping twice is stripping once. |
| PyStr.SplitN | servicenow_tools.py:237 | `split(sep, n)` gives one more piece than the smaller of n and the number of separators. Joining the pieces with the separator gives the input back, and only the last piece may contain the separator. |
| PyStr.SplitTwiceJoin | servicenow_tools.py:237-240 | Two separator-free pieces and any third piece, joined by the separator, split back into exactly those three. |
| PyStr.Upper | admin_agent.py:43 | `upper()` keeps the length and maps each lower-case ASCII letter to its capital, leaving other characters alone. |
| PyStr.NatToStringRoundTrip | servicenow_tools.py:197 | The decimal text of a status code reads back as that number. |

## Left out

- The HTTP client, basic authentication, headers and credential loading are left out. The store is a function parameter that answers each request with a transport failure or a status and body.
- JSON decoding, `json.dumps(indent=2)` and `str()` of lists and dicts are left out. They are parameters of `PyJson.Codec`; only the branches the code takes on their results are modelled.
- The wording of the TypeError raised by subscripting a non-dict is version-dependent, so it is also a parameter.
- Floats in JSON are left out; numbers are integers.
- Unicode case mapping in `str.upper()` is left out; only ASCII letters change case. `str.strip()` uses the full set of characters CPython treats as whitespace.
- History entries that are not dicts are left out: a turn is always a map. In the code, such an entry raises an AttributeError for `get` at its own position in the loop, unless an earlier turn has already raised.
- The agent, task and crew set-up, `kickoff()`, the language model, `analyze_error_log`, `get_question_crew` and `get_grading_crew` are left out. Their behaviour lives in an external service.
- Building the task description is modelled. Executing it is not.
- The `instance_url` passed to the tools at admin_agent.py:20-22 is left out because the tools ignore it and always use the fixed instance URL.
- `get_instance_stats` and `get_integration_health` are left out. They are fixed query literals around the same count logic as `get_count`.
- `get_applications` and `get_recent_errors` are left out. They are fixed table queries that return the `result` list of a 200 response, and an empty list otherwise.
- PyJson.Json: a decoded object is a map, so the key order of a Python dict is not kept. `json.dumps` and `str()` print a dict's keys in insertion order, but `PyJson.Codec` cannot give two orderings of the same object different text. Observations that print a whole dict are modelled only up to key order: the query tool's dump of `result` and `str()` of a dict-valued field.
- The web front end (`server.py`) and the manual connectivity scripts are not part of this model.
- ServiceNowTools.PlanUpdate: its own contract states only the rejections. The accepted form is stated by ServiceNowTools.UpdateParseRoundTrip, for inputs whose table and id contain no pipe.
- ServiceNowTools.CountOf: its own contract states only the cases that give 0. The value read from any 200 body is stated by ServiceNowTools.CountFollowsGetChain.
- StudyBuddy.RenderKnowledge: its own contract covers the transport and non-200 cases. The 200 case is stated by other lemmas:
  - StudyBuddy.KnowledgeBadBody: a body that does not decode or is not a dict;
  - StudyBuddy.NoArticles: a falsy `result`;
  - StudyBuddy.ResultNotAList: a truthy `result` that is not a list;
  - StudyBuddy.ArticlesInOrder: a list of well-formed records;
  - StudyBuddy.BadRecordFails: a list with a record that raises.
- StudyBuddy.BlockContent: it is stated for a string `text`. A list-valued `text` is cut to its first 800 items by `SlicePrefix` in `ArticleBlock` and printed by the codec's `str()`, with no lemma of its own.
- StudyBuddy.ArticlesInOrder: it covers only a list `result` whose records all succeed. The other truthy cases are stated by StudyBuddy.ResultNotAList and StudyBuddy.BadRecordFails.
