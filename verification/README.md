# Tracker endpoint: intake, routing and tool replies

A Dafny model of the deterministic decision layer of the tracker service
(`api.py`), a Flask endpoint that hands a natural-language request to an LLM
agent which creates, fills and queries "tracker" tables in MySQL. The model
covers the three pieces of local logic that sit around the agent and the
language-model calls:

- **Query intake and validation** in the `/response` view: the query is taken
  from the JSON body, else the form (POST), or from the URL argument (any
  other method); a missing or falsy query is answered with
  `{"error": "No query provided"}` and status 400 before the agent runs; any
  exception afterwards is answered with `{"error": str(e)}` and status 500.
- **The intent router**: a case-sensitive substring test for `"visualise"` or
  `"Visualise"` sends the request to the chart extractor, anything else to the
  narrative explainer; both receive `"User : " + query + " Agent : " + result`.
- **The error-as-string tools** `create_table` and `insert_info`: each turns
  the outcome of one opaque SQL execution into a tagged message and never
  raises; `create_table` turns an error mentioning `"already exists"` into a
  skip notice.

Files, one module each:

- `strings.dfy` (`Strings`): Python's `sub in s` on strings (`Contains`),
  proved equal to the existential specification `Occurs`.
- `py.dfy` (`Py`): the values a decoded JSON body can hold, their truthiness,
  and the `in`, `[...]` and `+` operators with the exceptions they raise.
- `tools.dfy` (`Tools`): `create_table` and `insert_info`, with readers that
  recover the reported status from a reply.
- `router.dfy` (`Router`): the router and the shared context string.
- `endpoint.dfy` (`Endpoint`): the `/response` view. The agent run, the Groq
  client construction and the two language-model calls are opaque functions
  in a `Services` value; `Handle` returns the reply together with the trace of
  collaborator calls it made, so "no agent work happens" is stated about that
  trace.

The sources of the query do not form one priority chain: a POST never reads
the URL arguments, and a GET or HEAD never reads the body or the form
(api.py:194-202). Also, a JSON body whose `"query"` entry is present but
empty is rejected even when the form holds a query.

## Model

| member | source | states |
|---|---|---|
| Strings.Contains | api.py:219 | Python's `sub in s` on two strings is true exactly when some index of `s` starts a copy of `sub` |
| Strings.MissingCharRulesOut | api.py:219 | a string lacking any one character of `sub` does not contain `sub` |
| Py.Truthy | api.py:197-204 | a value is falsy exactly when it is `None`, `False`, `0`, `0.0`, `""`, `[]` or `{}`: the test behind `if data` and `if not query` |
| Py.In | api.py:197 | `k in v`: substring test on a str, element equality on a list, key membership on a dict, and a TypeError on None, bool and numbers |
| Py.Subscript | api.py:198 | `v["query"]` yields the entry only for a dict holding the key; a list or str raises the "indexed by str" TypeError |
| Py.ConcatStr | api.py:220 | `"User : " + v` succeeds exactly for a str `v`, giving the prefix followed by `v`; any other value raises |
| Tools.ClassifyCreate | api.py:94-100 | `create_table` reports success exactly when the execution returned, a skip exactly when the raised error mentions "already exists", a failure carrying the error text otherwise |
| Tools.CreateTable | api.py:94-100 | the reply carries the success label iff the execution returned, equals the skip notice iff the raised error mentions "already exists", carries the failure label otherwise; the result or error text follows the label |
| Tools.CreateTableReadsBack | api.py:94-100 | every `create_table` reply parses back into the decision that produced it, so the three kinds of reply never collide |
| Tools.ExistingTableIsSkipped | api.py:97-99 | any raised error text containing "already exists" yields exactly the skip notice and never a failure label |
| Tools.ReturnedTextIsLabelledSuccess | api.py:95-121 | both tools label any returned text a success, whatever it says; only a raised error is labelled a failure |
| Tools.ClassifyInsert | api.py:119-123 | `insert_info` reports success with the result exactly when the execution returned, a failure with the error text otherwise |
| Tools.InsertInfo | api.py:119-123 | the reply carries the success label iff the execution returned and the failure label iff it raised, followed by the result or error text |
| Tools.InsertInfoReadsBack | api.py:119-123 | every `insert_info` reply parses back into the decision that produced it |
| Tools.RepliesAreDistinct | api.py:96-123 | no `create_table` reply equals any `insert_info` reply |
| Router.Route | api.py:219 | a str query goes to the chart path exactly when "visualise" or "Visualise" occurs in it |
| Router.RouteValue | api.py:219 | the router condition on any query value: a str is routed by `Route`; a list goes to the chart path iff it holds either spelling as an element, a dict iff it has either spelling as a key; None, bool and numbers raise |
| Router.Context | api.py:220 | the context starts with "User : ", the query and " Agent : ", and the agent result follows |
| Router.ContextDeterminesResult | api.py:220 | for a fixed query, distinct agent results give distinct contexts |
| Router.KeywordSelectsVisualize | api.py:219 | either spelling anywhere in the query selects the chart path |
| Router.NoLetterLMeansExplain | api.py:219 | a query without the letter 'l' goes to the narrative path |
| Router.CapitalisedRequestIsVisualized | api.py:219 | "Visualise my water intake" goes to the chart path |
| Router.PlainRequestIsExplained | api.py:219 | "Show my water intake" goes to the narrative path |
| Router.UpperCaseRequestIsExplained | api.py:219 | "VISUALISE my water intake" goes to the narrative path: the match is case-sensitive |
| Router.AmericanSpellingIsExplained | api.py:219 | "visualize" goes to the narrative path: only the British spelling is recognised |
| Endpoint.Lookup | api.py:200-202 | `form.get("query")` / `args.get("query")`: a str value exactly when the key is present, `None` otherwise |
| Endpoint.SelectQuery | api.py:194-202 | a non-POST request takes the URL argument only; a POST without a truthy JSON body takes the form field |
| Endpoint.Serve | api.py:209-309 | a present query starts exactly one agent run, then makes at most one further call, which is a language-model call and only happens for a str query; the status is 200 exactly when there is output, else 500 |
| Endpoint.Answer | api.py:304-305 | a language-model result becomes `{"output": value}` with 200, a raised error becomes a 500 carrying it |
| Endpoint.Handle | api.py:192-358 | the status is 200, 400 or 500, 200 exactly with output; at most two calls are made, and any call made starts with the kickoff of the selected, present query |
| Endpoint.JsonQueryWins | api.py:194-198 | for a POST whose JSON body is a dict with a "query" key, that entry is the query, whatever it holds and whatever the form says |
| Endpoint.FormIsTheFallback | api.py:194-200 | for a POST whose body is absent, falsy, or a dict without "query", the form field is the query |
| Endpoint.ArgsOnlyForGet | api.py:201-202 | for a non-POST request only the URL argument is read; body and form do not matter |
| Endpoint.ScalarBodyRaises | api.py:197 | a truthy number or bool JSON body makes the membership test raise |
| Endpoint.ListBodyWithQueryRaises | api.py:197-198 | a JSON list holding "query" passes the membership test and then raises when indexed by a str |
| Endpoint.RejectsExactlyMissingQuery | api.py:204-205 | the reply is 400 exactly when the selected query is missing or falsy; it is then `{"error": "No query provided"}` and no collaborator is called |
| Endpoint.EmptyJsonQueryIsRejected | api.py:196-205 | an empty JSON "query" in a POST is rejected with no call, even when the form holds a query |
| Endpoint.EmptyFieldIsRejected | api.py:199-205 | an empty form field (POST without JSON) or URL argument (other methods) is rejected with no call |
| Endpoint.StringQueryPipeline | api.py:213-309 | a non-empty str query makes one kickoff, then one call to the chart extractor iff the query holds "visualise"/"Visualise", else to the explainer, with prompt "User : " + query + " Agent : " + result; the reply is that call's output or a 500 |
| Endpoint.SameContextOnBothPaths | api.py:219-309 | requests selecting the same str query get the same exchange, and the model call's prompt is the context of the query and agent result, on either path |
| Endpoint.KickoffFailureIsServerError | api.py:213-358 | an exception from the agent run becomes a 500 carrying it, after the one kickoff and before any model call |
| Endpoint.ClientFailureIsServerError | api.py:216-358 | an exception while building the Groq client becomes a 500 after the kickoff, with no model call |
| Endpoint.IntakeFailureIsServerError | api.py:193-358 | an exception during query selection becomes a 500 with no call |
| Endpoint.NonStringQueryNeverReachesModel | api.py:219-220 | a present query that is not a str still starts the agent but never reaches a language model and ends in a 500 |
| Endpoint.NonStringQueryFault | api.py:219-220 | for a non-str query, a list or dict fails at the context's `+`, a number or bool at the router's `in` |

## Left out

- Flask transport: CORS, `jsonify`, `app.run` and the real `request` object (api.py:1-2, 27-28, 361-362). A request is a datatype; form fields and URL arguments are maps holding the first value of each key, as `MultiDict.get` returns. OPTIONS requests are answered by Flask itself and are not modelled.
- The LangChain SQL tools `list_tables`, `tables_schema`, `execute_sql` and `check_sql` (api.py:50-79): they only delegate to library code that is not part of this model. Whether `QuerySQLDatabaseTool.invoke` raises or returns error text is unknown, so the execution outcome is an input of `create_table` and `insert_info`.
- The CrewAI agent loop (api.py:136-189, 213): it is driven by the language model and has no iteration bound in the code; the run is the opaque `kickoff` function.
- `AgentResultSummarizer` and the Groq chat completions (api.py:216-305, 311-355): the results are opaque functions. The equal-length and empty-for-mutations rules for `x_axis`/`y_axis` (api.py:252, 266-270) exist only in prompt text and the schema sent to the model; no local code enforces them, so the model claims nothing about the chart payload. A missing tool call in the model's response surfaces as an exception of `extractChart`.
- Streak and gap detection (api.py:331-334): only prompt wording, no code.
- `extract_date` (api.py:102-107): it reads the wall clock and pytz time-zone data.
- The `print` of the explainer output (api.py:353): console output only.
- Configuration: environment and credential loading, the MySQL settings and the unused matplotlib import (api.py:17, 25, 30, 37-47, 129).
- Interpreter exception text: an interpreter `TypeError` or `KeyError` is modelled by which operation failed on which type (`Fault`), not by CPython's message text, whose wording varies between Python versions; the 500 body carries that fault in place of the text.
- Unpaired surrogates: a JSON string with an unpaired surrogate escape (`"\ud800"`) decodes to a Python `str` holding a lone surrogate, which a Dafny string cannot hold; such queries are not modelled.
- Non-finite JSON numbers: JSON numbers are an `int` or a `real`; the non-standard `NaN` and `Infinity` that `json.loads` also accepts are not modelled.
