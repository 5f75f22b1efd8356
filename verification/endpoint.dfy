/** The `/response` handler of api.py (lines 191-220, 307-309, 357-358):
    query intake by source priority, rejection of a missing or empty query,
    one agent run, routing, and one language-model call on the chosen path,
    with every exception turned into a 500 reply.

    The agent run, the Groq client construction and the two language-model
    calls are opaque collaborators, given as a `Services` value. `Handle`
    returns the reply together with the trace of collaborator calls it made,
    so that "no agent work happens" is a statement about that trace. */
module Endpoint {
  import opened Strings
  import opened Py
  import opened Router

  /** Flask dispatches GET and POST to the view, and HEAD as a GET. */
  datatype Method = Get | Head | Post

  /** An inbound request: the HTTP method, the body as decoded by
      `get_json(silent=True)` (`None` when it is not JSON), and the first value
      of each form field and URL argument. */
  datatype Request = Request(
    verb: Method,
    json: Option<Value>,
    form: map<string, string>,
    args: map<string, string>)

  /** The collaborators the handler calls, as functions of what they are given.
      The summarizer builds a second Groq client from the same environment as
      the first, so one `clientFailure` stands for both constructions. */
  datatype Services = Services(
    kickoff: Value -> Outcome<string, Exception>,     // crew.kickoff(inputs={"query": q}), then str(...)
    clientFailure: Option<Exception>,                 // what Groq(api_key=...) raises, if anything
    extractChart: string -> Outcome<Value, Exception>, // AgentResultSummarizer(...).summarize(prompt)
    narrate: string -> Outcome<Value, Exception>)      // the explainer's chat completion content

  /** A call the handler makes to a collaborator. */
  datatype Call = Kickoff(query: Value) | ExtractChart(prompt: string) | Narrate(prompt: string)

  /** The JSON reply: `{"output": value}`, or `{"error": str(reason)}`. */
  datatype Body = Output(value: Value) | Error(reason: Exception)

  datatype Reply = Reply(status: int, body: Body)

  /** A reply together with the collaborator calls made to produce it, in order. */
  datatype Exchange = Exchange(reply: Reply, calls: seq<Call>)

  const QueryKey: string := "query"
  const NoQueryText: string := "No query provided"
  const Rejection: Reply := Reply(400, Error(Message(NoQueryText)))

  /** `form.get("query")` or `args.get("query")`. */
  function Lookup(m: map<string, string>, key: string): (r: Option<Value>)
    ensures r.Some? <==> key in m
    ensures r.Some? ==> r.value == VStr(m[key])
  {
    if key in m then Some(VStr(m[key])) else None
  }

  /** The query a request carries, by source priority: for a POST, the JSON
      body's "query" entry when the body is truthy and has one, else the form
      field; for any other method, the URL argument. Evaluating
      `"query" in data` and `data["query"]` on a body that is not a dict can
      raise. */
  function SelectQuery(req: Request): (r: Outcome<Option<Value>, Exception>)
    ensures req.verb != Post ==> r == Ok(Lookup(req.args, QueryKey))
    ensures req.verb == Post && (req.json.None? || !Truthy(req.json.value)) ==> r == Ok(Lookup(req.form, QueryKey))
  {
    if req.verb == Post then
      match req.json
      case None => Ok(Lookup(req.form, QueryKey))
      case Some(data) =>
        if !Truthy(data) then Ok(Lookup(req.form, QueryKey))
        else
          match In(QueryKey, data)
          case Raised(e) => Raised(e)
          case Ok(found) =>
            if !found then Ok(Lookup(req.form, QueryKey))
            else
              match Subscript(data, QueryKey)
              case Raised(e) => Raised(e)
              case Ok(q) => Ok(Some(q))
    else
      Ok(Lookup(req.args, QueryKey))
  }

  /** `not query` is false: the query is there and truthy. */
  predicate Present(q: Option<Value>)
  {
    q.Some? && Truthy(q.value)
  }

  /** The handler after intake, for a present query. */
  function Serve(query: Value, svc: Services): (x: Exchange)
    requires Truthy(query)
    ensures 1 <= |x.calls| <= 2 && x.calls[0] == Kickoff(query)
    ensures x.reply.status == 200 || x.reply.status == 500
    ensures x.reply.status == 200 <==> x.reply.body.Output?
    ensures |x.calls| == 2 ==> query.VStr?
    ensures |x.calls| == 2 ==> x.calls[1].ExtractChart? || x.calls[1].Narrate?
  {
    var kicked := [Kickoff(query)];
    match svc.kickoff(query)
    case Raised(e) => Exchange(Reply(500, Error(e)), kicked)
    case Ok(result) =>
      if svc.clientFailure.Some? then Exchange(Reply(500, Error(svc.clientFailure.value)), kicked)
      else
        match RouteValue(query)
        case Raised(e) => Exchange(Reply(500, Error(e)), kicked)
        case Ok(path) =>
          match ConcatStr(UserLabel, query)
          case Raised(e) => Exchange(Reply(500, Error(e)), kicked)
          case Ok(_) =>
            var prompt := Context(query.s, result);
            match path
            case Visualize => Answer(svc.extractChart(prompt), kicked + [ExtractChart(prompt)])
            case Explain => Answer(svc.narrate(prompt), kicked + [Narrate(prompt)])
  }

  /** The reply to a language-model outcome: its value as output, or a 500. */
  function Answer(o: Outcome<Value, Exception>, calls: seq<Call>): (x: Exchange)
    ensures x.calls == calls
    ensures o.Ok? ==> x.reply == Reply(200, Output(o.value))
    ensures o.Raised? ==> x.reply == Reply(500, Error(o.error))
  {
    match o
    case Ok(v) => Exchange(Reply(200, Output(v)), calls)
    case Raised(e) => Exchange(Reply(500, Error(e)), calls)
  }

  /** The `/response` view. */
  function Handle(req: Request, svc: Services): (x: Exchange)
    ensures x.reply.status == 200 || x.reply.status == 400 || x.reply.status == 500
    ensures x.reply.status == 200 <==> x.reply.body.Output?
    ensures |x.calls| <= 2
    ensures x.calls != [] ==>
              && SelectQuery(req).Ok? && Present(SelectQuery(req).value)
              && x.calls[0] == Kickoff(SelectQuery(req).value.value)
  {
    match SelectQuery(req)
    case Raised(e) => Exchange(Reply(500, Error(e)), [])
    case Ok(q) =>
      if !Present(q) then Exchange(Rejection, [])
      else Serve(q.value, svc)
  }

  // ---------------------------------------------------------------------------
  // Intake

  /** For a POST whose JSON body is a dict with a "query" key, that entry is the
      query, whatever it holds (even an empty string) and whatever the form says. */
  lemma JsonQueryWins(req: Request, otherForm: map<string, string>)
    requires req.verb == Post && req.json.Some? && req.json.value.VDict?
    requires QueryKey in req.json.value.entries
    ensures SelectQuery(req) == Ok(Some(req.json.value.entries[QueryKey]))
    ensures SelectQuery(req.(form := otherForm)) == SelectQuery(req)
  {
    KeyedDictIsTruthy(req.json.value.entries, QueryKey);
  }

  /** For a POST whose body is absent, falsy, or a dict without a "query" key,
      the form field is the query. */
  lemma FormIsTheFallback(req: Request)
    requires req.verb == Post
    requires req.json.None? || !Truthy(req.json.value)
      || (req.json.value.VDict? && QueryKey !in req.json.value.entries)
    ensures SelectQuery(req) == Ok(Lookup(req.form, QueryKey))
  {
  }

  /** For any other method only the URL argument is consulted. */
  lemma ArgsOnlyForGet(req: Request, otherJson: Option<Value>, otherForm: map<string, string>)
    requires req.verb != Post
    ensures SelectQuery(req) == Ok(Lookup(req.args, QueryKey))
    ensures SelectQuery(req.(json := otherJson, form := otherForm)) == SelectQuery(req)
  {
  }

  /** A truthy number or bool body makes `"query" in data` raise. */
  lemma ScalarBodyRaises(req: Request)
    requires req.verb == Post && req.json.Some?
    requires req.json.value.VBool? || req.json.value.VInt? || req.json.value.VFloat?
    requires Truthy(req.json.value)
    ensures SelectQuery(req) == Raised(Builtin(NotIterable(KindOf(req.json.value))))
  {
  }

  /** A list body holding the string "query" passes the membership test, and
      then indexing it with a string raises. */
  lemma ListBodyWithQueryRaises(req: Request, j: int)
    requires req.verb == Post && req.json.Some? && req.json.value.VList?
    requires 0 <= j < |req.json.value.items| && req.json.value.items[j] == VStr(QueryKey)
    ensures SelectQuery(req) == Raised(Builtin(IndexedByStr(ListType)))
  {
  }

  // ---------------------------------------------------------------------------
  // Rejection

  /** The handler answers 400 exactly when the selected query is missing or
      falsy; it then answers `{"error": "No query provided"}` and makes no call. */
  lemma RejectsExactlyMissingQuery(req: Request, svc: Services)
    ensures Handle(req, svc).reply.status == 400
        <==> SelectQuery(req).Ok? && !Present(SelectQuery(req).value)
    ensures Handle(req, svc).reply.status == 400
        ==> Handle(req, svc).reply == Rejection && Handle(req, svc).calls == []
  {
  }

  /** An empty JSON "query" in a POST is rejected, even when the form holds a query. */
  lemma EmptyJsonQueryIsRejected(req: Request, svc: Services)
    requires req.verb == Post && req.json.Some? && req.json.value.VDict?
    requires QueryKey in req.json.value.entries && req.json.value.entries[QueryKey] == VStr("")
    ensures Handle(req, svc).reply == Rejection
    ensures Handle(req, svc).calls == []
  {
    JsonQueryWins(req, req.form);
  }

  /** Without a JSON body, a form or URL value that is an empty string is rejected too. */
  lemma EmptyFieldIsRejected(req: Request, svc: Services)
    requires req.verb != Post ==> Lookup(req.args, QueryKey) == Some(VStr(""))
    requires req.verb == Post ==> req.json.None? && Lookup(req.form, QueryKey) == Some(VStr(""))
    ensures Handle(req, svc) == Exchange(Rejection, [])
  {
  }

  // ---------------------------------------------------------------------------
  // Pipeline

  /** A non-empty string query is run through the agent once; then, unless the
      agent run or the client construction raises, exactly one language-model
      call follows: the chart extractor when the query contains "visualise" or
      "Visualise", the narrative explainer otherwise. Both are given the same
      context `"User : " + query + " Agent : " + result`, and the reply is the
      model's output or a 500 carrying what it raised. */
  lemma StringQueryPipeline(req: Request, svc: Services, query: string, result: string)
    requires SelectQuery(req) == Ok(Some(VStr(query))) && query != ""
    requires svc.kickoff(VStr(query)) == Ok(result) && svc.clientFailure.None?
    ensures var prompt := "User : " + query + " Agent : " + result;
      var x := Handle(req, svc);
      && (Occurs(query, "visualise") || Occurs(query, "Visualise") ==>
           x == Answer(svc.extractChart(prompt), [Kickoff(VStr(query)), ExtractChart(prompt)]))
      && (!(Occurs(query, "visualise") || Occurs(query, "Visualise")) ==>
           x == Answer(svc.narrate(prompt), [Kickoff(VStr(query)), Narrate(prompt)]))
  {
  }

  /** Both paths hand their model the same string: the context built from the
      query and the agent result, and nothing else about the request. */
  lemma SameContextOnBothPaths(req1: Request, req2: Request, svc: Services, query: string)
    requires SelectQuery(req1) == Ok(Some(VStr(query))) && query != ""
    requires SelectQuery(req2) == SelectQuery(req1)
    ensures Handle(req1, svc) == Handle(req2, svc)
    ensures |Handle(req1, svc).calls| == 2 ==>
      Handle(req1, svc).calls[1].prompt == Context(query, svc.kickoff(VStr(query)).value)
  {
  }

  /** An exception from the agent run becomes a 500 carrying its text, after the
      single kickoff and before any language-model call. */
  lemma KickoffFailureIsServerError(req: Request, svc: Services, e: Exception)
    requires SelectQuery(req).Ok? && Present(SelectQuery(req).value)
    requires svc.kickoff(SelectQuery(req).value.value) == Raised(e)
    ensures Handle(req, svc) == Exchange(Reply(500, Error(e)), [Kickoff(SelectQuery(req).value.value)])
  {
  }

  /** An exception while building the Groq client becomes a 500 after the kickoff. */
  lemma ClientFailureIsServerError(req: Request, svc: Services, result: string)
    requires SelectQuery(req).Ok? && Present(SelectQuery(req).value)
    requires svc.kickoff(SelectQuery(req).value.value) == Ok(result)
    requires svc.clientFailure.Some?
    ensures Handle(req, svc) == Exchange(Reply(500, Error(svc.clientFailure.value)),
                                         [Kickoff(SelectQuery(req).value.value)])
  {
  }

  /** An exception during intake becomes a 500 before any call. */
  lemma IntakeFailureIsServerError(req: Request, svc: Services, e: Exception)
    requires SelectQuery(req) == Raised(e)
    ensures Handle(req, svc) == Exchange(Reply(500, Error(e)), [])
  {
  }

  /** A present query that is not a string (a number, bool, list or dict taken
      from a JSON body) still starts the agent, but never reaches a language
      model: the router's `in` test or the context's `+` raises. */
  lemma NonStringQueryNeverReachesModel(req: Request, svc: Services)
    requires SelectQuery(req).Ok? && Present(SelectQuery(req).value)
    requires !SelectQuery(req).value.value.VStr?
    ensures Handle(req, svc).reply.status == 500
    ensures Handle(req, svc).calls == [Kickoff(SelectQuery(req).value.value)]
  {
  }

  /** A truthy dict, list or number JSON query fails at the context's `+` or at the router. */
  lemma NonStringQueryFault(q: Value, svc: Services, result: string)
    requires Truthy(q) && !q.VStr? && svc.kickoff(q) == Ok(result) && svc.clientFailure.None?
    ensures q.VList? || q.VDict? ==> Serve(q, svc).reply == Reply(500, Error(Builtin(ConcatNonStr(KindOf(q)))))
    ensures !(q.VList? || q.VDict?) ==> Serve(q, svc).reply == Reply(500, Error(Builtin(NotIterable(KindOf(q)))))
  {
  }
}
