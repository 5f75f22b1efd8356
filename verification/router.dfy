/** The intent router of the `/response` handler (api.py lines 219-220 and
    309): a case-sensitive substring test picks the chart-extraction path or
    the narrative path, and both paths are handed the same context string. */
module Router {
  import opened Strings
  import opened Py

  /** Visualize: the structured chart extractor. Explain: the narrative explainer. */
  datatype Path = Visualize | Explain

  const VisualiseLower: string := "visualise"
  const VisualiseCapital: string := "Visualise"

  /** The router on a `str` query. */
  function Route(query: string): (p: Path)
    ensures p == Visualize <==> Occurs(query, VisualiseLower) || Occurs(query, VisualiseCapital)
  {
    if Contains(query, VisualiseLower) || Contains(query, VisualiseCapital) then Visualize else Explain
  }

  /** The router condition `"visualise" in query or "Visualise" in query`
      evaluated on whatever value the query is, with `or` short-circuiting:
      a `str` query is routed by `Route`, a `list` or `dict` query by
      membership, and a number or bool query raises. */
  function RouteValue(query: Value): (r: Outcome<Path, Exception>)
    ensures query.VStr? ==> r == Ok(Route(query.s))
    ensures query.VList? ==> r == Ok(
      if VStr(VisualiseLower) in query.items || VStr(VisualiseCapital) in query.items
      then Visualize else Explain)
    ensures query.VDict? ==> r == Ok(
      if VisualiseLower in query.entries || VisualiseCapital in query.entries
      then Visualize else Explain)
    ensures r.Raised? <==> !(query.VStr? || query.VList? || query.VDict?)
  {
    match In(VisualiseLower, query)
    case Raised(e) => Raised(e)
    case Ok(lower) =>
      if lower then Ok(Visualize)
      else
        match In(VisualiseCapital, query)
        case Raised(e) => Raised(e)
        case Ok(capital) => Ok(if capital then Visualize else Explain)
  }

  const UserLabel: string := "User : "
  const AgentLabel: string := " Agent : "

  /** The context both post-processing paths receive. */
  function Context(query: string, result: string): (c: string)
    ensures HasPrefix(c, UserLabel + query + AgentLabel)
    ensures c[|UserLabel| + |query| + |AgentLabel|..] == result
  {
    PrefixThenRest(UserLabel + query + AgentLabel, result);
    UserLabel + query + AgentLabel + result
  }

  /** Given the query, the agent result can be read back from the context. */
  lemma ContextDeterminesResult(query: string, r1: string, r2: string)
    requires Context(query, r1) == Context(query, r2)
    ensures r1 == r2
  {
    var n := |UserLabel| + |query| + |AgentLabel|;
    assert r1 == Context(query, r1)[n..];
  }

  /** Either spelling anywhere in the query selects the chart path. */
  lemma KeywordSelectsVisualize(before: string, keyword: string, after: string)
    requires keyword == VisualiseLower || keyword == VisualiseCapital
    ensures Route(before + keyword + after) == Visualize
  {
    var q := before + keyword + after;
    assert q[|before|..|before| + |keyword|] == keyword;
    assert OccursAt(q, keyword, |before|);
  }

  /** A query in which the letter 'l' never occurs goes to the narrative path:
      both spellings of the keyword contain it. */
  lemma NoLetterLMeansExplain(query: string)
    requires forall j :: 0 <= j < |query| ==> query[j] != 'l'
    ensures Route(query) == Explain
  {
    MissingCharRulesOut(query, VisualiseLower, 5);
    MissingCharRulesOut(query, VisualiseCapital, 5);
  }

  /** The capitalised spelling at the start of a request selects the chart path. */
  lemma CapitalisedRequestIsVisualized()
    ensures Route("Visualise my water intake") == Visualize
  {
    KeywordSelectsVisualize("", VisualiseCapital, " my water intake");
    assert "Visualise my water intake" == "" + VisualiseCapital + " my water intake";
  }

  /** A request without the keyword goes to the narrative path. */
  lemma PlainRequestIsExplained()
    ensures Route("Show my water intake") == Explain
  {
    NoLetterLMeansExplain("Show my water intake");
  }

  /** The match is case-sensitive: the upper-case spelling is not recognised.
      It carries an upper-case 'L' where both spellings of the keyword need the
      lower-case 'l' at index 5, so neither can occur in it. */
  lemma UpperCaseRequestIsExplained()
    ensures Route("VISUALISE my water intake") == Explain
  {
    var q := "VISUALISE my water intake";
    assert q[5] == 'L' && VisualiseLower[5] == 'l' && VisualiseCapital[5] == 'l';
    MissingCharRulesOut(q, VisualiseLower, 5);
    MissingCharRulesOut(q, VisualiseCapital, 5);
  }

  /** The match is spelling-sensitive: the American spelling is not recognised. */
  lemma AmericanSpellingIsExplained()
    ensures Route("visualize") == Explain
  {
    var q := "visualize";
    assert !OccursAt(q, VisualiseLower, 0) by { assert q[7] != VisualiseLower[7]; }
    assert !OccursAt(q, VisualiseCapital, 0) by { assert q[0] != VisualiseCapital[0]; }
  }
}
