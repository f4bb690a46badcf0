/** How a router decision is executed: the dispatch on the tool name in
    `app/main.py` hands the decision's arguments to the tools' guards. */
module Pipeline {
  import Tools
  import opened Router

  /** Runs the guards of the tool `d` names against the table's columns. */
  function Execute(d: Decision, columns: seq<string>): Tools.Result<Tools.Plan>
  {
    match d
    case Profile(_) => Tools.Ok(Tools.ProfileTable)
    case TopN(c, n) => Tools.TopN(columns, c, n)
    case GroupByAgg(g, v, a) => Tools.GroupByAgg(columns, g, v, Tools.AggName(a))
  }

  /** The computation a decision asks for, with its arguments unchanged. */
  function Intended(d: Decision): Tools.Plan
  {
    match d
    case Profile(_) => Tools.ProfileTable
    case TopN(c, n) => Tools.ValueCounts(c, n)
    case GroupByAgg(g, v, a) =>
      if a == Tools.Count then Tools.GroupSize(g) else Tools.GroupAgg(g, v, a)
  }

  /** A decision whose column arguments exist and whose count lies in the
      router's range [1, 50] passes every guard and reaches the pandas
      computation with its own arguments: the executor's clamp to
      [1, 100] leaves the count alone and the aggregation name parses back
      to the same kind. */
  lemma AcceptedDecisionRuns(d: Decision, columns: seq<string>)
    requires ColumnArgsIn(d, columns)
    requires d.TopN? ==> 1 <= d.n <= 50
    ensures Execute(d, columns) == Tools.Ok(Intended(d))
  {
    if d.GroupByAgg? {
      Tools.ParseAggName(d.agg);
    }
  }

  /** Closure: every decision the local router makes, for any question and
      for the very columns it was routed against, passes the tools' guards
      (no unknown column, no invalid aggregation) and reaches the pandas
      computation with the arguments it was given. */
  lemma RouteClosure(question: string, columns: seq<string>)
    ensures Execute(RouteWithoutLlm(question, columns), columns)
            == Tools.Ok(Intended(RouteWithoutLlm(question, columns)))
  {
    AcceptedDecisionRuns(RouteWithoutLlm(question, columns), columns);
  }

  /** A `top_n` decision reaches pandas with the router's count unchanged. */
  lemma RouterCountUnchanged(column: string, n: int, columns: seq<string>)
    requires column in columns && 1 <= n <= 50
    ensures Tools.TopN(columns, column, n) == Tools.Ok(Tools.ValueCounts(column, n))
  {
  }
}
