/** The argument guards of the analysis tools, in `app/analysis_tools.py`.
    The pandas computations themselves are abstract: a successful call
    yields a `Plan` naming the computation and the arguments it runs with. */
module Tools {
  import opened Optional
  import opened Text

  /** The aggregations `groupby_agg` accepts. */
  datatype Agg = Sum | Mean | Min | Max | Count

  function AggName(a: Agg): string
  {
    match a
    case Sum => "sum"
    case Mean => "mean"
    case Min => "min"
    case Max => "max"
    case Count => "count"
  }

  const AcceptedAggs: set<string> := {"sum", "mean", "min", "max", "count"}

  /** The `ValueError`s the tools raise, one constructor per message. */
  datatype ToolError =
    | UnknownColumn(column: string)
    | UnknownGroupColumn(group: string)
    | UnknownValueColumn(value: string)
    | InvalidAgg(agg: string)

  /** The computation a tool runs once its guards have passed. */
  datatype Plan =
    | ProfileTable                                  // profile_df(df)
    | ValueCounts(column: string, limit: int)       // df[column].value_counts().head(limit)
    | GroupSize(group: string)                      // df.groupby(group).size()
    | GroupAgg(group: string, value: string, agg: Agg)  // groupby(group)[value].agg(agg), value coerced to numbers

  datatype Result<T> = Ok(value: T) | Err(error: ToolError)

  /** `str(agg).lower().strip()` followed by the membership test. */
  function ParseAgg(agg: string): (r: Option<Agg>)
    ensures r.Some? <==> Strip(Lower(agg)) in AcceptedAggs
    ensures r.Some? ==> AggName(r.value) == Strip(Lower(agg))
  {
    var a := Strip(Lower(agg));
    if a == "sum" then Some(Sum)
    else if a == "mean" then Some(Mean)
    else if a == "min" then Some(Min)
    else if a == "max" then Some(Max)
    else if a == "count" then Some(Count)
    else None
  }

  /** The guard of `top_n`: an unknown column raises; otherwise `n` is
      clamped to [1, 100]. */
  function TopN(columns: seq<string>, column: string, n: int): (r: Result<Plan>)
    ensures r.Err? <==> column !in columns
    ensures r.Err? ==> r.error == UnknownColumn(column)
    ensures r.Ok? ==> r.value.ValueCounts? && r.value.column == column
                      && 1 <= r.value.limit <= 100
                      && (1 <= n <= 100 ==> r.value.limit == n)
                      && (n < 1 ==> r.value.limit == 1)
                      && (100 < n ==> r.value.limit == 100)
  {
    if column !in columns then Err(UnknownColumn(column))
    else Ok(ValueCounts(column, Clamp(n, 1, 100)))
  }

  /** The guards of `groupby_agg`: the group column, then the value column,
      then the aggregation name. A count does not read the value column. */
  function GroupByAgg(columns: seq<string>, group: string, value: string, agg: string): (r: Result<Plan>)
    ensures group !in columns ==> r == Err(UnknownGroupColumn(group))
    ensures group in columns && value !in columns ==> r == Err(UnknownValueColumn(value))
    ensures r.Ok? <==> group in columns && value in columns && Strip(Lower(agg)) in AcceptedAggs
    ensures r.Err? && group in columns && value in columns ==> r.error == InvalidAgg(agg)
    ensures r.Ok? && Strip(Lower(agg)) == "count" ==> r.value == GroupSize(group)
    ensures r.Ok? && Strip(Lower(agg)) != "count" ==>
              exists a :: a != Count && AggName(a) == Strip(Lower(agg)) && r.value == GroupAgg(group, value, a)
  {
    if group !in columns then Err(UnknownGroupColumn(group))
    else if value !in columns then Err(UnknownValueColumn(value))
    else match ParseAgg(agg)
      case None => Err(InvalidAgg(agg))
      case Some(a) => if a == Count then Ok(GroupSize(group)) else Ok(GroupAgg(group, value, a))
  }

  /** Every aggregation name round-trips through the parser. */
  lemma ParseAggName(a: Agg)
    ensures ParseAgg(AggName(a)) == Some(a)
  {
    var n := AggName(a);
    LowerFixed(n);
    StripFixed(n);
  }

  /** The parser accepts exactly the names whose normalisation (the same
      strip-and-lower-case the router applies) is an aggregation's name. */
  lemma ParseAggIff(agg: string, a: Agg)
    ensures ParseAgg(agg) == Some(a) <==> Norm(agg) == AggName(a)
  {
    LowerStripCommute(agg);
    var r := ParseAgg(agg);
    if Norm(agg) == AggName(a) {
      assert AggName(a) in AcceptedAggs by { match a case _ => }
      assert r.Some?;
      AggNameInjective(r.value, a);
    }
  }

  /** `AggName` is injective, so a name identifies one aggregation. */
  lemma AggNameInjective(a: Agg, b: Agg)
    requires AggName(a) == AggName(b)
    ensures a == b
  {
  }

  /** The groups of a count do not depend on which existing column is
      passed as the value. */
  lemma CountIgnoresValue(columns: seq<string>, group: string, v1: string, v2: string, agg: string)
    requires v1 in columns && v2 in columns
    requires ParseAgg(agg) == Some(Count)
    ensures GroupByAgg(columns, group, v1, agg) == GroupByAgg(columns, group, v2, agg)
  {
  }

  /** A missing group column is reported even when the value column is
      missing too. */
  lemma GroupCheckedFirst(columns: seq<string>, group: string, value: string, agg: string)
    requires group !in columns && value !in columns
    ensures GroupByAgg(columns, group, value, agg) == Err(UnknownGroupColumn(group))
  {
  }
}
