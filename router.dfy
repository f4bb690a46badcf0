/** The deterministic intent router of `app/ia_router.py`: a question and the
    table's ordered column names are mapped to one of three tool calls by a
    fixed cascade of substring rules. */
module Router {
  import opened Optional
  import opened Text
  import Tools

  /** Substrings that suggest a numeric or quantity column, by priority. */
  const ValueHints: seq<string> := [
    "valor", "total", "amount", "price", "preco", "preço",
    "custo", "cost", "gasto", "receita", "revenue", "salario", "salário",
    "quantidade", "qtd", "litros", "horas", "tempo"
  ]

  /** Substrings that suggest a categorical column, by priority. */
  const GroupHints: seq<string> := [
    "categoria", "tipo", "posto", "loja", "cliente", "motorista",
    "veiculo", "veículo", "produto", "setor", "departamento", "mes", "mês", "ano"
  ]

  const TopTriggers: seq<string> := ["top", "mais frequente", "mais comuns", "mais comum"]
  const ProfileTriggers: seq<string> := ["perfil", "resumo", "colunas", "describe"]
  const Connector: string := " por "
  const PlaceholderColumn: string := "coluna"
  const DefaultTopN: int := 10

  /** Which of the four `profile` explanations the router gives. */
  datatype ProfileReason = NoColumns | NoValueColumn | Requested | Fallback

  /** The router's decision: the tool with its typed arguments. */
  datatype Decision =
    | Profile(reason: ProfileReason)
    | TopN(column: string, n: int)
    | GroupByAgg(group: string, value: string, agg: Tools.Agg)

  /** Every column-valued argument of `d` names one of `columns`. */
  ghost predicate ColumnArgsIn(d: Decision, columns: seq<string>)
  {
    match d
    case Profile(_) => true
    case TopN(c, _) => c in columns
    case GroupByAgg(g, v, _) => g in columns && v in columns
  }

  // ---------------------------------------------------------------------
  // Column matcher

  /** `re.search(rf"\b{re.escape(w)}\b", q)` succeeds at position `i`. */
  predicate WholeWordAt(q: string, w: string, i: int)
  {
    OccursAt(q, w, i) && Boundary(q, i) && Boundary(q, i + |w|)
  }

  /** The mention test of the matcher: `c_norm in q or re.search(...)`. */
  predicate Mentions(qn: string, column: string)
  {
    var cn := Norm(column);
    Contains(qn, cn) || (exists i | 0 <= i <= |qn| - |cn| :: WholeWordAt(qn, cn, i))
  }

  /** The whole-word disjunct adds nothing: a mention is exactly a
      substring occurrence of the normalised column name. */
  lemma MentionIsSubstring(qn: string, column: string)
    ensures Mentions(qn, column) <==> Contains(qn, Norm(column))
  {
    ContainsIff(qn, Norm(column));
  }

  lemma MentionsAreSubstrings(qn: string)
    ensures forall c {:trigger Mentions(qn, c)} :: Mentions(qn, c) <==> Contains(qn, Norm(c))
  {
    forall c ensures Mentions(qn, c) <==> Contains(qn, Norm(c)) {
      MentionIsSubstring(qn, c);
    }
  }

  /** `columns[j]` is the first column, in list order, that `qn` mentions. */
  ghost predicate IsFirstMention(qn: string, columns: seq<string>, j: int)
  {
    0 <= j < |columns| && Contains(qn, Norm(columns[j]))
    && forall j' :: 0 <= j' < j ==> !Contains(qn, Norm(columns[j']))
  }

  function FirstMentioned(qn: string, columns: seq<string>): (r: Option<string>)
    requires forall c {:trigger Mentions(qn, c)} :: Mentions(qn, c) <==> Contains(qn, Norm(c))
    ensures r.None? <==> forall j :: 0 <= j < |columns| ==> !Contains(qn, Norm(columns[j]))
    ensures r.Some? ==> exists j :: IsFirstMention(qn, columns, j) && columns[j] == r.value
  {
    if columns == [] then None
    else if Mentions(qn, columns[0]) then Some(columns[0])
    else
      var r := FirstMentioned(qn, columns[1..]);
      assert r.Some? ==> exists j :: IsFirstMention(qn, columns, j) && columns[j] == r.value by {
        if r.Some? {
          var j :| IsFirstMention(qn, columns[1..], j) && columns[1..][j] == r.value;
          FirstMentionShift(qn, columns, j);
        }
      }
      assert r.None? ==> forall j :: 0 <= j < |columns| ==> !Contains(qn, Norm(columns[j])) by {
        if r.None? {
          NoMentionShift(qn, columns);
        }
      }
      r
  }

  /** Past an unmentioned head, the first mention in the tail is the first
      mention of the whole list, one index later. */
  lemma FirstMentionShift(qn: string, columns: seq<string>, j: int)
    requires columns != [] && !Contains(qn, Norm(columns[0]))
    requires IsFirstMention(qn, columns[1..], j)
    ensures IsFirstMention(qn, columns, j + 1) && columns[j + 1] == columns[1..][j]
  {
    forall j' | 0 <= j' < j + 1 ensures !Contains(qn, Norm(columns[j'])) {
      if j' > 0 { assert columns[j'] == columns[1..][j' - 1]; }
    }
  }

  /** An unmentioned head and an unmentioned tail leave no mention. */
  lemma NoMentionShift(qn: string, columns: seq<string>)
    requires columns != [] && !Contains(qn, Norm(columns[0]))
    requires forall j :: 0 <= j < |columns[1..]| ==> !Contains(qn, Norm(columns[1..][j]))
    ensures forall j :: 0 <= j < |columns| ==> !Contains(qn, Norm(columns[j]))
  {
    forall j | 0 <= j < |columns| ensures !Contains(qn, Norm(columns[j])) {
      if j > 0 { assert columns[j] == columns[1..][j - 1]; }
    }
  }

  /** `_find_column_by_mention`: the first column whose normalised name is a
      substring of the normalised question, or `None` when there is none. */
  function FindColumnByMention(question: string, columns: seq<string>): (r: Option<string>)
    ensures r.None? <==> forall j :: 0 <= j < |columns| ==> !Contains(Norm(question), Norm(columns[j]))
    ensures r.Some? ==> exists j :: IsFirstMention(Norm(question), columns, j) && columns[j] == r.value
    ensures r.Some? ==> r.value in columns
  {
    var q := Norm(question);
    MentionsAreSubstrings(q);
    FirstMentioned(q, columns)
  }

  /** A question that mentions the first column yields that column. */
  lemma FirstColumnMentioned(question: string, columns: seq<string>)
    requires columns != [] && Contains(Norm(question), Norm(columns[0]))
    ensures FindColumnByMention(question, columns) == Some(columns[0])
  {
    var r := FindColumnByMention(question, columns);
    assert r.Some?;
    var j :| IsFirstMention(Norm(question), columns, j) && columns[j] == r.value;
  }

  // ---------------------------------------------------------------------
  // Heuristic column selectors

  /** `hint in _norm(column)`. */
  predicate HasHint(column: string, hint: string)
  {
    Contains(Norm(column), hint)
  }

  /** `(h, j)` is the first hit of the scan "for hint in hints: for c in
      columns": no column has an earlier hint, and no earlier column has
      hint `h`. */
  ghost predicate IsFirstHintHit(hints: seq<string>, columns: seq<string>, h: int, j: int)
  {
    0 <= h < |hints| && 0 <= j < |columns| && HasHint(columns[j], hints[h])
    && (forall h', j' :: 0 <= h' < h && 0 <= j' < |columns| ==> !HasHint(columns[j'], hints[h']))
    && (forall j' :: 0 <= j' < j ==> !HasHint(columns[j'], hints[h]))
  }

  ghost predicate NoHintHit(hints: seq<string>, columns: seq<string>)
  {
    forall h, j :: 0 <= h < |hints| && 0 <= j < |columns| ==> !HasHint(columns[j], hints[h])
  }

  /** `j` is the first column that carries `hint`. */
  ghost predicate IsFirstWithHint(hint: string, columns: seq<string>, j: int)
  {
    0 <= j < |columns| && HasHint(columns[j], hint)
    && forall j' :: 0 <= j' < j ==> !HasHint(columns[j'], hint)
  }

  /** The inner loop: the first column that carries `hint`. */
  function FirstWithHint(hint: string, columns: seq<string>): (r: Option<string>)
    ensures r.None? <==> forall j :: 0 <= j < |columns| ==> !HasHint(columns[j], hint)
    ensures r.Some? ==> exists j :: IsFirstWithHint(hint, columns, j) && columns[j] == r.value
  {
    if columns == [] then None
    else if HasHint(columns[0], hint) then
      assert IsFirstWithHint(hint, columns, 0);
      Some(columns[0])
    else
      var r := FirstWithHint(hint, columns[1..]);
      assert r.None? ==> forall j :: 0 <= j < |columns| ==> !HasHint(columns[j], hint) by {
        if r.None? {
          forall j | 0 <= j < |columns| ensures !HasHint(columns[j], hint) {
            if j > 0 { assert columns[j] == columns[1..][j - 1]; }
          }
        }
      }
      assert r.Some? ==> exists j :: IsFirstWithHint(hint, columns, j) && columns[j] == r.value by {
        if r.Some? {
          var j :| IsFirstWithHint(hint, columns[1..], j) && columns[1..][j] == r.value;
          forall j' | 0 <= j' < j + 1 ensures !HasHint(columns[j'], hint) {
            if j' > 0 { assert columns[j'] == columns[1..][j' - 1]; }
          }
          assert IsFirstWithHint(hint, columns, j + 1);
        }
      }
      r
  }

  /** The shared hint-major, column-minor scan of both selectors. */
  function PickByHints(hints: seq<string>, columns: seq<string>): (r: Option<string>)
    ensures r.None? <==> NoHintHit(hints, columns)
    ensures r.Some? ==> exists h, j :: IsFirstHintHit(hints, columns, h, j) && columns[j] == r.value
    decreases |hints|
  {
    if hints == [] then None
    else match FirstWithHint(hints[0], columns)
      case Some(c) =>
        assert exists j :: IsFirstHintHit(hints, columns, 0, j) && columns[j] == c by {
          var j :| IsFirstWithHint(hints[0], columns, j) && columns[j] == c;
          assert IsFirstHintHit(hints, columns, 0, j);
        }
        Some(c)
      case None =>
        var r := PickByHints(hints[1..], columns);
        assert r.None? ==> NoHintHit(hints, columns) by {
          if r.None? {
            forall h, j | 0 <= h < |hints| && 0 <= j < |columns| ensures !HasHint(columns[j], hints[h]) {
              if h > 0 { assert hints[h] == hints[1..][h - 1]; }
            }
          }
        }
        assert r.Some? ==> exists h, j :: IsFirstHintHit(hints, columns, h, j) && columns[j] == r.value by {
          if r.Some? {
            var h, j :| IsFirstHintHit(hints[1..], columns, h, j) && columns[j] == r.value;
            forall h', j' | 0 <= h' < h + 1 && 0 <= j' < |columns| ensures !HasHint(columns[j'], hints[h']) {
              if h' > 0 { assert hints[h'] == hints[1..][h' - 1]; }
            }
            assert IsFirstHintHit(hints, columns, h + 1, j);
          }
        }
        r
  }

  /** A column that carries a non-empty hint has a non-empty name. */
  lemma HintedColumnNonEmpty(column: string, hint: string)
    requires hint != [] && HasHint(column, hint)
    ensures column != []
  {
    assert Norm(column) != [];
  }

  lemma ValueHintsNonEmpty(h: int)
    requires 0 <= h < |ValueHints|
    ensures ValueHints[h] != ""
  {
  }

  /** `_pick_best_value_column`: abstains exactly when no column carries a
      value hint; otherwise the first hit of the hint-major scan, which is a
      non-empty column name. */
  function PickBestValueColumn(columns: seq<string>): (r: Option<string>)
    ensures r.None? <==> NoHintHit(ValueHints, columns)
    ensures r.Some? ==> exists h, j :: IsFirstHintHit(ValueHints, columns, h, j) && columns[j] == r.value
    ensures r.Some? ==> r.value in columns && r.value != ""
  {
    var r := PickByHints(ValueHints, columns);
    assert r.Some? ==> r.value != "" by {
      if r.Some? {
        var h, j :| IsFirstHintHit(ValueHints, columns, h, j) && columns[j] == r.value;
        ValueHintsNonEmpty(h);
        HintedColumnNonEmpty(columns[j], ValueHints[h]);
      }
    }
    r
  }

  /** `_pick_best_group_column`: the first hit of the hint-major scan over
      the group hints, else the first column, else the placeholder. */
  function PickBestGroupColumn(columns: seq<string>): (r: string)
    ensures columns == [] ==> r == PlaceholderColumn
    ensures columns != [] ==> r in columns
    ensures !NoHintHit(GroupHints, columns) ==>
              exists h, j :: IsFirstHintHit(GroupHints, columns, h, j) && columns[j] == r
    ensures columns != [] && NoHintHit(GroupHints, columns) ==> r == columns[0]
  {
    match PickByHints(GroupHints, columns)
    case Some(c) => c
    case None => if |columns| > 0 then columns[0] else PlaceholderColumn
  }

  // ---------------------------------------------------------------------
  // Number extraction

  /** `re.search(r"\b(\d{1,3})\b", s)` matches `s[i..i + k]`. */
  predicate NumberAt(s: string, i: int, k: int)
  {
    1 <= k <= 3 && 0 <= i && i + k <= |s|
    && (forall m | i <= m < i + k :: IsDigit(s[m]))
    && Boundary(s, i) && Boundary(s, i + k)
  }

  /** `s[i..i + k]` is the leftmost match of the search. */
  ghost predicate IsFirstNumber(s: string, i: int, k: int)
  {
    NumberAt(s, i, k) && forall i', k' :: 0 <= i' < i ==> !NumberAt(s, i', k')
  }

  /** At most one length matches at a given position: a longer digit run
      leaves a digit right after the shorter one, which is no boundary. */
  lemma NumberLengthUnique(s: string, i: int, k1: int, k2: int)
    requires NumberAt(s, i, k1) && NumberAt(s, i, k2)
    ensures k1 == k2
  {
  }

  /** `int(m.group(1))`: the decimal value of the matched digits. */
  function NumberValue(s: string, i: int, k: int): (v: nat)
    requires NumberAt(s, i, k)
    ensures v < 1000
  {
    var run := s[i..i + k];
    assert forall m :: 0 <= m < |run| ==> IsDigit(run[m]) by {
      forall m | 0 <= m < |run| ensures IsDigit(run[m]) {
        assert run[m] == s[i + m];
      }
    }
    assert Pow10(k) <= 1000 by {
      assert Pow10(1) == 10 && Pow10(2) == 100 && Pow10(3) == 1000;
    }
    DigitsValue(run)
  }

  /** The scan of the regular-expression search from position `i` on; at
      one position the greedy `\d{1,3}` tries three digits, then two, then one. */
  function FindNumberFrom(s: string, i: nat): (r: Option<(nat, nat)>)
    requires i <= |s|
    ensures r.None? ==> forall j, k :: i <= j ==> !NumberAt(s, j, k)
    ensures r.Some? ==> i <= r.value.0 && NumberAt(s, r.value.0, r.value.1)
                        && forall j, k :: i <= j < r.value.0 ==> !NumberAt(s, j, k)
    decreases |s| - i
  {
    if i == |s| then None
    else if NumberAt(s, i, 3) then Some((i, 3))
    else if NumberAt(s, i, 2) then Some((i, 2))
    else if NumberAt(s, i, 1) then Some((i, 1))
    else FindNumberFrom(s, i + 1)
  }

  /** `_extract_top_n`: the first standalone run of one to three digits,
      clamped to [1, 50]; 10 when there is none. */
  function ExtractTopN(question: string): (n: int)
    ensures 1 <= n <= 50
    ensures (forall i, k :: !NumberAt(question, i, k)) ==> n == DefaultTopN
    ensures forall i, k :: IsFirstNumber(question, i, k) ==> n == Clamp(NumberValue(question, i, k), 1, 50)
  {
    match FindNumberFrom(question, 0)
    case None => DefaultTopN
    case Some((i, k)) =>
      assert forall i', k' :: IsFirstNumber(question, i', k') ==> i' == i && k' == k by {
        forall i', k' | IsFirstNumber(question, i', k') ensures i' == i && k' == k {
          NumberLengthUnique(question, i, k, k');
        }
      }
      Clamp(NumberValue(question, i, k), 1, 50)
  }

  // ---------------------------------------------------------------------
  // The rule cascade

  /** The words that select each aggregation. */
  function Vocabulary(a: Tools.Agg): seq<string>
  {
    match a
    case Mean => ["média", "media"]
    case Sum => ["somar", "soma", "total"]
    case Max => ["máximo", "maximo", "maior"]
    case Min => ["mínimo", "minimo", "menor"]
    case Count => ["contar", "quantos", "count"]
  }

  /** The order in which the cascade tests the vocabularies. */
  const AggPriority: seq<Tools.Agg> := [Tools.Mean, Tools.Sum, Tools.Max, Tools.Min, Tools.Count]

  function Rank(a: Tools.Agg): (p: nat)
    ensures p < |AggPriority| && AggPriority[p] == a
  {
    match a
    case Mean => 0
    case Sum => 1
    case Max => 2
    case Min => 3
    case Count => 4
  }

  /** The normalised question uses a word of `a`'s vocabulary. */
  predicate Asks(qn: string, a: Tools.Agg)
  {
    ContainsAny(qn, Vocabulary(a))
  }

  /** The `if … elif …` chain that binds `agg`. */
  function AggOf(qn: string): (r: Option<Tools.Agg>)
    ensures r.None? <==> forall a :: !Asks(qn, a)
    ensures r.Some? ==> Asks(qn, r.value) && forall p :: 0 <= p < Rank(r.value) ==> !Asks(qn, AggPriority[p])
  {
    if Asks(qn, Tools.Mean) then Some(Tools.Mean)
    else if Asks(qn, Tools.Sum) then Some(Tools.Sum)
    else if Asks(qn, Tools.Max) then Some(Tools.Max)
    else if Asks(qn, Tools.Min) then Some(Tools.Min)
    else if Asks(qn, Tools.Count) then Some(Tools.Count)
    else None
  }

  /** The group column of the aggregation rule. */
  function ResolveGroup(question: string, columns: seq<string>): string
  {
    if Contains(Norm(question), Connector) then
      OrElse(FindColumnByMention(question, columns), PickBestGroupColumn(columns))
    else
      PickBestGroupColumn(columns)
  }

  /** Without the connector " por ", the group is the group heuristic's
      pick even when the question mentions a column. */
  lemma GroupWithoutConnector(question: string, columns: seq<string>)
    requires !Contains(Norm(question), Connector)
    ensures ResolveGroup(question, columns) == PickBestGroupColumn(columns)
  {
  }

  /** With the connector, the first mentioned column is the group when its
      name is non-empty. */
  lemma GroupIsFirstMention(question: string, columns: seq<string>, j: int)
    requires Contains(Norm(question), Connector)
    requires IsFirstMention(Norm(question), columns, j) && columns[j] != ""
    ensures ResolveGroup(question, columns) == columns[j]
  {
    var m := FindColumnByMention(question, columns);
    var j' :| IsFirstMention(Norm(question), columns, j') && columns[j'] == m.value;
    assert j' == j;
  }

  /** With the connector but no mentioned column, the group is still the
      group heuristic's pick. */
  lemma GroupWithoutMention(question: string, columns: seq<string>)
    requires Contains(Norm(question), Connector)
    requires forall j :: 0 <= j < |columns| ==> !Contains(Norm(question), Norm(columns[j]))
    ensures ResolveGroup(question, columns) == PickBestGroupColumn(columns)
  {
  }

  /** `route_without_llm`. */
  function RouteWithoutLlm(question: string, columns: seq<string>): (d: Decision)
    ensures columns == [] ==> d == Profile(NoColumns)
    ensures columns != [] ==> ColumnArgsIn(d, columns)
    ensures d.TopN? ==> 1 <= d.n <= 50
  {
    var q := Norm(question);
    if columns == [] then Profile(NoColumns)
    else if ContainsAny(q, TopTriggers) then
      var n := ExtractTopN(question);
      var col := OrElse(FindColumnByMention(question, columns), PickBestGroupColumn(columns));
      TopN(col, n)
    else
      match AggOf(q)
      case None =>
        if ContainsAny(q, ProfileTriggers) then Profile(Requested) else Profile(Fallback)
      case Some(agg) =>
        var group := ResolveGroup(question, columns);
        if agg == Tools.Count then
          GroupByAgg(group, OrElse(FindColumnByMention(question, columns), group), agg)
        else
          var value := OrElseOpt(FindColumnByMention(question, columns), PickBestValueColumn(columns));
          if !Truthy(value) then Profile(NoValueColumn)
          else GroupByAgg(group, value.value, agg)
  }

  // ---------------------------------------------------------------------
  // Properties of the cascade

  /** A top trigger wins over every aggregation word: the decision is
      `top_n` on the mentioned column when its name is non-empty (else on
      the group heuristic's pick) with the extracted count. */
  lemma TopWins(question: string, columns: seq<string>)
    requires columns != [] && ContainsAny(Norm(question), TopTriggers)
    ensures RouteWithoutLlm(question, columns)
            == TopN(OrElse(FindColumnByMention(question, columns), PickBestGroupColumn(columns)),
                    ExtractTopN(question))
  {
  }

  /** The aggregation kind is the first kind, in the fixed priority mean,
      sum, max, min, count, whose vocabulary the question uses, wherever
      the words stand in it. */
  lemma AggregationPriority(question: string, columns: seq<string>, a: Tools.Agg)
    requires columns != [] && !ContainsAny(Norm(question), TopTriggers)
    requires Asks(Norm(question), a)
    requires forall p :: 0 <= p < Rank(a) ==> !Asks(Norm(question), AggPriority[p])
    ensures var d := RouteWithoutLlm(question, columns);
            (d.GroupByAgg? && d.agg == a) || (a != Tools.Count && d == Profile(NoValueColumn))
  {
    AggOfIsFirstAsked(Norm(question), a);
  }

  /** The cascade picks the first kind, in priority order, that is asked. */
  lemma AggOfIsFirstAsked(qn: string, a: Tools.Agg)
    requires Asks(qn, a)
    requires forall p :: 0 <= p < Rank(a) ==> !Asks(qn, AggPriority[p])
    ensures AggOf(qn) == Some(a)
  {
    match a
    case Mean =>
    case Sum => assert !Asks(qn, AggPriority[0]);
    case Max => assert !Asks(qn, AggPriority[0]) && !Asks(qn, AggPriority[1]);
    case Min =>
      assert !Asks(qn, AggPriority[0]) && !Asks(qn, AggPriority[1]) && !Asks(qn, AggPriority[2]);
    case Count =>
      assert !Asks(qn, AggPriority[0]) && !Asks(qn, AggPriority[1]) && !Asks(qn, AggPriority[2])
             && !Asks(qn, AggPriority[3]);
  }

  /** A question that triggers neither the top rule nor an aggregation is
      answered with `profile`: the requested one when it uses a profile
      word, the fallback one otherwise. */
  lemma NeitherRuleGivesProfile(question: string, columns: seq<string>)
    requires columns != [] && !ContainsAny(Norm(question), TopTriggers)
    requires forall a :: !Asks(Norm(question), a)
    ensures RouteWithoutLlm(question, columns)
            == if ContainsAny(Norm(question), ProfileTriggers) then Profile(Requested) else Profile(Fallback)
  {
    assert AggOf(Norm(question)).None?;
  }

  /** A count always yields `groupby_agg`; its value column is the
      mentioned column when its name is non-empty, else the group column. */
  lemma CountAlwaysGroups(question: string, columns: seq<string>)
    requires columns != [] && !ContainsAny(Norm(question), TopTriggers)
    requires AggOf(Norm(question)) == Some(Tools.Count)
    ensures var group := ResolveGroup(question, columns);
            var m := FindColumnByMention(question, columns);
            RouteWithoutLlm(question, columns)
            == GroupByAgg(group, if Truthy(m) then m.value else group, Tools.Count)
  {
  }

  /** Any other aggregation downgrades to `profile` exactly when no
      mentioned column with a non-empty name is found and no column carries
      a value hint; otherwise the value is that mention, else the value
      heuristic's pick. */
  lemma NoValueColumnDowngrades(question: string, columns: seq<string>, a: Tools.Agg)
    requires columns != [] && !ContainsAny(Norm(question), TopTriggers)
    requires AggOf(Norm(question)) == Some(a) && a != Tools.Count
    ensures var d := RouteWithoutLlm(question, columns);
            var m := FindColumnByMention(question, columns);
            (d == Profile(NoValueColumn) <==> !Truthy(m) && NoHintHit(ValueHints, columns))
            && (d != Profile(NoValueColumn) ==>
                  d == GroupByAgg(ResolveGroup(question, columns),
                                  if Truthy(m) then m.value else PickBestValueColumn(columns).value, a))
  {
  }

  /** With the connector " por " and a first mentioned column whose name
      is non-empty, that column fills both the group and the value. */
  lemma MentionFillsGroupAndValue(question: string, columns: seq<string>, a: Tools.Agg)
    requires columns != [] && !ContainsAny(Norm(question), TopTriggers)
    requires AggOf(Norm(question)) == Some(a)
    requires Contains(Norm(question), Connector)
    requires Truthy(FindColumnByMention(question, columns))
    ensures var c := FindColumnByMention(question, columns).value;
            RouteWithoutLlm(question, columns) == GroupByAgg(c, c, a)
  {
  }

  /** Python's `or` treats an empty column name as missing: a mention of
      a column named "" falls through to the group heuristic. */
  lemma EmptyMentionFallsThrough(question: string, columns: seq<string>)
    requires columns != [] && ContainsAny(Norm(question), TopTriggers)
    requires FindColumnByMention(question, columns) == Some("")
    ensures RouteWithoutLlm(question, columns) == TopN(PickBestGroupColumn(columns), ExtractTopN(question))
  {
  }
}
