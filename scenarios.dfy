/** Six concrete questions routed end to end: one top question (A), three
    aggregations (B, C, D), one fallback (E) and one requested profile (F).
    Two of them (B and D) take the first mentioned column as the value,
    because the value is resolved by mention before the value hints are
    consulted. */
module Scenarios {
  import opened Optional
  import opened Text
  import opened Router
  import Tools

  // Helpers that settle substring facts about literal strings one
  // position at a time.

  lemma ContainsWitness(s: string, t: string, i: int)
    requires OccursAt(s, t, i)
    ensures Contains(s, t)
  {
    ContainsIff(s, t);
  }

  lemma OccursAtChar(s: string, t: string, i: int, m: int)
    requires OccursAt(s, t, i) && 0 <= m < |t|
    ensures s[i + m] == t[m]
  {
    assert s[i..i + |t|][m] == t[m];
  }

  lemma NoGram1(s: string, t: string)
    requires |t| >= 1 && forall i :: 0 <= i < |s| ==> s[i] != t[0]
    ensures !Contains(s, t)
  {
    ContainsIff(s, t);
    forall i | OccursAt(s, t, i) ensures false {
      OccursAtChar(s, t, i, 0);
    }
  }

  lemma NoGram2(s: string, t: string)
    requires |t| >= 2 && forall i :: 0 <= i < |s| - 1 ==> s[i] != t[0] || s[i + 1] != t[1]
    ensures !Contains(s, t)
  {
    ContainsIff(s, t);
    forall i | OccursAt(s, t, i) ensures false {
      OccursAtChar(s, t, i, 0);
      OccursAtChar(s, t, i, 1);
    }
  }

  lemma NoGram3(s: string, t: string)
    requires |t| >= 3
    requires forall i :: 0 <= i < |s| - 2 ==> s[i] != t[0] || s[i + 1] != t[1] || s[i + 2] != t[2]
    ensures !Contains(s, t)
  {
    ContainsIff(s, t);
    forall i | OccursAt(s, t, i) ensures false {
      OccursAtChar(s, t, i, 0);
      OccursAtChar(s, t, i, 1);
      OccursAtChar(s, t, i, 2);
    }
  }

  /** No position of `s` holds the first `p` characters of `t`, for `p`
      from 1 to 3. */
  predicate GramAbsent(s: string, t: string, p: int)
  {
    p <= |t| &&
    ((p == 1 && forall i :: 0 <= i < |s| ==> s[i] != t[0])
     || (p == 2 && forall i :: 0 <= i < |s| - 1 ==> s[i] != t[0] || s[i + 1] != t[1])
     || (p == 3 && forall i :: 0 <= i < |s| - 2 ==> s[i] != t[0] || s[i + 1] != t[1] || s[i + 2] != t[2]))
  }

  lemma GramAbsentNotContains(s: string, t: string, p: int)
    requires GramAbsent(s, t, p)
    ensures !Contains(s, t)
  {
    if p == 1 { NoGram1(s, t); } else if p == 2 { NoGram2(s, t); } else { NoGram3(s, t); }
  }

  /** None of `words` occurs in `s`; `ps[k]` says how many leading
      characters of `words[k]` already fail to occur. */
  lemma NoWords(s: string, words: seq<string>, ps: seq<int>)
    requires |ps| == |words| && forall k :: 0 <= k < |words| ==> GramAbsent(s, words[k], ps[k])
    ensures !ContainsAny(s, words)
  {
    ContainsAnyIff(s, words);
    forall k | 0 <= k < |words| ensures !Contains(s, words[k]) {
      GramAbsentNotContains(s, words[k], ps[k]);
    }
  }

  /** A string with no capital letter and no surrounding whitespace is
      already normal. */
  lemma NormFixed(s: string)
    requires s != [] && !IsSpace(s[0]) && !IsSpace(s[|s| - 1])
    requires forall k :: 0 <= k < |s| ==> !('A' <= s[k] <= 'Z') && !('\U{C0}' <= s[k] <= '\U{DE}')
    ensures Norm(s) == s
  {
    StripFixed(s);
    LowerFixed(s);
  }

  /** The column names of the scenarios are already normal. */
  lemma NormCliente() ensures Norm("cliente") == "cliente" {
    NormFixed("cliente");
  }

  lemma NormCategoria() ensures Norm("categoria") == "categoria" {
    NormFixed("categoria");
  }

  // Every fact about a literal question is stated in a lemma of its own,
  // and the column lists of scenarios A to D are passed as parameters fixed
  // by `requires`: a literal string or list as an argument makes the solver
  // evaluate the recursive string functions on it, and several such
  // evaluations in one proof exceed its resource limit.

  // Scenario A: "top 5 cliente" over ["cliente", "valor"].

  lemma TopA() ensures ContainsAny("top 5 cliente", TopTriggers) {
    ContainsWitness("top 5 cliente", "top", 0);
  }

  lemma NumberA() ensures ExtractTopN("top 5 cliente") == 5 {
    assert IsFirstNumber("top 5 cliente", 4, 1);
    assert NumberValue("top 5 cliente", 4, 1) == 5;
  }

  lemma ClienteA() ensures Contains("top 5 cliente", "cliente") {
    ContainsWitness("top 5 cliente", "cliente", 6);
  }

  lemma NormA() ensures Norm("top 5 cliente") == "top 5 cliente" {
    NormFixed("top 5 cliente");
  }

  lemma MentionA(columns: seq<string>)
    requires columns == ["cliente", "valor"]
    ensures FindColumnByMention("top 5 cliente", columns) == Some("cliente")
  {
    NormA();
    NormCliente();
    ClienteA();
  }

  lemma ScenarioA(columns: seq<string>)
    requires columns == ["cliente", "valor"]
    ensures RouteWithoutLlm("top 5 cliente", columns) == TopN("cliente", 5)
  {
    NormA();
    TopA();
    NumberA();
    MentionA(columns);
  }

  // Scenario B: "soma de valor por categoria" over ["categoria", "valor"].
  // The first mentioned column is "categoria", so it becomes the value as
  // well as the group.

  lemma NotTopB() ensures !ContainsAny("soma de valor por categoria", TopTriggers) {
    NoWords("soma de valor por categoria", TopTriggers, [2, 3, 3, 3]);
  }

  lemma NotMeanB() ensures !Asks("soma de valor por categoria", Tools.Mean) {
    NoWords("soma de valor por categoria", Vocabulary(Tools.Mean), [2, 2]);
  }

  lemma SumB() ensures Asks("soma de valor por categoria", Tools.Sum) {
    ContainsWitness("soma de valor por categoria", "soma", 0);
  }

  lemma ConnectorB() ensures Contains("soma de valor por categoria", Connector) {
    ContainsWitness("soma de valor por categoria", " por ", 13);
  }

  lemma CategoriaB() ensures Contains("soma de valor por categoria", "categoria") {
    ContainsWitness("soma de valor por categoria", "categoria", 18);
  }

  lemma AggB() ensures AggOf("soma de valor por categoria") == Some(Tools.Sum) {
    NotMeanB();
    SumB();
  }

  lemma NormB() ensures Norm("soma de valor por categoria") == "soma de valor por categoria" {
    NormFixed("soma de valor por categoria");
  }

  lemma MentionB(columns: seq<string>)
    requires columns == ["categoria", "valor"]
    ensures FindColumnByMention("soma de valor por categoria", columns) == Some("categoria")
  {
    NormB();
    NormCategoria();
    CategoriaB();
  }

  lemma ScenarioB(columns: seq<string>)
    requires columns == ["categoria", "valor"]
    ensures RouteWithoutLlm("soma de valor por categoria", columns) == GroupByAgg("categoria", "categoria", Tools.Sum)
  {
    NormB();
    NotTopB();
    AggB();
    ConnectorB();
    MentionB(columns);
    MentionFillsGroupAndValue("soma de valor por categoria", columns, Tools.Sum);
  }

  // Scenario C: "quantos registros por cliente" over ["cliente", "data"].

  lemma NotTopC() ensures !ContainsAny("quantos registros por cliente", TopTriggers) {
    NoWords("quantos registros por cliente", TopTriggers, [3, 1, 1, 1]);
  }

  lemma NotMeanC() ensures !Asks("quantos registros por cliente", Tools.Mean) {
    NoWords("quantos registros por cliente", Vocabulary(Tools.Mean), [1, 1]);
  }

  lemma NotSumC() ensures !Asks("quantos registros por cliente", Tools.Sum) {
    NoWords("quantos registros por cliente", Vocabulary(Tools.Sum), [2, 2, 3]);
  }

  lemma NotMaxC() ensures !Asks("quantos registros por cliente", Tools.Max) {
    NoWords("quantos registros por cliente", Vocabulary(Tools.Max), [1, 1, 1]);
  }

  lemma NotMinC() ensures !Asks("quantos registros por cliente", Tools.Min) {
    NoWords("quantos registros por cliente", Vocabulary(Tools.Min), [1, 1, 1]);
  }

  lemma CountC() ensures Asks("quantos registros por cliente", Tools.Count) {
    ContainsWitness("quantos registros por cliente", "quantos", 0);
  }

  lemma ConnectorC() ensures Contains("quantos registros por cliente", Connector) {
    ContainsWitness("quantos registros por cliente", " por ", 17);
  }

  lemma ClienteC() ensures Contains("quantos registros por cliente", "cliente") {
    ContainsWitness("quantos registros por cliente", "cliente", 22);
  }

  lemma AggC() ensures AggOf("quantos registros por cliente") == Some(Tools.Count) {
    NotMeanC();
    NotSumC();
    NotMaxC();
    NotMinC();
    CountC();
  }

  lemma NormC() ensures Norm("quantos registros por cliente") == "quantos registros por cliente" {
    NormFixed("quantos registros por cliente");
  }

  lemma MentionC(columns: seq<string>)
    requires columns == ["cliente", "data"]
    ensures FindColumnByMention("quantos registros por cliente", columns) == Some("cliente")
  {
    NormC();
    NormCliente();
    ClienteC();
  }

  lemma ScenarioC(columns: seq<string>)
    requires columns == ["cliente", "data"]
    ensures RouteWithoutLlm("quantos registros por cliente", columns) == GroupByAgg("cliente", "cliente", Tools.Count)
  {
    NormC();
    NotTopC();
    AggC();
    ConnectorC();
    MentionC(columns);
    MentionFillsGroupAndValue("quantos registros por cliente", columns, Tools.Count);
  }

  // Scenario D: "média por categoria" over ["categoria", "nome"]. No column
  // carries a value hint, but the mentioned "categoria" is taken as the
  // value, so the router aggregates instead of abstaining.

  lemma NotTopD() ensures !ContainsAny("média por categoria", TopTriggers) {
    NoWords("média por categoria", TopTriggers, [2, 2, 2, 2]);
  }

  lemma MeanD() ensures Asks("média por categoria", Tools.Mean) {
    ContainsWitness("média por categoria", "média", 0);
  }

  lemma ConnectorD() ensures Contains("média por categoria", Connector) {
    ContainsWitness("média por categoria", " por ", 5);
  }

  lemma CategoriaD() ensures Contains("média por categoria", "categoria") {
    ContainsWitness("média por categoria", "categoria", 10);
  }

  lemma AggD() ensures AggOf("média por categoria") == Some(Tools.Mean) {
    MeanD();
  }

  lemma NormD() ensures Norm("média por categoria") == "média por categoria" {
    NormFixed("média por categoria");
  }

  lemma MentionD(columns: seq<string>)
    requires columns == ["categoria", "nome"]
    ensures FindColumnByMention("média por categoria", columns) == Some("categoria")
  {
    NormD();
    NormCategoria();
    CategoriaD();
  }

  lemma ScenarioD(columns: seq<string>)
    requires columns == ["categoria", "nome"]
    ensures RouteWithoutLlm("média por categoria", columns) == GroupByAgg("categoria", "categoria", Tools.Mean)
  {
    NormD();
    NotTopD();
    AggD();
    ConnectorD();
    MentionD(columns);
    MentionFillsGroupAndValue("média por categoria", columns, Tools.Mean);
  }

  // Scenario E: "me fale sobre os dados" over ["a", "b"] falls through
  // every rule.

  lemma NotTopE() ensures !ContainsAny("me fale sobre os dados", TopTriggers) {
    NoWords("me fale sobre os dados", TopTriggers, [1, 2, 2, 2]);
  }

  lemma NotProfileWordE() ensures !ContainsAny("me fale sobre os dados", ProfileTriggers) {
    NoWords("me fale sobre os dados", ProfileTriggers, [1, 3, 1, 2]);
  }

  lemma NotMeanE() ensures !Asks("me fale sobre os dados", Tools.Mean) {
    NoWords("me fale sobre os dados", Vocabulary(Tools.Mean), [2, 3]);
  }

  lemma NotSumE() ensures !Asks("me fale sobre os dados", Tools.Sum) {
    NoWords("me fale sobre os dados", Vocabulary(Tools.Sum), [3, 3, 1]);
  }

  lemma NotMaxE() ensures !Asks("me fale sobre os dados", Tools.Max) {
    NoWords("me fale sobre os dados", Vocabulary(Tools.Max), [2, 2, 2]);
  }

  lemma NotMinE() ensures !Asks("me fale sobre os dados", Tools.Min) {
    NoWords("me fale sobre os dados", Vocabulary(Tools.Min), [2, 2, 3]);
  }

  lemma NotCountE() ensures !Asks("me fale sobre os dados", Tools.Count) {
    NoWords("me fale sobre os dados", Vocabulary(Tools.Count), [1, 1, 1]);
  }

  lemma NormE() ensures Norm("me fale sobre os dados") == "me fale sobre os dados" {
    NormFixed("me fale sobre os dados");
  }

  lemma ScenarioE()
    ensures RouteWithoutLlm("me fale sobre os dados", ["a", "b"]) == Profile(Fallback)
  {
    NormE();
    NotTopE();
    NotProfileWordE();
    NotMeanE();
    NotSumE();
    NotMaxE();
    NotMinE();
    NotCountE();
  }

  // Scenario F: "resumo" over ["a"] uses a profile word and no other
  // trigger.

  lemma NormF() ensures Norm("resumo") == "resumo" {
    NormFixed("resumo");
  }

  lemma NotTopF() ensures !ContainsAny("resumo", TopTriggers) {
    NoWords("resumo", TopTriggers, [1, 2, 2, 2]);
  }

  lemma ProfileWordF() ensures ContainsAny("resumo", ProfileTriggers) {
    ContainsWitness("resumo", "resumo", 0);
    ContainsAnyIff("resumo", ProfileTriggers);
    assert ProfileTriggers[1] == "resumo";
  }

  lemma NotMeanF() ensures !Asks("resumo", Tools.Mean) {
    NoWords("resumo", Vocabulary(Tools.Mean), [2, 2]);
  }

  lemma NotSumF() ensures !Asks("resumo", Tools.Sum) {
    NoWords("resumo", Vocabulary(Tools.Sum), [2, 2, 1]);
  }

  lemma NotMaxF() ensures !Asks("resumo", Tools.Max) {
    NoWords("resumo", Vocabulary(Tools.Max), [2, 2, 2]);
  }

  lemma NotMinF() ensures !Asks("resumo", Tools.Min) {
    NoWords("resumo", Vocabulary(Tools.Min), [2, 2, 2]);
  }

  lemma NotCountF() ensures !Asks("resumo", Tools.Count) {
    NoWords("resumo", Vocabulary(Tools.Count), [1, 1, 1]);
  }

  lemma ScenarioF()
    ensures RouteWithoutLlm("resumo", ["a"]) == Profile(Requested)
  {
    NormF();
    NotTopF();
    ProfileWordF();
    NotMeanF();
    NotSumF();
    NotMaxF();
    NotMinF();
    NotCountF();
  }
}
