# Deterministic intent router of a tabular question-answering service

The service lets a user upload a table and ask questions about it in
Portuguese. Each question is turned into one of three canned analyses:
- `profile`: a summary of the table;
- `top_n`: the most frequent values of a column;
- `groupby_agg`: a grouped aggregation.

This project models the rule-based router `route_without_llm`
(`app/ia_router.py`) with every helper it calls. It also models the argument
guards of the two analysis tools in `app/analysis_tools.py`. It proves that
these fit together: any decision the router makes for a list of columns
passes the tools' guards on those same columns and reaches the pandas
computation with the arguments it was given.

Modules:
- `Optional` (`optional.dfy`) holds `Option` and Python's `x or y` on
  strings and on optional strings. `None` and `""` are both falsy.
- `Text` (`text.dfy`) holds the string primitives the router uses:
  - `str.strip` and `str.lower`, and `_norm` as `Norm`, their composition;
  - `in` as a substring test, `Contains`;
  - the regular-expression pieces `\b`, `\w` and `\d`;
  - decimal digits and clamping.

  It proves that `Contains` agrees with "occurs at some index", and that
  lowering and stripping commute.
- `Tools` (`tools.dfy`) holds the guards of `top_n` and `groupby_agg`:
  - the unknown-column errors, in the order the source checks them;
  - the clamp of `n` to [1, 100];
  - the normalisation and membership test of the aggregation name.

  A passing call returns a `Plan` naming the pandas computation it would run.
- `Router` (`router.dfy`) holds:
  - the hint lists and the column matcher;
  - the two column heuristics;
  - the top-n extraction, modelled on `\b(\d{1,3})\b`;
  - the aggregation vocabulary in priority order;
  - the routing cascade, with its properties as lemmas.
- `Pipeline` (`pipeline.dfy`) holds the dispatch of `app/main.py` from a
  decision to a tool call, and the closure lemma `RouteClosure`.
- `Scenarios` (`scenarios.dfy`) holds six concrete questions routed end
  to end, proved on the literal questions and column lists: one top
  question, three aggregations (sum, count, mean), one requested profile and
  one fallback. The empty-columns guard is a clause of `RouteWithoutLlm`'s
  own contract.

Where one might expect otherwise, the model follows the code:
- **Scenario B.** "soma de valor por categoria" over `["categoria", "valor"]`
  yields group "categoria" and value "categoria", not value "valor". The
  column matcher returns the first column in column order whose name occurs
  in the question. Its result is used for the value before the value
  heuristic is consulted.
- **Scenario D.** "média por categoria" over `["categoria", "nome"]` yields
  `groupby_agg("categoria", "categoria", mean)`. The router does not abstain
  with `profile`, because the mentioned column is taken as the value.
- **Count.** For `count`, the value is the mentioned column if there is one,
  and the group column otherwise. It is not always the group.
- **Empty column names.** Python's `or` treats an empty column name as
  missing. A mention of a column named `""` therefore falls through to the
  heuristic; the model keeps this (`Router.EmptyMentionFallsThrough`).

Determinism holds by construction: every operation is a function of its
inputs.

## Model

| member | source | states |
|---|---|---|
| Text.LowerChar | app/ia_router.py:32 | lower-casing one character keeps whitespace as whitespace, and lands in a–z exactly when the character is an ASCII letter |
| Text.LowerCharAscii | app/ia_router.py:32 | each capital A–Z becomes its own small letter (32 code points up) and small letters a–z stay unchanged |
| Text.Lower | app/ia_router.py:32 | `str.lower` keeps the length |
| Text.LowerAt | app/ia_router.py:32 | `str.lower` works character by character: position k of the result is the lower case of position k |
| Text.SkipSpaces | app/ia_router.py:32 | the leading-whitespace scan of `str.strip` stops at the first non-space, or at the end |
| Text.SkipSpacesBack | app/ia_router.py:32 | the trailing-whitespace scan of `str.strip` stops after the last non-space, or at the lower bound |
| Text.Strip | app/ia_router.py:32 | `str.strip` returns a slice of its input that neither starts nor ends with whitespace, and everything cut off on either side is whitespace |
| Text.LowerStripCommute | app/ia_router.py:31-32 | `_norm` can strip before or after lowering with the same result |
| Text.LowerSlice | app/ia_router.py:32 | lowering a slice gives the same slice of the lowered string |
| Text.LowerFixed | app/ia_router.py:32 | lowering a string that is already lower case changes nothing |
| Text.StripFixed | app/ia_router.py:32 | stripping a string with no surrounding whitespace changes nothing |
| Text.StartsWithIff | app/ia_router.py:43 | a prefix test succeeds exactly when the first \|t\| characters equal t |
| Text.OccursAtTail | app/ia_router.py:43 | an occurrence at index i of the tail is an occurrence at index i + 1 of the whole string, and conversely |
| Text.ContainsIff | app/ia_router.py:43 | `t in s` holds exactly when t occurs in s at some index |
| Text.ContainsAnyIff | app/ia_router.py:85 | a chain of `or`ed `in` tests holds exactly when some word occurs |
| Text.DigitsValue | app/ia_router.py:74 | `int` of k decimal digits is a natural number below 10^k |
| Text.Clamp | app/ia_router.py:75 | `max(lo, min(x, hi))` lies in [lo, hi], is x when x is in range, and is the violated bound otherwise |
| Tools.ParseAgg | app/analysis_tools.py:47-49 | the aggregation name is accepted exactly when its lowered and stripped form is one of sum, mean, min, max, count, and the parsed kind spells that form |
| Tools.ParseAggIff | app/analysis_tools.py:47-49 | a name parses to kind a exactly when its normalised form is a's name |
| Tools.ParseAggName | app/analysis_tools.py:47-48 | every kind's own name parses back to that kind |
| Tools.AggNameInjective | app/analysis_tools.py:48 | distinct kinds have distinct names |
| Tools.TopN | app/analysis_tools.py:24-29 | `top_n` fails exactly when the column is unknown, with that error; otherwise it counts values of that column with n clamped to [1, 100]: 1 below the range, 100 above it, n itself inside |
| Tools.GroupByAgg | app/analysis_tools.py:40-55 | `groupby_agg` checks the group column, then the value column, then the aggregation name; it succeeds exactly when all three pass; count becomes a group size and every other kind an aggregation of the value column |
| Tools.CountIgnoresValue | app/analysis_tools.py:51-55 | with the same group, a count gives the same result whatever valid value column is named |
| Tools.GroupCheckedFirst | app/analysis_tools.py:42-45 | an unknown group is reported even when the value column is also unknown |
| Router.MentionIsSubstring | app/ia_router.py:43 | the whole-word regular-expression disjunct never accepts a column that the plain substring test rejects |
| Router.MentionsAreSubstrings | app/ia_router.py:43 | the mention test as written is exactly the substring test |
| Router.FirstMentioned | app/ia_router.py:40-45 | the column scan returns nothing exactly when no column is mentioned, and otherwise the first column mentioned |
| Router.FirstMentionShift | app/ia_router.py:40-44 | past an unmentioned first column, the first mention in the rest of the list is the first mention of the whole list |
| Router.NoMentionShift | app/ia_router.py:40-45 | an unmentioned first column and an unmentioned rest leave no column mentioned |
| Router.FindColumnByMention | app/ia_router.py:34-45 | `_find_column_by_mention` returns None exactly when no normalised column name occurs in the normalised question; otherwise it returns the first mentioned column, which is one of the columns |
| Router.FirstColumnMentioned | app/ia_router.py:39-44 | when the first column is mentioned, the matcher returns it whatever the later columns are |
| Router.FirstWithHint | app/ia_router.py:51-53 | the inner loop returns nothing exactly when no column carries the hint, and otherwise the first column that does |
| Router.PickByHints | app/ia_router.py:50-53 | the hint-major, column-minor scan returns nothing exactly when no column carries any hint; otherwise it returns the first hit in that order |
| Router.HintedColumnNonEmpty | app/ia_router.py:52 | a column that carries a non-empty hint has a non-empty name |
| Router.ValueHintsNonEmpty | app/ia_router.py:19-23 | no value hint is empty |
| Router.PickBestValueColumn | app/ia_router.py:47-55 | abstains exactly when no column carries a value hint; otherwise returns the first hit of the scan over the value hints, which is a non-empty column name |
| Router.PickBestGroupColumn | app/ia_router.py:57-65 | returns the first hit of the scan over the group hints; with no hit, the first column; with no columns, the placeholder "coluna" |
| Router.NumberLengthUnique | app/ia_router.py:71 | at a given position at most one length of 1 to 3 digits matches `\b\d{1,3}\b` |
| Router.NumberValue | app/ia_router.py:74 | the matched digits denote a number below 1000 |
| Router.FindNumberFrom | app/ia_router.py:71 | the search returns the leftmost match at or after a position, or nothing when there is none |
| Router.ExtractTopN | app/ia_router.py:67-75 | `_extract_top_n` is 10 with no match, and otherwise the first match clamped to [1, 50]; it always lies in [1, 50] |
| Router.Rank | app/ia_router.py:96-105 | each kind's position in the priority mean, sum, max, min, count |
| Router.AggOf | app/ia_router.py:95-105 | no kind is chosen exactly when the question uses no aggregation word; otherwise the chosen kind is asked and no kind earlier in the priority is |
| Router.AggOfIsFirstAsked | app/ia_router.py:95-105 | the first asked kind in the priority is the one chosen |
| Router.GroupWithoutConnector | app/ia_router.py:117-118 | without " por " the group is the group heuristic's pick, even when a column is mentioned |
| Router.GroupIsFirstMention | app/ia_router.py:113-116 | with " por ", the first mentioned column is the group when its name is non-empty |
| Router.GroupWithoutMention | app/ia_router.py:113-116 | with " por " but no mentioned column, the group is still the group heuristic's pick |
| Router.RouteWithoutLlm | app/ia_router.py:77-146 | with no columns the decision is `profile`; otherwise every column argument is one of the columns and a `top_n` count is in [1, 50] |
| Router.TopWins | app/ia_router.py:85-92 | a top trigger gives `top_n` on the mentioned column when its name is non-empty, else on the group heuristic's pick, with the extracted count, whatever aggregation words are also present |
| Router.AggregationPriority | app/ia_router.py:94-139 | without a top trigger, the first kind asked in the priority is the one aggregated, or the decision downgrades to `profile` for lack of a value column |
| Router.NeitherRuleGivesProfile | app/ia_router.py:141-146 | with neither a top trigger nor an aggregation word, the decision is the requested `profile` when a profile word occurs and the fallback `profile` otherwise |
| Router.CountAlwaysGroups | app/ia_router.py:120-122 | a count always gives `groupby_agg` on the resolved group; the value is the mentioned column when its name is non-empty, else the group |
| Router.NoValueColumnDowngrades | app/ia_router.py:123-133 | a kind other than count downgrades to `profile` exactly when no mentioned column with a non-empty name is found (none mentioned, or the first one mentioned is named "") and no column carries a value hint; otherwise the value is that mention when its name is non-empty, else the value heuristic's pick |
| Router.MentionFillsGroupAndValue | app/ia_router.py:113-125 | with " por " and a first mentioned column whose name is non-empty, that column is both group and value |
| Router.EmptyMentionFallsThrough | app/ia_router.py:85-87 | Python's `or` treats a mentioned column named "" as missing: a top question then takes the group heuristic's column |
| Pipeline.AcceptedDecisionRuns | app/main.py:51-66 | a decision whose columns exist and whose count is in [1, 50] passes all guards and reaches the pandas computation with its own arguments |
| Pipeline.RouteClosure | app/main.py:51-66 | every decision of `route_without_llm` passes the tool guards on the columns it was routed with: no unknown column, no invalid aggregation name, count unchanged |
| Pipeline.RouterCountUnchanged | app/analysis_tools.py:29 | the tool's clamp leaves every router count in [1, 50] unchanged |
| Scenarios.ScenarioA | app/ia_router.py:85-92 | "top 5 cliente" over cliente, valor routes to `top_n("cliente", 5)` |
| Scenarios.ScenarioB | app/ia_router.py:98-125 | "soma de valor por categoria" over categoria, valor routes to a sum with group and value "categoria" |
| Scenarios.ScenarioC | app/ia_router.py:104-122 | "quantos registros por cliente" over cliente, data routes to a count grouped by "cliente" |
| Scenarios.ScenarioD | app/ia_router.py:96-125 | "média por categoria" over categoria, nome routes to a mean with group and value "categoria" |
| Scenarios.ScenarioF | app/ia_router.py:141-143 | "resumo" over a routes to the requested `profile` |
| Scenarios.ScenarioE | app/ia_router.py:141-146 | "me fale sobre os dados" over a, b falls through to the fallback `profile` |

## Left out

- `route_with_groq` (app/ia_router.py:149 onward) is not modelled: the call to the remote language-model service, its JSON parsing, and its fallback to the local router. It is network I/O. Without an API key it returns `route_without_llm` unchanged, which is the modelled function.
- The `explanation` strings are not modelled. A `profile` decision carries a `ProfileReason` that names which of the four explanations the source would give.
- `profile_df` and the pandas computations behind `top_n` and `groupby_agg` are not modelled: value counts, grouping, numeric coercion and sorting. A passing guard yields a `Plan` naming the computation and its arguments.
- `str.lower`, `str.strip` and the regular-expression classes `\w` and `\d` are modelled for Latin-1 characters only. The full Unicode tables are out of scope. Every string in the hint lists and vocabularies is Latin-1.
- Tools.TopN: takes `n` as an integer. `int(n)` on a float or a numeric string is not modelled.
- Tools.GroupByAgg: takes `agg` as a string. `str(agg)` on values of other types is not modelled.
- The default parameters `n = 10` and `agg = "sum"` of the tools are not modelled. The router always passes both arguments.
- Pipeline.Execute turns the tools' `ValueError` into a result value. The HTTP 400 and 404 responses of main.py, dataset lookup, upload parsing (ingest.py), storage (storage.py), the response schemas (schemas.py) and the web client (web/app.js) are not part of this model.
- `Norm` does not collapse whitespace inside the question, and neither does the source.
- A non-count aggregation whose group and value are the same column (scenarios B and D) passes the guards and yields `GroupAgg(c, c, a)`. What pandas then does with it is not examined: app/analysis_tools.py:58-62 overwrites that column with its numeric coercion before grouping, and may fail.
