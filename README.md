# RS system budget visualisation — a verified model of its data core

This project models, in Dafny, the computations that turn the Japanese
government's administrative project review ("RS system") CSV extracts into
the figures and Sankey graphs the site shows:

- the offline preprocessing (`scripts/preprocess-data.ts`):
  - amount normalisation, where 2014–2023 amounts are in millions of yen and 2024 amounts are in yen;
  - CSV file naming;
  - the simplified Sankey graph, a year-total node linked to one node per ministry;
  - the per-ministry top-10 project rollup;
  - the year statistics;
  - the sorted ministry list.
- the server-side transformer (`server/lib/sankey-transformer.ts`):
  - expenditure blocks, connections and recipients turned into Sankey nodes and links, with an optional ministry filter and node limit;
  - the ministry list;
  - the budget lookup by project id.
- the statistics computation of the data loader (`server/loaders/data-loader.ts`);
- the client's yen formatter (`client/lib/formatBudget.ts`).

JavaScript collections are modelled as follows:

- A `Map` is an insertion-ordered association list (`Assoc`).
- `Array.prototype.sort` with a `b - a` comparator is a stable insertion sort, largest first (`Ranking`).
- `Array.from(new Set(...)).sort()` is a duplicate-free sequence sorted by character order (`Lexicographic`).
- Truthiness (`a || b || 0`, `if (!x)`) is written out in `RsRecords`.

Integers are exact and so are rates and yen amounts in the formatter (reals).
Every loop of the source that builds a result step by step is a Dafny
`method` proved equal to a specification function, and the properties are
lemmas about those functions.

Files: `wrappers.dfy`, `decimal.dfy`, `seqs.dfy`, `assoc.dfy`, `ranking.dfy`,
`lexicographic.dfy` (shared machinery); `records.dfy`, `sankey_types.dfy`
(row and graph types); `preprocess.dfy`, `simplified_sankey.dfy`,
`ministry_projects.dfy`, `statistics.dfy`, `ministry_list.dfy`
(preprocessing); `block_flow.dfy`, `block_flow_facts.dfy`, `node_limit.dfy`,
`budget_lookup.dfy` (transformer); `data_loader.dfy`; `format_budget.dfy`.

## Model

| member | source | states |
|---|---|---|
| Preprocess.NormalizeAmount | scripts/preprocess-data.ts:141-148 | a falsy (zero) amount gives 0; years up to 2023 are multiplied by 1,000,000, 2024 is kept; sign and zero-ness are preserved |
| Preprocess.GetCSVFileName | scripts/preprocess-data.ts:55-60 | the name starts with the file type and ends with `_`; 2024 gives `<type>_RS_2024_`; any other year gives `<type>_` followed by the year's canonical decimal numeral (no leading zero), which reads back as the year |
| Preprocess.YearRows | scripts/preprocess-data.ts:163-166 | defines the `予算年度 === year` filter, keeping row order; properties in the rows YearRowsMembers, YearRowsAppend and OtherYearRowFiltered |
| Preprocess.YearRowsMembers | scripts/preprocess-data.ts:163-166 | the year filter keeps exactly the rows whose budget year is the requested year |
| Preprocess.YearRowsAppend | scripts/preprocess-data.ts:163-166 | filtering distributes over concatenation, so row order is kept |
| Preprocess.OtherYearRowFiltered | scripts/preprocess-data.ts:163-166 | inserting a row of another year anywhere does not change the filtered rows, so no aggregate depends on it |
| Preprocess.BudgetAmount | scripts/preprocess-data.ts:176 | defines a row's initial budget in yen: the first truthy of the two `当初予算` columns, normalised for the year; properties in FirstTruthy and NormalizeAmount |
| Preprocess.ExecutionAmount | scripts/preprocess-data.ts:283 | defines a row's execution in yen: the first truthy of the two `執行額` columns, normalised for the year; properties in FirstTruthy and NormalizeAmount |
| RsRecords.FirstTruthy | scripts/preprocess-data.ts:176 | `a \|\| b \|\| 0` is non-zero iff one of the two columns is truthy; it is the first truthy one |
| Assoc.Accumulate | scripts/preprocess-data.ts:178 | defines `m.set(k, (m.get(k) \|\| 0) + v)` on the insertion-ordered map; properties in AccumulateKeys, AccumulateAmountSum and AccumulateLookup |
| Assoc.GroupSum | scripts/preprocess-data.ts:169-180 | defines the per-key sums built by folding Accumulate over the pairs in order; properties in GroupSumKeys, GroupSumAmountSum and GroupSumLookup |
| Assoc.Lookup | scripts/preprocess-data.ts:178 | `Map.get` finds a value exactly when the key has an entry; LookupFirst says which value |
| Assoc.AccumulateKeys | scripts/preprocess-data.ts:178 | `set(k, (get(k) \|\| 0) + v)` appends a new key at the end and keeps an existing key in place |
| Assoc.AccumulateAmountSum | scripts/preprocess-data.ts:178-179 | accumulating `v` raises the map's total by exactly `v` |
| Assoc.AccumulateLookup | scripts/preprocess-data.ts:178 | accumulating into `k` adds `v` to `k`'s value and changes no other key |
| Assoc.GroupSumKeys | scripts/preprocess-data.ts:172-180 | the grouped map has each key once, in first-encounter order, and exactly the keys of the input |
| Assoc.GroupSumAmountSum | scripts/preprocess-data.ts:172-180 | grouping keeps the grand total |
| Assoc.GroupSumLookup | scripts/preprocess-data.ts:172-180 | each grouped key's value is the sum of that key's amounts; absent keys are not found |
| Assoc.LookupDistinct | scripts/preprocess-data.ts:249 | in a map with distinct keys, looking up an entry's key returns that entry's value |
| Assoc.LookupFirst | scripts/preprocess-data.ts:178 | `get` returns the value of the first entry whose key is `k` |
| Ranking.SortDesc | scripts/preprocess-data.ts:193-194 | defines the stable `b - a` sort as an insertion sort, largest amount first; properties in SortDescOrder and SortDescKeys |
| Ranking.SortDescOrder | scripts/preprocess-data.ts:193-194 | the `b - a` sort yields amounts in non-increasing order, a permutation of its input with the same total |
| Ranking.SortDescKeys | scripts/preprocess-data.ts:193-194 | sorting keeps the length and the key set, and distinct keys stay distinct |
| Lexicographic.StrLeTotal | scripts/preprocess-data.ts:321 | the string order used by the default sort is total |
| Lexicographic.StrLeAntisymmetric | scripts/preprocess-data.ts:321 | the string order is antisymmetric |
| Lexicographic.StrLeTransitive | scripts/preprocess-data.ts:321 | the string order is transitive |
| Lexicographic.SortStrings | scripts/preprocess-data.ts:321 | defines the default `sort()` on strings as an insertion sort by StrLe; properties in StrLeTotal, StrLeAntisymmetric, StrLeTransitive and SortStringsFacts |
| Lexicographic.SortStringsFacts | scripts/preprocess-data.ts:321 | the default sort of a duplicate-free list is strictly ascending and has the same elements |
| SimplifiedSankey.SimplifiedSankeyData | scripts/preprocess-data.ts:153-218 | defines the simplified graph: the `total_budget` root carrying the year total, then one `ministry_i` node and root link per ministry in ranked order; properties in RankedFacts, SimplifiedSankeyConservation, SimplifiedSankeyMinistryBudgets, SimplifiedSankeyLayout, SimplifiedSankeyMinistries and SimplifiedSankeyIdsDistinct |
| SimplifiedSankey.GenerateSimplifiedSankeyData | scripts/preprocess-data.ts:153-214 | the loops build exactly the graph the specification function defines (year node first, then the ministries ranked by budget, one link each) |
| SimplifiedSankey.SumMinistryBudgets | scripts/preprocess-data.ts:169-180 | the first loop leaves the per-ministry sums of the named ministries in first-seen order, and the total of all their budgets |
| SimplifiedSankey.PushMinistries | scripts/preprocess-data.ts:189-212 | the second loop pushes the root node and then, for the k-th ranked ministry, node `ministry_k` and one link from the root carrying its budget |
| SimplifiedSankey.RankedFacts | scripts/preprocess-data.ts:170-194 | the ranked ministries are sorted by budget, distinct, exactly the non-empty ministries of the year, and carry the year's total |
| SimplifiedSankey.SimplifiedSankeyConservation | scripts/preprocess-data.ts:170-211 | one node per link plus the root; the root's budget equals the sum of the link values; each ministry node's budget equals its link's value |
| SimplifiedSankey.SimplifiedSankeyMinistryBudgets | scripts/preprocess-data.ts:172-180 | each ministry node's budget is the sum of the normalised budgets of that ministry's rows of the year |
| SimplifiedSankey.SimplifiedSankeyLayout | scripts/preprocess-data.ts:183-211 | the first node is `total_budget` of type total; node `i` is `ministry_<i-1>` of type ministry; link `i` runs from the root to node `i+1` |
| SimplifiedSankey.SimplifiedSankeyMinistries | scripts/preprocess-data.ts:170-211 | there is one ministry node per distinct non-empty ministry of the year, names distinct, and budgets non-increasing along the nodes |
| SimplifiedSankey.SimplifiedSankeyIdsDistinct | scripts/preprocess-data.ts:185-198 | node ids are pairwise distinct |
| SimplifiedSankey.LinkTotalMatches | scripts/preprocess-data.ts:205-209 | links whose values are the ranked amounts sum to the ranked total |
| SimplifiedSankey.MinistryAmountsKeys | scripts/preprocess-data.ts:172-176 | the ministries contributing amounts are exactly the non-empty ministry cells |
| MinistryProjects.MinistryProjectsData | scripts/preprocess-data.ts:222-265 | defines the per-ministry rollup table of the year, in first-seen ministry order; properties in MinistryProjectsKeys and MinistryProjectsEntry |
| MinistryProjects.Rollup | scripts/preprocess-data.ts:250-262 | defines one ministry's entry: the first ten of its sorted projects as `{name, amount}`, the sum of the rest, and the project count; properties in RollupTop, RollupOutranks and RollupTotals |
| MinistryProjects.GenerateMinistryProjectsData | scripts/preprocess-data.ts:222-265 | the two loops build exactly the rollup the specification function defines |
| MinistryProjects.CollectProjects | scripts/preprocess-data.ts:230-244 | the first loop leaves, per ministry in first-seen order, its projects with summed budgets, skipping rows with no ministry or no project name |
| MinistryProjects.RollupAll | scripts/preprocess-data.ts:247-262 | the second loop gives each ministry, in map order, the rollup of its projects |
| MinistryProjects.AddProjectKeys | scripts/preprocess-data.ts:238-243 | a new ministry is appended at the end of the ministry map; a known one keeps its place |
| MinistryProjects.AddProjectLookup | scripts/preprocess-data.ts:238-243 | adding a project row changes only its ministry's project map, by accumulating the amount under the project name |
| MinistryProjects.ProjectTotalsKeys | scripts/preprocess-data.ts:232-244 | the ministries appear once each, in first-encounter order |
| MinistryProjects.ProjectTotalsLookup | scripts/preprocess-data.ts:232-244 | each ministry's project map is the grouping of that ministry's (project, amount) pairs |
| MinistryProjects.ProjectAmountsMinistries | scripts/preprocess-data.ts:232-236 | the ministries taking part are exactly those of rows with both a ministry and a project name |
| MinistryProjects.PairsForNames | scripts/preprocess-data.ts:232-236 | a ministry's project names are exactly the non-empty names on its rows |
| MinistryProjects.PairsForSums | scripts/preprocess-data.ts:236-243 | a project's amount is the sum of the normalised budgets of its rows |
| MinistryProjects.PairsForTotal | scripts/preprocess-data.ts:236-243 | a ministry's pairs sum to its total project budget |
| MinistryProjects.ItemsSum | scripts/preprocess-data.ts:258 | turning pairs into `{name, amount}` items keeps their total |
| MinistryProjects.RollupTop | scripts/preprocess-data.ts:250-261 | `top10` holds min(10, n) items, sorted by amount, with distinct names taken from the project map; `totalProjects` is n |
| MinistryProjects.RollupOutranks | scripts/preprocess-data.ts:250-253 | every project left out of `top10` has an amount no larger than any listed one |
| MinistryProjects.RollupTotals | scripts/preprocess-data.ts:252-255 | the top-10 amounts plus `othersTotal` equal the ministry's total; with at most 10 projects `othersTotal` is 0 |
| MinistryProjects.MinistryProjectsKeys | scripts/preprocess-data.ts:249-262 | the result has one distinct entry per ministry of the year that has a named project row |
| MinistryProjects.MinistryProjectsEntry | scripts/preprocess-data.ts:222-265 | each entry counts that ministry's distinct project names; `top10` has min(10, count) items; shown plus others equals the ministry's total; each shown amount is that project's summed budget |
| YearStatistics.CalculateStatistics | scripts/preprocess-data.ts:270-303 | defines the year statistics: the normalised budget and execution sums, the truthy-rate mean or 0, and the sizes of the project-id and ministry Sets, all over the year's rows; properties in MeanRate, RateCountBound, MeanRateBounds, EventIdsBound, MinistryCountSplit, BudgetTotalSplit and TotalBudgetMatchesSankey |
| YearStatistics.MeanRate | scripts/preprocess-data.ts:287-291 | the average is 0 when no row has a truthy rate, otherwise it times the count equals the sum of the rates |
| YearStatistics.RateCountBound | scripts/preprocess-data.ts:287 | at most one rate per row; the count is zero iff no row has a truthy rate |
| YearStatistics.RateSumAbove | scripts/preprocess-data.ts:290 | rates bounded below by `lo` sum to at least `lo` times their count |
| YearStatistics.RateSumBelow | scripts/preprocess-data.ts:290 | rates bounded above by `hi` sum to at most `hi` times their count |
| YearStatistics.MeanRateBounds | scripts/preprocess-data.ts:287-291 | the average lies between any bounds of the individual rates |
| YearStatistics.EventIdsBound | scripts/preprocess-data.ts:293 | the event count is at most the row count and zero only for no rows |
| YearStatistics.MinistryCountSplit | scripts/preprocess-data.ts:294 | the ministry count is the number of non-empty ministries of the year, plus one when an empty ministry cell occurs |
| YearStatistics.BudgetTotalSplit | scripts/preprocess-data.ts:277-280 | the total budget splits into the ministry-assigned amounts and the amounts of rows without a ministry |
| YearStatistics.TotalBudgetMatchesSankey | scripts/preprocess-data.ts:277-280 | the statistics total equals the Sankey root budget plus the budget of rows with no ministry |
| MinistryList.MinistriesInOrder | scripts/preprocess-data.ts:315-320 | defines the `Set`'s insertion order: each non-empty ministry once, at its first row; properties in MinistriesInOrderFacts and SortedMinistries |
| MinistryList.MinistriesInOrderFacts | scripts/preprocess-data.ts:315-320 | the set's iteration order holds each non-empty ministry once |
| MinistryList.SortedMinistries | scripts/preprocess-data.ts:321 | the sorted list is strictly ascending with exactly the non-empty ministries |
| MinistryList.ExtractMinistries | scripts/preprocess-data.ts:308-322 | the result is strictly ascending and holds exactly the non-empty ministries of the year |
| MinistryList.GetMinistryList | server/lib/sankey-transformer.ts:188-196 | the result is strictly ascending and holds exactly the non-empty ministries of all rows |
| BudgetLookup.GetBudgetInfoById | server/lib/sankey-transformer.ts:201-206 | nothing is found iff no row has the id; otherwise the result is the row at the first index whose id matches |
| BlockFlow.SankeyFromBlocks | server/lib/sankey-transformer.ts:16-183 | defines the whole transform: filter, the three steps, then the node limit; properties in TransformIdsDistinct, TransformFirstMention, TransformMinistryFilter and the NodeLimit rows |
| BlockFlow.ConnectionNodes | server/lib/sankey-transformer.ts:43-76 | defines step 1: the source and then the target node of each connection, each id set once; properties in ConnectionNodesKeys, ConnectionNodesFirstMention, ConnectionNodesWellKeyed and ConnectionNodesOfMinistry |
| BlockFlow.BlockAmounts | server/lib/sankey-transformer.ts:88-96 | defines the `(block, amount)` pairs that linkMap sums, for rows whose `ブロックの合計支出額 \|\| 金額` is positive; properties in BlockAmountsSpend and BlockTotals |
| BlockFlow.ExpenditureNodes | server/lib/sankey-transformer.ts:98-115 | defines the recipient nodes step 2 adds, each id set once; properties in ExpenditureNodesKeep, ExpenditureNodesWellKeyed and ExpenditureNodesOfMinistry |
| BlockFlow.RecipientLinks | server/lib/sankey-transformer.ts:99-129 | defines the block-to-recipient links of step 2, one per row with a recipient; properties in RecipientLinksFacts |
| BlockFlow.ConnectionLinks | server/lib/sankey-transformer.ts:133-148 | defines step 3: a link per connection whose target block has a positive linkMap total, carrying that total; properties in ConnectionLinksFunded |
| BlockFlow.BuildBlockNodes | server/lib/sankey-transformer.ts:43-76 | the loop builds exactly the node map of the connections |
| BlockFlow.AddExpenditures | server/lib/sankey-transformer.ts:79-130 | the loop's nodes, per-block totals and recipient links are exactly the specification's |
| BlockFlow.AddBlockLinks | server/lib/sankey-transformer.ts:133-148 | block links are appended after the recipient links, exactly as the specification defines them |
| BlockFlow.TransformToSankeyData | server/lib/sankey-transformer.ts:16-183 | the whole transformation equals the specification function |
| BlockFlowFacts.AddNodeKeys | server/lib/sankey-transformer.ts:50-61 | `if (!nodes.has(id)) nodes.set(id, …)` appends only unseen ids |
| BlockFlowFacts.AddNodeWellKeyed | server/lib/sankey-transformer.ts:50-61 | the node map stays keyed by node id with distinct keys |
| BlockFlowFacts.AddNodeLookup | server/lib/sankey-transformer.ts:50-61 | the first node stored under an id is never replaced |
| BlockFlowFacts.ConnectionNodesWellKeyed | server/lib/sankey-transformer.ts:43-76 | the connection pass keeps the map well keyed |
| BlockFlowFacts.ExpenditureNodesWellKeyed | server/lib/sankey-transformer.ts:99-115 | the recipient pass keeps the map well keyed |
| BlockFlowFacts.ValuesIds | server/lib/sankey-transformer.ts:151 | `Array.from(nodes.values())` lists the node ids in key order |
| BlockFlowFacts.GraphNodesFacts | server/lib/sankey-transformer.ts:151-182 | the final nodes come from the node map, whose ids are distinct |
| BlockFlowFacts.TransformIdsDistinct | server/lib/sankey-transformer.ts:151-182 | the returned node ids are pairwise distinct, with or without a node limit |
| BlockFlowFacts.ConnectionNodesKeys | server/lib/sankey-transformer.ts:43-76 | an id is a node of the connection pass iff some connection names it as source or target |
| BlockFlowFacts.ConnectionNodesFirstMention | server/lib/sankey-transformer.ts:43-76 | the node of an id is the one made by the first connection naming it |
| BlockFlowFacts.ExpenditureNodesKeep | server/lib/sankey-transformer.ts:102-115 | the recipient pass never changes a node already present |
| BlockFlowFacts.TransformFirstMention | server/lib/sankey-transformer.ts:43-76 | the node of a block id is the first connection's, it is the only node with that id, and it is of type ministry iff made as a source of an organisation-side connection |
| BlockFlowFacts.ConnectionsOfMembers | server/lib/sankey-transformer.ts:36-40 | the ministry filter keeps exactly the connections of that ministry |
| BlockFlowFacts.ExpendituresOfMembers | server/lib/sankey-transformer.ts:82-86 | the ministry filter keeps exactly the expenditure rows of that ministry |
| BlockFlowFacts.ConnectionNodesOfMinistry | server/lib/sankey-transformer.ts:55-59 | nodes made from one ministry's connections carry that ministry |
| BlockFlowFacts.ExpenditureNodesOfMinistry | server/lib/sankey-transformer.ts:103-114 | recipient nodes made from one ministry's rows carry that ministry |
| BlockFlowFacts.TransformMinistryFilter | server/lib/sankey-transformer.ts:34-86 | with a ministry filter, every returned node belongs to that ministry |
| BlockFlowFacts.BlockAmountsSpend | server/lib/sankey-transformer.ts:88-96 | a block's collected amounts sum to its positive spend; it is collected iff that spend is positive |
| BlockFlowFacts.BlockTotals | server/lib/sankey-transformer.ts:79-96 | `linkMap` holds a block iff its positive amounts sum above 0, and then that sum |
| BlockFlowFacts.ConnectionLinksFunded | server/lib/sankey-transformer.ts:133-148 | a connection gives a link iff its target block has positive spend, and the link's value is that spend |
| BlockFlowFacts.RecipientLinksFacts | server/lib/sankey-transformer.ts:99-129 | one recipient link per row with a recipient name and a positive amount; every such link is positive, ends at a node present in the map, and starts at the `支出先ブロック番号` of a qualifying row whose `金額` it carries |
| NodeLimit.Truncate | server/lib/sankey-transformer.ts:150-182 | defines step 4: unchanged without an exceeded limit, otherwise the kept nodes and the links between them; properties in TruncateUnlimited, TruncateKeepsPriority, TruncateLinksClosed, TruncateRanking, TruncateCount and TruncateIdsDistinct |
| NodeLimit.KeptNodes | server/lib/sankey-transformer.ts:152-165 | defines the kept nodes: the priority nodes, then the ranked recipients sliced to `maxNodes - priorityNodes.length`; properties in KeptNodesDistinct, TruncateKeepsPriority and TruncateCount |
| NodeLimit.RankedRecipients | server/lib/sankey-transformer.ts:155-162 | defines the recipients paired with their incoming link totals, sorted by the stable `bValue - aValue` sort; properties in RankedRecipientsFacts and TruncateRanking |
| NodeLimit.PriorityNodesMembers | server/lib/sankey-transformer.ts:154 | the priority filter keeps exactly the ministry and block nodes |
| NodeLimit.RecipientNodesMembers | server/lib/sankey-transformer.ts:155-156 | the recipient filter keeps exactly the recipient nodes |
| NodeLimit.PriorityNodesDistinct | server/lib/sankey-transformer.ts:154 | filtering keeps distinct nodes distinct |
| NodeLimit.RecipientNodesDistinct | server/lib/sankey-transformer.ts:155-156 | filtering keeps distinct nodes distinct |
| NodeLimit.LinksWithinMembers | server/lib/sankey-transformer.ts:168-171 | the link filter keeps exactly the links whose both ends are kept ids |
| NodeLimit.RankedRecipientsFacts | server/lib/sankey-transformer.ts:155-162 | recipients are ranked by incoming link total, non-increasing, each recipient once |
| NodeLimit.IdsIdentify | server/lib/sankey-transformer.ts:168 | in a node list with distinct ids, equal ids mean equal nodes |
| NodeLimit.DistinctIdsDistinctNodes | server/lib/sankey-transformer.ts:168 | distinct ids make the nodes distinct |
| NodeLimit.TruncateUnlimited | server/lib/sankey-transformer.ts:151-152 | with no limit, or a limit not exceeded, nodes and links come back unchanged |
| NodeLimit.TruncateKeepsPriority | server/lib/sankey-transformer.ts:152-165 | under a limit, all ministry and block nodes come first in their order and are all kept; nothing else is added |
| NodeLimit.TruncateLinksClosed | server/lib/sankey-transformer.ts:167-181 | under a limit a link survives iff both its ends are kept; otherwise every link is kept |
| NodeLimit.TruncateRanking | server/lib/sankey-transformer.ts:155-163 | a kept recipient has at least the incoming total of any dropped one |
| NodeLimit.TruncateCount | server/lib/sankey-transformer.ts:152-165 | with a limit m ≥ the priority count p, at most m nodes remain (min(m, p+q)); with m < p, the negative slice end drops the last p−m recipients |
| NodeLimit.KeptNodesDistinct | server/lib/sankey-transformer.ts:165 | the kept nodes are distinct and drawn from the input |
| NodeLimit.TruncateIdsDistinct | server/lib/sankey-transformer.ts:165-176 | truncation keeps node ids distinct |
| StatisticsLoader.RawBudgetTotal | server/loaders/data-loader.ts:41-44 | defines the sum of the raw `当初予算(合計)` column, 0 for a falsy cell; properties in BudgetTotalScales and LoaderTotalsInYen |
| StatisticsLoader.RawExecutionTotal | server/loaders/data-loader.ts:46-49 | defines the sum of the raw `執行額(合計)` column, 0 for a falsy cell; properties in BudgetTotalScales and LoaderTotalsInYen |
| StatisticsLoader.LoadStatistics | server/loaders/data-loader.ts:38-68 | the summary echoes the year; the average is the mean of the truthy rates, 0 instead of `NaN` when there are none |
| StatisticsLoader.YearRowsAll | server/loaders/data-loader.ts:39 | on rows that are all of the year the year filter is the identity |
| StatisticsLoader.LoaderMatchesPreprocessCounts | server/loaders/data-loader.ts:51-59 | on one year's rows the loader's average, event count and ministry count equal the preprocessing statistics |
| StatisticsLoader.BudgetTotalScales | server/loaders/data-loader.ts:41-49 | without full-width columns, the normalised totals are the raw totals times 1,000,000 (to 2023) or 1 (2024) |
| StatisticsLoader.LoaderTotalsInYen | server/loaders/data-loader.ts:41-49 | on one year's rows with only half-width columns, the preprocessing totals are the loader's raw totals scaled to yen |
| BudgetFormat.FormatBudget | client/lib/formatBudget.ts:4-27 | defines the unit choice by absolute value and the numeral before it; properties in FormatBudgetUnit and FormatBudgetReadsBack |
| BudgetFormat.ToFixed | client/lib/formatBudget.ts:10-26 | defines `toFixed(0)` and `toFixed(1)`: a sign for negative numbers, then the magnitude rounded half up; properties in RoundHalfUp, FixedDigitsValue and ToFixedReadsBack |
| BudgetFormat.RoundHalfUp | client/lib/formatBudget.ts:10 | the rounded integer is within half of `x`, the larger one on a tie |
| BudgetFormat.FixedDigitsValue | client/lib/formatBudget.ts:10 | the digits written for `n` with 0 or 1 decimals read back as `n` scaled |
| BudgetFormat.MagnitudeReadsBack | client/lib/formatBudget.ts:10 | the written magnitude reads back within half a unit of its last digit |
| BudgetFormat.ToFixedReadsBack | client/lib/formatBudget.ts:10-26 | `toFixed(0/1)` is a numeral ending in a digit, signed exactly for negative input, reading back within 0.5 / 0.05 |
| BudgetFormat.FormatBudgetUnit | client/lib/formatBudget.ts:4-27 | the string ends in 円, is signed exactly for negative amounts, and its unit is 兆 from 10^12, 億 from 10^8, 万 from 10^4 and none below |
| BudgetFormat.ScaleError | client/lib/formatBudget.ts:9-21 | an error of h in units of c is an error of h·c yen |
| BudgetFormat.UnitReadsBack | client/lib/formatBudget.ts:10-22 | a numeral close enough, followed by a unit and 円, reads back within half a shown step |
| BudgetFormat.ChoReadsBack | client/lib/formatBudget.ts:8-11 | the 兆 form reads back within 0.05 兆 |
| BudgetFormat.OkuReadsBack | client/lib/formatBudget.ts:14-17 | the 億 form reads back within 0.5 億 |
| BudgetFormat.ManReadsBack | client/lib/formatBudget.ts:20-23 | the 万 form reads back within 0.5 万 |
| BudgetFormat.YenReadsBack | client/lib/formatBudget.ts:26 | the plain form reads back within 0.5 円 |
| BudgetFormat.FormatBudgetReadsBack | client/lib/formatBudget.ts:4-27 | every formatted amount, read back with its unit, is within half a shown step of the amount |

## Left out

- File and directory I/O: `parseCSV`, `checkYearDirectoryExists`, `processYearData`, `main`, `getAllDataForYear` and `Promise.all`. The model starts from parsed rows.
- CSV parsing and type coercion: a cell is either absent or the parsed value. An absent required string column and an empty one are both `""`. The one place where this shows: with `relax_column_count` (scripts/preprocess-data.ts:29) a short row has no `府省庁`, and `new Set(...).size` in `calculateStatistics` and `loadStatisticsForYear` counts `undefined` and `""` as two values. `MinistryValues` and so `ministryCount` in the model count them as one.
- The unused parameters are dropped: `expenditureData` and `connectionData` of `generateSimplifiedSankeyData`, and `budgetSummary` / `budgetMap` of `transformToSankeyData`. None of them influences the result.
- `Math.random()` in recipient ids is a caller-supplied function. It gives the fallback text for the n-th filtered expenditure row, so distinct draws are not assumed.
- Floating point: amounts are exact integers and rates and formatter inputs are exact reals. IEEE rounding, `NaN` from non-numeric cells, and `toFixed`'s exponential notation above 10^21 are not modelled.
- YearStatistics.MinistryCountSplit: counts an absent and an empty `府省庁` as one Set value, for the reason in the CSV line above; the source can count them as two.
- Ranking.SortDescOrder: the sort's stability (ties keep input order) is built into the insertion sort but not proved.
- Lexicographic.SortStringsFacts: strings are ordered by Dafny character, whereas JavaScript compares UTF-16 code units. The two orders can differ for characters outside the Basic Multilingual Plane.
- `maxNodes` is an integer option; a fractional or `NaN` limit is not modelled.
- Object key order of the `result` record in `generateMinistryProjectsData`: it is modelled as the Map's insertion order. JavaScript would list integer-like ministry names first.
- The UI, React components, pages and the project report pages are not part of this model.
