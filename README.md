# Finance ledger core, modelled in Dafny

This project models the ledger core of a small finance application. It
covers two things.

The first is the finance service (`FinanceService`). It stores ledger
entries and keeps a table of category hints, keyed by normalised description.
It imports batches from documents (`pdf`, `xlsx`, `ods`) and from
credit-card feeds. For a credit-card entry it looks for a bank entry the
entry duplicates and, if it finds one, links to it instead of storing the
entry again. From the stored entries it computes the operating cashflow, the
cashflow per bank account, the executive metrics, the cost-centre insights
and a risk signal for the last 60 days.

The second is the document processor. It turns one line read from a bank
document into a draft entry, classifying the line by keywords in its
description.

Modules, in dependency order:

| module | models |
|---|---|
| `Shared` (shared.dfy) | the entry record, entry types, provenance tags, `findIndex` and `??` |
| `Text` (text.dfy) | `toLowerCase`, `trim`, `split(/\s+/)` |
| `Sorting` (sorting.dfy) | the stable `Array.prototype.sort`, keyed by a number |
| `Categories` (categories.dfy) | `suggestCategory` and `learnCategory` on the hint table |
| `Duplicates` (duplicates.dfy) | `textSimilarity` and `findPotentialDuplicate` |
| `Store` (store.dfy) | the store operations as functions on sequences, and the import loop as a state function |
| `Analytics` (analytics.dfy) | the reports, as reference functions over the entries |
| `Finance` (finance.dfy) | the class `FinanceService`, whose methods update the entries, the hints and the id counter in place; its loops are proved against the reference functions |
| `Processor` (processor.dfy) | `classifyEntryType` and `toLedgerEntry` |

How source values are represented:

- Amounts are exact `real`s.
- Dates are `int` day numbers.
- The record field `type` is called `kind`.
- Identifiers come from a counter (`nextId`) that stands in for `uuid()`.
  The class invariant `Valid()` says every stored id is below the counter and
  no two stored entries share an id.
- A JavaScript `Map`, which keeps insertion order, becomes a `map` plus a
  `seq` of its keys in insertion order.
- Report messages become datatypes: `RiskSignal`, `Opportunity` and
  `Summary`.
- The current day, which the source reads from `dayjs()`, is a parameter
  `now`.

Where the code's behaviour could be read more than one way, the model
follows the code:

- A credit-card batch looks for duplicates among the entries stored so far,
  which includes entries from the same batch that were stored earlier
  (finance-service.ts lines 48 and 58). `Store.ImportCreditCardLinks` states
  this.
- A document import keeps the draft's own `linkedBankEntryId`, because the
  spread copies it (lines 61-66).
- `importData` does not learn categories. It reads the hints as they stood
  when the batch started.
- `getEntries` sorts the stored array in place, so the stored order changes
  too.
- The risk window is strict: an entry counts when its date is after the day
  60 days before `now`.
- A document draft may carry a link of its own, and `importData` counts it.
  So the equation "stored plus duplicates equals entries before plus drafts"
  is stated for credit-card batches only.

## Model

| member | source | states |
|---|---|---|
| Shared.FirstIndex | apps/api/src/modules/finance-service.ts:29 | `findIndex`: the index found holds the first element satisfying the test; none is found exactly when no element does |
| Shared.WithId | apps/api/src/modules/finance-service.ts:22 | `{ ...entry, id }` carries the given id and every other field of the draft |
| Text.Lower | apps/api/src/modules/finance-service.ts:186 | lower-casing keeps the length and maps every character through the letter lower-casing |
| Text.LowerChar | apps/api/src/modules/finance-service.ts:186 | the result is never a capital, is white space exactly when the input is, and a non-capital is kept |
| Text.LowerIdempotent | apps/api/src/modules/finance-service.ts:186 | lower-casing twice is lower-casing once |
| Text.TrimStart | apps/api/src/modules/finance-service.ts:186 | the result is a suffix of the input, does not start with white space, and only white space was removed |
| Text.TrimEnd | apps/api/src/modules/finance-service.ts:186 | the result is a prefix of the input, does not end with white space, and only white space was removed |
| Text.Trim | apps/api/src/modules/finance-service.ts:186 | the trimmed text neither starts nor ends with white space |
| Text.Split | apps/api/src/modules/finance-service.ts:195-196 | splitting on runs of white space yields at least one piece, and no piece holds white space |
| Text.SplitWord | apps/api/src/modules/finance-service.ts:195 | a text with no white space splits into itself alone |
| Text.SplitWordThen | apps/api/src/modules/finance-service.ts:195 | a word, one space and a rest split into the word followed by the pieces of the rest |
| Sorting.Insert | apps/api/src/modules/finance-service.ts:17 | insertion adds exactly the one element to the multiset |
| Sorting.SortBy | apps/api/src/modules/finance-service.ts:17 | the sort is a permutation: the same length and the same multiset of elements |
| Sorting.SortBySorted | apps/api/src/modules/finance-service.ts:17 | the sorted sequence is ordered by the key |
| Sorting.SortByStable | apps/api/src/modules/finance-service.ts:17 | elements that share a key keep their relative order |
| Sorting.SortByMembers | apps/api/src/modules/finance-service.ts:17 | sorting keeps exactly the elements it was given |
| Sorting.SortByDistinct | apps/api/src/modules/finance-service.ts:17 | sorting never makes two elements share an identifier |
| Categories.Normalize | apps/api/src/modules/finance-service.ts:186 | the hint key: the description lower-cased, then trimmed (`Text.Trim` states the trimmed ends); never longer than the description |
| Categories.Suggest | apps/api/src/modules/finance-service.ts:185-188 | the hint for the normalised description when one is stored, otherwise the fallback |
| Categories.Learn | apps/api/src/modules/finance-service.ts:190-192 | the table gains the normalised description as a key, mapped to the learned category; every other hint is unchanged |
| Categories.SuggestAfterLearn | apps/api/src/modules/finance-service.ts:185-192 | after learning, a description with the same normalised form gets the learned category; any other gets what it got before |
| Categories.NormalizeIdempotent | apps/api/src/modules/finance-service.ts:186 | normalising twice is normalising once |
| Categories.SuggestIgnoresCaseAndPadding | apps/api/src/modules/finance-service.ts:185-188 | a description and its normalised form get the same suggestion |
| Categories.TrimIdempotent | apps/api/src/modules/finance-service.ts:186 | trimming twice is trimming once |
| Categories.TrimStartLower | apps/api/src/modules/finance-service.ts:186 | trimming the front commutes with lower-casing |
| Categories.TrimEndLower | apps/api/src/modules/finance-service.ts:186 | trimming the end commutes with lower-casing |
| Duplicates.Tokens | apps/api/src/modules/finance-service.ts:195-196 | every text, the empty one included, has at least one token |
| Duplicates.TextSimilarity | apps/api/src/modules/finance-service.ts:194-200 | the Jaccard index of the two token sets lies between 0 and 1 |
| Duplicates.TextSimilaritySymmetric | apps/api/src/modules/finance-service.ts:194-200 | similarity does not depend on argument order |
| Duplicates.TextSimilarityReflexive | apps/api/src/modules/finance-service.ts:194-200 | every text is fully similar to itself |
| Duplicates.UnionNeverEmpty | apps/api/src/modules/finance-service.ts:198-199 | the union of the token sets is never empty, so the division guard never fires |
| Duplicates.IsPotentialDuplicate | apps/api/src/modules/finance-service.ts:177-181 | the four conditions of the `find` test: an expense, fee or tax, amounts less than 0.05 apart, dates at most 4 days apart, similarity at least 0.55; so a revenue, transfer or royalty entry never qualifies |
| Duplicates.FindPotentialDuplicate | apps/api/src/modules/finance-service.ts:175-183 | `find` over the stored entries: a match found is a stored entry meeting the four conditions |
| Duplicates.FindPotentialDuplicateFirst | apps/api/src/modules/finance-service.ts:175-183 | the match is the first stored entry meeting all four conditions, and it is an expense, fee or tax; no match exactly when no entry qualifies |
| Store.FindIndex | apps/api/src/modules/finance-service.ts:29-30 | the first position holding the id; none exactly when the id is absent |
| Store.Merge | apps/api/src/modules/finance-service.ts:32 | `{ ...entry, ...changes }` never changes the id |
| Store.MergeFields | apps/api/src/modules/finance-service.ts:32 | each field takes the change when one is given and keeps its value otherwise |
| Store.MergeNoChanges | apps/api/src/modules/finance-service.ts:32 | an empty change set leaves the entry as it was |
| Store.MergeCombine | apps/api/src/modules/finance-service.ts:32 | two updates in a row equal one update with the combined changes; repeating an update changes nothing more |
| Store.Without | apps/api/src/modules/finance-service.ts:39 | removing by id never lengthens the store |
| Store.WithoutRemoves | apps/api/src/modules/finance-service.ts:37-41 | the length is unchanged exactly when the id is absent, and afterwards no entry has the id |
| Store.WithoutAbsent | apps/api/src/modules/finance-service.ts:39 | removing an absent id leaves the store as it was |
| Store.WithoutConcat | apps/api/src/modules/finance-service.ts:39 | removal distributes over concatenation |
| Store.WithoutUnique | apps/api/src/modules/finance-service.ts:39 | with unique ids, removal takes out exactly the one entry at the id's position |
| Store.WithoutIdempotent | apps/api/src/modules/finance-service.ts:39 | removing twice is removing once |
| Store.WithoutMembers | apps/api/src/modules/finance-service.ts:39 | every entry left was stored before |
| Store.WithoutFresh | apps/api/src/modules/finance-service.ts:37-41 | removal keeps the ids unique and below the counter |
| Store.AppendFresh | apps/api/src/modules/finance-service.ts:22-23 | appending an entry with the counter's id, and advancing the counter, keeps the ids unique and below the counter |
| Store.FreshReordered | apps/api/src/modules/finance-service.ts:17 | a reordering of the stored entries keeps the ids unique and below the counter |
| Store.ReplaceFresh | apps/api/src/modules/finance-service.ts:32 | replacing an entry with one carrying the same id keeps the ids unique and below the counter |
| Store.FreshLater | apps/api/src/modules/finance-service.ts:51 | handing out an id that is not stored keeps the invariant |
| Store.LinkTo | apps/api/src/modules/finance-service.ts:53 | `duplicate?.id`: a link exactly when a duplicate was found, and then to that duplicate's id |
| Store.Enriched | apps/api/src/modules/finance-service.ts:47-66 | the entry built at the current state: the next id, the source as provenance; a credit-card entry links to the duplicate found among the stored entries, a document entry keeps the draft's link |
| Store.Enrich | apps/api/src/modules/finance-service.ts:49-55 | the imported entry has a fresh id, the source as provenance and the suggested category, and keeps the draft's other fields; a credit-card entry links to the duplicate found; a document entry keeps the draft's link (lines 61-66) |
| Store.ImportStep | apps/api/src/modules/finance-service.ts:46-69 | one turn of the loop returns the enriched entry and uses one id; it stores the entry unless it is a credit-card entry with a duplicate |
| Store.ImportAll | apps/api/src/modules/finance-service.ts:46-70 | a batch returns one entry per draft and uses one id per draft |
| Store.Unlinked | apps/api/src/modules/finance-service.ts:57-59 | the entries of the batch that carry no link; never more than the batch |
| Store.CountLinked | apps/api/src/modules/finance-service.ts:74 | the linked and the unlinked entries together number the whole batch |
| Store.ImportedEntryAt | apps/api/src/modules/finance-service.ts:46-69 | the i-th returned entry is the i-th draft, enriched, with the i-th id |
| Store.ImportedEntries | apps/api/src/modules/finance-service.ts:46-69 | every returned entry is its draft, enriched, with ids handed out in order |
| Store.ImportDocumentsAppendsAll | apps/api/src/modules/finance-service.ts:60-69 | a document import appends every returned entry, in order |
| Store.ImportFresh | apps/api/src/modules/finance-service.ts:43-76 | an import keeps the ids unique and below the counter |
| Store.ImportCreditCardAppendsUnlinked | apps/api/src/modules/finance-service.ts:47-59 | a credit-card import appends exactly the returned entries that carry no link, in order |
| Store.ImportCreditCardLinksLast | apps/api/src/modules/finance-service.ts:48-58 | the last entry of a batch links to the duplicate found among the entries stored before it |
| Store.ImportCreditCardLinkAt | apps/api/src/modules/finance-service.ts:48-58 | the i-th entry links to the duplicate found among the store plus the earlier unlinked entries of the batch |
| Store.ImportCreditCardLinks | apps/api/src/modules/finance-service.ts:48-58 | every entry of a credit-card batch links to the duplicate found among the entries stored when it is processed |
| Store.ImportCreditCardCount | apps/api/src/modules/finance-service.ts:57-74 | entries stored plus duplicates detected equal entries before plus drafts |
| Store.CountLinkedNone | apps/api/src/modules/finance-service.ts:74 | a batch with no links counts none |
| Store.ImportDocumentsReportNoDuplicates | apps/api/src/modules/finance-service.ts:60-74 | a document import of unlinked drafts reports no duplicates |
| Analytics.Select | apps/api/src/modules/finance-service.ts:80 | `filter` by entry type; never longer than the scan |
| Analytics.Sum | apps/api/src/modules/finance-service.ts:126 | `reduce((sum, item) => sum + item.amount, 0)` |
| Analytics.SelectMembers | apps/api/src/modules/finance-service.ts:80 | filtering by type keeps exactly the entries of those types |
| Analytics.SelectSnoc | apps/api/src/modules/finance-service.ts:80 | filtering a longer scan adds the new entry exactly when its type is selected |
| Analytics.HavingSnoc | apps/api/src/modules/finance-service.ts:92 | grouping a longer scan adds the new entry exactly when its key matches |
| Analytics.SumSnoc | apps/api/src/modules/finance-service.ts:126 | the running sum adds the new entry's amount |
| Analytics.SumAppend | apps/api/src/modules/finance-service.ts:126 | the sum of a concatenation is the sum of the parts |
| Analytics.SumNonNegative | apps/api/src/modules/finance-service.ts:126 | non-negative amounts sum to a non-negative total |
| Analytics.SelectSumMonotone | apps/api/src/modules/finance-service.ts:114-115 | with non-negative amounts, selecting more types never lowers the total |
| Analytics.TotalOfSnoc | apps/api/src/modules/finance-service.ts:112-116 | the running total grows by the new entry's amount exactly when its type is counted |
| Analytics.Keys | apps/api/src/modules/finance-service.ts:127-131 | the keys of a `Map` built by a scan, in insertion order: a key is appended the first time it is seen |
| Analytics.KeysListed | apps/api/src/modules/finance-service.ts:127-131 | the keys in insertion order are exactly the keys that occur, each listed once |
| Analytics.KeysSnoc | apps/api/src/modules/finance-service.ts:130 | a new key is appended at the end; a known key leaves the order alone |
| Analytics.KeysPrefix | apps/api/src/modules/finance-service.ts:127-131 | the key order of a prefix is a prefix of the key order |
| Analytics.GroupSumSnoc | apps/api/src/modules/finance-service.ts:130 | the group totals grow by the new amount exactly when its key is listed |
| Analytics.GroupSumTotal | apps/api/src/modules/finance-service.ts:125-131 | when every key is listed, the group totals add up to the total |
| Analytics.GroupSumEmpty | apps/api/src/modules/finance-service.ts:127 | no entries give zero in every group |
| Analytics.Signed | apps/api/src/modules/finance-service.ts:83 | the signed amount: the amount for revenue, its negation otherwise |
| Analytics.LinesOf | apps/api/src/modules/finance-service.ts:81-84 | one line per entry, each with its signed amount |
| Analytics.OperatingCashflowOf | apps/api/src/modules/finance-service.ts:78-85 | the revenue and expense entries, in store order; revenue signed positive, expense negative |
| Analytics.LinesSnoc | apps/api/src/modules/finance-service.ts:81-84 | mapping a longer scan adds one line |
| Analytics.SignedTotalSnoc | apps/api/src/modules/finance-service.ts:83 | the signed total adds the new line's signed amount |
| Analytics.OperatingCashflowNet | apps/api/src/modules/finance-service.ts:78-85 | the signed amounts add up to revenue minus expenses; taxes, fees, royalties and transfers are left out |
| Analytics.FlowOf | apps/api/src/modules/finance-service.ts:92-100 | an account's report names the account and has net equal to money in minus money out |
| Analytics.FlowsOf | apps/api/src/modules/finance-service.ts:104 | one report per listed account, in the listed order |
| Analytics.CashflowByAccountOf | apps/api/src/modules/finance-service.ts:87-105 | one report per account, in order of first non-transfer entry, each that account's report |
| Analytics.AccountListed | apps/api/src/modules/finance-service.ts:91-101 | an account is reported exactly when it has a non-transfer entry |
| Analytics.AccountsOfListed | apps/api/src/modules/finance-service.ts:88-104 | the accounts reported are exactly those with a non-transfer entry, each once |
| Analytics.FlowsTotals | apps/api/src/modules/finance-service.ts:98-99 | the reports' money in and money out are the revenue and expense totals grouped over the listed accounts |
| Analytics.CashflowByAccountTotals | apps/api/src/modules/finance-service.ts:87-105 | over all accounts, money in is total revenue and money out is total operating expense |
| Analytics.AccountTotalAdds | apps/api/src/modules/finance-service.ts:98-99 | an entry of the account with a counted type adds its amount to the account's total |
| Analytics.AccountTotalKeeps | apps/api/src/modules/finance-service.ts:98-99 | an entry of another account, or of a type not counted, leaves the total as it was |
| Analytics.AccountsOfSnoc | apps/api/src/modules/finance-service.ts:91-101 | a new account is listed after the existing ones, unless the entry is a transfer |
| Analytics.AccountTotalUnlisted | apps/api/src/modules/finance-service.ts:92-97 | an account not yet listed has zero totals, the fresh report of lines 92-97 |
| Analytics.Credit | apps/api/src/modules/finance-service.ts:98-100 | one turn of the account loop: the account is kept, the amount goes to money in for revenue and to money out otherwise, and the net is money in minus money out |
| Analytics.FlowOfOther | apps/api/src/modules/finance-service.ts:91-101 | a transfer, or another account's entry, leaves an account's report as it was |
| Analytics.FlowOfOwnRevenue | apps/api/src/modules/finance-service.ts:98-100 | a revenue entry raises money in and recomputes the net |
| Analytics.FlowOfOwnExpense | apps/api/src/modules/finance-service.ts:99-100 | any other non-transfer entry raises money out and recomputes the net |
| Analytics.FlowOfOwn | apps/api/src/modules/finance-service.ts:98-100 | crediting an account's report with its next entry gives the report over the longer scan |
| Analytics.ContributionMargin | apps/api/src/modules/finance-service.ts:118 | zero when there is no revenue; otherwise margin times revenue equals profit times 100 |
| Analytics.ExecutiveMetricsOf | apps/api/src/modules/finance-service.ts:107-122 | revenue, operating expenses and taxes are the totals of their types; net profit is revenue minus expenses; the margin is the contribution margin |
| Analytics.TotalNonNegative | apps/api/src/modules/finance-service.ts:112-116 | non-negative amounts give non-negative totals |
| Analytics.MarginAtMostHundred | apps/api/src/modules/finance-service.ts:118 | with positive revenue and non-negative expenses, the margin is at most 100 |
| Analytics.ExecutiveMetricsBounds | apps/api/src/modules/finance-service.ts:107-122 | with non-negative amounts: taxes lie between 0 and total expenses, revenue is non-negative, the margin is at most 100, net profit is at most revenue |
| Analytics.ExampleTotals | apps/api/src/modules/finance-service.ts:112-116 | on a revenue of 1000, an expense of 400, a tax of 100 and a transfer, each total counts exactly its own types |
| Analytics.ExecutiveMetricsExample | apps/api/src/modules/finance-service.ts:107-122 | that ledger gives revenue 1000, expenses 500, taxes 100, margin 50 and profit 500 |
| Analytics.Percentage | apps/api/src/modules/finance-service.ts:137 | the share in percent: zero when the total is zero, otherwise share times total is amount times 100 |
| Analytics.PercentageAdd | apps/api/src/modules/finance-service.ts:137 | percentages of a common total add up |
| Analytics.PercentageWhole | apps/api/src/modules/finance-service.ts:137 | a non-zero total is 100 percent of itself |
| Analytics.CategoryTotalUnlisted | apps/api/src/modules/finance-service.ts:130 | a category not yet seen totals zero, the `?? 0` of line 130 |
| Analytics.CategoryTotalSnoc | apps/api/src/modules/finance-service.ts:129-131 | a category's total grows by the new item's amount exactly when the item is in it |
| Analytics.CentersOf | apps/api/src/modules/finance-service.ts:133-138 | one cost centre per category, with that category's total and its percentage of all expenses |
| Analytics.CostCentersOf | apps/api/src/modules/finance-service.ts:125-138 | one cost centre per operating-expense category, in order of first use, each with that category's total |
| Analytics.RankedCostCenters | apps/api/src/modules/finance-service.ts:133-139 | the cost centres reordered by decreasing amount: the same centres, in non-increasing amount order |
| Analytics.TopCostCentersOf | apps/api/src/modules/finance-service.ts:139-141 | the first min(3, number of categories) of the ranked cost centres |
| Analytics.OpportunityFor | apps/api/src/modules/finance-service.ts:145-149 | names the cost centre's category; it is a contract review exactly when the share exceeds 25 percent |
| Analytics.OpportunitiesFor | apps/api/src/modules/finance-service.ts:145-149 | one opportunity per top cost centre, in order |
| Analytics.SummaryFor | apps/api/src/modules/finance-service.ts:151-154 | insufficient data exactly when there is no top cost centre; otherwise their categories, in order |
| Analytics.AiInsightsOf | apps/api/src/modules/finance-service.ts:124-156 | at most three cost centres, one opportunity each, one risk signal, and "insufficient data" exactly when there are no operating expenses |
| Analytics.TopOf | apps/api/src/modules/finance-service.ts:139-141 | `slice(0, 3)` of the centres ranked by decreasing amount: the first min(3, count) of the ranking |
| Analytics.TopOfLargest | apps/api/src/modules/finance-service.ts:139-141 | the centres kept come in decreasing amount order, and no centre left out is larger than one kept |
| Analytics.TopCostCentersLargest | apps/api/src/modules/finance-service.ts:139-141 | the top cost centres come in non-increasing amount order, and no cost centre left out is larger than one kept |
| Analytics.TopCostCentersAreCenters | apps/api/src/modules/finance-service.ts:141 | every top cost centre is one of the cost centres |
| Analytics.CostCentersCategories | apps/api/src/modules/finance-service.ts:125-133 | the cost centres name distinct categories, and exactly the categories of the operating expenses |
| Analytics.CenterSumsSnoc | apps/api/src/modules/finance-service.ts:133-138 | the amount and percentage sums grow by the new cost centre's values |
| Analytics.CentersSums | apps/api/src/modules/finance-service.ts:133-138 | the percentages add up to the percentage of the grouped total |
| Analytics.CentersAmounts | apps/api/src/modules/finance-service.ts:133-138 | the amounts add up to the grouped total |
| Analytics.CostCentersPartition | apps/api/src/modules/finance-service.ts:125-138 | the cost centres partition the operating expenses: their amounts add up to the total, and their percentages to 100 when the total is non-zero |
| Analytics.Recent | apps/api/src/modules/finance-service.ts:160 | the entries dated after the day 60 days before `now`; never more than the store |
| Analytics.RecentMembers | apps/api/src/modules/finance-service.ts:160 | the recent entries are exactly the stored entries dated after the day 60 days before `now` |
| Analytics.RiskOf | apps/api/src/modules/finance-service.ts:168-172 | the first rule that applies: "no revenue" exactly when revenue is 0 and expenses positive; "controlled" only when expenses are at most revenue and, with revenue, at most 85 percent of it |
| Analytics.RiskSignalsOf | apps/api/src/modules/finance-service.ts:158-173 | exactly one signal is raised |
| Analytics.RiskOfCases | apps/api/src/modules/finance-service.ts:168-172 | with non-negative revenue, each signal is given as an if-and-only-if condition on revenue and expenses, and the four conditions split every case |
| Analytics.RiskSignalsIgnoreOldEntries | apps/api/src/modules/finance-service.ts:160 | an entry older than the window does not change the signal |
| Analytics.TransferSkipped | apps/api/src/modules/finance-service.ts:80 | filtering by types that leave transfers out skips a transfer |
| Analytics.TransfersDoNotCount | apps/api/src/modules/finance-service.ts:91-166 | a transfer changes none of the metrics, account reports, cost centres or risk signals |
| Finance.GroupedFlowsSkip | apps/api/src/modules/finance-service.ts:91 | skipping a transfer keeps the account loop's invariant |
| Finance.GroupedFlowsFresh | apps/api/src/modules/finance-service.ts:92-97 | an account not yet in the map has the zero report the loop creates |
| Finance.FlowsAfter | apps/api/src/modules/finance-service.ts:101 | storing the credited report keeps every account's entry equal to its report over the longer scan |
| Finance.GroupedFlowsUpdate | apps/api/src/modules/finance-service.ts:92-101 | updating a known account keeps the account loop's invariant |
| Finance.GroupedFlowsInsert | apps/api/src/modules/finance-service.ts:92-101 | inserting a new account at the end of the order keeps the account loop's invariant |
| Finance.GroupedFlowsReport | apps/api/src/modules/finance-service.ts:104 | the map's values in insertion order are the per-account reports |
| Finance.CategoryTotalsUpdate | apps/api/src/modules/finance-service.ts:130 | adding an item to a known category keeps the category loop's invariant |
| Finance.CategoryTotalsInsert | apps/api/src/modules/finance-service.ts:130 | a new category starts from 0, goes last in the order, and keeps the invariant |
| Finance.CategoryTotalsCenters | apps/api/src/modules/finance-service.ts:133-138 | the map's entries in insertion order are the cost centres |
| Finance.ServiceImportStep | apps/api/src/modules/finance-service.ts:47-69 | one turn of the import loop, with the service's hints and duplicate search: the next id, the source and the suggested category; a credit-card entry links to the duplicate found and is stored only without one; a document entry is always stored |
| Finance.FinanceService.constructor | apps/api/src/modules/finance-service.ts:13-14 | the service starts with no entries and no hints, and satisfies the id invariant |
| Finance.FinanceService.GetEntries | apps/api/src/modules/finance-service.ts:16-18 | sorts the stored entries stably by date in place and returns them; the id invariant holds |
| Finance.FinanceService.LearnCategory | apps/api/src/modules/finance-service.ts:190-192 | the hints become the learned table; nothing else changes |
| Finance.FinanceService.AddEntry | apps/api/src/modules/finance-service.ts:20-26 | stores the draft under the next id with the suggested category, appended at the end; learns that category, so the same description is suggested it again |
| Finance.FinanceService.UpdateEntry | apps/api/src/modules/finance-service.ts:28-35 | null exactly when the id is absent, and then nothing changes; otherwise the first entry with the id is merged with the changes in place and its category learned |
| Finance.FinanceService.DeleteEntry | apps/api/src/modules/finance-service.ts:37-41 | removes every entry with the id and reports true exactly when one existed |
| Finance.FinanceService.ImportOne | apps/api/src/modules/finance-service.ts:47-69 | one turn of the import loop changes the store, counter and returned list as `Store.ImportStep` says |
| Finance.FinanceService.ImportData | apps/api/src/modules/finance-service.ts:43-76 | the batch leaves the state `Store.ImportAll` computes; hints are unchanged; documents append every entry; credit-card feeds append the unlinked ones; the duplicate count is the number of linked entries, and stored plus duplicates equals old plus drafts |
| Finance.FinanceService.GetOperatingCashflow | apps/api/src/modules/finance-service.ts:78-85 | returns the operating cashflow lines, whose signed amounts total revenue minus expenses |
| Finance.FinanceService.GetCashflowByAccount | apps/api/src/modules/finance-service.ts:87-105 | the loop over entries returns one report per account, in order of first use, each equal to that account's report |
| Finance.FinanceService.GetExecutiveMetrics | apps/api/src/modules/finance-service.ts:107-122 | the loop's running totals give the executive metrics |
| Finance.FinanceService.DetectRiskSignals | apps/api/src/modules/finance-service.ts:158-173 | the signal for the window before `now`; with non-negative amounts, "risk controlled" exactly when recent expenses are at most 85 percent of recent revenue |
| Finance.FinanceService.GetAiInsights | apps/api/src/modules/finance-service.ts:124-156 | the category loop, the ranking and the slice give the insights `Analytics.AiInsightsOf` defines |
| Processor.Contains | apps/processor/src/index.ts:15-16 | `text.includes(keyword)`: the keyword starts at the current position or further on |
| Processor.ContainsAny | apps/processor/src/index.ts:15-16 | `keywords.some(keyword => text.includes(keyword))` |
| Processor.ContainsOccurs | apps/processor/src/index.ts:15-16 | the left-to-right scan finds the keyword exactly when it occurs at some offset |
| Processor.ContainsAnyOccursAny | apps/processor/src/index.ts:15-16 | `some(includes)` holds exactly when some keyword occurs |
| Processor.ClassifyEntryType | apps/processor/src/index.ts:10-18 | revenue exactly when a revenue keyword occurs in the lower-cased text; transfer exactly when none does but a transfer keyword does; otherwise expense; never any other type |
| Processor.ClassifyIgnoresCase | apps/processor/src/index.ts:14 | a description and its lower-cased form are classified alike |
| Processor.RevenueWins | apps/processor/src/index.ts:15-16 | a description with a revenue keyword is revenue, whatever transfer keyword it also holds |
| Processor.NotOccursInShorter | apps/processor/src/index.ts:15-16 | a keyword never occurs in a shorter text |
| Processor.ShortDescriptionIsExpense | apps/processor/src/index.ts:10-18 | every keyword has at least 12 characters, so a shorter description is an expense |
| Processor.ToLedgerEntry | apps/processor/src/index.ts:20-30 | the draft has the line's magnitude as its amount (never negative); the account hint or the default account; category "uncategorized"; the classified type; `pdf` provenance; no link |
| Processor.ToLedgerEntryIgnoresSign | apps/processor/src/index.ts:23 | a line and its negation give the same draft |

## Left out

- Analytics.ContributionMargin: the exact margin, not rounded to two decimals. `toFixed(2)` (line 118) is not modelled.
- Analytics.CentersOf: the cost-centre percentages are exact, not rounded to two decimals. `toFixed(2)` (line 137) is not modelled. This also moves the `> 25` test of `Analytics.OpportunityFor` (line 146): a share in (25, 25.005) rounds to 25 in the source, which gives "monitor", but the model gives "review contracts".
- Message wording: the texts of risk signals, opportunities and the summary become datatype constructors carrying their data. String interpolation and number formatting are not modelled.
- `uuid()` is replaced by the counter `nextId`. The model relies only on the ids being fresh, and the class invariant states that.
- `dayjs()` (the clock) is the parameter `now`. Dates are day numbers, so the string date format, `localeCompare` and `dayjs(...).diff` are not modelled. Day numbers order and subtract as the ISO strings do.
- Text.Lower: lower-cases only ASCII and Latin-1 capitals. The full Unicode case mapping of `toLowerCase` is not modelled.
- Text.Split: splits on the ECMAScript white-space set. What the regular-expression engine does beyond that is not modelled.
- Floating point: amounts are exact reals, so rounding error in the sums and in the `< 0.05` comparison is not modelled.
- Aliasing: the model returns values, whereas the source hands out stored objects that a caller could mutate, changing the service. This happens in four places. `getEntries` returns `this.entries` itself (line 17). `addEntry` returns the stored `newEntry` (line 25). `updateEntry` returns `this.entries[index]` (line 34). The objects in `importData`'s `imported` list are the ones pushed into the store (lines 56-58, 67-68).
- Processor: a line's `date` is a day number rather than the document's string. How lines are read from a PDF is not modelled.
- The HTTP server and the web client are not part of this model.
