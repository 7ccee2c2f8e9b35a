# BimaSwap dashboard logic in Dafny

BimaSwap's admin dashboard is a set of React components that show
hard-coded sample data. A few of these components hold real logic over
their state. This project models that logic and proves properties of it:

- **My Investments** (`Investments`): a ledger of investment records keyed
  by strategy name. One submit handler implements four fund actions, and
  each card has an auto-rebalance switch.
- **Social Yield Pools** (`Pools`):
  - a conjunctive pool filter, then a stable descending sort;
  - earnings per contributor;
  - a create-pool form that appends to the pool list.
- **Risk Analysis** (`RiskAnalysis`): two data tabs and an inclusive
  risk-level threshold. The filtered items feed the charts, the
  recommendations and the CSV and PDF downloads.
- **Analytics Reports** (`AnalyticsReports`): strategy checkboxes that
  toggle membership in a list, and cumulative returns as prefix sums.
- **Cross-Chain Transfer** (`CrossChain`):
  - amount validation and a 1% fee;
  - a transfer history that confirm appends to;
  - delete by transaction ID.
- **Recent Activity** (`RecentActivity`): a case-insensitive search plus a
  date window that compares ISO dates as strings.
- **Buy BIMA** (`BuyBima`): purchase validation, a confirmation whose
  delayed callback appends a record on success, and conversion at a fixed rate less a 2% fee.
- **Quick Actions** (`QuickActions`): the transfer form's reset, fee lookup
  and submit-enabled condition.
- **Earnings Overview** (`WeeklyRevenue`): metric labels with a space
  inserted before each capital, the x-axis key, and the details toggle.

## How the model is built

Each component's state is a Dafny `class` whose fields are the
component's `useState` variables. Each handler is a method with a
`modifies` clause listing the fields it sets.

What a handler computes is a function on values, and the lemmas are stated
about those functions:

- `SubmitOutcome` and `ApplyWithdraw` for the ledger;
- `FilterPools` and `SortPools` for the pools;
- `FilterByRisk` and `PanelOf` for risk analysis;
- `ToggleStrategy` and `CumulativeReturns` for the reports;
- `DeleteTransaction` for the transfer history;
- `FilterTransactions` for the activity search;
- `Convert` and `AfterFee` for the converter;
- `SpaceBeforeCapitals` for the metric labels.

Four shared modules model the JavaScript the components rely on:

- `Seqs`:
  - `Array.prototype.filter`;
  - a stable descending sort (the comparator `key(b) - key(a)`);
  - the subsequence relation.
- `Text`:
  - `toLowerCase` and `includes`;
  - the regex class `[A-Z]`;
  - the code-unit order that `>=` applies to strings.
- `Numbers`:
  - the content of `<input type="number">`: blank, or a number;
  - `Number` (blank gives 0) and `parseFloat` (blank gives `NaN`);
  - `toFixed(2)` read back as a number;
  - `parseFloat` of text such as "12% APY".
- `Options`: a key that may be missing, or a number that may be `NaN`.

## Model

| member | source | states |
|---|---|---|
| Investments.SubmitRejection | src/views/admin/Investments/components/MyInvestments.js:150-186 | A submit is rejected iff it is a deposit of at most 0, or a withdrawal of at most 0 or of more than the record selected when the modal opened holds. A rejected submit leaves the table unchanged, keeps the modal open and sets the matching alert |
| Investments.SubmitTouchesOnlySelected | src/views/admin/Investments/components/MyInvestments.js:156-210 | Every action keeps the table's length and leaves records with another strategy name unchanged |
| Investments.AddFundsEffect | src/views/admin/Investments/components/MyInvestments.js:156-168 | A deposit raises the matching record's invested amount and current value by the amount and appends one history line and one 'Investment' transaction; every other field is unchanged |
| Investments.WithdrawEffect | src/views/admin/Investments/components/MyInvestments.js:174-186 | A withdrawal lowers the invested amount and the current value by the same amount, so their difference is kept; it appends one 'Withdrawal' transaction and keeps the name and the rebalance flag |
| Investments.ReallocateEffect | src/views/admin/Investments/components/MyInvestments.js:187-198 | Reallocation changes only the invested amount and the history of the matching record, and records no transaction |
| Investments.SwitchEffect | src/views/admin/Investments/components/MyInvestments.js:199-210 | A switch changes only the strategy name and the history; every amount is unchanged |
| Investments.DepositThenWithdrawRestoresBalances | src/views/admin/Investments/components/MyInvestments.js:156-186 | Depositing an amount and then withdrawing the same amount restores every record's invested amount and current value |
| Investments.WithdrawKeepsNonNegative | src/views/admin/Investments/components/MyInvestments.js:170-186 | A withdrawal the corrected guard admits keeps every invested amount non-negative |
| Investments.GuardsAgreeOnUniqueNames | src/views/admin/Investments/components/MyInvestments.js:170 | While strategy names are unique, the guard on the selected record accepts exactly what the guard over all rewritten records accepts |
| Investments.WithdrawAsWrittenOverdraws | src/views/admin/Investments/components/MyInvestments.js:170-184 | After a switch gives two records the name "Yield Farming - ETH", the handler accepts a withdrawal of 5000 from the ETH record, closes the modal and drives the former MATIC record to -3000, which the corrected guard refuses |
| Investments.SubmitWithdrawKeepsNonNegative | src/views/admin/Investments/components/MyInvestments.js:169-186 | While strategy names are unique and the selection is current, every withdrawal the handler accepts keeps all invested amounts non-negative |
| Investments.ToggleFlipsMatching | src/views/admin/Investments/components/MyInvestments.js:270-279 | The rebalance switch flips the flag of the matching records and changes nothing else |
| Investments.ToggleTwiceRestores | src/views/admin/Investments/components/MyInvestments.js:273-278 | Toggling the same strategy twice restores the table |
| Investments.InvestmentsView.constructor | src/views/admin/Investments/components/MyInvestments.js:128-134 | The initial state: the three sample records, no selection, amount 0, no action, empty alert, modal closed |
| Investments.InvestmentsView.ActionClick | src/views/admin/Investments/components/MyInvestments.js:137-143 | Opening an action stores the record and the action, resets the amount to 0 and the strategy choice to '', and opens the modal |
| Investments.InvestmentsView.Submit | src/views/admin/Investments/components/MyInvestments.js:150-214 | The new table is the outcome of the handler as written, with the withdrawal guard reading the selected record. The alert is replaced only when the outcome sets one, and the modal closes exactly when the outcome closes it |
| Investments.InvestmentsView.ToggleRebalance | src/views/admin/Investments/components/MyInvestments.js:270-279 | The switch replaces the table by its toggle |
| Pools.ChangeFilter | src/views/admin/Pools/components/SocialYieldPools.js:168-171 | Changing a filter replaces only the named field and keeps the performance range |
| Pools.FilterPoolsSpec | src/views/admin/Pools/components/SocialYieldPools.js:173-179 | The filtered list is an order-preserving subsequence. A pool is in it iff it passes all four tests: risk, strategy, search, and performance within the inclusive range |
| Pools.FilteredHavePerformance | src/views/admin/Pools/components/SocialYieldPools.js:177 | Every listed pool's performance parses to a number inside the range |
| Pools.SearchNarrows | src/views/admin/Pools/components/SocialYieldPools.js:176 | A search query only removes pools from the list shown without a query |
| Pools.RiskFilterNarrows | src/views/admin/Pools/components/SocialYieldPools.js:174 | Choosing a risk level where none was chosen only removes pools |
| Pools.ApyParses | src/views/admin/Pools/components/SocialYieldPools.js:177 | `parseFloat` of "<n>% APY" is n |
| Pools.ApyPoolShown | src/views/admin/Pools/components/SocialYieldPools.js:136-177 | A pool showing "<n>% APY" with n at most 15 passes the default filters with no query |
| Pools.DefaultFiltersShowAll | src/views/admin/Pools/components/SocialYieldPools.js:65-102 | With the default filters and no query, all three sample pools are listed, in order |
| Pools.SortPoolsSpec | src/views/admin/Pools/components/SocialYieldPools.js:181-190 | The sort is a permutation, ordered by descending key; pools with equal keys keep their relative order |
| Pools.UnsortedKeepsOrder | src/views/admin/Pools/components/SocialYieldPools.js:189 | An unknown criterion leaves the list as it is |
| Pools.VisiblePoolsContents | src/views/admin/Pools/components/SocialYieldPools.js:173-190 | The screen shows exactly the matching pools, as a permutation of the filtered list, each with a numeric performance |
| Pools.VisiblePoolsOrdered | src/views/admin/Pools/components/SocialYieldPools.js:181-183 | Under the performance criterion, parsed performance never increases down the list |
| Pools.EarningsPerContributor | src/views/admin/Pools/components/SocialYieldPools.js:193-195 | 0 without contributors. Otherwise funds divided by contributors rounded to a whole number of cents, within half a cent, and non-negative for non-negative funds |
| Pools.InitialFormComplete | src/views/admin/Pools/components/SocialYieldPools.js:127-134 | The initial form has an entry for each of the six inputs |
| Pools.ChangeForm | src/views/admin/Pools/components/SocialYieldPools.js:148-151 | An edit sets the named field and keeps every other field |
| Pools.ChangeKeepsComplete | src/views/admin/Pools/components/SocialYieldPools.js:148-151 | Editing a complete form keeps it complete |
| Pools.ChangeKeepsTextFields | src/views/admin/Pools/components/SocialYieldPools.js:148-151 | An edit never removes a field, so a form with every field but the risk keeps them |
| Pools.CreatedPool | src/views/admin/Pools/components/SocialYieldPools.js:155 | The pushed pool has no ID, no funds, no contributors and performance "N/A", and has a risk iff the form has one |
| Pools.ResetAsWrittenDropsRisk | src/views/admin/Pools/components/SocialYieldPools.js:156 | The reset as written is the initial form without its risk entry. It keeps the other fields, but a pool created next without touching the risk select has an undefined risk |
| Pools.CorrectedResetKeepsRisk | src/views/admin/Pools/components/SocialYieldPools.js:127-156 | After a reset to the initial form, any edit leaves a complete form, and the next created pool carries the form's risk |
| Pools.CreatedPoolHidden | src/views/admin/Pools/components/SocialYieldPools.js:155-177 | A created pool ("N/A" performance) fails the filters for any filters and query, and earns 0 per contributor |
| Pools.CreateKeepsFilteredList | src/views/admin/Pools/components/SocialYieldPools.js:155-179 | Appending a created pool leaves the filtered list unchanged |
| Pools.PoolsView.constructor | src/views/admin/Pools/components/SocialYieldPools.js:126-141 | The initial state: the sample pools, the full empty form, the default filters, no query, sorted by performance |
| Pools.PoolsView.FilterChange | src/views/admin/Pools/components/SocialYieldPools.js:168-171 | The filters become their change |
| Pools.PoolsView.ClearFilters | src/views/admin/Pools/components/SocialYieldPools.js:241 | The filters return to risk '', strategy '' and range [0, 15] |
| Pools.PoolsView.JoinClick | src/views/admin/Pools/components/SocialYieldPools.js:143-146 | Remembers the pool and opens the join modal |
| Pools.PoolsView.CreatePoolChange | src/views/admin/Pools/components/SocialYieldPools.js:148-151 | The form becomes its edit and keeps every field but perhaps the risk |
| Pools.PoolsView.CreateSubmit | src/views/admin/Pools/components/SocialYieldPools.js:153-166 | Exactly one pool built from the form is appended. The form is reset as written, without the risk; loading is off, the modal is closed, and the visible list is unchanged |
| RiskAnalysis.FirstHalfYear | src/views/admin/Analytics/components/RiskAnalysis.js:23-259 | A trend has six points carrying the given risk levels in order |
| RiskAnalysis.TabForIndex | src/views/admin/Analytics/components/RiskAnalysis.js:266-269 | The tab map has an entry iff the index is 0 or 1 |
| RiskAnalysis.FilterByRiskSpec | src/views/admin/Analytics/components/RiskAnalysis.js:283-285 | The filtered data is an order-preserving subsequence. It keeps exactly the items at or below the threshold, and everything when there is no threshold |
| RiskAnalysis.LowerThresholdNarrows | src/views/admin/Analytics/components/RiskAnalysis.js:283-285 | A lower threshold gives a subsequence of what a higher one gives |
| RiskAnalysis.PanelAgreesWithFilter | src/views/admin/Analytics/components/RiskAnalysis.js:310-409 | Charts, recommendations, CSV and PDF all receive the same filtered items, and the files are named after the tab. Each chart row copies its item's fields and lies within the threshold. The trend exists iff the list is non-empty and then shows the first item |
| RiskAnalysis.OfferedThresholdsAtLeast20 | src/views/admin/Analytics/components/RiskAnalysis.js:303-308 | Every choice in the select is "no filter" or a threshold of at least 20 |
| RiskAnalysis.FilterKeepsFitting | src/views/admin/Analytics/components/RiskAnalysis.js:283-285 | Data holding an item within the threshold filters to a non-empty list |
| RiskAnalysis.NeverEmptyFrom20 | src/views/admin/Analytics/components/RiskAnalysis.js:304-308 | Under any threshold of 20 or more, both tabs' data filter to a non-empty list, so `data[0]` of the trend chart (line 375) exists |
| RiskAnalysis.RiskView.constructor | src/views/admin/Analytics/components/RiskAnalysis.js:262-263 | The initial state: the strategies tab, no filter |
| RiskAnalysis.RiskView.TabChange | src/views/admin/Analytics/components/RiskAnalysis.js:266-269 | Index 0 selects 'strategies' and index 1 selects 'assets' |
| RiskAnalysis.RiskView.SetRiskFilter | src/views/admin/Analytics/components/RiskAnalysis.js:303 | The select stores the chosen threshold |
| AnalyticsReports.StrategyDataFor | src/views/admin/Analytics/components/AnalyticsReports.js:53-117 | The data table has an entry iff the name is one of the checkbox values |
| AnalyticsReports.ToggleMembership | src/views/admin/Analytics/components/AnalyticsReports.js:125-130 | A toggle flips the membership of the value and of no other |
| AnalyticsReports.ToggleTwiceWhenAbsent | src/views/admin/Analytics/components/AnalyticsReports.js:127-129 | Toggling an absent value twice restores the list |
| AnalyticsReports.ToggleTwiceWhenPresent | src/views/admin/Analytics/components/AnalyticsReports.js:127-129 | Toggling a present value twice keeps the same members, with that value moved to the end |
| AnalyticsReports.ToggleKeepsNoDuplicates | src/views/admin/Analytics/components/AnalyticsReports.js:127-129 | A toggle never creates a duplicate |
| AnalyticsReports.ToggleKeepsKnown | src/views/admin/Analytics/components/AnalyticsReports.js:179-199 | Toggling checkbox values keeps every selected name backed by data |
| AnalyticsReports.CumulativeReturns | src/views/admin/Analytics/components/AnalyticsReports.js:256-260 | The cumulative series has the input's length and months |
| AnalyticsReports.CumulativeSteps | src/views/admin/Analytics/components/AnalyticsReports.js:257-260 | The series starts at the first return, and each value is the previous one plus that month's return |
| AnalyticsReports.CumulativeEndsAtTotal | src/views/admin/Analytics/components/AnalyticsReports.js:259 | The last value is the sum of all returns |
| AnalyticsReports.Strategy1Cumulative | src/views/admin/Analytics/components/AnalyticsReports.js:55-62 | Strategy 1's series is 5, 12, 20, 26, 35, 39 |
| AnalyticsReports.MetricsRadar | src/views/admin/Analytics/components/AnalyticsReports.js:280-294 | The radar has three points: average return, volatility and Sharpe ratio |
| AnalyticsReports.ReportsView.constructor | src/views/admin/Analytics/components/AnalyticsReports.js:120-123 | The initial state: ['Strategy1'], 'Last 6 Months', no custom dates; no duplicates, all names known |
| AnalyticsReports.ReportsView.Tabs | src/views/admin/Analytics/components/AnalyticsReports.js:207-218 | One tab per selected strategy, in order, each showing that strategy's data |
| AnalyticsReports.ReportsView.StrategyChange | src/views/admin/Analytics/components/AnalyticsReports.js:125-130 | The selection becomes its toggle and stays free of duplicates and unknown names |
| AnalyticsReports.ReportsView.DateRangeChange | src/views/admin/Analytics/components/AnalyticsReports.js:132-135 | Stores the chosen range |
| CrossChain.TransferFee | src/views/admin/Cross-Chain/components/CrossChainTransfer.js:56 | The fee is a whole number of cents within half a cent of 1% of the amount, and non-negative for a non-negative amount |
| CrossChain.RecordedAmount | src/views/admin/Cross-Chain/components/CrossChainTransfer.js:64-81 | The recorded amount is `NaN` iff the field is empty, and otherwise a whole number of cents within half a cent of the amount |
| CrossChain.AcceptedTransferRecord | src/views/admin/Cross-Chain/components/CrossChainTransfer.js:44-90 | A record confirmed after an accepted amount holds a non-negative number and a fee within a cent of 1% of it, has status 'Completed' and carries the given ID |
| CrossChain.DeleteSpec | src/views/admin/Cross-Chain/components/CrossChainTransfer.js:100-101 | Deleting keeps exactly the records with another ID, in order |
| CrossChain.DeleteAbsentAndTwice | src/views/admin/Cross-Chain/components/CrossChainTransfer.js:100-101 | Deleting an unknown ID changes nothing, and deleting twice is deleting once |
| CrossChain.DeleteUndoesConfirm | src/views/admin/Cross-Chain/components/CrossChainTransfer.js:77-101 | Deleting a just-confirmed transfer by its fresh ID restores the history |
| CrossChain.TransferView.constructor | src/views/admin/Cross-Chain/components/CrossChainTransfer.js:30-38 | The initial state: Ethereum to Binance Smart Chain, BIMA Stablecoin, empty amount, fee 0, "5-10 minutes", empty history |
| CrossChain.TransferView.Transfer | src/views/admin/Cross-Chain/components/CrossChainTransfer.js:41-60 | Accepted iff the amount is positive. A refusal changes neither fee, time nor modal; an acceptance sets the 1% fee and "5 minutes" and opens the modal |
| CrossChain.TransferView.ConfirmTransfer | src/views/admin/Cross-Chain/components/CrossChainTransfer.js:62-98 | Appends exactly one 'Completed' record with the chains, asset, amount and fee. Resets the amount and fee, clears loading and closes the modal |
| CrossChain.TransferView.Delete | src/views/admin/Cross-Chain/components/CrossChainTransfer.js:100-109 | The history becomes its deletion |
| RecentActivity.FilterTransactionsSpec | src/views/admin/default/components/RecentActivity.js:60-64 | The list is an order-preserving subsequence. A transaction is in it iff its type contains the term, ignoring case, and its date passes the date filter |
| RecentActivity.FilterNotificationsSpec | src/views/admin/default/components/RecentActivity.js:66-68 | A notification is listed iff its message contains the term, ignoring case, whatever the date filter; the list is an order-preserving subsequence |
| RecentActivity.EmptySearchShowsAll | src/views/admin/default/components/RecentActivity.js:61-67 | An empty search over "All" shows every transaction and every notification |
| RecentActivity.OtherDateFilterShowsNothing | src/views/admin/default/components/RecentActivity.js:62-90 | "Last Month", or any value other than "All" and "Last Week", shows no transaction |
| RecentActivity.SearchIgnoresCase | src/views/admin/default/components/RecentActivity.js:61-67 | A term and its lower-case form give the same lists |
| RecentActivity.LastWeekKeepsSamples | src/views/admin/default/components/RecentActivity.js:37-62 | Every sample date is on or after "2023-09-17" in string order, so "Last Week" and "All" show the same transactions |
| RecentActivity.ActivityView.constructor | src/views/admin/default/components/RecentActivity.js:55-58 | The initial state: the Transactions tab, no term, "All" |
| BuyBima.Convert | src/views/admin/BIMA/components/BuyBIMA.js:106-119 | `NaN` iff the crypto has no rate; otherwise the rate times the amount, where a blank amount counts as 0 |
| BuyBima.AfterFee | src/views/admin/BIMA/components/BuyBIMA.js:121-126 | `NaN` iff the result is `NaN`; otherwise 0.98 times the result |
| BuyBima.OfferedCryptosConvert | src/views/admin/BIMA/components/BuyBIMA.js:108-118 | Every crypto in the select converts to a number |
| BuyBima.AfterFeeBounds | src/views/admin/BIMA/components/BuyBIMA.js:122-123 | For a non-negative result the adjusted amount lies between 0 and the result; dividing by 0.98 recovers the result |
| BuyBima.TenEthExample | src/views/admin/BIMA/components/BuyBIMA.js:110-123 | 10 ETH give 1 BIMA, and 0.98 after the fee |
| BuyBima.BuyView.constructor | src/views/admin/BIMA/components/BuyBIMA.js:42-50 | The initial state: empty amount, no method, modal closed, ETH selected, no records and no pending purchase |
| BuyBima.BuyView.SetAmount | src/views/admin/BIMA/components/BuyBIMA.js:154-193 | Stores the amount; the inputs are reachable only with the confirmation closed and no purchase loading, and the new state is `Step` of the old |
| BuyBima.BuyView.Purchase | src/views/admin/BIMA/components/BuyBIMA.js:53-67 | Accepted iff the amount is positive, also while another purchase is loading. A refusal changes neither method nor modal; an acceptance stores the method and opens the modal |
| BuyBima.BuyView.CancelPurchase | src/views/admin/BIMA/components/BuyBIMA.js:279-293 | Closes the confirmation |
| BuyBima.BuyView.ConfirmPurchase | src/views/admin/BIMA/components/BuyBIMA.js:69-74 | Loading starts, the confirmation closes, and one pending callback is queued holding the amount and method current at the click |
| BuyBima.BuyView.FinishConfirm | src/views/admin/BIMA/components/BuyBIMA.js:74-103 | The oldest pending callback runs: loading stops; a success appends exactly one 'Completed' record of the captured amount and method and clears the current amount; a failure changes neither |
| BuyBima.Step | src/views/admin/BIMA/components/BuyBIMA.js:53-104 | One event as written: a timer removes the oldest pending purchase and stops loading; only a successful timer appends a record, the captured pair, and clears the amount; every other event leaves the records alone |
| BuyBima.BlankRecordAsWritten | src/views/admin/BIMA/components/BuyBIMA.js:54-93 | Every event of the trace is allowed by the page, and the trace ends with a 'Completed' record whose amount is empty |
| BuyBima.CorrectedStepSettled | src/views/admin/BIMA/components/BuyBIMA.js:53-104 | With purchases refused while loading, every allowed event keeps the invariant: at most one purchase in flight, exactly while loading; the confirmation open only for a positive amount; every captured and recorded amount positive |
| BuyBima.CorrectedRunSettled | src/views/admin/BIMA/components/BuyBIMA.js:53-104 | Any sequence of events keeps that invariant under the corrected handler |
| BuyBima.CorrectedRecordsPositive | src/views/admin/BIMA/components/BuyBIMA.js:88-91 | With the corrected handler, every record of any run from the initial state is a completed purchase of a positive amount |
| BuyBima.BuyView.Conversion | src/views/admin/BIMA/components/BuyBIMA.js:106-127 | Stores the conversion and its amount after the fee |
| QuickActions.AssetFee | src/views/admin/default/components/QuickActions.js:28-55 | The fee is positive iff the asset is usdc, eth or btc; otherwise it is 0 |
| QuickActions.QuickActionsView.constructor | src/views/admin/default/components/QuickActions.js:35-41 | The initial state: closed, empty form, fee 0 |
| QuickActions.QuickActionsView.OnlyTransferSubmits | src/views/admin/default/components/QuickActions.js:73-144 | Submit is enabled only in the transfer form, whose fee is the chosen asset's |
| QuickActions.QuickActionsView.Open | src/views/admin/default/components/QuickActions.js:43-50 | Opening resets asset, amount and recipient to empty and the fee to 0; Submit is then disabled |
| QuickActions.QuickActionsView.AssetChange | src/views/admin/default/components/QuickActions.js:52-55 | Stores the asset and sets the fee to its table value, or 0 |
| QuickActions.QuickActionsView.BeginSubmit | src/views/admin/default/components/QuickActions.js:57-144 | Starts loading, which disables Submit |
| QuickActions.QuickActionsView.FinishSubmit | src/views/admin/default/components/QuickActions.js:60-67 | Clears asset, amount and recipient, stops loading and closes; the fee and the action stay |
| WeeklyRevenue.ChartData | src/views/admin/default/components/WeeklyRevenue.js:37-83 | The earnings table has a series iff the period is Daily, Weekly or Monthly |
| WeeklyRevenue.AxisKeyMatchesData | src/views/admin/default/components/WeeklyRevenue.js:83-118 | For each offered period, the x-axis key is the property every point of its series carries |
| WeeklyRevenue.SpaceBeforeCapitalsLength | src/views/admin/default/components/WeeklyRevenue.js:177 | The label is one character longer per capital |
| WeeklyRevenue.RemoveSpacesInverts | src/views/admin/default/components/WeeklyRevenue.js:177 | Removing the spaces from a label gives back its key, for a key without spaces |
| WeeklyRevenue.NoCapitalsUnchanged | src/views/admin/default/components/WeeklyRevenue.js:177 | A key without capitals is shown unchanged |
| WeeklyRevenue.SpaceBeforeCapitalsAppend | src/views/admin/default/components/WeeklyRevenue.js:177 | The replacement works piece by piece over a concatenation |
| WeeklyRevenue.MetricKeysShape | src/views/admin/default/components/WeeklyRevenue.js:63-69 | Every metric key starts with a capital and has no space |
| WeeklyRevenue.LeadingCapitalGetsSpace | src/views/admin/default/components/WeeklyRevenue.js:177 | A key starting with a capital gets a leading space before it |
| WeeklyRevenue.EarningsView.constructor | src/views/admin/default/components/WeeklyRevenue.js:80-156 | The initial state: Daily, details hidden, button "Show Compounding Details" |
| WeeklyRevenue.EarningsView.ToggleDetails | src/views/admin/default/components/WeeklyRevenue.js:154-156 | The toggle flips the details and the button label follows |
| Seqs.Filter | src/views/admin/Analytics/components/RiskAnalysis.js:283-285 | `filter` keeps an element iff it is in the input and passes the predicate, and never lengthens the list |
| Seqs.FilterIsSubsequence | src/views/admin/Pools/components/SocialYieldPools.js:173 | A filtered list is an order-preserving subsequence of its input |
| Seqs.FilterMonotone | src/views/admin/Analytics/components/RiskAnalysis.js:284 | A stronger predicate gives a subsequence of what a weaker one gives |
| Seqs.FilterAppend | src/views/admin/Cross-Chain/components/CrossChainTransfer.js:101 | Filtering distributes over concatenation |
| Seqs.FilterIdempotent | src/views/admin/Cross-Chain/components/CrossChainTransfer.js:101 | Filtering twice by one predicate is filtering once |
| Seqs.FilterAgreeing | src/views/admin/default/components/RecentActivity.js:60-64 | Predicates that agree on every element filter alike |
| Seqs.FilterNoDuplicates | src/views/admin/Analytics/components/AnalyticsReports.js:128 | Filtering never creates a duplicate |
| Seqs.SortDescending | src/views/admin/Pools/components/SocialYieldPools.js:181-190 | The sort is a permutation of its input |
| Seqs.SortIsSorted | src/views/admin/Pools/components/SocialYieldPools.js:181-190 | The sort orders by descending key |
| Seqs.SortIsStable | src/views/admin/Pools/components/SocialYieldPools.js:181-190 | Elements with equal keys keep their relative order |
| Seqs.SortConstantKeyIdentity | src/views/admin/Pools/components/SocialYieldPools.js:189 | A comparator that always returns 0 leaves the list unchanged |
| Text.ToLower | src/views/admin/default/components/RecentActivity.js:61 | Lower-casing keeps the length, turns each capital A-Z into its lower-case letter and keeps every other character |
| Text.IncludesIffOccurs | src/views/admin/Pools/components/SocialYieldPools.js:176 | `includes` holds iff the term occurs at some offset |
| Text.IncludesEmptyIgnoringCase | src/views/admin/default/components/RecentActivity.js:61-67 | The empty term is included in every string |
| Text.LexTotal | src/views/admin/default/components/RecentActivity.js:62 | String order is total |
| Text.LexTransitive | src/views/admin/default/components/RecentActivity.js:62 | String order is transitive |
| Text.LexCommonPrefix | src/views/admin/default/components/RecentActivity.js:62 | A common prefix keeps the order, so dates of one month compare by their day |
| Numbers.ParseFloat | src/views/admin/Cross-Chain/components/CrossChainTransfer.js:42-44 | `parseFloat` of the field is `NaN` iff the field is empty, and otherwise the field's number |
| Numbers.Round2 | src/views/admin/Cross-Chain/components/CrossChainTransfer.js:56 | `toFixed(2)` is a whole number of hundredths, within half a cent of its argument, and keeps a non-negative value non-negative |
| Numbers.ParseWrittenNumber | src/views/admin/Pools/components/SocialYieldPools.js:177 | `parseFloat` reads back a whole number written in decimal, followed by text such as "% APY" |
| Numbers.ParseNonNumeric | src/views/admin/Pools/components/SocialYieldPools.js:155-177 | Text that does not start with a digit or a point, such as "N/A", parses to `NaN` |
| Investments.InvestmentsView.SetAdjustmentAmount | src/views/admin/Investments/components/MyInvestments.js:334-336 | The amount input stores its value |
| Investments.InvestmentsView.SetNewStrategy | src/views/admin/Investments/components/MyInvestments.js:321-322 | The strategy select stores its value |
| Investments.InvestmentsView.Cancel | src/views/admin/Investments/components/MyInvestments.js:347 | Cancel closes the modal |
| Pools.PoolsView.SetSearchQuery | src/views/admin/Pools/components/SocialYieldPools.js:222-226 | The search input stores the query |
| Pools.PoolsView.OpenCreate | src/views/admin/Pools/components/SocialYieldPools.js:370 | The create button opens the form |
| AnalyticsReports.ReportsView.SetCustomStartDate | src/views/admin/Analytics/components/AnalyticsReports.js:152-171 | The start date input stores its value |
| AnalyticsReports.ReportsView.SetCustomEndDate | src/views/admin/Analytics/components/AnalyticsReports.js:152-171 | The end date input stores its value |
| CrossChain.TransferView.SetSourceChain | src/views/admin/Cross-Chain/components/CrossChainTransfer.js:119-144 | The source select stores the chain |
| CrossChain.TransferView.SetDestinationChain | src/views/admin/Cross-Chain/components/CrossChainTransfer.js:119-144 | The destination select stores the chain |
| CrossChain.TransferView.SetAsset | src/views/admin/Cross-Chain/components/CrossChainTransfer.js:119-144 | The asset select stores the asset |
| CrossChain.TransferView.SetAmount | src/views/admin/Cross-Chain/components/CrossChainTransfer.js:148-154 | The amount input stores its content |
| CrossChain.TransferView.CancelTransfer | src/views/admin/Cross-Chain/components/CrossChainTransfer.js:181 | Cancel closes the confirmation |
| RecentActivity.ActivityView.SetSearchTerm | src/views/admin/default/components/RecentActivity.js:74-78 | The search input stores the term |
| RecentActivity.ActivityView.SetDateFilter | src/views/admin/default/components/RecentActivity.js:86-90 | The date select stores the range |
| RecentActivity.ActivityView.SelectTab | src/views/admin/default/components/RecentActivity.js:55-98 | Stores the chosen tab |
| RecentActivity.ActivityView.OpenDetails | src/views/admin/default/components/RecentActivity.js:118-120 | "View Details" opens the details modal |
| RecentActivity.ActivityView.CloseDetails | src/views/admin/default/components/RecentActivity.js:58 | Closing hides the details modal |
| BuyBima.BuyView.SetConversionAmount | src/views/admin/BIMA/components/BuyBIMA.js:46 | The converter's amount input stores its content |
| BuyBima.BuyView.SetSelectedCrypto | src/views/admin/BIMA/components/BuyBIMA.js:47 | The converter's select stores the crypto |
| QuickActions.QuickActionsView.SetAmount | src/views/admin/default/components/QuickActions.js:73-110 | The amount input stores its content and keeps the invariant |
| QuickActions.QuickActionsView.SetRecipient | src/views/admin/default/components/QuickActions.js:73-110 | The recipient input stores the address and keeps the invariant |
| QuickActions.QuickActionsView.Close | src/views/admin/default/components/QuickActions.js:147 | Close closes the modal |
| WeeklyRevenue.EarningsView.SetPeriod | src/views/admin/default/components/WeeklyRevenue.js:92-101 | The period select stores the period |
| Numbers.ToNumber | src/views/admin/BIMA/components/BuyBIMA.js:54-119 | `Number` of an empty field is 0, otherwise the field's number |
| Numbers.DigitsValueOfNatToDigits | src/views/admin/Pools/components/SocialYieldPools.js:177 | Reading back the decimal digits of a number gives the number |
| Seqs.SortMembership | src/views/admin/Pools/components/SocialYieldPools.js:181-190 | Sorting keeps exactly the elements it was given |
| Text.ToLowerIdempotent | src/views/admin/default/components/RecentActivity.js:61 | Lower-casing twice is lower-casing once |

## Left out

- Rendering is not modelled: JSX, Chakra layout, charts, icons, toasts and
  modal markup. Only the state they show is.
- Clocks, timers and randomness become parameters:
  - `new Date()` becomes a `date` parameter;
  - the random transaction ID becomes an `id` parameter;
  - `Math.random() > 0.2` in a purchase becomes `success`.
- The transfer's `setTimeout` callback is taken as one step:
  `ConfirmTransfer` runs to completion. `QuickActions` splits its submit
  into `BeginSubmit` and `FinishSubmit`, and `BuyBima` splits its
  confirmation into `ConfirmPurchase` and `FinishConfirm` with a queue of
  pending callbacks, because the page allows actions in between.
- Numbers are Dafny reals, not IEEE doubles. `toFixed(2)` is rounding to
  the nearest hundredth, halves away from zero, and its string form is
  not modelled. For that reason the transfer fee is kept as a number
  rather than the text "$x.xx".
- `toLowerCase` is modelled on ASCII letters only; other Unicode case
  mappings are left out.
- `parseFloat` is modelled for the text the pools carry: digits, a point,
  digits, then anything. Signs, exponents and leading white space are
  left out.
- A number input's content is either blank or a number. The browser's
  other transient strings, such as "-" or "1e", are left out.
- `Array.prototype.sort` reorders the filtered copy in place; the model
  computes the sorted list as a new sequence.
- The module-level `existingPools` array that `handleCreateSubmit` pushes
  onto is a field of the pools view.
- Pools.CreatedPool: drops the created pool's `minContribution`,
  `maxParticipants` and `performanceHistory`, which no filter, sort or
  earnings computation reads. A pool's `role` and `userContribution` are
  display data and are left out too.
- Investments.SubmitOutcome: a Reallocate submitted with a cleared amount
  field would add `NaN` to the record. The amount is modelled as a real,
  so this case is not captured.
- Investments.InitialInvestments: a record's icon, `performanceData`,
  `riskExposure` and `fundAllocation`, and the portfolio summary, are
  display data and are left out.
- The join modal's content is left out; `JoinClick` only stores the pool.
- The date range of the reports view changes no data, and the model
  stores it without effect.
- The pools' performance texts are written as `Apy(n)`, which spells "12%
  APY" and the like from the number.
- BuyBima.BuyView.SetAmount: requires the confirmation to be closed,
  because its overlay covers the amount inputs while it is open, and no
  purchase loading, because the inputs are disabled then.
- QuickActions.QuickActionsView.AssetChange, `SetAmount` and
  `SetRecipient`: require the transfer form, with no request running,
  because only that form renders these inputs.
- RiskAnalysis.RiskView.TabChange: requires index 0 or 1, because a tab
  list of two tabs reports nothing else. `TabForIndex` models every
  other index as having no entry.
- The market analytics view (an HTTP call), the earnings reports view,
  the yield-farming overview, the analytics card, the strategy overview,
  routing and layout wrappers are not part of this model.
- The CSV and PDF libraries are not part of this model; the PDF document
  `RiskReportPDF` is not either. The model shows only which data and
  file names they receive.

## Findings

| source | as written | input that shows it | evidently intended | confidence | as-written member | corrected member |
|---|---|---|---|---|---|---|
| src/views/admin/Investments/components/MyInvestments.js:170-184 | The withdrawal guard checks the amount against the selected record only. The rewrite then applies to every record with the same strategy name, and Switch Strategy can create such duplicates | Switch "Staking - MATIC" to "Yield Farming - ETH", then withdraw 5000 from the ETH record: the guard sees 10000 and passes, and the former MATIC record drops from 2000 to -3000 | A withdrawal never makes an invested amount negative | not executed | Investments.WithdrawAsWrittenOverdraws | Investments.WithdrawKeepsNonNegative |
| src/views/admin/Pools/components/SocialYieldPools.js:156 | The form reset after creating a pool lists five fields and leaves out `risk`, so the next form has no risk entry | Create any pool; the reset form has no `risk`. A pool created next without touching the risk select is pushed with risk `undefined` | The reset returns to the initial six-field form | not executed | Pools.ResetAsWrittenDropsRisk | Pools.CorrectedResetKeepsRisk |
| src/views/admin/BIMA/components/BuyBIMA.js:53-104 | `handlePurchase` accepts while a purchase is loading, and the other method's button shows no spinner. The first timer's callback then clears the amount while the reopened confirmation is open, and its Confirm captures the empty amount | Enter 5, Credit Card, Confirm; within 2 seconds click Bank Transfer; after the first callback records 5, click Confirm: a successful second callback records a 'Completed' purchase of '' by Bank Transfer | Every record is a completed purchase of a positive amount | not executed | BuyBima.BlankRecordAsWritten | BuyBima.CorrectedRecordsPositive |

The component classes follow the code as written:

- `InvestmentsView.Submit` uses the withdrawal guard of line 170;
- `PoolsView.CreateSubmit` uses the five-field reset of line 156;
- `BuyView.Purchase` accepts while a purchase is loading.

The corrected members state the behaviour the code evidently intends.
