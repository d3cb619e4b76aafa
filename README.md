# FastSpring unit-price drift audit, modelled in Dafny

`checkfastspring.js` audits a merchant's FastSpring subscriptions for unit
prices that drift during a subscription's lifetime. For each subscription
it fetches the payment history, which arrives newest first. It takes the
oldest payment as the baseline (currency, SKU, item subtotal, order total)
and walks the remaining payments from oldest to newest.

For each completed order:

- The order is an **anomaly** when it has the baseline's currency and SKU
  but a different item subtotal. Its difference goes into exactly one of
  three accumulators, checked in this order:
  - the 2022 overcharge accumulator, when the order changed after 1 January
    2022 and charged more than the baseline total;
  - the VAT-inclusive accumulator, when the new subtotal plus tax equals the
    baseline total;
  - the unknown-cause accumulator otherwise.
- Any other completed order becomes the new baseline.
- Anomalies never move the baseline.

An order with more than one item makes the script abandon the subscription.

A subscription with at least one anomaly always gets a row in the "all"
report. It also gets a row in the overcharge report when that accumulator is
positive, and in the VAT report when that accumulator is positive. Each
report has its own running row number. The script lists subscriptions 50 to
a page and visits the pages from last to first.

The model has six modules:

- `Orders` (`orders.dfy`): orders, items and the baseline.
- `PriceDrift` (`price_drift.dfy`): the classifier. `Judge` gives the
  decision rule for one order, `Step` and `Walk` specify the walk, and
  `Classify` gives the outcome for one subscription. `ClassifySubscription`
  is the source's loop over the payments, with the baseline and the
  accumulators as local variables. It is proved equal to `Classify`.
- `DriftProperties` (`drift_properties.dfy`): a second definition of the
  walk that carries only the baseline (`Replay`). The accumulators are then
  sums over the per-order verdicts (`Total`). The module proves the two
  definitions agree. It also proves the properties about rejection, the
  baseline and orders that did not complete.
- `Reporting` (`reporting.dfy`): the run counters and the three row
  streams as the class `Aggregator`, and the run itself as `Audit`.
- `Paging` (`paging.dfy`): the page count and the order in which pages are
  visited.
- `Scenarios` (`scenarios.dfy`): worked histories.

Amounts are integers in cents, and timestamps are integers in milliseconds.
Every comparison of amounts and timestamps in the source is an exact
equality or a strict inequality, and the model keeps each one as it is.

The source throws a `TypeError` in three cases:

- the history is empty;
- the oldest order has no item;
- a completed order that the walk reaches has no item.

Each of these is modelled as the outcome `Crashed`. A throw inside a
callback ends the Node process, so `Aggregator.halted` records it and
nothing is taken in afterwards. The source also throws at the reporting
step when a category row needs the newest order's first item (for its link)
and that order has none. At that point the "all" row has been written and
the category counter has already been raised. `Record` models exactly this.

Quirks of the source that the model keeps:

- The oldest payment becomes the baseline whether or not it completed.
- An order with no change still replaces the baseline, including its total.
- The "all" row is tagged with the currency of the newest payment, even one
  that did not complete (`NewestCurrencyTagsAllRow`). The category rows use
  the baseline currency, and their link uses the newest order's item
  reference.
- When the subscription count is 0, the driver still fetches page 0.

## Model

| member | source | states |
|---|---|---|
| `PriceDrift.Judge` | checkfastspring.js:138-157 | A completed order is an anomaly exactly when currency and SKU equal the baseline's and the item subtotal differs; otherwise it is taken as correctly priced. The cause is chosen in priority order: overcharge iff changed strictly after the 2022 cutoff and total above the baseline total; VAT iff not overcharge and subtotal + tax equals the baseline total; unknown iff neither. An overcharge amount is total − baseline total and is positive; VAT and unknown amounts are baseline subtotal − order subtotal, with either sign |
| `PriceDrift.Step` | checkfastspring.js:129-167 | One order of the walk. It stops for the subscription exactly when the order has more than one item. It crashes exactly when a completed order has no item. An order that did not complete changes nothing. An anomaly keeps the baseline and raises the flag; any other completed order replaces all four baseline fields and leaves the accumulators alone. At most one accumulator moves; the overcharge one never falls |
| `PriceDrift.Walk` | checkfastspring.js:127-168 | The walk from the oldest to the newest order. When it finishes, no walked order had more than one item. A multi-item stop names an order that has one. The overcharge total never falls. The flag, once raised, stays raised. While the flag is down the accumulators are untouched |
| `PriceDrift.Classify` | checkfastspring.js:101-168 | A subscription's outcome. Flagged only with at least two payments, so a single payment never yields a row. A flagged report's overcharge is non-negative. Its reference is the oldest order's item subscription, and its currency is the newest order's. Its link reference is the newest order's first item subscription, or none when that order has no item. Rejected only when some order, the oldest included, has more than one item, and any multi-item order means rejected or crashed, never a row. An empty history crashes |
| `PriceDrift.ClassifySubscription` | checkfastspring.js:101-168 | The source's loop, counting the index down from length − 2 to 0 and updating the baseline locals, the accumulators and the flag. It returns exactly `Classify` of the payments |
| `DriftProperties.WalkIsReplay` | checkfastspring.js:137-167 | The walk equals a baseline-only replay with the accumulators summed per cause. Each anomaly adds to exactly one accumulator. The flag is raised iff some verdict is an anomaly. The accumulators never influence the baseline |
| `DriftProperties.ClassifyIsReplay` | checkfastspring.js:137-169 | For a history the classifier can judge, the subscription is flagged iff some order is an anomaly, and clean iff none is. Each reported amount is the sum of the anomalies of its cause. The reported baseline currency is the one the replay ends on |
| `DriftProperties.OverchargeTotalNonNegative` | checkfastspring.js:143-146 | The overcharge accumulator is never negative, because each overcharge contribution is positive |
| `DriftProperties.ReplayKeepsBase` | checkfastspring.js:137-166 | Orders that did not complete and anomalous orders never move the baseline: with no rebasing order, the walk ends on the starting baseline |
| `DriftProperties.ReplayBaseIsLastRebase` | checkfastspring.js:159-166 | The walk ends on the snapshot (currency, SKU, subtotal, total) of the newest completed non-anomalous order |
| `DriftProperties.WalkRejects` | checkfastspring.js:131-135 | When every completed order has an item, the walk never crashes. It stops for multi-item exactly when some walked order has more than one item |
| `DriftProperties.RejectedIffMultiItem` | checkfastspring.js:104-135 | When the oldest order and every completed order have an item, the subscription is abandoned iff some order, the oldest included, has more than one item. It crashes iff the history is empty |
| `DriftProperties.WalkIgnoresIncomplete` | checkfastspring.js:137-167 | Removing an order that did not complete (and has at most one item) from the walk changes neither the baseline, the accumulators nor the flag |
| `DriftProperties.IncompleteOrderIsInert` | checkfastspring.js:127-168 | An order between the oldest and the newest that did not complete does not affect the subscription's outcome |
| `Reporting.CountsBounded` | checkfastspring.js:169-180 | Over any set of histories, the number landing in the overcharge stream and the number landing in the VAT stream are each at most the number landing in the "all" stream |
| `Reporting.RowsMatchCounts` | checkfastspring.js:169-180 | When no subscription throws, each stream has one row per subscription that lands in it, and every row is numbered by its position |
| `Reporting.Aggregator.constructor` | checkfastspring.js:51-54 | All counters start at 0 and all streams start empty |
| `Reporting.Aggregator.Record` | checkfastspring.js:169-181 | A flagged subscription raises `counterAll` by exactly 1 and appends its "all" row with that number. `counterOvercharged` rises by 1 iff the overcharge is positive, and `counterVatInclusive` rises by 1 iff the VAT cost is positive and the step is reached. Each category row carries its counter, the baseline currency and the newest order's link. The process ends iff a needed link is missing. Row numbers stay 1, 2, 3, … and neither category counter passes `counterAll` |
| `Reporting.Aggregator.Absorb` | checkfastspring.js:99-181 | A crash ends the process. A rejected or clean subscription changes no counter and no stream. A flagged one changes them as `Record` states. When the process goes on, each stream is extended by exactly the rows that outcome adds to it |
| `Reporting.Audit` | checkfastspring.js:91-182 | Processing histories in completion order halts iff some history's outcome throws. Otherwise each counter equals the number of subscriptions that land in its stream, and each stream holds exactly the rows of the flagged subscriptions in completion order, with their reference, amounts, currency and link, numbered consecutively from 1 |
| `Paging.PageCount` | checkfastspring.js:67 | The page count is the least n with 50·n ≥ total, which is `ceil(total/50)` |
| `Paging.PagesVisited` | checkfastspring.js:184-186 | Pages are visited n, n−1, …, 1, each once; with n = 0 the single page 0 is visited |
| `Paging.EveryPageVisited` | checkfastspring.js:67-186 | The page holding every subscription position below the total is among the pages visited |
| `Scenarios.SteadyPriceIsClean` | checkfastspring.js:159-166 | Three payments at an unchanged price produce no report |
| `Scenarios.RiseIn2022IsOvercharge` | checkfastspring.js:143-146 | A rise from 10.00 to 15.00 after the cutoff is an overcharge of 5.00 |
| `Scenarios.VatFoldedIntoPrice` | checkfastspring.js:148-153 | A new subtotal plus tax that rebuilds the old total is a VAT-inclusive cost of old − new subtotal |
| `Scenarios.CurrencyChangeIsRepricing` | checkfastspring.js:159-166 | A price change together with a currency change is a clean repricing |
| `Scenarios.MultiItemIsRejected` | checkfastspring.js:132-135 | A multi-item order in the middle of the history abandons the subscription |
| `Scenarios.NewestCurrencyTagsAllRow` | checkfastspring.js:172-175 | The "all" currency comes from the newest payment even when it did not complete; the category currency comes from the baseline |

## Left out

- HTTP requests through `unirest`, the checks on `res.error` and the throws they raise, and the Basic-auth base64 token: these are network I/O and a library call.
- Command-line argument handling and the usage text: this is process I/O.
- The CSV files: creating the streams, the header lines, closing them, and the `toFixed(2)` formatting of amounts. Rows are tuples of integers and strings.
- Console logging, including the per-subscription diagnostics and the final summary.
- Floating-point money. Amounts are exact integers in cents, so IEEE-754 rounding in sums and in exact equality comparisons is not modelled.
- The local-time construction of `new Date(2022,0,1)`. The cutoff is fixed at midnight UTC.
- Concurrency and timing. The per-subscription requests are fire-and-forget and the streams are closed after a fixed 5000 ms. `Audit` takes the histories in the order their responses complete, as a parameter. Completions that arrive after the streams are closed are not modelled.
- The listing queries themselves. The count query and the page queries use different date ranges, and which subscriptions a page returns is not modelled: `Audit` receives the histories directly, and `Paging` covers only the arithmetic.
- The `payments[i].order` wrapper of each entry: the model uses the order directly.
