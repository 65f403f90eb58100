# Fee and fund distribution engine

This project models the pricing and distribution engine of a recording office's
order system (`lib/utils.js`). A fee schedule lists, for each order item type,
named fees (`flat`, `per-page`) and named fund amounts. The engine:

- normalises that schedule into a lookup keyed by item type, turning fund
  amounts into percentages of the type's largest fee;
- prices every order item, and totals each order's fees and additional
  (per-page) amounts;
- splits each priced item among its type's funds. Each share is rounded to
  cents, and any additional amount goes to an `Other` fund;
- reconciles the splits per order, and then across the batch, into lists
  that are summed per fund name in first-seen order.

Modules, one per concern:

- `Wrappers`, `Errors` (`wrappers.dfy`): `Option`, `Result` and the engine's
  failure kinds.
- `Money` (`money.dfy`): whole cents and the two-decimal rounding of
  `parseFloat(x.toFixed(2))`.
- `FeeSchedule` (`schedule.dfy`): `formatFees`, `formatDistributions` and
  `formatFeeTypes`.
- `Pricing` (`pricing.dfy`): `calculateFeePerItem`, `calculaterOrderItems`,
  `calculateTotal` and `calculateTotalAdditional`.
- `Allocations` (`allocations.dfy`): `reconcileDistributions`.
- `Distribution` (`distribution.dfy`): `calculateDistritionPerItem` and
  `calculatFundDistributions`.
- `Engine` (`engine.dfy`): `createOrdersFees`, `createOrderDistributions` and
  `calculateDistTotal`.

The source reads a process-wide normalised schedule (`formattedFees`). Here it
is an explicit `Schedule` parameter.

The source goes wrong in three places: two throw and one yields `NaN`. Each becomes a `Result` failure:

- A recognised item type with no schedule entry is a JavaScript `TypeError`.
  Here it is `MissingScheduleEntry`.
- A recognised item type whose entry lacks a fee the pricing rule reads gives
  a `NaN` price. Here it is `MissingFee`.
- `reduce` without a seed on an empty array throws. Here it is `EmptyReduce`.

An item of any other type passes through with an undefined price
(`price = None`) and an additional amount of 0, as in the source.

Two behaviours are kept as the code has them, though a hardened engine might change them:

- Reconciling an empty list of lists fails. It is not an empty result. So
  an order without items, or a batch without orders, makes
  `createOrderDistributions` fail.
- An unrecognised item's missing price makes the order's total fee undefined
  (`NaN`, modelled as `None`). It does not raise an error.

## Model

| member | source | states |
|---|---|---|
| Money.Round2 | lib/utils.js:205 | rounding to cents gives a whole number of cents within half a cent of the input, keeping its sign |
| FeeSchedule.FormatFees | lib/utils.js:74-81 | the fee table has exactly the raw fee names as keys; for each name, the last raw entry's amount is stored |
| FeeSchedule.MaxFee | lib/utils.js:103-105 | the largest fee, folded from a seed of 0, is non-negative and at least every fee amount |
| FeeSchedule.MaxFeeAttained | lib/utils.js:103-105 | the largest fee is the seed 0 or one of the fee amounts |
| FeeSchedule.FormatDistributions | lib/utils.js:102-113 | normalisation keeps the number, order and names of the fund entries |
| FeeSchedule.FormatDistributionsScale | lib/utils.js:107-112 | each percentage times the largest fee gives back the raw fund amount |
| FeeSchedule.DenormalizeNormalized | lib/utils.js:102-113 | normalising and then scaling back by the largest fee returns the raw fund list |
| FeeSchedule.NormalizeDenormalized | lib/utils.js:102-113 | scaling percentages by the largest fee and normalising again returns the same percentages |
| FeeSchedule.PercentagesSum | lib/utils.js:102-113 | a type's percentages add up to its total fund amount divided by its largest fee |
| FeeSchedule.FormatFeeTypes | lib/utils.js:86-95 | the lookup has exactly the raw item types as keys; each type maps to its last raw entry's fee table and normalised funds |
| Pricing.FeePerItem | lib/utils.js:233-259 | pricing succeeds exactly when the schedule holds the fees the item's rule reads; the type is kept; a price exists exactly for the two recognised types; a recognised item costs its flat fee plus its additional amount; an unrecognised item or one without extra pages has additional amount 0 |
| Pricing.ExtraPagesCharge | lib/utils.js:242-248 | a recording with pages beyond the first has additional amount equal to extra pages times the per-page fee |
| Pricing.PriceItems | lib/utils.js:136-138 | pricing a list succeeds exactly when every item can be priced, keeps length and order, and prices each item as `FeePerItem` does; a failure is some item's failure |
| Pricing.TotalPrice | lib/utils.js:157-161 | the order's total is defined exactly when every item has a price |
| Pricing.OrderItemFees | lib/utils.js:135-147 | an order is priced exactly when every item can be priced; its priced items match its items one for one |
| Pricing.OrderTotalsMeaning | lib/utils.js:135-147 | every recognised priced item has a price; the total fee is defined exactly when every item type is recognised; the additional amount sums the items' additional amounts; an order without items totals 0 and 0 |
| Pricing.TotalFeesSplit | lib/utils.js:157-161 | when all items are recognised and priceable, the total fee is the sum of their flat fees plus the order's additional amount |
| Pricing.TotalAdditionalZero | lib/utils.js:178-182 | an order whose items carry no additional amount has total additional amount 0; its partner is `Distribution.OrderOtherFund`, where the order's `Other` fund receives this total |
| Pricing.TotalAdditionalConcat | lib/utils.js:178-182 | the total additional amount of two item lists, one after the other, is the sum of their totals |
| Allocations.IndexOfFirst | lib/utils.js:276 | the lookup finds the first allocation to a fund, and finds one exactly when the fund occurs |
| Allocations.GroupByNameGroups | lib/utils.js:275-288 | the per-name fold yields distinct names, exactly the input's names, each with its summed amount, in first-seen order |
| Allocations.Reconcile | lib/utils.js:269-291 | reconciliation fails exactly for an empty outer list, with the empty-reduce error; otherwise it groups the flattened input by name |
| Allocations.GroupByNameTotal | lib/utils.js:275-282 | grouping by name keeps the total amount |
| Allocations.ReconcileTotal | lib/utils.js:269-291 | the reconciled list holds exactly the money of all input lists |
| Allocations.GroupsSumFor | lib/utils.js:275-282 | a grouped list gives every fund name the same sum as its input |
| Allocations.ReconcileSumFor | lib/utils.js:269-291 | each fund receives in the reconciled list exactly what the input lists allocate to it |
| Allocations.GroupOfGroups | lib/utils.js:269-291 | grouping the separately grouped lists equals grouping all allocations at once |
| Allocations.ReconcileOfReconciled | lib/utils.js:269-291 | reconciling per-list reconciliations equals reconciling the original lists |
| Distribution.SplitShare | lib/utils.js:203-206 | a fund's part keeps the fund's name and is its percentage of the base, rounded to cents |
| Distribution.SplitFee | lib/utils.js:202-207 | the split has one allocation per share, in order, with the share's name |
| Distribution.SplitFeeRounded | lib/utils.js:202-207 | each split amount is whole cents within half a cent of base times percentage |
| Distribution.ItemDistribution | lib/utils.js:187-228 | fails exactly for a recognised type missing from the schedule; otherwise gives one allocation per share of the type's funds over the split base, plus an `Other` allocation of the additional amount exactly when that amount is non-zero |
| Distribution.ItemDistributions | lib/utils.js:122-124 | splitting every item succeeds exactly when the schedule covers their types, keeps length and order, and splits each item as `ItemDistribution` does |
| Distribution.FundDistributions | lib/utils.js:121-130 | an order's funds are defined exactly when it has items and the schedule covers their types; no items fail with the empty-reduce error |
| Distribution.FundDistributionsGroup | lib/utils.js:121-130 | an order's funds reconcile the allocations of all its item splits |
| Distribution.PricedItemSplitsFlatFee | lib/utils.js:194-200 | a recognised priced item splits exactly its type's flat fee among the funds, the per-page part being excluded |
| Distribution.ItemOtherFund | lib/utils.js:220-225 | unless a fund is itself named `Other`, the `Other` fund of an item split receives exactly the item's additional amount |
| Distribution.OrderOtherFund | lib/utils.js:121-130 | unless a fund is itself named `Other`, the `Other` fund of an order receives the order's total additional amount |
| Distribution.OrderFundTotal | lib/utils.js:121-130 | an order's funds hold exactly the money of its item splits |
| Distribution.SplitFeeTotal | lib/utils.js:202-207 | a split's total is within half a cent per share of base times the sum of the percentages |
| Distribution.NormalisedSumsToOne | lib/utils.js:102-113 | when a type's fund amounts add up to its largest fee, its percentages add up to 1 |
| Engine.OrdersFees | lib/utils.js:20-30 | fee records exist exactly when every order is priceable; one record per order, in order, with id equal to the order number and the order's priced items and totals |
| Engine.PricedOrder | lib/utils.js:20-30 | a fee record has one priced item per order item, all well priced and covered by the schedule, and its additional amount sums theirs |
| Engine.DistributeOrders | lib/utils.js:39-49 | one distribution record per fee record, in order, keeping the id and holding that order's reconciled funds |
| Engine.DistributeOrdersOutcome | lib/utils.js:39-49 | distributing succeeds exactly when every order has items covered by the schedule; with covered types, the only failure is an empty order |
| Engine.DistributionTotal | lib/utils.js:166-173 | the batch total fails exactly for a batch without orders, with the empty-reduce error; otherwise it sums the orders' distribution lists per fund name, with distinct names in first-seen order |
| Engine.OrderDistributions | lib/utils.js:35-54 | the batch result exists exactly when there are orders and each is priceable and non-empty; with priceable orders the only failure is the empty-reduce error; one record per order with id equal to the order number |
| Engine.BatchParts | lib/utils.js:35-54 | for a batch that can be distributed, the fee records exist and are well priced, the per-order records are the distributions of those fee records, and the batch total is exactly the reconciliation of the per-order distribution lists |
| Engine.BatchTotalGroups | lib/utils.js:51 | the batch total has distinct fund names, each with its sum over all orders, in first-seen order |
| Engine.BatchOtherFund | lib/utils.js:35-54 | unless a fund is itself named `Other`, the batch total's `Other` fund equals the sum of the orders' additional amounts |
| Engine.BatchTotalIsOneReconciliation | lib/utils.js:35-54 | reconciling per order and then across orders gives the same total as one reconciliation of every item split in the batch |
| Engine.BatchTotalConserved | lib/utils.js:35-54 | the batch total holds exactly the money of all item splits of the batch |

## Left out

- The HTTP server and routes (`server.js`, `routes.js`), reading `fees.json` and `orders.json`, `moldFeeResults`, `moldFundResults` and the `prepare*String` report helpers are not part of this model. They are I/O and text formatting.
- Binary floating point: money is exact `real`. `parseFloat`, string-typed amounts and the drift of double arithmetic are not modelled.
- Money.Round2: rounds the exact value half away from zero. `toFixed` rounds the nearest double, so a tie that is not exactly representable may round the other way.
- FeeSchedule.FormatDistributions: requires a positive largest fee. The source divides by zero and produces `Infinity` or `NaN` percentages.
- Pricing.FeePerItem: a missing `flat` or `per-page` fee is the `MissingFee` failure. In the source it is a `NaN` price that flows on into the totals and splits.
- Pricing.FeePerItem: the per-page formula is stated by `ExtraPagesCharge`, not in its own postcondition.
- `pages` is an optional integer. Non-integer or non-numeric page values are not modelled.
- JavaScript object semantics:
  - `for … in` lists integer-like keys before others, in ascending order. The model keeps first-seen order for every name.
  - `name in totalDist` also finds inherited properties such as `toString`. A fund with such a name is not modelled.
- `calculatFundDistributions` is passed a total fee and an additional fee, but never reads them. `FundDistributions` keeps both parameters, also unused.
- Distribution.SplitFeeTotal, Distribution.NormalisedSumsToOne: these are stated as two separate lemmas. The combined statement, that a whole split is within half a cent per share of its base, is not proved as a single lemma.
- Distribution.ItemOtherFund, Distribution.OrderOtherFund, Engine.BatchOtherFund: all three require that no fund of the schedule is itself named `Other`. Otherwise the additional amounts merge with that fund.
