# E-commerce sample-data generator and CSV validator, modelled in Dafny

The repository's generator makes a synthetic marketplace:
- sellers, verticals and their links;
- consumers, with their address books and payment cards;
- a commodity catalogue;
- orders, with line items, transactions and reviews.

It writes everything as pipe-delimited CSV files. Each consumer, seller and commodity record carries denormalised aggregates: order counts, spend, sales, units sold, review counts, rating averages and the customer segment. These are computed while the orders are generated and then written back into the records. A separate validator re-reads the CSV files and checks:
- the headers;
- required fields that are empty;
- stray `|` characters;
- the foreign keys between the tables.

This project models that core and proves what it guarantees.

- Every random draw is an explicit input record: a count, a choice index, a sampled subset, an amount, a status, an hour or day offset, a UUID or a Faker value. A validity predicate bounds each draw to the range the source draws from.
- Money is an integer count of 10^-4 units. Rating averages are counts of 10^-2 units. `Fixed.Quantize` is `quantize_decimal` (ROUND_HALF_UP at k decimals) on exact decimals.
- Times are whole seconds.
- Pure helpers are functions: the fixed-point helpers, `clean_text_field` and `calculate_customer_segment`.
- The generators are methods with loops. Each is proved equal to a specification function, and the properties are proved as lemmas about those functions.
- `generate_orders_and_related` takes the consumer, seller and commodity records as arrays. It runs the order loop with the three running stats maps and then rewrites the records in place.
  - The loop invariant says every stats entry equals a recomputation over the tables emitted so far.
  - The method's contract says each record afterwards equals a function of its old value and of those tables.
- The validator works on already parsed files: a header plus rows that map field names to `Option<string>`, where `None` is csv.DictReader's filler for a short row. Both its functions are imperative loops proved against specification functions.

Modules, one per file:
- `Opt`: option.dfy
- `Fixed`: fixed.dfy
- `Seqs`: seqs.dfy (order-preserving filter)
- `Text`: text.dfy
- `Domain`: domain.dfy
- `Links`: links.dfy (seller verticals, address books, cards)
- `Catalog`: catalog.dfy
- `Orders`: orders.dfy (lines, totals, timestamps, transactions, reviews)
- `OrderBundles`: bundles.dfy (one loop iteration as a value, and the tables)
- `Rollup`: rollup.dfy (aggregates recomputed from the tables, and the write-back)
- `OrderGraph`: ordergraph.dfy (the imperative order loop and write-back)
- `CsvCheck`: validate.dfy
- `Integrity`: integrity.dfy

Behaviour of the code the model keeps as written:
- `first_order_date` comes from the first fulfilled order in generation order, not from the earliest one.
- The timestamp chain is not monotone as a whole. `paid_at` is counted from the creation time, not from `confirmed_at`, so an order can be paid before it is confirmed (`Orders.PaidBeforeConfirmed`).
- The transaction status list contains `'captured'`, which is not an order status. So every generated transaction is `captured` (`Orders.TransactionStatusesArePaid`).
- The order's seller is drawn independently of its commodities' sellers.
- An order can have zero lines when the catalogue is empty.
- A short row whose required cells are the filler `None` is not reported as empty (`CsvCheck.ShortRowNotFlagged`).

## Model

| member | source | states |
|---|---|---|
| Fixed.RoundHalfUp | scripts/generate_data.py:212 | returns the integer nearest num/den, ties away from zero; keeps the sign of the input |
| Fixed.RoundHalfUpUnique | scripts/generate_data.py:212 | ROUND_HALF_UP is the only integer with the nearest-with-ties-away property |
| Fixed.RoundHalfUpExact | scripts/generate_data.py:212 | a whole number of units is returned unchanged |
| Fixed.RoundHalfUpMonotone | scripts/generate_data.py:212 | rounding is monotone |
| Fixed.RoundHalfUpAtMost | scripts/generate_data.py:212 | rounding num/den never exceeds a bound m when num <= m*den |
| Fixed.Quantize | scripts/generate_data.py:207-212 | specification of quantize_decimal on an exact decimal (digits × 10^-scale) to k places; it has no ensures of its own, and its meaning is stated by QuantizeWithinHalfUnit (on the grid, within half a unit, ties away from zero), QuantizeOnGrid, QuantizeSameScale and QuantizeMonotone |
| Fixed.QuantizeWithinHalfUnit | scripts/generate_data.py:207-212 | the result is a multiple of 10^-k within half a unit of the input, halfway ties going away from zero |
| Fixed.QuantizeOnGrid | scripts/generate_data.py:207-212 | quantizing a value already on the 10^-k grid returns it: idempotence |
| Fixed.QuantizeSameScale | scripts/generate_data.py:207-212 | quantizing to the scale the value already has changes nothing |
| Fixed.QuantizeMonotone | scripts/generate_data.py:207-212 | quantizing is monotone |
| Text.Sanitize | scripts/generate_data.py:241-244 | same length; each character is replaced as the four replace calls do; no `\|` or `"` remains |
| Text.Words | scripts/generate_data.py:246 | specification of str.split() with no argument; WordsWellFormed, WordsChars and WordsOfJoin state what it returns, the last one as the inverse of the single-space join |
| Text.Strip | scripts/generate_data.py:247 | specification of str.strip(); StripSingleSpaced and CleanTextField state that it removes only edge whitespace and leaves a single-spaced string unchanged |
| Text.WordsWellFormed | scripts/generate_data.py:246 | str.split() yields non-empty words without whitespace |
| Text.WordsChars | scripts/generate_data.py:246 | every word consists of characters of the input |
| Text.WordsOfJoin | scripts/generate_data.py:246 | splitting words joined by single spaces gives the words back |
| Text.StripSingleSpaced | scripts/generate_data.py:247 | strip() leaves a single-spaced string unchanged |
| Text.CleanTextField | scripts/generate_data.py:236-247 | empty input gives ''; the output has no `\|`, newline, carriage return or `"`, no leading or trailing whitespace, no two consecutive spaces; every non-space character comes from the sanitised input |
| Text.CleanKeepsWords | scripts/generate_data.py:241-247 | the cleaned field has exactly the words of the sanitised input |
| Text.CleanIdempotent | scripts/generate_data.py:236-247 | cleaning a cleaned field changes nothing |
| Domain.StatusStages | scripts/generate_data.py:675-689 | helper fact about the status predicates used by the timestamp proofs: fulfilled implies shipped, shipped implies paid, paid implies not draft |
| Domain.CustomerSegment | scripts/generate_data.py:249-259 | the highest segment whose threshold (100, 1000, 5000) the spend reaches, and none above it |
| Domain.CustomerSegmentMonotone | scripts/generate_data.py:249-259 | spending more never lowers the segment |
| Links.LinksOf | scripts/generate_data.py:450-457 | one link per drawn position, naming the seller and that vertical |
| Links.GenerateSellerVerticals | scripts/generate_data.py:440-460 | the loop builds exactly the links of every seller in seller order |
| Links.LinksNameSellers | scripts/generate_data.py:445-457 | every link names one of the sellers |
| Links.LinksNameVerticals | scripts/generate_data.py:448-457 | every link names one of the verticals |
| Links.NoLinksOf | scripts/generate_data.py:445-457 | an id that is no seller has no links |
| Links.LinksOfSeller | scripts/generate_data.py:445-457 | with distinct seller ids, a seller's links are exactly those drawn for it |
| Links.SellerVerticalCounts | scripts/generate_data.py:447-448 | every seller is linked to between 1 and min(5, number of verticals) pairwise-distinct verticals |
| Links.AddressesFor | scripts/generate_data.py:417-435 | one address per drawn id, owned by the consumer; only the first is the default |
| Links.GenerateAddressBooks | scripts/generate_data.py:405-438 | the loop builds exactly the address books of every consumer in order |
| Links.AddressesNameConsumers | scripts/generate_data.py:414-435 | every address belongs to one of the consumers |
| Links.NoAddressesOf | scripts/generate_data.py:414-435 | an id that is no consumer has no addresses |
| Links.AddressesOfConsumer | scripts/generate_data.py:414-435 | with distinct consumer ids, a consumer's addresses are exactly those drawn for it |
| Links.AddressDefaults | scripts/generate_data.py:415-429 | each consumer has 1 to 3 addresses; the first is the default and no other is |
| Links.Last4 | scripts/generate_data.py:545 | the last four characters of the card number, or all of them when it is shorter |
| Links.CardsFor | scripts/generate_data.py:537-555 | one card per draw: token = hash of the number, last4 of the number; only the first is the default |
| Links.GenerateCards | scripts/generate_data.py:523-560 | the loop builds exactly the card list and the per-consumer map |
| Links.CardsNameConsumers | scripts/generate_data.py:533-555 | every card belongs to one of the consumers |
| Links.NoCardsOf | scripts/generate_data.py:533-555 | an id that is no consumer has no cards |
| Links.CardsOfEachConsumer | scripts/generate_data.py:533-555 | with distinct consumer ids, a consumer's cards in the list are exactly those drawn for it |
| Links.CardsMapKeys | scripts/generate_data.py:557 | the map's keys are exactly the consumer ids |
| Links.CardsMapAt | scripts/generate_data.py:557 | with distinct consumer ids, a consumer's map entry is the cards made for it |
| Links.CardsMapEntry | scripts/generate_data.py:550-557 | with distinct consumer ids, a consumer's map entry is exactly its cards: first one default, the others not |
| Catalog.VerticalIdsAppend | scripts/generate_data.py:469-470 | one more link appends its vertical id |
| Catalog.LinkedVerticalsAppend | scripts/generate_data.py:469-470 | one more link extends the verticals of its own seller and of no other |
| Catalog.BuildSellerIndex | scripts/generate_data.py:467-470 | the index holds exactly the sellers with links, each mapped to its linked verticals in table order |
| Catalog.IndexStep | scripts/generate_data.py:469-470 | appending one link's vertical to its seller's entry keeps the index exact for the longer table |
| Catalog.SellerPool | scripts/generate_data.py:473-476 | the pool is drawn from the sellers and is empty only when there are no sellers |
| Catalog.GenerateCommodities | scripts/generate_data.py:462-521 | the loop builds exactly the commodity of every draw in order |
| Catalog.CommodityLoop | scripts/generate_data.py:482-518 | the loop makes exactly one commodity per draw, in order |
| Catalog.MakeCommodity | scripts/generate_data.py:483-517 | specification of one loop iteration: the drawn seller from the pool, a vertical from that seller's links or else from all verticals, the drawn price, the cost price, and counters at zero; CommodityOf, CommodityVerticalLinked and CommodityVerticalFallback state its properties |
| Catalog.Commodities | scripts/generate_data.py:473-518 | specification of the whole catalogue: one commodity per draw, in draw order (its ensures gives the length); GenerateCommodities equals it |
| Catalog.CostPrice | scripts/generate_data.py:491-500 | specification of cost_price, price times the drawn factor rounded half-up to four places; CostPriceBounds puts it within 40–80% of the price up to that rounding |
| Catalog.CommodityOf | scripts/generate_data.py:483-517 | the vertical comes from the seller's index entry when it has one, else from all verticals; the counters start at zero |
| Catalog.CommodityVerticalLinked | scripts/generate_data.py:473-487 | when some seller has a vertical, every commodity's seller has one, and the commodity's vertical is one of that seller's |
| Catalog.CommodityVerticalFallback | scripts/generate_data.py:486-489 | when no seller has a vertical, the vertical is one of all verticals |
| Catalog.CostPriceBounds | scripts/generate_data.py:491-500 | cost_price is price times the factor rounded half-up to four decimals, between 40% and 80% of the price up to that rounding |
| Catalog.LinkedVerticalIn | scripts/generate_data.py:469-470 | each linked vertical of a seller comes from one of its links |
| Orders.UnitCost | scripts/generate_data.py:616-618 | specification of unit_cost: the commodity's cost price, or 0.6 × the price when there is none, quantized to four places |
| Orders.MakeLine | scripts/generate_data.py:613-631 | specification of one order line; LineArithmetic states its unit price, net total, discount bounds and non-negative total |
| Orders.OrderLines | scripts/generate_data.py:613-631 | one line per sampled commodity |
| Orders.BuildLines | scripts/generate_data.py:610-632 | the line loop builds exactly those lines; the subtotal quantized after every addition equals the sum of the line totals |
| Orders.LineArithmetic | scripts/generate_data.py:614-620 | unit price = commodity price; line total = price × quantity − discount; 0 <= discount <= 20% of the gross (up to rounding); the line total is never negative |
| Orders.OrderLinesFacts | scripts/generate_data.py:613-631 | every line of the order names it and carries the line arithmetic |
| Orders.SubtotalNonNegative | scripts/generate_data.py:632 | non-negative line totals give a non-negative subtotal |
| Orders.OrderTotals | scripts/generate_data.py:635-638 | specification of the order's tax, fee, discount and total; TotalsArithmetic states 8% tax rounded half-up, the exact total and discount <= subtotal |
| Orders.TotalsArithmetic | scripts/generate_data.py:635-638 | tax = 8% of the subtotal rounded half-up to four decimals; total = subtotal + tax + shipping − discount exactly; discount <= subtotal; total >= tax + shipping >= 0 |
| Orders.Lifecycle | scripts/generate_data.py:671-690 | specification of the status-dependent timestamps; LifecycleFacts states which stamps each status sets, their order and offsets, and days_to_ship and days_to_deliver |
| Orders.LifecycleFacts | scripts/generate_data.py:671-690 | confirmed iff not draft, paid iff inprogress/shipped/delivered/done, shipped iff shipped/delivered/done, delivered iff delivered/done, completed iff done; created < paid < shipped < delivered < completed with the drawn offsets; days_to_ship 1..5 and days_to_deliver 1..7 (read back through the helper DaysBetween); confirmed 1..24 h after creation |
| Orders.PaidBeforeConfirmed | scripts/generate_data.py:673-676 | an order exists whose paid_at precedes its confirmed_at |
| Orders.TransactionStatusesArePaid | scripts/generate_data.py:700-706 | an order status is in the transaction list, and in the captured list, exactly when it is paid |
| Orders.TransactionFor | scripts/generate_data.py:699-725 | specification of the optional transaction; TransactionFacts and TransactionStatusesArePaid state when there is one and what it records |
| Orders.TransactionFacts | scripts/generate_data.py:699-725 | a transaction exists iff the order is paid and the consumer has a card; it uses one of those cards, pays the order total, is captured, is created 0..2 h after the order, and is authorised and completed at the drawn offsets after its creation |
| Orders.MakeReview | scripts/generate_data.py:734-747 | specification of one review record: order, line commodity, consumer, seller, rate and the drawn day offsets after delivery |
| Orders.OrderReviews | scripts/generate_data.py:729-748 | specification of the per-line review loop (a line gets a review when its 50% draw wins); OrderReviewsFacts states what every review names and OrderGraph.EmitReviews equals it |
| Orders.OrderReviewsFacts | scripts/generate_data.py:728-748 | every review names the order, one of its lines' commodities, its consumer and seller, and a rate 1..5; there are at most as many reviews as lines; created 1..30 and published 1..31 days after delivery |
| Orders.PublishedBeforeCreated | scripts/generate_data.py:744-746 | a review can be published before it is created |
| OrderBundles.StepBundle | scripts/generate_data.py:591-765 | specification of one order-loop iteration: nothing when the consumer has no address, else the order with its lines, transaction and reviews; BundleShape, BundleLines, BundleTotals, BundleTransaction and BundleReviews state its properties |
| OrderBundles.Bundles | scripts/generate_data.py:591-765 | specification of the whole order loop as the bundles of all draws in order; GeneratedTablesReferToContext and GeneratedTotalsNonNegative hold for all draws, and OrderGraph.RunOrders equals it |
| OrderBundles.BundleShape | scripts/generate_data.py:591-669 | an order is emitted iff the consumer has an address; it names the drawn consumer, seller, one of the consumer's addresses, and the status's timestamps |
| OrderBundles.BundleLines | scripts/generate_data.py:606-632 | an emitted order has at most 5 lines (at least 1 when there are commodities); they name commodities that exist at their price and carry the line arithmetic; subtotal = sum >= 0 |
| OrderBundles.BundleTotals | scripts/generate_data.py:634-638 | the emitted order's tax, exact total and discount bounds |
| OrderBundles.BundleTransaction | scripts/generate_data.py:699-725 | a transaction comes with an order iff paid and the consumer has a card; it pays the total with one of that consumer's cards and is captured |
| OrderBundles.TransactionCardOwned | scripts/generate_data.py:699-712 | when the card map is the one generate_cards builds over distinct consumer ids, the transaction's card is a card of the cards table that belongs to the order's consumer |
| OrderBundles.BundleReviews | scripts/generate_data.py:727-748 | only delivered or done orders that won the review draw have reviews; each names one of the order's commodities, its consumer and seller, and rates 1..5 |
| OrderBundles.GeneratedTablesReferToContext | scripts/generate_data.py:591-748 | every order names an existing consumer and seller; every line an emitted order and an existing commodity; every transaction an emitted order and an existing card; every rate is 1..5 |
| OrderBundles.GeneratedTotalsNonNegative | scripts/generate_data.py:613-638 | over non-negative prices, every generated order total is non-negative |
| OrderBundles.BundleAppendRefers | scripts/generate_data.py:692-725 | appending one iteration's output keeps every reference valid |
| OrderBundles.BundleLinesRefer | scripts/generate_data.py:694-697 | an order's lines name that order and existing commodities |
| Rollup.Rates | scripts/generate_data.py:751-752 | the rates of a list of reviews, in order |
| Rollup.RatingAvg | scripts/generate_data.py:787-791 | specification of rating_avg from a list of rates; RatingAvgBounds, RatingAvgConstant and SumBounds state 0 for none and a half-up mean within [1.00, 5.00] otherwise |
| Rollup.RatingAvgBounds | scripts/generate_data.py:787-791 | rating_avg is 0 without ratings, else the mean rounded half-up to two decimals, within [1.00, 5.00] |
| Rollup.SumBounds | scripts/generate_data.py:788 | n ratings in 1..5 sum to between n and 5n |
| Rollup.RatingAvgConstant | scripts/generate_data.py:797-799 | equal ratings average to exactly that rating |
| Rollup.SumConstant | scripts/generate_data.py:798 | n equal ratings r sum to n·r |
| Rollup.SumTotalsNonNegative | scripts/generate_data.py:757 | non-negative totals give a non-negative spend |
| Rollup.SumTotalsAppend | scripts/generate_data.py:757 | one more order adds its total |
| Rollup.ConsumerFiguresAppend | scripts/generate_data.py:755-759 | a new order changes only its own consumer's count, spend and first order, and only when fulfilled; the first order is kept once set |
| Rollup.SellerFiguresAppend | scripts/generate_data.py:761-762 | a new order changes only its own seller's count and sales, and only when fulfilled |
| Rollup.RatingsAppend | scripts/generate_data.py:751-752 | a new review appends its rate to its own seller's and commodity's ratings only |
| Rollup.LineQuantityAppend | scripts/generate_data.py:764-765 | one more line adds its quantity to its own commodity only |
| Rollup.QuantitySoldAppend | scripts/generate_data.py:755-765 | a new order adds its lines' quantities only when fulfilled |
| Rollup.OrdersOfAppend | scripts/generate_data.py:692-748 | one more iteration appends its order, lines, transaction and reviews to the tables |
| Rollup.UpdatedConsumer | scripts/generate_data.py:775-781 | specification of the consumer write-back from the orders table; UpdatedConsumerFacts states its segment and its values without fulfilled orders |
| Rollup.UpdatedSeller | scripts/generate_data.py:783-791 | specification of the seller write-back from the orders and reviews tables; UpdatedSellerFacts states the kept fields and the rating bounds |
| Rollup.UpdatedCommodity | scripts/generate_data.py:793-801 | specification of the commodity write-back from the bundles and reviews; UpdatedCommodityFacts states review_count and the rating_avg cases |
| Rollup.UpdatedConsumerFacts | scripts/generate_data.py:775-781 | the write-back keeps the id; spend reaches its segment's threshold and no higher one; without fulfilled orders the count and spend are 0, the segment is one-time and first_order_date is kept |
| Rollup.UpdatedSellerFacts | scripts/generate_data.py:783-791 | the write-back keeps the other fields; rating_avg is 0 without ratings, else in [1.00, 5.00] |
| Rollup.UpdatedCommodityFacts | scripts/generate_data.py:793-801 | the write-back keeps the other fields; review_count is the number of its reviews; rating_avg is 0 without reviews, else in [1.00, 5.00] |
| OrderGraph.GroupAddresses | scripts/generate_data.py:578-580 | consumer_addresses maps exactly the users with addresses to their addresses in table order |
| OrderGraph.GroupStep | scripts/generate_data.py:579-580 | appending one address to its user's entry keeps the grouping exact for the longer table |
| OrderGraph.EmitReviews | scripts/generate_data.py:729-752 | the review loop appends the order's reviews, and the seller and commodity ratings keep matching the reviews table |
| OrderGraph.OrderReviewsStep | scripts/generate_data.py:729-748 | the reviews of the first k+1 lines are those of the first k lines plus the review of line k when one is drawn |
| OrderGraph.SellerRated | scripts/generate_data.py:752 | appending a review's rate to its seller's ratings keeps every seller's stats equal to those recomputed from the longer reviews table |
| OrderGraph.CommodityRated | scripts/generate_data.py:751 | appending a review's rate to its commodity's ratings keeps every commodity's stats equal to those recomputed from the longer reviews table |
| OrderGraph.AddSold | scripts/generate_data.py:764-765 | after a fulfilled order, every commodity's sold counter matches the recomputed units sold |
| OrderGraph.CountFulfilled | scripts/generate_data.py:755-762 | after a fulfilled order, consumer and seller counters match the recomputation over the orders table |
| OrderGraph.ConsumerCounted | scripts/generate_data.py:756-759 | incrementing the order's consumer entry keeps every consumer entry equal to the recomputation |
| OrderGraph.SellerCounted | scripts/generate_data.py:761-762 | incrementing the order's seller entry keeps every seller entry equal to the recomputation |
| OrderGraph.UnfulfilledChangesNothing | scripts/generate_data.py:754-765 | an order neither delivered nor done leaves every stats entry valid for the longer tables |
| OrderGraph.GenerateOrder | scripts/generate_data.py:591-765 | one iteration appends what its draw emits to the tables, and the stats maps keep matching the tables |
| OrderGraph.BundlesStep | scripts/generate_data.py:591 | the output of a prefix of the draws plus one draw |
| OrderGraph.RunOrders | scripts/generate_data.py:572-765 | after the order loop, the tables are the output of all draws and every stats entry is the recomputation over them |
| OrderGraph.GenerateOrdersAndRelated | scripts/generate_data.py:562-803 | returns the four tables; every consumer, seller and commodity record is rewritten with the aggregates recomputed from them, other fields unchanged |
| OrderGraph.WriteBackConsumers | scripts/generate_data.py:775-781 | every consumer becomes its updated record |
| OrderGraph.WriteBackSellers | scripts/generate_data.py:783-791 | every seller becomes its updated record |
| OrderGraph.WriteBackCommodities | scripts/generate_data.py:793-801 | every commodity becomes its updated record |
| OrderGraph.WrittenBackRecords | scripts/generate_data.py:754-801 | over the generated tables: spend >= 0 and in its segment; seller and commodity rating averages are 0 or in [1.00, 5.00]; a commodity's average is 0 iff it has no reviews |
| OrderGraph.WrittenBackOver | scripts/generate_data.py:775-801 | the same write-back facts over any non-negative totals and ratings 1..5 |
| CsvCheck.ValidateCsvFile | scripts/validate_csv.py:13-85 | the method's result is the specification's: validity, errors, warnings and row count |
| CsvCheck.CheckRequired | scripts/validate_csv.py:43-52 | the required-field loop appends exactly the empty-field issues of the row |
| CsvCheck.CheckPipes | scripts/validate_csv.py:55-57 | the pipe loop appends exactly the pipe issues of the row |
| CsvCheck.DedupKeys | scripts/validate_csv.py:55 | a row's keys are the header fields in first-occurrence order |
| CsvCheck.DedupFacts | scripts/validate_csv.py:55 | the row's keys are exactly the header fields, each once |
| CsvCheck.EmptyIssuesExact | scripts/validate_csv.py:43-52 | a field is flagged empty in row i exactly when it is required, absent or '' in the row, and not on the allowlist |
| CsvCheck.PipeIssuesExact | scripts/validate_csv.py:55-57 | a field is flagged exactly when its non-empty value holds a `\|` |
| CsvCheck.RowIssuesExact | scripts/validate_csv.py:42-57 | a row's issues are exactly its empty-field and pipe issues, all naming that row |
| CsvCheck.AllRowIssuesNoNotice | scripts/validate_csv.py:39-57 | row issues never include the truncation notice; none at all iff no row has one |
| CsvCheck.ScanFrom | scripts/validate_csv.py:39-62 | the row loop resumed at row k, under the cut-off so far |
| CsvCheck.Scan | scripts/validate_csv.py:39-62 | specification of the row loop with its 100-error cut-off; ScanFrom resumes it and ScanOutcome states where it stops and what it appends |
| CsvCheck.Validate | scripts/validate_csv.py:13-85 | specification of validate_csv_file's verdict, errors, warnings and row count; ValidIff gives both directions of the verdict and ValidateCsvFile equals it |
| CsvCheck.ScanOutcome | scripts/validate_csv.py:39-62 | the loop stops after the first row at which the error count reaches 100 and appends exactly one truncation notice, as the last error; otherwise it scans every row; row_count is the number of rows scanned |
| CsvCheck.ValidIff | scripts/validate_csv.py:13-85 | a file passes iff it exists with a header holding every required field and no row has an empty required field off the allowlist or a value with `\|`; a missing file fails |
| CsvCheck.ExtraFieldsOnlyWarn | scripts/validate_csv.py:30-36 | extra header fields give one warning naming them and do not fail the file |
| CsvCheck.ShortRowNotFlagged | scripts/validate_csv.py:44 | a required field holding DictReader's None filler is not reported as empty |
| Integrity.LoadIds | scripts/validate_csv.py:95-138 | the id loop fails iff the file is missing or a row lacks 'id', else collects exactly the id column |
| Integrity.CheckRefs | scripts/validate_csv.py:141-148 | the reference loop fails iff the file is missing or a row lacks a column, else collects exactly the broken references |
| Integrity.RefIssuesPrefix | scripts/validate_csv.py:143-148 | the issues of the first m rows depend on those rows only |
| Integrity.ValidateReferentialIntegrity | scripts/validate_csv.py:87-202 | returns True iff nothing raises and no reference is broken, with the issues in the source's order |
| Integrity.RefIssuesEmpty | scripts/validate_csv.py:143-148 | no issue iff every row's two columns hold ids of their target tables |
| Integrity.RefIssuesNameBrokenCells | scripts/validate_csv.py:143-148 | every issue names its table, a 1-based row, and a column whose value is not a target id |
| Integrity.CheckFileClean | scripts/validate_csv.py:141-148 | one file's check is clean iff the file exists and all its references hold |
| Integrity.Integrity | scripts/validate_csv.py:87-202 | specification of validate_referential_integrity: None when it raises, else the broken references in order; IntegrityIff gives both directions and ValidateReferentialIntegrity equals it |
| Integrity.IntegrityIff | scripts/validate_csv.py:93-202 | the check passes iff all ten files are readable with their columns and every seller_vertical, commodities, orders, order_commodities and transactions key is in its target's id set |
| Integrity.IdsOfMembers | scripts/validate_csv.py:96-138 | a value is an id of a table iff some row holds it |

## Left out

- Randomness. `random.choice`, `choices`, `sample`, `randint`, `random` and their weights are replaced by input draws bounded by validity predicates. The distributions and weights are not modelled.
- Faker text, names and addresses, and `uuid4`. Ids are input strings. They are not assumed distinct except in lemmas that say so.
- `hash_card_number` (SHA-256) is a function parameter `hash`.
- `random_decimal`. Its float uniform draw and round-half-even step are replaced by an input decimal within the drawn range.
- Domain.CustomerSegment: compares exact decimals instead of `float(total_spent)`. The two agree for four-decimal amounts far below 2^53.
- Rollup.RatingAvg: rounds the exact mean half-up to two decimals. The source first divides in the 28-digit Decimal context, which can differ only for means whose digits past 28 decide the rounding.
- `datetime.now`, `strftime` formatting and `format_*`. Times are integer seconds and dates are day numbers (seconds / 86400).
- Fields with no logic behind them: SKU, names, descriptions, gateway codes, IP and user agent, comment text, weights, reorder levels, statuses other than the order status, and created/updated stamps other than the ones the timestamp chain and reviews use.
- Order totals and line amounts are exact decimals. Python's Decimal context precision (28 digits) is not modelled.
- File I/O and CSV plumbing: `load_or_generate_verticals`, `export_to_csv`, `export_all_data`, file opening and `csv.DictReader` parsing. The validator takes parsed rows. Surplus cells of a long row (DictReader's `restkey` list) are not modelled.
- Exceptions in `validate_csv_file` other than a missing file or a file without a header line.
- Links.ValidVerticalPick, Catalog.ValidCommodityDraw, OrderBundles.ValidOrderDraw: these draw predicates exclude the inputs on which the generators raise, so those crashes are not modelled: `random.randint(1, min(5, 0))` raises ValueError at scripts/generate_data.py:447 when there are sellers but no verticals; `random.choice([])` raises IndexError at line 483 when there are no sellers, at line 489 when no seller has a vertical link and there are no verticals, and at lines 592-593 when the consumer or the seller list is empty.
- PostgreSQL insertion, both `main` functions, CONFIG/CLI handling, tqdm progress bars and all printing, including the first-ten error listing.
- The users, verticals, sellers and consumers generators (no logic beyond Faker fields) are not part of this model. Their records are inputs.
