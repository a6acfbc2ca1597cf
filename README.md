# Transaction dashboard queries in Dafny

A model of the query and aggregation engine of a small product-sale dashboard
service (`server.js`). The service keeps a collection of sale transactions
(title, description, price, date of sale, sold flag, category). It answers
four read queries:

- `/transactions`: a searchable, paginated listing.
- `/statistics`: the total sale amount, the number of sold items and the number of unsold items of a month.
- `/barchart`: a histogram of the month's prices over ten fixed price ranges.
- `/piechart`: the number of the month's records per category.

The month is given by its English name. It selects records by month of year,
in any year.

Every route is a pure function of the store contents, so each is modelled as
a Dafny function over `seq<Transaction>`. The store is a parameter, not a
database. Lemmas state what each route promises.

Modules, one per component:

| file | module | contents |
|---|---|---|
| `wrappers.dfy` | `Wrappers` | `Option`, for absent query parameters and absent aggregation results |
| `seqs.dfy` | `Seqs` | order-preserving `Filter` and its laws (concatenation, complement, disjoint union) |
| `records.dfy` | `Records` | the record, `ParseMonth`, the month-of-year filter |
| `search.dfy` | `Search` | case folding, literal substring search, price rendered as text, `Matches` |
| `listing.dfy` | `Listing` | `skip`/`limit` pagination and the `/transactions` route |
| `statistics.dfy` | `Statistics` | the `/statistics` route |
| `barchart.dfy` | `BarChart` | the ten price ranges and the `/barchart` route |
| `piechart.dfy` | `PieChart` | grouping by category and the `/piechart` route |
| `scenarios.dfy` | `Scenarios` | a three-record store worked through every route |

Prices are integers in hundredths of the currency unit, so 329.85 is `32985`.
This keeps the bucket gaps exact: the range labelled `0-100` ends below
`10000`, and the next range starts at `10100`.

Points where the code behaves differently from what its labels and its
client suggest. The model follows the code in all but the last point:

- An unknown month name is not an error. `parseMonth` returns 0, which matches
  no record. The statistics are then 0/0/0, all ten buckets are 0 and the
  category list is empty.
- The price ranges do not cover every price. A price from 100 up to (not
  including) 101 lies in no range, and so does each such one-unit window up to
  900–901. The model keeps these gaps (`CoveredPrices`, `GapRecordIsNotCounted`).
  So the ten counts can add up to less than the month's record count.
- The listing applies no month filter. The client sends `month`, but the route
  never reads it (`ListingHasNoMonthFilter`).
- The search text is handed to a regular-expression constructor without
  escaping. The model treats it as a literal string (see "Left out").
- The listing, as written, cannot answer at all. Its `$or` also matches a
  regular expression against `price` (server.js:68), which the schema declares a
  `Number` (server.js:29). The connect options `useFindAndModify` and
  `useCreateIndex` (server.js:14-17) belong to Mongoose 5. That version's
  number caster cannot cast a `RegExp`, so it rejects the `find`. Every
  `/transactions` request, including the default empty search, then ends in the
  500 response of server.js:77-78. Even without the cast, `$regex` never matches
  a numeric field. The listing functions here model the listing the route is
  written to give, not this failure (see "Left out").

## Model

| member | source | states |
|---|---|---|
| `Records.IndexOf` | server.js:56 | the result is the first position of the element, or -1 exactly when it does not occur |
| `Records.ParseMonth` | server.js:54-57 | the result is in 0..12; it is 0 exactly when the name is not one of the twelve names; otherwise the name is at that position of the list |
| `Records.ParseMonthRoundTrip` | server.js:54-57 | each of the twelve names parses to its own month number (names are distinct) |
| `Records.ParseMonthIsCaseSensitive` | server.js:54-57 | a name starting with a lower-case letter, such as "march", gives 0 |
| `Records.InMonth` | server.js:89 | `$month` of the date of sale equals the month number; only a number in 1..12 can select a record. The properties of this comparison are carried by `MonthIgnoresYear` and `UnknownMonthSelectsNothing` |
| `Records.MonthRecords` | server.js:88-89 | the selected records are exactly the store's records whose date of sale has that month of year |
| `Records.UnknownMonthSelectsNothing` | server.js:85-89 | an unknown month name selects no record |
| `Records.MonthIgnoresYear` | server.js:89 | moving every record to another year selects the same records, re-dated |
| `Search.ContainsIff` | server.js:66-68 | the substring test holds exactly when the query occupies some window of the field |
| `Search.DecimalRoundTrip` | server.js:68 | the digits of the integer part of a price read back as that integer |
| `Search.PriceText` | server.js:68 | the text is a minus sign for a negative price, then the digits of the integer part, then, only when there are hundredths, a point and one or two decimal digits with no trailing zero (`UnsignedPriceText`); it reads back as the price |
| `Search.Matches` | server.js:64-70 | a record matches exactly when the lower-cased query occupies a window of the lower-cased title, OR of the description, OR of the price text; both sides are folded by `Lower`/`LowerChar`, which stand for the `i` flag and fold ASCII letters only |
| `Search.SearchResults` | server.js:64-70 | the results are exactly the records whose title, OR description, OR price text contains the query, ignoring case |
| `Search.EmptySearchMatchesAll` | server.js:61-70 | the default empty search keeps the whole store, in order |
| `Search.SearchIgnoresQueryCase` | server.js:66-68 | a query and its lower-case form match the same records |
| `Search.TitleOccurrenceMatches` | server.js:66 | a literal occurrence of the query in the title is found, also for the query in lower case |
| `Search.WholePriceMatches` | server.js:68 | a record is found by the integer part of its price, whatever its text fields say |
| `Search.PhoneMatchesLowerCaseQuery` | server.js:66 | the title "Phone" is found by the query "phone" |
| `Listing.Skip` | server.js:73 | `skip(n)` keeps the results from position n on, and nothing when n is past the end |
| `Listing.Limit` | server.js:74 | `limit(n)` keeps a prefix of min(n, length) results |
| `Listing.Page` | server.js:72-74 | a page holds min(perPage, results − offset) results, or none past the end; the i-th is result offset + i, with offset (page − 1) · perPage |
| `Listing.ListTransactions` | server.js:60-76 | the listing is that page of the matching records, in store order |
| `Listing.ListRoute` | server.js:61-74 | each absent parameter takes its own default: the result is the page `page` (default 1) of `per_page` (default 10) results of the search (default empty); without `per_page` it holds at most 10 records; without `page` it is a prefix of the matches; without `search` it is the page's slice of the whole store; with no parameters it is the first 10 records |
| `Listing.PageBounds` | server.js:72-74 | a page holds at most `perPage` results, and page 1 is a prefix of them |
| `Listing.ListingHasNoMonthFilter` | server.js:61-74 | without a search, a page is a slice of the whole store, with no month filter |
| `Listing.PageAsSlice` | server.js:72-74 | a page is the slice between its offset and offset + perPage, both capped at the end |
| `Listing.PagesTileResults` | server.js:72-74 | pages 1..n concatenated are exactly the first n · perPage results: no result is skipped or repeated |
| `Statistics.SumPricesConcat` | server.js:90 | the `$sum` of prices adds up over concatenation; `SumPrices` stands for `$sum: "$price"` |
| `Statistics.SoldTotalAggregate` | server.js:88-91 | the pipeline gives no group when no record of the month is sold, and otherwise the sum of the sold prices |
| `Statistics.TotalOrZero` | server.js:104 | a missing group gives 0; otherwise the group's total |
| `Statistics.GetStatistics` | server.js:83-107 | the total is the sum of sold prices of the month, and 0 when none is sold; the counts are the sold and unsold records of the month and add up to the month's record count |
| `Statistics.UnknownMonthStatistics` | server.js:85-107 | an unknown month gives 0, 0, 0 |
| `Statistics.StatisticsAdditive` | server.js:88-101 | the statistics of two stores put together are the sums of their statistics |
| `Statistics.TotalSaleAmountNonNegative` | server.js:88-91 | with no negative price, the total sale amount is not negative |
| `BarChart.PriceRanges` | server.js:118-129 | ten ranges; the first starts at 0; each of the first nine is bounded, non-empty and ends one unit below the start of the next; the last is unbounded |
| `BarChart.InRange` | server.js:135 | a price is in a range when it is at least `min` and below `max`; an unbounded `max` (`Infinity`) excludes no price. The properties of this comparison over the table are carried by `CoveredPrices` and `PriceRangesDisjoint` |
| `BarChart.RangesAscend` | server.js:118-129 | every range ends at or before the start of each later range |
| `BarChart.PriceRangesDisjoint` | server.js:118-129 | no price lies in two of the ten ranges |
| `BarChart.CoveredPrices` | server.js:118-129 | a price is in some range exactly when it is non-negative and outside the nine gaps [100k, 100k + 1) |
| `BarChart.Tally` | server.js:132-138 | one entry per range, in table order, with that range's label and count |
| `BarChart.GetBarChart` | server.js:114-140 | exactly ten entries; entry k has range k's label and the number of the month's records with min_k ≤ price < max_k |
| `BarChart.TallyTotal` | server.js:132-138 | over disjoint ranges, the counts add up to the number of records priced in some range |
| `BarChart.BarChartTotal` | server.js:132-138 | the ten counts add up to the month's records priced in some range, at most the month's record count |
| `BarChart.GapRecordIsNotCounted` | server.js:119-120 | a March record priced exactly 100 is counted in no range |
| `BarChart.UnknownMonthBarChart` | server.js:116-136 | an unknown month gives ten zero counts |
| `PieChart.Bump` | server.js:154 | adding one record adds 1 to its category's count and to the total, and changes no other count |
| `PieChart.BumpKeepsDistinct` | server.js:154 | adding a record never creates a second entry for a category |
| `PieChart.Group` | server.js:152-155 | distinct categories, positive counts, each count is that category's record count, and the counts add up to the number of records |
| `PieChart.GroupCategories` | server.js:152-155 | a category has an entry exactly when some record has it |
| `PieChart.GroupCounts` | server.js:154 | each entry's count is the number of records of its category |
| `PieChart.GroupCorrect` | server.js:152-157 | the grouping is complete and exact: every category of the records once, no other, with its positive count, and the counts add up to the number of records |
| `PieChart.GetPieChart` | server.js:147-157 | the same, for the records of the month named in the request |
| `PieChart.UnknownMonthPieChart` | server.js:149-155 | an unknown month gives an empty category list |
| `Scenarios.MarchIsThree` | server.js:55-56 | "March" is month 3 |
| `Scenarios.SampleMarchRecords` | server.js:89 | month 3 selects the two March records of different years, and not the April one |
| `Scenarios.SampleStatistics` | server.js:83-107 | for the sample store, March gives total 50, one sold item and one unsold item |
| `Scenarios.SampleBuckets` | server.js:133-136 | the March prices 50 and 150 fall in the first and second range only |
| `Scenarios.SampleBarChart` | server.js:114-140 | March gives count 1 for "0-100", 1 for "101-200" and 0 elsewhere |
| `Scenarios.SamplePieChart` | server.js:147-157 | March gives one record in each of categories A and B, and two in all |
| `Scenarios.SampleMarchGroups` | server.js:149-155 | the pie chart of March groups the two March records of the sample store |
| `Scenarios.GroupOfTwo` | server.js:154 | two records of categories A and B give one record for each and two in all |

## Left out

- `/initialize` (server.js:38-51) fetches remote JSON over HTTP and replaces the collection. This is network and database I/O. The store is a parameter of every route instead.
- The database connection, schema registration, HTTP routing, response serialisation and the 500 error responses (server.js:1-35, 186-188) are transport and persistence code.
- `/combined` (server.js:164-184) calls functions that the file never defines. It has no behaviour to model.
- The bar chart runs its ten counts concurrently with `Promise.all`. Only the order-preserving result is modelled.
- Regular-expression semantics. The search text goes into a pattern unescaped (server.js:66-68), so metacharacters and invalid patterns behave differently from the literal substring test modelled here.
- SearchResults: models the search the route is written to run, not the code as written. The `$or` of server.js:64-70 puts a `RegExp` on the `Number` path `price` (server.js:29). Mongoose 5, which the connect options of server.js:14-17 belong to, cannot cast a `RegExp` to a number and rejects the query, so the route answers 500 (server.js:77-78). The model instead matches the price's decimal text. `Matches`, `PriceText` and `WholePriceMatches` carry the same substitution.
- WholePriceMatches: states a match through the price text, which the query as written never reaches (see the `SearchResults` line).
- Case folding covers ASCII letters only. Case-insensitive matching of other scripts is not modelled.
- Floating-point prices, their summation and `Infinity`. Prices are whole hundredths and sums are exact. The last range is represented as unbounded.
- Prices with more than two decimals, and the text form of prices that a float would print differently (e.g. exponent notation).
- Missing or null fields (a missing date, category or sold flag). Every record carries all six fields.
- Time zones of the month extraction. A date's month is taken as stored.
- Query-string coercion (`parseInt`, string arithmetic) and absent or repeated parameters. An absent `month` behaves like any unknown name; pass any string that is not a month name.
- The order of the pie chart's entries, which the database does not specify. Contracts speak only of the entries' contents.
- ListTransactions: models the listing the route is written to give. As written, every request, including the default empty search, fails in the cast of the `price` clause and gets the 500 response of server.js:77-78 (see the `SearchResults` line). Also requires page >= 1 and perPage >= 1, which the source does not check. It does not model the database's response to a negative skip or to `limit(0)` (no limit).
- Page: requires page >= 1 and perPage >= 1, for the same reason.
- ListRoute: models the listing the route is written to give, not the 500 response that every request gets as written (see the `ListTransactions` line). Requires the given page and per_page to be at least 1, for the same reason as `ListTransactions`.
- The React client files (the table, bar chart and statistics views and the page counter) are display code.
