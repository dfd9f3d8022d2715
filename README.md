# Transaction aggregation backend, modelled in Dafny

This project models the core of an Express backend for a product-transaction
dashboard (`mern-backend/index.js`). The backend fetches a list of transaction
records and serves four views of it:

- `/barchart`: a histogram of one month's records over ten price buckets;
- `/statistics`: one month's sale amount and its sold and unsold counts;
- `/allTransactions`: a free-text search over the whole list, one page at a time;
- `/transactions`: a month filter, then an optional search, then one page.

The model takes the fetched list as a `seq<Transaction>`. Each route body is one
Dafny member that returns the JSON value or an error. The project also models
the helpers the routes use: `categorizePrice`, `monthToNumber`, `paginate`,
`toLowerCase`, `includes` and `Number.prototype.toString`.

Files and modules:

- `results.dfy`, module `Results`: `Option`, the route errors, and `Result`.
- `text.dfy`, module `Text`: ASCII `toLowerCase`, `includes`, and the decimal form of a number with its reading back.
- `prices.dfy`, module `Prices`: `categorizePrice` and the ten bucket labels.
- `months.dfy`, module `Months`: `monthToNumber`, the guard of the two month routes, and the lookup as written.
- `records.dfy`, module `Records`: the `Transaction` record. It also holds one `Filter`, driven by a `Criterion`, for every `filter` and every `if` test the routes apply.
- `paging.dfy`, module `Paging`: `slice`, `paginate`, the page count, and the `/transactions` slice end as written.
- `routes.dfy`, module `Routes`: the four route bodies.

The two `forEach` loops modify local state, so they are methods with loop
invariants: `CountPriceRanges` updates the `priceRanges` map in place, and
`MonthStatistics` keeps three accumulators. The filters, lookups and slices are
pure expressions in the source, so they are functions here.

The model follows the code in three places where its behaviour is easy to misread:

- The code initialises ten bucket labels, not eleven.
- `/transactions` with no `month` parameter calls `month.toLowerCase()` on `undefined`. That throws inside the `try`, so the route answers 500. It does not return an empty month-filtered set. The model returns `Err(InternalServerError)`. A month that is present but does not resolve gives an empty listing and no error.
- The two searches differ slightly. `/allTransactions` looks for the lower-cased search text in the price string. `/transactions` looks for the raw text. `SearchesAgree` proves that the two keep the same records when prices are whole numbers.

In two places the routes use the intended behaviour instead:

- `/barchart` and `/statistics` reject "constructor" and "__proto__" as invalid months, where the source answers 200 with zeros.
- `/transactions` ends its slice at `page * perPage`, as `paginate` does. The source joins `startIndex` and a query-string `perPage` as text.

"## Left out" and "## Findings" below record both.

## Model

| member | source | states |
|---|---|---|
| `Results.Status` | mern-backend/index.js:31-38 | a missing or invalid month answers 400; a failure inside the `try` answers 500 |
| `Results.Message` | mern-backend/index.js:32-37 | no contract; the `{ error }` text of each error, specified by `Results.MessagesIdentify` |
| `Results.MessagesIdentify` | mern-backend/index.js:32-37 | the three error texts are pairwise different, so the body tells the two 400 answers apart |
| `Text.LowerChar` | mern-backend/index.js:125 | the result is never an upper-case letter; an upper-case letter moves to its lower case, anything else is unchanged, and digits stay digits |
| `Text.ToLower` | mern-backend/index.js:125 | `toLowerCase` keeps the length; its characters are given by `Text.ToLowerAt` |
| `Text.Contains` | mern-backend/index.js:127 | no contract; `includes`, specified by `Text.ContainsOccurs` |
| `Text.DecimalValue` | mern-backend/index.js:193 | no contract; the numeric value of a digit string, specified by `Text.DecimalRoundTrip` and `Text.DecimalLeadingZero` |
| `Text.ToLowerAt` | mern-backend/index.js:125 | lower-casing maps every character to its lower case, in place, and keeps the length |
| `Text.ToLowerIdempotent` | mern-backend/index.js:165 | lower-casing an already lower-cased text changes nothing |
| `Text.ToLowerDigits` | mern-backend/index.js:129 | a digit string is its own lower case, and only digit strings lower-case to digit strings |
| `Text.ToLowerOfLower` | mern-backend/index.js:165 | a string without upper-case letters is its own lower case |
| `Text.ContainsOccurs` | mern-backend/index.js:127 | `includes` holds exactly when some window of the text equals the pattern |
| `Text.ContainsEmpty` | mern-backend/index.js:117 | every text includes the empty string, which is the default search |
| `Text.ContainsInDigits` | mern-backend/index.js:188 | in a price's digit string, the raw and the lower-cased search text are found alike |
| `Text.NatToString` | mern-backend/index.js:129 | `price.toString()` is a non-empty string of digits with no leading zero |
| `Text.DecimalRoundTrip` | mern-backend/index.js:129 | reading back the decimal form of a price gives the price |
| `Text.NatToStringInjective` | mern-backend/index.js:129 | different prices have different decimal forms |
| `Text.DecimalLeadingZero` | mern-backend/index.js:193 | a leading `0` in a numeric string does not change its value |
| `Prices.Categorize` | mern-backend/index.js:16-27 | the result is always one of the ten labels, namely the label of the arithmetically computed bucket |
| `Prices.BucketIndex` | mern-backend/index.js:16-27 | each price has a bucket index below ten whose interval (100i, 100(i+1)] holds it, open-ended at both extremes |
| `Prices.LabelsDistinct` | mern-backend/index.js:45-56 | the ten initialised labels are pairwise different |
| `Prices.RangesDisjoint` | mern-backend/index.js:17-26 | a price lies in the interval of exactly one bucket |
| `Prices.CategorizeExactly` | mern-backend/index.js:16-27 | `categorizePrice(p)` is label i if and only if p lies in bucket i's interval |
| `Prices.BoundaryGoesLow` | mern-backend/index.js:17-25 | 100, 200, ..., 900 fall in the lower of the two adjacent buckets |
| `Prices.AboveNineHundred` | mern-backend/index.js:26 | every price above 900 is "901-above" |
| `Months.TableMatchesNames` | mern-backend/index.js:151-164 | the `months` table maps exactly the twelve month names, the i-th to i |
| `Months.MonthToNumber` | mern-backend/index.js:150-166 | a resolved index is below 12 and names the lower-cased input; an unresolved input is none of the twelve names |
| `Months.MonthToNumberExactly` | mern-backend/index.js:150-166 | a name resolves to i if and only if its lower case is the i-th month name |
| `Months.MonthToNumberIgnoresCase` | mern-backend/index.js:165 | names equal up to case resolve alike |
| `Months.MonthNameResolves` | mern-backend/index.js:150-166 | every month name in any capitalisation resolves to its calendar index |
| `Months.MonthNamesDistinct` | mern-backend/index.js:151-164 | the twelve month names are pairwise different |
| `Months.MonthKeysShort` | mern-backend/index.js:151-164 | no key of the `months` table is longer than nine characters |
| `Months.MonthToNumberAsWritten` | mern-backend/index.js:165 | the object lookup finds an own entry exactly when the own-key lookup resolves; it finds the inherited member exactly when no month resolves and the lower-cased name is a member of `Object.prototype`; otherwise it is `undefined` |
| `Months.AsWrittenAgreesElsewhere` | mern-backend/index.js:165 | apart from "constructor" and "__proto__", the object lookup is `undefined` exactly when no month resolves |
| `Months.UpperWitness` | mern-backend/index.js:165 | the camel-case members of `Object.prototype` cannot be reached by a lower-cased key |
| `Months.RequiredMonthAsWritten` | mern-backend/index.js:31-38 | the guard as written answers "Month is required" exactly for a falsy month and "Invalid month value" exactly for an `undefined` lookup; a passing month carries what the object lookup found |
| `Months.ConstructorLookups` | mern-backend/index.js:165 | "constructor" is no month, yet the object lookup finds the inherited member |
| `Months.GuardsOnConstructor` | mern-backend/index.js:35-38 | the guard as written lets "constructor" through; the intended guard answers "Invalid month value" |
| `Months.ProtoLookups` | mern-backend/index.js:165 | "__proto__" is no month, yet the object lookup finds the inherited `Object.prototype` |
| `Months.GuardsOnProto` | mern-backend/index.js:35-38 | the guard as written lets "__proto__" through; the intended guard answers "Invalid month value" |
| `Months.LowerProto` | mern-backend/index.js:165 | "__proto__" lower-cases to itself |
| `Months.LowerConstructor` | mern-backend/index.js:165 | "constructor" lower-cases to itself |
| `Months.RequiredMonth` | mern-backend/index.js:31-38 | absent or empty month gives "Month is required"; an unresolved one gives "Invalid month value"; otherwise the month's index |
| `Records.MatchesAll` | mern-backend/index.js:124-131 | no contract; the `/allTransactions` test, specified by `Records.EmptySearchKeepsAll` and `Records.SearchesAgree` |
| `Records.MatchesInMonth` | mern-backend/index.js:182-189 | no contract; the `/transactions` test, specified by `Records.EmptySearchKeepsAll` and `Records.SearchesAgree` |
| `Records.Keeps` | mern-backend/index.js:58-64 | no contract; the test each `filter` or `if` applies, chosen by a `Criterion` |
| `Records.Filter` | mern-backend/index.js:176-179 | no contract; `Array.prototype.filter`, specified by `Records.FilterAtKeptIndices` and `Records.FilterSound` |
| `Records.SumPrices` | mern-backend/index.js:96 | no contract; the sum of the prices, specified by `Records.SumPricesSnoc` |
| `Records.KeptIndices` | mern-backend/index.js:124-131 | the kept positions are in range and strictly increasing, and a position is kept exactly when the criterion holds of its record |
| `Records.FilterAtKeptIndices` | mern-backend/index.js:124-131 | `filter` returns the records at the kept positions, in order: an order-preserving subsequence |
| `Records.FilterSound` | mern-backend/index.js:176-179 | a filtered list is no longer than its input, and every record in it comes from the input and passes the test |
| `Records.IncreasingBelow` | mern-backend/index.js:124-131 | strictly increasing positions below n number at most n |
| `Records.FilterSnoc` | mern-backend/index.js:58-64 | processing one more record appends it to the filtered list exactly when it passes |
| `Records.KeptIndicesSnoc` | mern-backend/index.js:124-131 | one more record adds its position exactly when it passes |
| `Records.FilterSameTest` | mern-backend/index.js:181-189 | two tests that agree on every record filter alike |
| `Records.FilterKeepsAll` | mern-backend/index.js:181-190 | a test that passes every record returns the list itself |
| `Records.FilterKeepsNone` | mern-backend/index.js:176-179 | a test that passes no record returns the empty list |
| `Records.SoldPartition` | mern-backend/index.js:95-100 | sold and unsold records are exclusive and together exhaustive |
| `Records.EmptySearchKeepsAll` | mern-backend/index.js:124-131 | the empty search keeps every record, in both routes |
| `Records.SearchesAgree` | mern-backend/index.js:181-189 | the `/transactions` search keeps the same records as the `/allTransactions` search |
| `Records.NoMonthKeepsNothing` | mern-backend/index.js:175-179 | with an unresolved month the month filter keeps nothing |
| `Records.SumPricesSnoc` | mern-backend/index.js:96 | one more record adds its price to the sum |
| `Paging.Slice` | mern-backend/index.js:13 | `slice(start, end)` has the clipped length, and its k-th element is the list's (start+k)-th |
| `Paging.Paginate` | mern-backend/index.js:12-14 | a page has at most `perPage` records, namely the records from position (page-1)*perPage on, clipped to the list |
| `Paging.PaginateEmpty` | mern-backend/index.js:12-14 | every page of an empty list is empty |
| `Paging.PaginateWithin` | mern-backend/index.js:12-14 | a page holds only records of the list |
| `Paging.TotalPages` | mern-backend/index.js:140 | `totalPages` is the least page count whose pages hold all `total` records, i.e. ceil(total/perPage) |
| `Paging.PagesArePrefix` | mern-backend/index.js:12-14 | pages 1..n together are the first n*perPage records |
| `Paging.PagesReassemble` | mern-backend/index.js:134-140 | pages 1..totalPages together are the whole list, with no record lost or repeated |
| `Paging.PagePastEnd` | mern-backend/index.js:12-14 | a page after `totalPages` is empty |
| `Paging.SliceEndAsWritten` | mern-backend/index.js:192-193 | no contract; the slice end as written, specified by `Paging.SliceEndAsWrittenOverruns` and `Paging.SliceEndAsWrittenAgrees` |
| `Paging.SliceEndAsWrittenOverruns` | mern-backend/index.js:192-193 | for page 2 of 5 records the slice ends at 55, so on a list of at least 55 records it holds 50 where `paginate` holds 5 |
| `Paging.SliceEndAsWrittenAgrees` | mern-backend/index.js:192-193 | the end as written is right on page 1 and when `perPage` is not given |
| `Routes.InMonth` | mern-backend/index.js:176-179 | no contract; the month filter, specified by `Records.FilterSound` and `Records.NoMonthKeepsNothing` |
| `Routes.BucketCount` | mern-backend/index.js:58-64 | no contract; the number of month records in one bucket, specified by `Routes.BucketCountSnoc` |
| `Routes.SearchMonth` | mern-backend/index.js:176-190 | no contract; the month filter then the search, specified by `Routes.MonthTransactionsOfMonth` and `Routes.MonthTransactionsNoSearch` |
| `Routes.OccursOnce` | mern-backend/index.js:45-56 | a label occurs once among distinct labels that contain it, and never otherwise |
| `Routes.RangeTotalSnoc` | mern-backend/index.js:61-62 | one more record adds one to the size of its own bucket |
| `Routes.RangeTotalEmpty` | mern-backend/index.js:45-56 | the buckets of no records are all empty |
| `Routes.BucketsPartition` | mern-backend/index.js:58-64 | the ten bucket sizes add up to the number of records |
| `Routes.CountTotalIsRangeTotal` | mern-backend/index.js:45-64 | counters equal to the bucket sizes have the same total |
| `Routes.BucketCountSnoc` | mern-backend/index.js:58-64 | a record of the month adds one to its own bucket's count; any other record adds nothing |
| `Routes.InitialCounts` | mern-backend/index.js:45-56 | the initial `priceRanges` literal has exactly the ten labels as keys, all at zero |
| `Routes.CountStep` | mern-backend/index.js:58-64 | `priceRanges[range] += 1` for a record of the month keeps every counter equal to its bucket's count |
| `Routes.CountsTotal` | mern-backend/index.js:58-64 | correct counters cover every label and add up to the month's record count |
| `Routes.CountPriceRanges` | mern-backend/index.js:45-64 | the histogram has exactly the ten label keys; each count is the number of month records in that bucket; the counts add up to the month's record count |
| `Routes.MonthStatistics` | mern-backend/index.js:88-102 | sale amount = sum of prices of sold month records; sold and unsold are counted separately and add up to the month's record count |
| `Routes.Barchart` | mern-backend/index.js:29-66 | missing month gives "Month is required", unknown month gives "Invalid month value", both with status 400; otherwise the histogram of the resolved month |
| `Routes.Statistics` | mern-backend/index.js:73-109 | the same two errors with status 400; otherwise the input month echoed as given, with the month's sale amount and sold/unsold counts |
| `Routes.AllTransactions` | mern-backend/index.js:116-142 | echoes page and perPage with their defaults; `total` is the number of records the search keeps, all of them for the empty search; totalPages is ceil(total/perPage); `data` is the requested `paginate` page of the search result, at most perPage matching records of the dataset |
| `Routes.AllTransactionsPagesReassemble` | mern-backend/index.js:124-141 | joining pages 1..totalPages gives exactly the search result, in dataset order |
| `Routes.AllPagesArePages` | mern-backend/index.js:134 | each page of the route is the `paginate` page of the search result |
| `Routes.MonthTransactions` | mern-backend/index.js:168-205 | a missing month answers 500 "Internal server error"; otherwise page and perPage are echoed with their defaults and at most perPage records are returned |
| `Routes.MonthTransactionsUnresolved` | mern-backend/index.js:175-179 | a month that does not resolve gives total 0 and no data, not an error |
| `Routes.MonthTransactionsNoSearch` | mern-backend/index.js:181-190 | without a search text every record of the month is counted |
| `Routes.MonthTransactionsOfMonth` | mern-backend/index.js:175-196 | every returned record is from the dataset and from the requested month |
| `Routes.MonthTransactionsIsSearchOfMonth` | mern-backend/index.js:175-199 | `total` counts the searched month set before pagination; `data` is its page |

## Left out

- The HTTP layer (`express`, `cors`, route wiring, `res.status/send/json`, `app.listen`): only the value each route returns and its error cases are modelled.
- The remote fetch (`axios.get`) and the 500 it maps a failed fetch to: the dataset is an input sequence, and a failed fetch is not modelled.
- Date parsing: `new Date(dateOfSale).getMonth()` is the `month` field of a record. An unparsable date (`NaN`) behaves like any integer outside 0..11, since it equals no month index.
- Prices are natural numbers. Floating-point prices, sums with rounding, and exponent forms of `toString` are not modelled.
- `toLowerCase` is modelled over ASCII letters only.
- Query-string coercion is not modelled. `page` and `perPage` are positive whole numbers, and the `/transactions` response shows them as numbers, not as the strings received. A page of 0 or below, a `perPage` of 0, and `Number` of a non-numeric text are out of scope. A repeated query parameter, which arrives as an array, is also out of scope.
- The records' other fields (`id`, `category`, `image`) are passed through untouched and are not modelled.
- `Routes.Barchart`: the histogram is a map, so the insertion order of the JSON object's keys is not modelled.
- `Routes.Barchart`: it uses the intended guard `Months.RequiredMonth`, which answers 400 "Invalid month value" for "constructor" and "__proto__" in any case. The source passes those names, because the lookup finds inherited members, and answers 200 with all ten counts 0. `Months.RequiredMonthAsWritten` models the source's guard; the first finding below records the difference.
- `Routes.Statistics`: it uses the intended guard `Months.RequiredMonth`, as `Routes.Barchart` does. For "constructor" and "__proto__" the source answers 200 with a sale amount and both counts 0, not 400.
- `Routes.MonthTransactions`: it uses the intended slice end `page * perPage`, not the string concatenation of the source. The finding below records the concatenation.
- The React front end (`App.js`, `BarChart.js`, `StatisticsGUI.js`) is presentation code and is not part of this model.

## Findings

| source | as written | input that shows it | evidently intended | confidence | as-written member | corrected member |
|---|---|---|---|---|---|---|
| mern-backend/index.js:165 | `months[month.toLowerCase()]` on an object literal also finds members inherited from `Object.prototype`, so the `=== undefined` guard at lines 36 and 80 lets them through | `/barchart?month=constructor` (or `__proto__`) answers 200 with all ten counts 0; `/statistics` answers 200 with zeros | 400 "Invalid month value" for every name that is not a month | high; not executed | `Months.GuardsOnConstructor`, `Months.GuardsOnProto` | `Months.RequiredMonth` |
| mern-backend/index.js:192-193 | `startIndex + perPage` concatenates when `perPage` comes from the query as a string, and `slice` reads the joined text as the end | `/transactions?month=March&page=2&perPage=5`: the slice is `[5, 55)`, up to 50 records instead of 5 | the slice `[(page-1)*perPage, page*perPage)`, as `paginate` computes it | high; not executed | `Paging.SliceEndAsWrittenOverruns` | `Paging.Paginate` |
