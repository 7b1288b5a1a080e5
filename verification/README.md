# Sales analytics pipeline — Dafny model

This project models the in-memory core of a small sales-analytics program:

- **File handling** (`utils/file_handler.py`):
  - turning raw lines into pipe-delimited transaction records;
  - validating the records;
  - filtering them by region and by amount.
- **Aggregation engine** (`utils/data_processor.py`):
  - total revenue, the peak sales day and the daily trend;
  - per-region, per-product and per-customer rollups;
  - the line-by-line text of the sales report.
- **Enrichment** (`utils/api_handler.py`):
  - building the product-ID mapping;
  - extracting a numeric product ID from a `ProductID`;
  - merging the API fields into each record;
  - the rows the two enriched-file writers produce.

How the model is built:

- Python dictionaries used as accumulators become association lists in first-seen order (`Grouping.Rollup`). That keeps `max`'s first-maximum rule and the stability of `sorted`/`list.sort` with `reverse=True` stateable.
- Amounts are exact `real`s and quantities are `int`s.
- The program's loops are `method`s proved equal to specification functions. The properties the program promises are lemmas about those functions.
- The float parser, the float/currency formatters and the report timestamp are parameters.

Modules, one per file:

| file | module | what it holds |
|---|---|---|
| `wrappers.dfy` | `Wrappers` | `Option` and `Result` |
| `text.dfy` | `Text` | the `str` builtins the source relies on: `strip`, `split('\|')`, `'\|'.join`, `replace`, `int()`, `str(int)`, padding |
| `collections.dfy` | `Collections` | string order, `sorted` of strings, `set`, `min`/`max`, a stable key sort, slicing `[:n]`, sums |
| `records.dfy` | `Records` | the transaction record, the optional API fields and the grouping keys |
| `grouping.dfy` | `Grouping` | the dictionary accumulator shared by every aggregator |
| `file_handler.dfy` | `FileHandler` | the line step, parsing, validation and filters |
| `data_processor.dfy` | `DataProcessor` | the aggregators |
| `report.dfy` | `Report` | `generate_sales_report` |
| `api_handler.dfy` | `ApiHandler` | mapping, ID extraction, enrichment and the file rows |

Peak-day ties are not broken by the smallest date. `find_peak_sales_day` keeps the first date seen with the largest revenue, because `max` over the dictionary's items keeps its first candidate. The model follows the code (`DataProcessor.PeakIsFirstMaximum`), and a tie-break by date is not modelled.

## Model

| member | source | states |
|---|---|---|
| Text.LStrip | utils/file_handler.py:30 | the result is no longer than the input, starts with a non-space, and every character dropped from the front is whitespace |
| Text.RStrip | utils/file_handler.py:30 | the result is no longer than the input, ends with a non-space, and every character dropped from the end is whitespace |
| Text.LStripSuffix | utils/file_handler.py:30 | the left-stripped string is a suffix of the input |
| Text.RStripPrefix | utils/file_handler.py:30 | the right-stripped string is a prefix of the input |
| Text.Strip | utils/file_handler.py:89 | `strip()` is never longer than its input and is empty exactly when every character is whitespace, which is the blank-line test |
| Text.StripIdempotent | utils/file_handler.py:100-107 | a stripped field has no whitespace at either end, and stripping it again changes nothing |
| Text.StripKeepsNonSpace | utils/file_handler.py:89 | a line with any non-space character is not blank after stripping |
| Text.RemoveChar | utils/file_handler.py:110 | `replace(c, '')` leaves no `c`, keeps every other character, and changes nothing when `c` is absent |
| Text.RemoveCharCounts | utils/file_handler.py:110 | as a multiset, the result of `replace(c, '')` is the input with every `c` taken out and every other character kept as often as it occurred |
| Text.RemoveCharAppend | utils/file_handler.py:110 | `replace(c, '')` works piece by piece: on a concatenation it is the concatenation of the two results |
| Text.Split | utils/file_handler.py:93 | `split('\|')` always yields at least one field |
| Text.SplitPiecesFree | utils/file_handler.py:93 | no field of a split contains the separator |
| Text.JoinSplit | utils/file_handler.py:93 | joining the fields of a split with the separator gives back the line |
| Text.SplitJoin | utils/api_handler.py:217-230 | splitting the join of separator-free fields gives back exactly those fields |
| Text.SplitExtend | utils/file_handler.py:93 | appending separator-free text to a line extends its last field only |
| Text.SplitAfterSep | utils/file_handler.py:93 | a separator followed by separator-free text adds exactly one field |
| Text.SplitFree | utils/file_handler.py:93 | a line without the separator splits into itself |
| Text.JoinConcat | utils/api_handler.py:217-230 | joining two non-empty field lists end to end is joining each and putting one separator between |
| Text.Repeat | utils/data_processor.py:559 | `c * n` has length `n` and every character is `c` |
| Text.LeftAlign | utils/data_processor.py:578 | `f"{s:<w}"` starts with `s`, is padded with spaces on the right, and has length `max(w, len(s))` |
| Text.RightAlign | utils/data_processor.py:584 | `f"{s:>w}"` ends with `s`, is padded with spaces on the left, and has length `max(w, len(s))` |
| Text.NatToString | utils/api_handler.py:222 | `str(n)` of a natural is a non-empty digit run with no leading zero |
| Text.DigitsValueOfNat | utils/api_handler.py:177 | reading back the digits of `str(n)` gives `n` |
| Text.ParseDigitRun | utils/file_handler.py:116 | `int()` of an unsigned digit run without underscores is its decimal value |
| Text.ParseNegativeRun | utils/file_handler.py:116 | `int()` of `-` followed by a digit run of value `v` is `-v` |
| Text.ParseIntNeedsDigit | utils/file_handler.py:116 | `int()` of text holding no digit at all fails, the `ValueError` path |
| Text.IntToString | utils/api_handler.py:222 | `str(n)` is non-empty, starts with `-` exactly when `n` is negative, and is otherwise all digits |
| Text.ParseIntToString | utils/file_handler.py:115-116 | `int(str(n)) == n` for every integer |
| Text.IntToStringClean | utils/api_handler.py:222 | `str(n)` is unchanged by stripping and holds only digits and `-` |
| Collections.StrLessIrreflexive | utils/data_processor.py:122 | no string sorts before itself |
| Collections.StrLessTransitive | utils/data_processor.py:122 | the string order `sorted` uses is transitive |
| Collections.StrLessTotal | utils/data_processor.py:122 | any two different strings are ordered one way or the other |
| Collections.SortStrings | utils/data_processor.py:549 | `sorted()` of strings is a permutation of its input |
| Collections.InsertStringAscending | utils/data_processor.py:122 | inserting a new string into a strictly ascending list keeps it strictly ascending |
| Collections.SortStringsAscending | utils/data_processor.py:122 | `sorted()` of distinct strings is strictly ascending and holds exactly the same strings |
| Collections.Dedup | utils/data_processor.py:549 | `set()` keeps each element once and nothing else |
| Collections.MinString | utils/data_processor.py:505 | `min(dates)` is one of the dates and no date is smaller |
| Collections.MaxString | utils/data_processor.py:506 | `max(dates)` is one of the dates and no date is larger |
| Collections.InsertBy | utils/data_processor.py:293 | one insertion step of the stable sort adds exactly the new element |
| Collections.SortBy | utils/data_processor.py:293 | the key sort is a permutation of its input |
| Collections.SortByMembers | utils/data_processor.py:293 | the key sort holds exactly the elements of its input |
| Collections.SortBySorted | utils/data_processor.py:230-236 | the result is ordered by the key, largest first with `reverse=True`, smallest first otherwise |
| Collections.InsertByStable | utils/data_processor.py:353 | among the elements with any one key, the inserted element comes first and the others keep their order |
| Collections.SortByStable | utils/data_processor.py:230-236 | for every key value, the elements with that key appear in their input order (stability, also with `reverse=True`) |
| Collections.SumAppend | utils/data_processor.py:10-16 | a running sum grows by the new element's value |
| Collections.SumSortBy | utils/data_processor.py:230-236 | sorting does not change a sum over the list |
| Collections.Prefix | utils/data_processor.py:296 | `s[:n]` has `min(n, len(s))` elements (Python's rule for negative `n` included) and is a prefix of `s` |
| Collections.TopOfSorted | utils/data_processor.py:293-296 | the first `n` of a key sort are sorted, come from the input, and no element left out strictly precedes one taken |
| Grouping.FindGroup | utils/data_processor.py:43 | `key in stats`: the index found holds the key, and no earlier entry does; it is the length when the key is absent |
| Grouping.Keys | utils/data_processor.py:31-51 | the dictionary never has more keys than there are transactions |
| Grouping.Rollup | utils/data_processor.py:31-51 | one entry per key, in first-seen key order, each counting at least one transaction |
| Grouping.KeysDistinct | utils/data_processor.py:31-51 | the dictionary's keys are distinct and never empty |
| Grouping.KeysExactly | utils/data_processor.py:31-51 | a key is present exactly when it is the non-empty trimmed field of some transaction |
| Grouping.KeysSnoc | utils/data_processor.py:43-47 | a transaction adds its key at the end exactly when the key is new and non-empty |
| Grouping.GroupSnoc | utils/data_processor.py:50-51 | a transaction adds its amount and one count to its own key's entry and leaves the other entries alone |
| Grouping.SelectSnoc | utils/data_processor.py:50-51 | a transaction joins its own key's selection only |
| Grouping.TotalsSnoc | utils/data_processor.py:10-16 | the running totals grow by the transaction's amount, the keyed total only when its key is non-empty |
| Grouping.KeysCounted | utils/data_processor.py:111 | every key present counts at least one transaction |
| Grouping.CustomersAtMostCount | utils/data_processor.py:114-118 | a date's distinct customers are never more than its transactions |
| Grouping.GroupIsSelection | utils/data_processor.py:110-111 | an entry's revenue and count are the total and the number of the transactions with that key |
| Grouping.SelectExactly | utils/data_processor.py:92-97 | the transactions counted under a key are exactly those whose trimmed field equals it |
| Grouping.RollupStep | utils/data_processor.py:151-171 | one loop iteration turns the dictionary of a prefix into the dictionary of the next prefix |
| Grouping.RollupNewKey | utils/data_processor.py:163-167 | a new non-empty key gets a fresh entry at the end, holding the one transaction |
| Grouping.RollupKnownKey | utils/data_processor.py:170-171 | a known key's entry is updated in place and the order of keys is kept |
| Grouping.RollupSkip | utils/data_processor.py:155-156 | a transaction with an empty key changes nothing |
| Grouping.Accumulate | utils/data_processor.py:194-219 | the accumulator loop builds exactly the first-seen-order dictionary and the total of the keyed transactions |
| Grouping.AccumulateStep | utils/data_processor.py:198-219 | one iteration of the loop, for the dictionary and for the running total |
| Grouping.FindListedKey | utils/data_processor.py:43 | looking up a present key finds its entry |
| Grouping.SumUpdate | utils/data_processor.py:217 | updating one entry changes the sum of entries by the difference |
| Grouping.RollupSum | utils/data_processor.py:194-219 | the entries' revenues add up to the revenue of the transactions with a non-empty key |
| Grouping.SumAddTransaction | utils/data_processor.py:217-218 | one transaction adds its amount to the sum of entries exactly when its key is non-empty |
| Grouping.TotalIsSum | utils/data_processor.py:8-18 | the total revenue is the sum of `Quantity * UnitPrice` over all transactions |
| Grouping.NoKeys | utils/data_processor.py:54-55 | the dictionary is empty exactly when every key is empty |
| Grouping.KeyedTotalIsTotal | utils/data_processor.py:198-219 | when no key is empty, the keyed total is the total revenue |
| DataProcessor.CalculateTotalRevenue | utils/data_processor.py:1-18 | the loop returns the sum of the amounts, 0.0 for no transactions |
| DataProcessor.MaxIndex | utils/data_processor.py:57-60 | `max(..., key=revenue)`: no entry has more revenue, and every earlier entry has strictly less |
| DataProcessor.MaxIndexStep | utils/data_processor.py:57-60 | scanning one more entry replaces the candidate only by a strictly larger one |
| DataProcessor.FindPeakSalesDay | utils/data_processor.py:21-63 | the function returns the peak of the date dictionary, or the no-sales result |
| DataProcessor.PeakOf | utils/data_processor.py:21-63 | there is no peak exactly when no date is present; a peak is one of the dates and counts at least one transaction |
| DataProcessor.PeakNone | utils/data_processor.py:54-55 | there is no peak day exactly when no transaction has a non-blank date |
| DataProcessor.PeakIsFirstMaximum | utils/data_processor.py:28-63 | the peak is a date of the input with its own revenue and count ≥ 1; no date has more revenue; every date seen before it has strictly less |
| DataProcessor.DailySalesTrend | utils/data_processor.py:66-130 | the function returns one entry per date, in sorted date order, with that date's revenue, count and distinct customers |
| DataProcessor.DailyTrend | utils/data_processor.py:66-130 | one entry per distinct date |
| DataProcessor.TrendRows | utils/data_processor.py:121-128 | the second loop turns each sorted date into that date's entry |
| DataProcessor.DailyTrendDates | utils/data_processor.py:122 | the trend's dates are strictly ascending and are exactly the distinct non-blank dates |
| DataProcessor.DailyTrendCounts | utils/data_processor.py:89-130 | each day's revenue and count are those of its transactions; the count is ≥ 1; distinct customers ≤ count |
| DataProcessor.RegionWiseSalesAnalysis | utils/data_processor.py:133-173 | the function returns the unsorted region dictionary in first-seen order |
| DataProcessor.RegionWiseSales | utils/data_processor.py:176-238 | the two passes and the sort return the region entries with percentages, sorted by sales |
| DataProcessor.RegionSales | utils/data_processor.py:176-238 | one entry per distinct region |
| DataProcessor.SharesSums | utils/data_processor.py:221-227 | the second pass keeps the sales and makes the percentages add up to the sales over the total, times 100 |
| DataProcessor.RegionSalesOrdered | utils/data_processor.py:229-236 | the regions are in non-increasing sales order, a permutation of the entries, with equal sales in first-seen order |
| DataProcessor.RegionSalesSum | utils/data_processor.py:194-219 | the regions' sales add up to the revenue of the transactions with a non-empty region |
| DataProcessor.RegionPercentagesSum | utils/data_processor.py:221-225 | the unrounded percentages add up to 100 when the total is positive |
| DataProcessor.PercentagesOfWhole | utils/data_processor.py:221-236 | shares of a positive whole, sorted, still add up to 100 |
| DataProcessor.RegionPercentagesZero | utils/data_processor.py:226-227 | every percentage is 0.0 when the total is not positive |
| DataProcessor.TotalInSales | utils/data_processor.py:149-173 | each unsorted entry appears among the sorted ones with the same sales and count |
| DataProcessor.SalesInTotals | utils/data_processor.py:194-238 | each sorted entry, without its percentage, is an unsorted entry |
| DataProcessor.RegionAnalysisAgrees | utils/data_processor.py:133-238 | both region functions have the same regions, totals and counts; the first keeps first-seen order |
| DataProcessor.ProductListExactly | utils/data_processor.py:287-290 | a tuple is in the product list exactly when it names a product with that product's total quantity and revenue |
| DataProcessor.TopSellingProducts | utils/data_processor.py:241-296 | the function returns the first `n` of the stably sorted product list |
| DataProcessor.TopProducts | utils/data_processor.py:241-296 | no more than `n` entries and no more than there are products |
| DataProcessor.TopProductsProperties | utils/data_processor.py:261-296 | `min(n, products)` entries in non-increasing quantity, all from the product list; none left out sold more than one shown |
| DataProcessor.Below | utils/data_processor.py:346-350 | the comprehension keeps exactly the products below the threshold |
| DataProcessor.LowPerformingProducts | utils/data_processor.py:299-355 | the function returns the products below the threshold, sorted by quantity |
| DataProcessor.LowProducts | utils/data_processor.py:299-355 | no more entries than products, and every entry sold fewer than the threshold |
| DataProcessor.LowProductsProperties | utils/data_processor.py:320-355 | exactly the products below the threshold, in non-decreasing quantity, with equal quantities in first-seen order |
| DataProcessor.CustomerAnalysis | utils/data_processor.py:358-420 | the function returns one entry per customer in first-seen order, with totals and average |
| DataProcessor.CustomerStats | utils/data_processor.py:358-420 | one entry per customer, each counting at least one transaction |
| DataProcessor.Average | utils/data_processor.py:411-418 | the average times the count gives the total; 0.0 when the count is zero |
| DataProcessor.CustomerStatsKeys | utils/data_processor.py:389-409 | the customers listed are exactly the non-blank trimmed customer IDs |
| DataProcessor.CustomerStatsTotals | utils/data_processor.py:389-418 | each entry's total and count are those of its own transactions; the count is ≥ 1; the average is total over count |
| DataProcessor.CustomerEntry | utils/data_processor.py:401-418 | the entry for a present customer holds that customer's total, count and average |
| FileHandler.DataLines | utils/file_handler.py:28-34 | the loop keeps, in order, the stripped non-blank lines after the header |
| FileHandler.NonBlankLines | utils/file_handler.py:28-34 | the kept lines are no more than the lines given, and none is empty |
| FileHandler.NonBlankLinesClean | utils/file_handler.py:28-34 | every kept line is already stripped |
| FileHandler.NonBlankLinesAppend | utils/file_handler.py:28-34 | the line step works line by line, so it distributes over concatenation |
| FileHandler.ParseTransactions | utils/file_handler.py:85-143 | the loop returns the parse of every line that is not skipped, in order |
| FileHandler.ParseLine | utils/file_handler.py:88-141 | a blank line gives no record, and a record only comes from a line with exactly eight `\|` fields |
| FileHandler.ParseFields | utils/file_handler.py:96-138 | eight fields give a record exactly when the quantity and price fields, commas removed and stripped, both parse; the record holds those two parses |
| FileHandler.ParseAll | utils/file_handler.py:88-143 | parsing yields no more records than lines, and one per line when every line parses |
| FileHandler.ParseAllAppend | utils/file_handler.py:88-143 | parsing works line by line, so it distributes over concatenation and keeps the order of the lines |
| FileHandler.ParseLineFields | utils/file_handler.py:93-116 | a parsed record comes from exactly eight fields; its IDs, date and region are stripped; its name has no comma; its quantity is `int()` and its price the parsed `float()` of the field without commas |
| FileHandler.ParseAllClean | utils/file_handler.py:100-110 | every parsed record has stripped IDs and a comma-free product name |
| FileHandler.LineFields | utils/file_handler.py:93-107 | the eight fields of an input line in column order: IDs, date, name, `str(quantity)`, the price text, customer and region |
| FileHandler.FormatLineFields | utils/file_handler.py:89-97 | a record written as an input line is not blank and splits back into its eight fields |
| FileHandler.ParseFormatLine | utils/file_handler.py:88-141 | parsing inverts the input format: a clean record written as a line parses back to itself |
| FileHandler.ParseFieldsOfRecord | utils/file_handler.py:100-138 | the eight fields of a clean record parse back to it |
| FileHandler.ValidExactly | utils/file_handler.py:189-229 | the validation rules reduce to non-empty date, name and region, the `T`/`P`/`C` prefixes after stripping, and positive quantity and price |
| FileHandler.ValidateAndFilter | utils/file_handler.py:146-288 | the result is the valid records filtered by region and amount, and the summary's counts add up to the input size |
| FileHandler.ValidateRecords | utils/file_handler.py:193-234 | the valid records are kept in order, and invalid + valid = input, each record counted once |
| FileHandler.FilterByAmount | utils/file_handler.py:262-274 | the loop keeps the records within the optional inclusive bounds |
| FileHandler.Validated | utils/file_handler.py:193-234 | validation never adds records |
| FileHandler.InRegion | utils/file_handler.py:256 | the region filter never adds records |
| FileHandler.InAmount | utils/file_handler.py:262-274 | the amount filter never adds records |
| FileHandler.InAmountNoBounds | utils/file_handler.py:262 | without bounds the amount filter is skipped, so nothing changes |
| FileHandler.ValidatedExactly | utils/file_handler.py:193-234 | a record survives validation exactly when it is an input record that passes every rule |
| FileHandler.InRegionExactly | utils/file_handler.py:256 | the region filter keeps exactly the records whose stripped region equals the stripped argument |
| FileHandler.InAmountExactly | utils/file_handler.py:265-271 | the amount filter keeps exactly the records with `min <= Quantity * UnitPrice <= max`, each bound optional |
| ApiHandler.MappingKeys | utils/api_handler.py:106-118 | the mapping's keys are exactly the IDs some product carries; products without an ID are skipped |
| ApiHandler.MappingLastWins | utils/api_handler.py:108-116 | an ID maps to the fields of the last product carrying it |
| ApiHandler.CreateProductMapping | utils/api_handler.py:81-118 | a list or a dict with `products` gives the mapping; anything else is the `ValueError` |
| ApiHandler.FirstMatch | utils/api_handler.py:175 | `re.search`: the leftmost position where `P` or `p` is followed by a digit, or none when there is no such position |
| ApiHandler.DigitPrefix | utils/api_handler.py:175-177 | `\d+` takes the longest run of digits |
| ApiHandler.ExtractId | utils/api_handler.py:168-179 | there is no numeric ID exactly when the pattern matches nowhere |
| ApiHandler.DigitPrefixOf | utils/api_handler.py:175 | a digit run followed by a non-digit is taken whole |
| ApiHandler.ExtractIdOfDigits | utils/api_handler.py:168-179 | text without a match, then `P`/`p`, then digits, then a non-digit gives the value of those digits |
| ApiHandler.ExtractIdOfCode | utils/api_handler.py:168-179 | an ID written as `P<n>` after match-free text reads back as `n` |
| ApiHandler.ExtractIdExamples | utils/api_handler.py:149 | `P101` gives 101, `p5` gives 5, `P` gives none |
| ApiHandler.Enrich | utils/api_handler.py:164-193 | the original fields are kept; the record matches exactly when the ID is in the mapping; then the three fields are copied from it, otherwise they are `None` and the match is `False` |
| ApiHandler.EnrichAll | utils/api_handler.py:162-195 | the same length and order as the input, each record enriched on its own |
| ApiHandler.EnrichIdempotent | utils/api_handler.py:166-193 | enriching an enriched list again with the same mapping changes nothing |
| ApiHandler.EnrichMonotone | utils/api_handler.py:182-187 | a match stays the same match under a larger mapping that agrees with the smaller one |
| ApiHandler.EnrichWithoutIds | utils/api_handler.py:108-110 | products without IDs give a mapping under which nothing matches |
| ApiHandler.ColumnNamesPipeFree | utils/api_handler.py:204 | no column name contains the delimiter |
| ApiHandler.HeaderColumns | utils/api_handler.py:204 | the header is one line whose fields are the twelve column names |
| ApiHandler.ApiColumns | utils/api_handler.py:212-229 | four API columns; `None` renders empty; `API_Match` renders `True`/`False`, defaulting to `False` |
| ApiHandler.EnrichColumns | utils/api_handler.py:217-230 | twelve columns: the record's input-line fields in column order, then the four API columns |
| ApiHandler.SaveColumns | utils/api_handler.py:273-296 | twelve columns; the quantity column is empty exactly when the quantity is 0, the price column is empty when the price is 0.0, and every other column is the one `enrich_sales_data` writes |
| ApiHandler.EnrichedFile | utils/api_handler.py:204-231 | the header, then one row per record, in order |
| ApiHandler.SavedFile | utils/api_handler.py:259-296 | the header, then one row per record, in order |
| ApiHandler.EnrichSalesData | utils/api_handler.py:121-233 | the function returns the enriched list, and its file is the header and one row per enriched record |
| ApiHandler.WrittenFileStart | utils/api_handler.py:208 | the first write is the header |
| ApiHandler.WrittenFileStep | utils/api_handler.py:210-231 | each loop iteration appends the next record's row |
| ApiHandler.WriteRows | utils/api_handler.py:207-231 | the write loop writes the header and then one row per record |
| ApiHandler.SaveEnrichedData | utils/api_handler.py:236-296 | the saved file is the header and one row per record, falsy original fields blank |
| ApiHandler.RowColumns | utils/api_handler.py:217-230 | a row ends in a newline and splits back into its twelve columns when none holds `\|` |
| ApiHandler.EnrichRowExtendsInputLine | utils/api_handler.py:217-230 | an enriched row is the input-format line of the record followed by the four API columns |
| ApiHandler.WritersAgree | utils/api_handler.py:273-280 | the two writers give the same row when quantity and price are non-zero |
| ApiHandler.FilesAgree | utils/api_handler.py:273-296 | the two writers give the same file when no record has a zero quantity or price |
| ApiHandler.WritersDifferOnZeroQuantity | utils/api_handler.py:277 | a zero quantity is written as `0` by one writer and blank by the other, so the rows differ |
| Report.DatesExactly | utils/data_processor.py:504 | a date is listed exactly when it is the non-empty date of some transaction |
| Report.DateRangeBounds | utils/data_processor.py:504-506 | the first and last dates are dates present, and every date present lies between them in string order; both are `N/A` when there are none |
| Report.RegionAverageValues | utils/data_processor.py:533-538 | the loop gives each region its sales over its count, 0.0 without transactions |
| Report.RegionAveragesOrdered | utils/data_processor.py:647 | one row per region; a permutation of the averages, in non-increasing order, with ties in `region_stats` order |
| Report.AverageOrderValue | utils/data_processor.py:499-501 | the average order value is total revenue over the count, 0.0 for no transactions |
| Report.TopCustomersProperties | utils/data_processor.py:515-521 | at most five customers (fewer only when there are fewer), in non-increasing spending, all from the analysis; none left out spent more than one listed |
| Report.EnrichedCount | utils/data_processor.py:541 | the matched count never exceeds the number of records |
| Report.EnrichedCountExtremes | utils/data_processor.py:541 | the count is the number of records exactly when all matched, and 0 exactly when none did |
| Report.SuccessRateBounds | utils/data_processor.py:541-543 | the success rate is between 0 and 100; it is 100 exactly when there are records and all matched, and 0 exactly when none matched |
| Report.PercentBounds | utils/data_processor.py:543 | a part over a positive whole, times 100, lies in [0, 100] and hits either end exactly at the ends |
| Report.UnenrichedNamesExactly | utils/data_processor.py:544-548 | a name is listed exactly when some unmatched record carries it |
| Report.UnenrichedNamesCount | utils/data_processor.py:544-548 | one name per unmatched record |
| Report.UnenrichedProperties | utils/data_processor.py:544-549 | distinct names in strictly ascending order, exactly those of unmatched records, empty exactly when all matched |
| Report.GatherReportData | utils/data_processor.py:499-549 | the first half of the report computes exactly the figures of the aggregators on its inputs |
| Report.Short | utils/data_processor.py:593 | a name longer than 24 characters becomes its first 24; a shorter one is left alone |
| Report.MoreLine | utils/data_processor.py:616-617 | an overflow line appears exactly when the list is longer than its limit |
| Report.RegionRows | utils/data_processor.py:580-584 | one row per region; row `i` is the row of region `i` |
| Report.Ranked | utils/data_processor.py:592 | `enumerate(..., 1)`: one row per entry |
| Report.RankedAt | utils/data_processor.py:592 | the entry at position `i` is shown with rank `i + 1` |
| Report.ProductRows | utils/data_processor.py:592-594 | one row per product shown |
| Report.CustomerRows | utils/data_processor.py:602-603 | one row per customer shown |
| Report.DayRows | utils/data_processor.py:611-615 | one row per day shown; row `i` is the row of day `i` |
| Report.LowRows | utils/data_processor.py:635-637 | one row per low product shown; row `i` is the row of product `i` |
| Report.AvgRows | utils/data_processor.py:647-648 | one row per region average; row `i` is the row of average `i` |
| Report.BulletRows | utils/data_processor.py:661-662 | one bullet per unenriched name shown; bullet `i` is `  - ` and name `i` |
| Report.FormatRegionRows | utils/data_processor.py:580-584 | the loop appends the region rows in order |
| Report.FormatProductRows | utils/data_processor.py:592-594 | the loop appends the ranked product rows in order |
| Report.FormatCustomerRows | utils/data_processor.py:602-603 | the loop appends the ranked customer rows in order |
| Report.FormatDayRows | utils/data_processor.py:611-615 | the loop appends the day rows in order |
| Report.FormatLowRows | utils/data_processor.py:635-637 | the loop appends the low-product rows in order |
| Report.FormatAvgRows | utils/data_processor.py:647-648 | the loop appends the average rows in order |
| Report.FormatBulletRows | utils/data_processor.py:661-662 | the loop appends the bullets in order |
| Report.RenderReport | utils/data_processor.py:556-667 | appending section by section produces exactly the report's lines for the gathered figures |
| Report.GenerateSalesReport | utils/data_processor.py:423-673 | the report's lines are those of the report on its inputs, and the file text is the lines joined by newlines |
| Report.TrendShownDays | utils/data_processor.py:611 | at most ten days are shown, the first ten, in strictly ascending date order |
| Report.TrendLinesShape | utils/data_processor.py:606-618 | the trend section has a title, rules and headings, then exactly the rows of the first ten days, then `... and N more days` with `N = days - 10` exactly when there are more than ten, then a blank line |
| Report.TrendMoreLine | utils/data_processor.py:616-617 | the overflow line under the trend table reads `... and N more days` |
| Report.PeakLines | utils/data_processor.py:623-629 | three lines for a peak day, one line otherwise |
| Report.PeakLinesShape | utils/data_processor.py:623-629 | the peak-day lines say `N/A` exactly when no transaction has a date |
| Report.LowLinesShape | utils/data_processor.py:631-641 | the `None` line appears exactly when there are no low performers; otherwise a title, the headings, a rule, at most ten rows, and `... and N more products` with `N = count - 10` exactly when there are more than ten |
| Report.LowMoreLine | utils/data_processor.py:638-639 | the overflow line under the low performers reads `... and N more products` |
| Report.UnenrichedLinesShape | utils/data_processor.py:659-666 | the all-enriched line appears exactly when every record matched; otherwise a heading, at most 20 names, and an overflow line past 20 |
| Report.ProductRanks | utils/data_processor.py:592-594 | product row `i` carries rank `i + 1` |
| Report.CustomerRanks | utils/data_processor.py:602-603 | customer row `i` carries rank `i + 1` |
| Report.TopProductsTable | utils/data_processor.py:588-595 | the product table has `min(5, products)` rows |

## Left out

- The HTTP helpers `get_all_products`, `get_product_by_id`, `get_products_with_limit` and `search_products` (utils/api_handler.py:4-78). They are network I/O. The mapping takes the decoded payload as a value.
- File I/O:
  - opening, reading and writing files, and `os.makedirs`;
  - in `read_sales_data`, the encoding-retry loop and its errors (utils/file_handler.py:20-48).

  Each writer is modelled as the list of strings it would write, in order. The report is modelled as its lines and their newline-joined text. `read_sales_data` is modelled from the list of lines `readlines()` returns.
- `datetime.now()` in the report is a parameter (`now`).
- The `print` calls in `validate_and_filter`. They do not affect its results.
- `main.py`. It holds interactive input, sequencing and exception handling around the core.
- Floating point:
  - `float()` parsing of the price is the parameter `parsePrice`;
  - `str(float)`, `:.2f` and `format_currency` are the parameters `showFloat`, `fixed2` and `money`.
- DataProcessor.Percentage: the percentages are exact, without `round(…, 2)`, so their sum is exactly 100. The rounded values can sum to 100 only within rounding error.
- DataProcessor.Average: customer averages are exact, without `round(…, 2)`.
- Python's `\d` also matches non-ASCII decimal digits; the model takes ASCII digits only. `int()` is likewise modelled on ASCII digits, an optional sign and single underscores between digits.
- Dynamic typing:
  - records always hold all eight fields with their parsed types, so the `field not in transaction` and `isinstance` checks reduce to truthiness and sign;
  - product IDs are integers;
  - a JSON rating is a number rendered through `showFloat`.
- ApiHandler.InfoOf: an explicit JSON `null` for `title`, `category` or `brand` is treated like a missing key and stored as the empty string, where Python stores `None`. The enriched files are the same either way, because both writers print `None` as the empty string; only the in-memory `API_Category` and `API_Brand` differ.
- ApiHandler.InfoOf: an explicit JSON `null` rating is stored as 0.0, like a missing key, where Python stores `None`. The model then writes `showFloat(0.0)` in the `API_Rating` column where Python writes an empty column.
- Text.ParseInt: Python 3.11 and later refuse `int()` of text with more than 4300 digits; the model parses any length.
- Text.IntToString: Python 3.11 and later refuse `str()` of an integer with more than 4300 digits; the model renders any integer.
- Report.TopCustomers: takes the customer entries themselves rather than `(id, total, count)` tuples. The three fields shown are the same.
- Report.DateRangeBounds: does not tell the `N/A` placeholder apart from a transaction whose date is literally `N/A`. The source prints both the same way.
- `enrich_sales_data` copies each dictionary before adding keys. Records here are values, so the input list is unchanged by construction; no lemma states it.
