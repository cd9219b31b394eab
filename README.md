# Coffee lot lineage: a verified model

This project models the in-memory lot-lineage engine of a coffee supply-chain
repository. The engine comes in two variants.

**`CoffeeLotLineageTracker`** (`backend_processor.py`) holds the sheets of one
workbook as lists of records. It does the following:

- It indexes the main production records by trimmed lot number and by
  production order.
- It enriches records with purchase data, using a VLOOKUP by column position.
- It chains five equality joins from an EACL sale contract to the consumption
  lots it paid for. The joins compare values trimmed and upper-cased.
- It traces a lot's lineage up to a maximum depth. Origins are the lots
  consumed by the lot's production order. Destinations are the outputs of the
  orders that consumed the lot. A lot is visited at most once per trace, and
  so is an origin production order.
- It computes per-lot statistics.
- It performs a generic inner join between two sheets.

**`LotLineageTracker`** (`fabric-lineage-tracker-fixed.py`) works over one
production table. It does the following:

- It keeps memoised lookups by lot and by production order.
- It derives a lot's set of process types.
- It normalises Excel serial dates and ISO dates to `YYYY-MM-DD`. This is the
  complete extended calendar-date format of section 4.1.2.2 of ISO 8601:2004.
  An integer counts days from 1899-12-30.
- It traces lineage in both directions with one visited set per call. The
  trace returns stubs (with a warning) where it is cut off by the depth bound
  or by an earlier visit. Otherwise it expands a lot from its Output,
  Consumption, Transfer and Purchase records.

## How the model is built

The model follows the source's own structure.

**Values and records.** A record is a `map<string, Value>`. A `Value` is
`Null`, `Str` or `Int`, standing for Python's `None`, `str` and `int`. A Spark
table, or a sheet, is a `seq<Record>`. A purchase row read by position is a
sequence of (column, value) pairs.

**Helpers.** `str()`, `.strip()` (ASCII whitespace) and `.upper()` (ASCII
letters) are written out in `Text`.

**Stateful code.**

- Both trackers are classes whose methods update their fields: the sheets,
  the indexes, the sale contract map and the two caches.
- The loops of the source are methods with loop invariants. Each method is
  proved against a specification function, such as `AddAll`, `Join`,
  `EnrichAll`, `LotMap`, `Where`, `Group`, `OrderLots`, `TypeSet` or
  `ExpectedChildren`.
- The recursive traces are methods. The visited sets of `get_lot_lineage` are
  threaded through them as in/out values.

**Pure code.** `norm`, `parse_excel_date` and `get_lot_statistics` are
functions.

**Dict order.** A Python dict whose insertion order matters is an `Index`.
This is the production-order index that the destination scan iterates. An
`Index` keeps its buckets together with the order of its keys.

**Where the code and its documentation disagree, the model follows the code.**

- The backend origin and destination scans test `Document Type`, not
  `Process Type`: they compare it with `Consumption` and `Output`
  (backend_processor.py:329, 344, 349). The contract join's step 5 does test
  `Process Type` (backend_processor.py:207).
- In `get_process_types_for_lot`, a process type made only of whitespace is
  truthy. It therefore contributes the empty string after stripping
  (fabric-lineage-tracker-fixed.py:51-52).
- A Transfer lot scans the whole table for transfers into it once per Transfer
  record (fabric-lineage-tracker-fixed.py:168-194). It therefore gets the
  `Transferred from` children once per Transfer record. After the first round
  those children are `Already visited` stubs.
- A lot number that is not a string reaches `build_node`. It is added to
  `visited_lots` but never matches an index key.

## Model

| member | source | states |
|---|---|---|
| Text.Strip | backend_processor.py:266 | `str.strip()` gives text with no whitespace at either end |
| Text.StripRemovesSpace | backend_processor.py:266 | the input is only whitespace, then the stripped text, then only whitespace |
| Text.StripStripped | backend_processor.py:266 | stripping text that is already stripped changes nothing |
| Text.NormTextIdempotent | backend_processor.py:134-136 | trim and upper-case applied twice is applied once |
| Text.DecimalRoundTrip | fabric-lineage-tracker-fixed.py:26 | `str()` of a natural number parses back to the same number |
| Text.InsertSorted | backend_processor.py:381 | inserting into a strictly sorted list keeps it strictly sorted and adds exactly the new element |
| Text.SortedDistinct | backend_processor.py:381 | `sorted(set(xs))` is strictly increasing and has exactly the elements of `xs` |
| Text.LexLessTransitive | backend_processor.py:381 | the string order used by `sorted` is transitive |
| Text.LexLessTotal | backend_processor.py:381 | any two different strings are ordered one way or the other |
| Text.LexLessAsymmetric | backend_processor.py:381 | the string order never holds both ways |
| Records.KeyText | backend_processor.py:266 | `str(r.get(col, '')).strip()` is stripped, and it is empty when the column is absent |
| Indexing.Append | backend_processor.py:268-270 | appending a record to a key's bucket grows that bucket by the record, leaves every other bucket alone, and adds the key to the keys |
| Indexing.AddAllBucket | backend_processor.py:265-270 | after indexing, a key's bucket is its old bucket followed by the records with that trimmed key, in input order |
| Indexing.AddAllKeys | backend_processor.py:265-278 | a key is indexed exactly when it was already indexed or some record's trimmed column is that non-empty key |
| Indexing.AddAllSize | backend_processor.py:265-278 | indexing adds exactly one bucket entry per record with a non-empty key; records with an empty key are skipped |
| Indexing.FreshIndex | backend_processor.py:260-281 | on a fresh index: the keys are exactly the non-empty trimmed keys, each bucket lists its records in order, and the bucket sizes sum to the number of keyed records |
| Indexing.BuildIndex | backend_processor.py:265-278 | the indexing loop computes `AddAll` and keeps every key listed once |
| Backend.CoffeeLotLineageTracker.constructor | backend_processor.py:12-25 | every sheet, index and map starts empty |
| Backend.CoffeeLotLineageTracker.PreprocessData | backend_processor.py:260-281 | both indexes gain the main records under their trimmed `Lot No_` and `Prod_ Order No_` |
| Vlookup.LastWith | backend_processor.py:80-84 | the index found is the last element with the key, or -1 when none has it |
| Vlookup.LastRowWith | backend_processor.py:80-84 | the last purchase row whose trimmed `Lots` is the key, or -1 |
| Vlookup.PurchaseLookupLastWins | backend_processor.py:80-84 | a key is in the lookup exactly when it is non-empty and some row has it, and it maps to the last such row (last write wins) |
| Vlookup.BuildPurchaseLookup | backend_processor.py:80-84 | the lookup loop builds `PurchaseLookup` |
| Vlookup.ColumnPosition | backend_processor.py:99-119 | each `VLOOKUP_*` column has one position from 1 to 10, and no other name has a position |
| Vlookup.CopyColumnsField | backend_processor.py:100-119 | the column at position k is written from the row's k-th field only when the row has more than k fields; every other field is kept |
| Vlookup.Width | backend_processor.py:100-119 | at most ten columns are copied |
| Vlookup.EnrichFields | backend_processor.py:91-119 | a record whose trimmed lot is not a lookup key is unchanged; a matched record gains the `VLOOKUP_*` fields its row is long enough for and keeps all its other fields |
| Vlookup.EnrichAll | backend_processor.py:90-121 | every record is enriched on its own, and none is added or dropped |
| Vlookup.EnrichNothing | backend_processor.py:75-77 | with no purchase lookup, no record changes |
| Vlookup.VlookupMatchCount | backend_processor.py:89-121 | the match count is at most the number of records, and 0 with an empty lookup |
| Vlookup.MergePurchases | backend_processor.py:89-121 | the merge loop enriches every record and counts the matched ones |
| Backend.CoffeeLotLineageTracker.PerformVlookup | backend_processor.py:68-123 | the records become their enrichment from the last-wins purchase lookup; nothing changes without purchase rows; the match count is returned |
| ContractJoin.Norm | backend_processor.py:134-136 | `None` normalises to the empty string |
| ContractJoin.NormIdempotent | backend_processor.py:134-136 | normalising a normalised value changes nothing |
| Joins.MatchesMember | backend_processor.py:146-153 | one entry's matches are exactly one output per matching table row |
| Joins.MatchesSize | backend_processor.py:146-153 | one entry yields as many outputs as it has matching rows |
| Joins.JoinSize | backend_processor.py:139-196 | a join step's size is the sum of the per-entry match counts |
| Joins.JoinHas | backend_processor.py:139-196 | every joined entry comes from one earlier entry paired with one matching row, and every such pair gives an entry |
| Joins.JoinMember | backend_processor.py:139-196 | the membership of a nested-loop join, together with its size |
| Joins.RunJoin | backend_processor.py:139-196 | the nested loops compute `Join`, ordered by the earlier entries and then by table rows |
| ContractJoin.Step1Member | backend_processor.py:138-153 | a step-1 link pairs an EACL row that has a non-blank `Lot Number` with a sale row whose normalised `Sale Contract` equals it, and it carries the EACL `Sale Contract #` |
| ContractJoin.HopMember | backend_processor.py:157-196 | a step-2/3/4 link pairs one earlier link with one row whose normalised key equals the link's value; `lotNumber` and `saleContractNumber` are carried forward unchanged; the step's size is the sum of match counts |
| ContractJoin.Step5Member | backend_processor.py:200-217 | a step-5 link pairs a step-4 link with a record whose `Prod_ Order No_` equals the order by raw equality and whose `Process Type` is `Consumption` |
| ContractJoin.LotMapContents | backend_processor.py:219-224 | the map's contracts are exactly the `str()` of the links' sale contract numbers, each list is duplicate-free, and a lot is listed under a contract exactly when some link carries both |
| ContractJoin.PurchaseLotMapSound | backend_processor.py:200-224 | a lot is listed under a contract exactly when a consumption record of one of that contract's step-4 orders has that lot |
| ContractJoin.RecordLot | backend_processor.py:220-224 | the map update creates the contract's list or appends the lot only when it is absent |
| ContractJoin.RunStep5 | backend_processor.py:201-224 | the step-5 loop computes the step-5 links and the lot map built from them |
| Backend.CoffeeLotLineageTracker.BuildPurchaseLotMapping | backend_processor.py:125-236 | the five steps are the chained joins, and the sale contract map is rebuilt from empty out of step 5 |
| BackendLineage.NodeOf | backend_processor.py:305-318 | a node starts with its lot, its depth and no children |
| BackendLineage.LotsOfTypeMember | backend_processor.py:328-331 | a lot is a candidate child exactly when some record of the order has that `Document Type` and that trimmed `Lot No_` |
| BackendLineage.DestinationLotsMember | backend_processor.py:339-355 | a destination candidate is an `Output` lot of an order in which the lot appears as `Consumption` |
| BackendLineage.SoundLotsIndexed | backend_processor.py:299-302 | every lot in a traced tree has records |
| BackendLineage.NoChildRepeatsParent | backend_processor.py:331-351 | in a tree with no repeated lot, no child carries its parent's lot |
| BackendLineage.ForestContains | backend_processor.py:332-355 | every child's lot is among the lots of its siblings' subtrees |
| BackendLineage.WithinConcat | backend_processor.py:298 | lots first visited in two consecutive stretches of the trace are distinct and cover the visited set |
| BackendLineage.AppendChild | backend_processor.py:332-355 | attaching the node returned for a child, if any, keeps the children traced, distinct and one level deeper |
| BackendLineage.BuildNode | backend_processor.py:293-357 | the node and both visited sets it returns are exactly `BackendLineage.Trace` of the sets it was given; no node exactly when the depth is over the bound, the lot is already visited, or it has no records; the lot is marked visited in the last case too; a node is sound (depth within the bound, direction respected, children one level deeper and drawn from the candidates); its lots are distinct and were first visited by this call; every other lot it first visits is a candidate child of a lot of its node, and every order it marks is the first-record order of such a lot or an order that consumed such a lot and has another non-empty `Output` lot; below the depth bound, an origin-tracing node whose production order was not yet marked has visited every other non-empty lot that order consumed; for a destination-tracing node, every production order consuming its lot was either followed by its scan or skipped as already marked when the scan reached it (the skip is `BackendLineage.Destinations`), and below the bound every other non-empty `Output` lot of each order it followed was visited |
| BackendLineage.AssembleNode | backend_processor.py:307-357 | a node built from its first record with traced origins and destinations is sound, and its lots are exactly the lots newly visited for it that have records |
| BackendLineage.TraceOrigins | backend_processor.py:321-334 | the children and both visited sets are exactly `BackendLineage.Origins`; origins are followed only for a non-empty production order not yet marked, which is then marked; the origins are sound `Consumption` lots of that order; when followed below the depth bound, every non-empty `Consumption` lot of the order other than the lot itself ends up visited |
| BackendLineage.FollowConsumption | backend_processor.py:328-334 | the result is exactly `BackendLineage.ConsumeOne`: a `Consumption` record with a non-empty lot other than the lot has that lot visited (below the depth bound) and any node for it attached as a sound origin; any other record changes nothing |
| BackendLineage.TraceDestinations | backend_processor.py:337-355 | the children and both visited sets are exactly `BackendLineage.Destinations` from the first order of the index; the destinations are sound `Output` lots of orders in which the lot was consumed; every production order of the index consuming the lot is either followed by this scan (and was not marked before it) or was skipped as already marked when the scan reached it (the skip is `BackendLineage.Destinations`); below the depth bound, every non-empty `Output` lot other than the lot, of every order this scan followed, ends up visited |
| BackendLineage.ScanOrder | backend_processor.py:340-355 | the result is exactly `BackendLineage.Scan` of the order; the destinations stay traced and the visited sets only grow; when the order consumed the lot and the depth is below the bound, all of its other non-empty `Output` lots end up visited |
| BackendLineage.TraceOutputs | backend_processor.py:348-355 | the result is exactly `BackendLineage.Outputs` of the order; below the depth bound every other non-empty `Output` lot ends up visited; either the order is marked or nothing changed; the destinations stay sound |
| BackendLineage.FollowOutput | backend_processor.py:349-355 | the result is exactly `BackendLineage.OutputOne`: an `Output` record with a non-empty lot other than the lot marks the order and has that lot visited (below the depth bound), attaching any node for it as a sound destination; any other record changes nothing |
| BackendLineage.Descend | backend_processor.py:332-355 | one recursive `build_node` call for a candidate child: the children grow by exactly the node `BackendLineage.Trace` gives for it, if any, the visited sets become exactly the ones it leaves, and the children stay sound, distinct and first visited in this branch |
| BackendLineage.TraceAccounted | backend_processor.py:293-357 | every lot a `build_node` call first visits, other than its own, is an origin or destination candidate of a lot of the node it returns; every order it marks is the first-record order of such a lot, or an order in which such a lot was consumed that has another non-empty `Output` lot |
| BackendLineage.OriginsAccounted | backend_processor.py:321-334 | the origin branch marks only the order of the lot's first record, and visits only candidates of the lot or of lots under its origins |
| BackendLineage.ConsumeAccounted | backend_processor.py:328-334 | over the remaining records of the origin order, the same accounting holds for what the branch adds |
| BackendLineage.ConsumeOneAccounted | backend_processor.py:329-334 | one `Consumption` record adds only its lot, a candidate of the lot, and what that lot's own trace accounts for |
| BackendLineage.DestinationsAccounted | backend_processor.py:339-355 | over the remaining production orders of the index, every lot the destination branch visits is a candidate of the lot or of a lot under its destinations, and every order it marks has a reason there |
| BackendLineage.ScanAccounted | backend_processor.py:343-355 | over the remaining records of one order, the same accounting holds |
| BackendLineage.OutputsAccounted | backend_processor.py:348-355 | over the remaining records of an order that consumed the lot, the same accounting holds |
| BackendLineage.OutputOneAccounted | backend_processor.py:349-355 | one `Output` record marks only an order that consumed the lot and has this other non-empty `Output` lot, and visits only that lot, a destination candidate, and what its own trace accounts for |
| BackendLineage.ChildAccounted | backend_processor.py:332-334 | a child traced from a lot adds only itself, a candidate of the lot, and what its own node accounts for |
| BackendLineage.AccountedMerge | backend_processor.py:328-355 | two stretches of one branch in a row are accounted for by the lot and the children gathered by the end |
| BackendLineage.ReachedMerge | backend_processor.py:298 | lots first visited in two stretches in a row are candidates of lots of a sequence holding both stretches' explaining lots |
| BackendLineage.MarkedMerge | backend_processor.py:324 | orders first marked in two stretches in a row have a reason at lots of a sequence holding both stretches' explaining lots |
| BackendLineage.OutputIsDestination | backend_processor.py:343-350 | an `Output` lot of an order that consumed the lot is a destination candidate of it |
| BackendLineage.TypedLotMember | backend_processor.py:329-330 | the trimmed lot of a record of a given `Document Type` is among the candidates of that type |
| BackendLineage.LotsOfTypeSnoc | backend_processor.py:328-331 | reading one more record adds its trimmed lot to the candidates exactly when its `Document Type` matches |
| Backend.VisitedCount | backend_processor.py:364 | the tree's lots are exactly the visited lots that have records, and the number of visited lots is the tree's size plus the number of visited lots without records |
| Backend.CoffeeLotLineageTracker.GetLotLineage | backend_processor.py:283-365 | no tree exactly when `max_depth` is negative or the lot has no records; otherwise a sound tree rooted at the lot at depth 0 in which no lot repeats; the tree and the visited lot and order sets are exactly `BackendLineage.Trace` of the lot from empty sets; `totalNodesTraced` is the size of that visited lot set, whose members with records are exactly the tree's lots and whose other members are each a candidate child of a tree lot; every marked order has a reason at a tree lot; with `max_depth` above 0 every other non-empty lot consumed by the root's production order was visited, every production order consuming the root was followed from the root or skipped as already marked when the scan reached it (the skip is `BackendLineage.Destinations`), and every other non-empty `Output` lot of each order followed from the root was visited |
| Backend.CoffeeLotLineageTracker.GetPurchaseLotLineage | backend_processor.py:238-258 | no results for an unmapped contract; otherwise one lineage per listed lot, in list order, at depth 10, each the one `BackendLineage.Trace` gives and with everything `GetLotLineage` promises about its tree, its count and the lots and orders it visited |
| Statistics.QuantityTotal | backend_processor.py:374 | the quantity total exists exactly when every quantity is an integer, an absent one counting as 0 |
| Statistics.QuantityTotalAppend | backend_processor.py:374 | the total over two lists of records is the sum of their totals |
| Statistics.ColumnValues | backend_processor.py:380-382 | the set of a column's values holds exactly the values some record has, and it is no larger than the list |
| Statistics.PostingDateTexts | backend_processor.py:381 | each posting date is taken as text, one per record |
| Statistics.LotStats | backend_processor.py:367-383 | an error exactly when the lot has no records; otherwise the record count, the quantity total, the duplicate-free document types and units, and the posting dates strictly sorted with exactly the records' dates |
| Backend.CoffeeLotLineageTracker.GetLotStatistics | backend_processor.py:366-382 | over the lot index's records under `lot_no`, looked up as given with no trimming: the error result exactly when there are none, otherwise their count and their quantity total |
| InnerJoin.PrefixInjective | backend_processor.py:416 | prefixing column names with `sheet2_key_` never merges two columns |
| InnerJoin.MergeFields | backend_processor.py:414-416 | a merged record has every field of record2 under the prefix, and every other field of record1 unchanged |
| InnerJoin.MergeRenamed | backend_processor.py:415-416 | each field of record2 appears under the prefix with its value |
| InnerJoin.MergeKept | backend_processor.py:414 | a field of record1 that no prefixed name hides keeps its value, and no other field appears |
| InnerJoin.InnerJoinMember | backend_processor.py:399-420 | the result holds exactly one merged record per pair with equal, non-empty trimmed keys, and as many records as there are such pairs |
| InnerJoin.MergeAllKeyed | backend_processor.py:411-417 | merging a record with its lookup bucket gives its matches in dataset2 order |
| InnerJoin.NoMatchesUnkeyed | backend_processor.py:410-411 | a record with an empty key joins nothing |
| InnerJoin.MergeBucket | backend_processor.py:412-417 | the inner loop merges the record with each record of its bucket, in order |
| InnerJoin.PerformInnerJoin | backend_processor.py:399-420 | the lookup-then-scan join computes the pairwise inner join, ordered by dataset1 and then by dataset2 |
| Backend.CoffeeLotLineageTracker.PerformInnerJoin | backend_processor.py:385-420 | the join of the chosen sheets (the main records for `main`), with record2's fields prefixed by `sheet2_key_` |
| ExcelDate.DaysBeforeNextYear | fabric-lineage-tracker-fixed.py:19-21 | the days before a year grow by the length of the previous year |
| ExcelDate.DaysBeforeNextMonth | fabric-lineage-tracker-fixed.py:19-21 | the days before a month grow by the length of the previous month, and a year's months add up to the year |
| ExcelDate.OrdinalInYear | fabric-lineage-tracker-fixed.py:19-21 | a date's day number falls inside its year and its month |
| ExcelDate.LastOrdinal | fabric-lineage-tracker-fixed.py:20 | 9999-12-31 is the last day `datetime` can represent |
| ExcelDate.EpochDate | fabric-lineage-tracker-fixed.py:19 | the day number of 1899-12-30 |
| ExcelDate.YearOf | fabric-lineage-tracker-fixed.py:20 | the year containing a day number |
| ExcelDate.MonthOf | fabric-lineage-tracker-fixed.py:20 | the month containing a day of the year |
| ExcelDate.FromOrdinal | fabric-lineage-tracker-fixed.py:20 | a day number gives a valid date with that day number |
| ExcelDate.ToOrdinalInjective | fabric-lineage-tracker-fixed.py:20 | two valid dates with the same day number are equal |
| ExcelDate.FromToOrdinal | fabric-lineage-tracker-fixed.py:20 | date to day number to date is the identity |
| ExcelDate.Digits | fabric-lineage-tracker-fixed.py:21 | zero-padded fields have the width asked for and only digits |
| ExcelDate.DigitsRoundTrip | fabric-lineage-tracker-fixed.py:21-23 | a zero-padded field reads back as its number |
| ExcelDate.DecimalDigits | fabric-lineage-tracker-fixed.py:23-24 | a digit field is the zero-padded form of its value |
| ExcelDate.Format | fabric-lineage-tracker-fixed.py:21 | `strftime('%Y-%m-%d')` has ten characters: digits with dashes at positions 4 and 7 |
| ExcelDate.ParseIso | fabric-lineage-tracker-fixed.py:23 | only a ten-character valid calendar date parses |
| ExcelDate.FormatParse | fabric-lineage-tracker-fixed.py:21-23 | parsing a formatted date gives the date back |
| ExcelDate.ParseFormat | fabric-lineage-tracker-fixed.py:23-24 | formatting a parsed text gives the text back |
| ExcelDate.BeforeT | fabric-lineage-tracker-fixed.py:23 | `split('T')[0]` is the prefix up to the first `T`, and it contains no `T` |
| ExcelDate.NoTKept | fabric-lineage-tracker-fixed.py:23 | text without a `T` is its own prefix |
| ExcelDate.ParseExcelDate | fabric-lineage-tracker-fixed.py:14-26 | `None` and `''` give `''`; an integer serial gives the formatted date that many days after 1899-12-30, or its decimal text when out of range; a string gives its prefix before `T` when that is a valid date, else the string itself |
| ExcelDate.FormatChars | fabric-lineage-tracker-fixed.py:21 | a formatted date holds only digits and dashes |
| ExcelDate.NormalisedHasNoT | fabric-lineage-tracker-fixed.py:18-26 | the result for an integer never contains `T`, and an out-of-range serial's text never parses as a date |
| ExcelDate.ParseExcelDateIdempotent | fabric-lineage-tracker-fixed.py:14-26 | normalising a normalised date changes nothing |
| ExcelDate.SerialDate | fabric-lineage-tracker-fixed.py:18-21 | an in-range serial gives the date of day number 1899-12-30 plus the serial |
| ExcelDate.SerialZero | fabric-lineage-tracker-fixed.py:19-21 | serial 0 is 1899-12-30 |
| ExcelDate.SerialExample | fabric-lineage-tracker-fixed.py:19-21 | serial 45000 is 2023-03-15 |
| FabricTable.Where | fabric-lineage-tracker-fixed.py:31-39 | a filter keeps at most the table, and nothing for a null value |
| FabricTable.WhereMembers | fabric-lineage-tracker-fixed.py:31-39 | a row is selected exactly when it is in the table and its column equals the value under SQL equality |
| FabricTable.WhereConcat | fabric-lineage-tracker-fixed.py:31-39 | filtering keeps the table order |
| Fabric.LotLineageTracker.constructor | fabric-lineage-tracker-fixed.py:8-12 | the tracker holds the table and starts with empty caches |
| Fabric.LotLineageTracker.GetLotRecords | fabric-lineage-tracker-fixed.py:28-34 | the records whose `Lot No_` equals the lot, in table order; the first call caches them and later calls leave the cache unchanged |
| Fabric.LotLineageTracker.GetProdOrderRecords | fabric-lineage-tracker-fixed.py:36-42 | the records whose `Prod_ Order No_` equals the order, in table order, cached the same way |
| Fabric.LotLineageTracker.ClearCache | fabric-lineage-tracker-fixed.py:234-238 | both caches become empty |
| FabricTable.TypeSetSnoc | fabric-lineage-tracker-fixed.py:49-52 | one more record adds its stripped process type when that is truthy |
| FabricTable.ImageMember | fabric-lineage-tracker-fixed.py:49-52 | a value is collected exactly when some element that passes the test maps to it |
| FabricTable.TypeSetImage | fabric-lineage-tracker-fixed.py:49-52 | the process-type loop is an instance of that image |
| FabricTable.TypeSetMembers | fabric-lineage-tracker-fixed.py:48-52 | a type is collected exactly when some record has a truthy process type whose stripped text is that type |
| FabricTable.ProcessTypes | fabric-lineage-tracker-fixed.py:44-53 | never empty, and `Not Found` alone for a lot with no records |
| FabricTable.ProcessTypesCases | fabric-lineage-tracker-fixed.py:44-53 | `Unknown` alone when no record has a truthy type; otherwise exactly the stripped truthy types |
| Fabric.CollectTypes | fabric-lineage-tracker-fixed.py:48-52 | the process-type loop computes the type set |
| Fabric.LotLineageTracker.GetProcessTypesForLot | fabric-lineage-tracker-fixed.py:44-53 | the lot's process types, read through the lot cache |
| FabricTable.Group | fabric-lineage-tracker-fixed.py:84-89 | a group is no larger than the lot's records |
| FabricTable.GroupMembers | fabric-lineage-tracker-fixed.py:84-89 | a record is in the group of its own key (`Process Type` or `Unknown`) and in no other |
| Fabric.GroupByProcess | fabric-lineage-tracker-fixed.py:84-89 | the grouping loop has a key exactly for each non-empty group, and each entry lists that group's records in order |
| Fabric.GroupedSections | fabric-lineage-tracker-fixed.py:115-198 | the four processes the trace handles read their groups |
| FabricTable.LastOrdered | fabric-lineage-tracker-fixed.py:116-147 | the last record that names a production order, or -1 |
| FabricTable.LastOrderedIsLast | fabric-lineage-tracker-fixed.py:116-147 | no later record names an order, so the detail fields written last are that record's |
| FabricTable.DetailsOf | fabric-lineage-tracker-fixed.py:100-110 | no details exactly for a lot without records; otherwise the basic details come from the first record |
| FabricTable.OrderLots | fabric-lineage-tracker-fixed.py:128-156 | the set of an order's lots never holds the traced lot |
| FabricTable.OrderLotsMembers | fabric-lineage-tracker-fixed.py:128-156 | a lot is collected exactly when some record of the order has the process type and that lot, and the lot is another lot |
| Fabric.CollectLots | fabric-lineage-tracker-fixed.py:125-156 | the collection loop computes that set |
| FabricTable.ExpectedChildrenLots | fabric-lineage-tracker-fixed.py:133-161 | every lot traced for Output or Consumption records is truthy and another lot |
| FabricTable.SourceTransfers | fabric-lineage-tracker-fixed.py:183-187 | the scan for transfers into the lot returns at most the table |
| FabricTable.SourceTransfersMembers | fabric-lineage-tracker-fixed.py:183-187 | a row is selected exactly when its `Process Type` is `Transfer`, its `Lot Dest` is the lot and its `Lot No_` is another lot, compared under SQL semantics |
| FabricTable.TruthyLotsOf | fabric-lineage-tracker-fixed.py:189-191 | no more lots than rows |
| FabricTable.TruthyLotsOfMembers | fabric-lineage-tracker-fixed.py:189-191 | a lot is traced exactly when some row has it, and it is truthy and another lot |
| FabricTable.Repeat | fabric-lineage-tracker-fixed.py:168-194 | the source scan repeated once per Transfer record |
| FabricTable.TransferredTo | fabric-lineage-tracker-fixed.py:169-180 | at most one `Transferred to` child per Transfer record |
| FabricTable.TransfersStep | fabric-lineage-tracker-fixed.py:168-180 | each Transfer record overwrites the transfer detail and adds its truthy `Lot Dest`, when that is another lot |
| FabricTable.TransferredToLots | fabric-lineage-tracker-fixed.py:177 | every lot transferred to is truthy and another lot |
| FabricTree.Labelled | fabric-lineage-tracker-fixed.py:136-193 | labelling a child keeps its lot and sets its relationship |
| FabricTree.LotsOf | fabric-lineage-tracker-fixed.py:137-194 | one lot per child |
| FabricTree.LotsOfConcat | fabric-lineage-tracker-fixed.py:137-194 | the children of two blocks are the lots of each in turn |
| FabricTree.ForestConcat | fabric-lineage-tracker-fixed.py:70 | the expansions of two lists of subtrees add up |
| FabricTree.AddsPlus | fabric-lineage-tracker-fixed.py:70 | two consecutive stretches of fresh expansions make one |
| FabricTree.FreshConcat | fabric-lineage-tracker-fixed.py:70 | lists of children expanded one after the other each add fresh lots to `visited` |
| FabricTree.FreshPairAppend | fabric-lineage-tracker-fixed.py:178-180 | a labelled destination child keeps the node's children fresh |
| FabricTree.FreshPairConcat | fabric-lineage-tracker-fixed.py:189-194 | a block of source children keeps the node's children fresh |
| FabricTree.FreshNode | fabric-lineage-tracker-fixed.py:70 | an expanded node adds its own lot and its children's lots to `visited` |
| FabricTree.LabelledTally | fabric-lineage-tracker-fixed.py:136-193 | labelling a child does not change what it expanded |
| FabricTree.AllLabelledConcat | fabric-lineage-tracker-fixed.py:136-193 | two blocks with the same label make one |
| FabricTree.KidsConcat | fabric-lineage-tracker-fixed.py:129-191 | two lists of sound children that avoid the parent's lot make one |
| FabricTree.KidsAppend | fabric-lineage-tracker-fixed.py:135-194 | appending a sound, labelled child that avoids the parent's lot keeps the children sound and adds its lot |
| FabricTree.FreshAppend | fabric-lineage-tracker-fixed.py:135-137 | appending a child that expanded fresh lots keeps the list fresh |
| FabricTree.BlocksConcat | fabric-lineage-tracker-fixed.py:137-194 | consumed or produced children followed by transfer children have the node's two labelled blocks |
| FabricTree.SoundHeight | fabric-lineage-tracker-fixed.py:60-192 | a traced tree is at most `max_depth - depth + 1` levels high, so the trace terminates on cyclic data too |
| FabricTree.ExpandedHeight | fabric-lineage-tracker-fixed.py:135-192 | an expanded node's children are one level deeper |
| FabricTree.KidsHeight | fabric-lineage-tracker-fixed.py:135-192 | children at the bound are stubs of height 1 |
| Fabric.StubFresh | fabric-lineage-tracker-fixed.py:60-68 | a stub adds nothing to `visited` |
| Fabric.NotFoundSound | fabric-lineage-tracker-fixed.py:73-81 | a lot without records gives a childless `Not Found` node that fits its records |
| Fabric.LeafFresh | fabric-lineage-tracker-fixed.py:70-81 | a childless expanded lot adds exactly its own lot to `visited` |
| Fabric.NodeFresh | fabric-lineage-tracker-fixed.py:115-194 | the four kinds of children, expanded in turn, keep the node's expansions fresh |
| Fabric.SectionsSound | fabric-lineage-tracker-fixed.py:92-206 | a node assembled from its groups is sound |
| Fabric.NodeSound | fabric-lineage-tracker-fixed.py:92-206 | a node with the lot's process types, details and `is_origin`, whose consumed, produced and transfer children match its records, is sound |
| Fabric.TracedOne | fabric-lineage-tracker-fixed.py:133-137 | tracing one more element of a lot set keeps the children an enumeration of its truthy elements |
| Fabric.LotLineageTracker.TraceLotOrigin | fabric-lineage-tracker-fixed.py:58-206 | a warning exactly when the lot is visited or the depth is at the bound; a stub leaves `visited` alone; otherwise the lot joins `visited`; a lot without records is a childless `Not Found` node; the node is sound, and it adds exactly its expanded lots to `visited` |
| Fabric.LotLineageTracker.ExpandLot | fabric-lineage-tracker-fixed.py:83-206 | a lot with records expands to a sound node whose children add fresh lots to `visited` |
| Fabric.LotLineageTracker.TraceOrders | fabric-lineage-tracker-fixed.py:115-163 | the children traced for Output (or Consumption) records are exactly the truthy lots of the other kind in each of their orders, counted once per record; they are labelled and sound; the last record naming an order is found |
| Fabric.LotLineageTracker.TraceEach | fabric-lineage-tracker-fixed.py:133-163 | each truthy lot of the set is traced exactly once, in some order, labelled and sound |
| Fabric.LotLineageTracker.TraceChild | fabric-lineage-tracker-fixed.py:133-137 | a truthy lot is traced, labelled and appended; a falsy one is skipped |
| Fabric.LotLineageTracker.TraceTransfers | fabric-lineage-tracker-fixed.py:167-194 | the transfer detail is the last Transfer record's; the `Transferred to` children are each record's truthy `Lot Dest`; the `Transferred from` children repeat the source-transfer scan once per record; all are labelled and sound |
| Fabric.LotLineageTracker.TraceDestination | fabric-lineage-tracker-fixed.py:176-180 | a truthy `Lot Dest` other than the lot is traced as `Transferred to`, anything else is skipped |
| Fabric.LotLineageTracker.TraceSourceTransfers | fabric-lineage-tracker-fixed.py:189-194 | every truthy source lot other than the lot is traced as `Transferred from`, in row order |
| Fabric.LineageCount | fabric-lineage-tracker-fixed.py:209-215 | with `max_depth` at most 0, nothing is traced; otherwise the queried lot is expanded and counted |
| Fabric.LotLineageTracker.GetLotLineage | fabric-lineage-tracker-fixed.py:55-215 | the tree is rooted at the queried lot, sound at depth 0, and a stub exactly when `max_depth` is at most 0; `total_lots_traced` is the number of expanded nodes, which is the number of distinct expanded lots, so each lot is expanded at most once |
| Fabric.LotLineageTracker.TraceMultipleLots | fabric-lineage-tracker-fixed.py:224-232 | one result per input lot, keyed by that lot, each a lineage of that lot |

## Left out

- `load_excel_file`, `export_results`, `get_lineage_as_json` and the `__main__` block are left out. They are file I/O (pandas Excel loading, JSON writing) and console output.
- All `print` and progress output is left out.
- Cells 2 to 6 of fabric-lineage-tracker-fixed.py (from line 241) are left out. They are script glue over a table and a `step5` defined elsewhere.
- fabric-notebook-complete.py is not part of this model. It is Spark session setup, lakehouse table loads and SQL text that the Spark engine executes.
- Spark `filter`/`collect` is modelled as a filter over an in-memory sequence of rows. The filter uses SQL equality, which is never true for a null.
- Floats and NaN are not modelled. A `Value` is `None`, a string or an integer.
- Statistics.LotStats: the `float()` quantity sum is an integer sum. It is `None` when some quantity is not an integer, where the source would sum floats or raise.
- ExcelDate.ParseExcelDate: only integer serials are modelled, not fractional days. The string branch accepts exactly a `YYYY-MM-DD` prefix, not the other forms `datetime.fromisoformat` tolerates. A value `str()` cannot print as the source does (a date object, say) is not modelled.
- Python set iteration order is not modelled. It decides the order in which a node's consumed and produced children are traced, and the order of `process_types`.
  - Process types are a `set`.
  - The children of one production order are traced in an arbitrary order.
  - Fabric.LotLineageTracker.TraceOrders and FabricTree.Fits therefore fix those children's lots only as a multiset.
- Fabric.LotLineageTracker.TraceLotOrigin and Fabric.LotLineageTracker.GetLotLineage do not state which lots end up as `Already visited` stubs. That depends on the tracing order.
- Fabric.LotLineageTracker.GetLotRecords, Fabric.LotLineageTracker.GetProdOrderRecords: the cache is modelled as a map from lot to its row list. Row objects shared between the cache and the returned list (aliasing) are not modelled.
- Backend.CoffeeLotLineageTracker.PerformVlookup: records are values. Python mutates each record dict in place, and any alias of a record elsewhere would see the change; the model does not capture that.
- Backend.CoffeeLotLineageTracker.PerformInnerJoin: `getattr(self, name, [])` is modelled for the sheet attributes only. Any other name gives the empty list, including the index and map attributes, which are dicts in the source.
- Text.Strip and Text.NormTextIdempotent: `strip()` and `upper()` are modelled on ASCII whitespace and letters only. Unicode whitespace and case mapping are not modelled.
- Backend.CoffeeLotLineageTracker.GetLotLineage: a lot number that is not a string is counted as one visited lot. No tree is built for it.
- Backend.CoffeeLotLineageTracker.GetLotLineage: the coverage it states is about the root only. Each production order consuming the root is either followed from the root, with its `Output` lots visited, or was skipped as already marked when the destination scan reached it. Deeper nodes get the same statement from BackendLineage.BuildNode, and the whole trace is pinned by BackendLineage.Trace. The set of marked orders is shared by both directions, so an order followed on the origin side is skipped by the destination scan. An order is also marked at the depth bound, where its outputs are not traced. So not every lot within the depth bound reaches the tree, and no contract claims that it does.
- The visited sets of `get_lot_lineage` are modelled as values threaded through the recursion, not as shared mutable sets.
- Loading the sheets into the backend tracker's fields is not modelled, because it happens in `load_excel_file`. The methods read the fields as they are.
