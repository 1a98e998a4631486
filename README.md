# mfbackend NAV ingestion and category store, modelled in Dafny

mfbackend is an Express/Mongoose service. It reads the AMFI `NAVAll.txt`
feed of mutual-fund net asset values and stores one document per fund ISIN
in a `MutualFund` collection. It also keeps a small catalogue of categories:
asset classes, routes under them, instrument categories under the routes,
and AMFI categories that can be linked to an instrument category.

This project models the logic of that service and proves what it promises:

- **Feed parser** (`FetchMFData`, util/fetchMFData.js).
  - Drops blank, `Scheme Code` and `--` lines.
  - Splits each remaining line on `;` and needs at least six fields.
  - Picks the reinvestment ISIN first, then the payout ISIN.
  - Drops records with an unusable NAV, date or name.
- **Older parser and cache** (`NavService`, the "Stashed changes" half of
  index.js, lines 84-202).
  - Picks the payout ISIN first.
  - Caches the parsed feed for five minutes.
  - Filters by a case-insensitive search text and returns one page.
- **Batched, change-aware upsert** (`InsertFundsToDB`, util/insertFundsToDB.js).
  - `chunkArray` cuts the funds into batches.
  - Each batch diffs against the stored NAV and NAV date and issues one bulk
    write of upserts, only when something is new or changed.
- **One-at-a-time insert** (`FundsIntoMongo`, util/fundsintomongo.js): find
  by ISIN, then update or create, counting each case.
- **AMFI category insert** (`InsertCategoryToDB`, util/insertCategoryToDB.js):
  a find-or-create loop over names, with `inserted`/`existing` tallies.
- **ISIN map** (`BuildIsinMap`, util/buildISINMap.js): spreadsheet rows
  become a map from ISIN to the fund's `AA Key` classification.
- **Category seeding** (`CategorySeed`, helper/categoryInDB.helper.js): the
  three constant seed tables, found-or-created level by level, with the
  composite `route|assetClass` key.
- **Controllers**:
  - `MutualFundController` (controller/mutualFundController.js): the
    case-insensitive category append of `addCategory` and the pagination of
    `listMutualFunds`.
  - `AmfiCategoryController` (controller/category/amfi-category.controller.js):
    regex escaping of the search text, list pagination, and the add,
    status, link and rename endpoints.

Supporting modules:

- `Wrappers`: `Option` and `Result`.
- `Js`: the JavaScript built-ins the code relies on:
  - `trim`, `split`, `startsWith`, `toLowerCase`, `includes`, `slice`;
  - `Math.ceil(n / d)`;
  - the `isNaN(parseFloat(s))` test;
  - `parseInt(x) || d`.
- `MutualFundModel`: fund entries, and the `MutualFund` collection as a map
  from ISIN to document with `updateOne`/upsert semantics.
- `CategoryModel`: the four category collections in one store object, with
  ids from a shared counter.

Code that updates state in place is modelled as classes and methods whose
contracts tie the new state to specification functions:

- the loops;
- the collections (`FundStore`, `CategoryStore`);
- the module-level cache (`NavCache`);
- the fund document of `addCategory`.

The pure parts are functions, with lemmas stating their properties.

Three things the code does not do:

- The code tracks no section headers. Header lines of the feed have fewer
  than six fields and are dropped, and the parsed `category` is always
  `null` (util/fetchMFData.js) or an empty list (index.js).
- No `categoryRef` is compared and no `updatedAt` is written. The change
  test looks at `nav` and `navDate` only.
- A failed fetch is not propagated. util/fetchMFData.js returns an empty
  list.

## Model

| member | source | states |
|---|---|---|
| Js.TrimStartSpec | util/fetchMFData.js:18 | `trimStart` keeps a suffix that does not begin with whitespace, and drops only whitespace |
| Js.TrimEndSpec | util/fetchMFData.js:18 | `trimEnd` keeps a prefix that does not end with whitespace, and drops only whitespace |
| Js.TrimSpec | util/fetchMFData.js:18 | `trim` is empty exactly for all-whitespace text; otherwise it starts and ends with non-whitespace |
| Js.Split | util/fetchMFData.js:27 | `split` on one character gives at least one piece, and no piece contains the separator |
| Js.JoinSplit | util/fetchMFData.js:27 | joining the pieces of `split` with the separator gives back the text |
| Js.SplitConcat | util/buildISINMap.js:16 | the pieces of `x + sep + y` are the pieces of `x` followed by those of `y` |
| Js.SplitLength | util/fetchMFData.js:27-28 | `split` gives one more piece than there are separators |
| Js.ToLowerIdempotent | controller/mutualFundController.js:73-75 | lowercasing twice is lowercasing once |
| Js.ParseFloatIsNumber | util/fetchMFData.js:64 | defines `!isNaN(parseFloat(s))`: after leading whitespace and an optional sign, `Infinity`, a digit, or a point and a digit; `DropRules` uses it |
| Js.IncludesIff | index.js:181-184 | `includes` holds exactly when the text occurs at some position |
| Js.ClampIndex | index.js:191 | a `slice` bound is clamped into `[0, length]` and kept when already inside |
| Js.CeilDiv | controller/mutualFundController.js:34 | `Math.ceil(n / d)` is the least `r` with `n <= r * d` for positive `d` (mirrored for negative `d`) |
| Js.OrDefault | controller/mutualFundController.js:5-6 | `parseInt(q) or d` is the parsed value unless it is NaN or 0, and is never 0 when `d` is not |
| Js.BeforeLastPage | controller/mutualFundController.js:34-35 | with a positive page size, `page * limit < total` iff `page < ceil(total / limit)` |
| Js.AfterFirstPage | controller/mutualFundController.js:36 | with a positive page size, `(page - 1) * limit > 0` iff `page > 1` |
| MutualFundModel.Snapshot | util/insertFundsToDB.js:38-48 | the existing map has exactly the stored ISINs of the batch, each with its stored NAV and NAV date |
| MutualFundModel.ApplyOp | util/insertFundsToDB.js:56-64 | an upsert leaves its ISIN holding the fields the schema keeps of the fund, whether it matched or inserted; the `createdAt` and `category` it sends are dropped; no other document changes |
| MutualFundModel.ApplyOps | util/insertFundsToDB.js:87-90 | a bulk write leaves documents no operation filters on untouched and removes none |
| MutualFundModel.ApplyOpsAppend | util/insertFundsToDB.js:87-90 | applying `a + b` is applying `a`, then `b` |
| MutualFundModel.FundStore.BulkWrite | util/insertFundsToDB.js:87-90 | the collection becomes the operations applied in list order (see Left out for `ordered: false`) |
| MutualFundModel.ApplyOpsKeys | util/insertFundsToDB.js:87-90 | a bulk write adds exactly the ISINs of its upserts |
| MutualFundModel.ApplyDistinctOpsAt | util/insertFundsToDB.js:87-90 | with distinct filters, an upsert leaves its ISIN holding exactly the fields it sets |
| MutualFundModel.BulkWriteOrderFree | util/insertFundsToDB.js:87-90 | with distinct filters, the same operations in any order leave the same collection, so `ordered: false` does not change the result |
| MutualFundModel.FundStore.Create | util/fundsintomongo.js:14 | `create` adds a document under the fund's new ISIN holding the fields the schema keeps |
| MutualFundModel.FundStore.UpdateOne | util/fundsintomongo.js:11 | `updateOne` overwrites the fund's document with its fields and changes no other |
| FetchMFData.KeepLine | util/fetchMFData.js:16-22 | defines the line filter; `KeptLines` and `FilteredLineYieldsNothing` state its effect |
| FetchMFData.KeptLines | util/fetchMFData.js:16-22 | the kept lines are exactly the raw lines that pass the filter |
| FetchMFData.KeptLinesAppend | util/fetchMFData.js:16-22 | the filter keeps order: filtering a concatenation filters each part |
| FetchMFData.ParseRecord | util/fetchMFData.js:27-81 | every entry has a non-empty ISIN and name and a `null` category |
| FetchMFData.Emitted | util/fetchMFData.js:72-81 | a line adds at most one entry, and only the one it decodes to |
| FetchMFData.ParsedFunds | util/fetchMFData.js:26-82 | never more entries than lines |
| FetchMFData.ParsedFundsOrigin | util/fetchMFData.js:26-82 | every entry is what some input line decodes to |
| FetchMFData.ParsedFundsAppend | util/fetchMFData.js:26-82 | output order follows line order: the entries of `a + b` are those of `a`, then those of `b` |
| FetchMFData.FetchMFData | util/fetchMFData.js:16-85 | the push loop returns exactly the entries of the kept lines, in order |
| FetchMFData.FilteredLineYieldsNothing | util/fetchMFData.js:16-22 | a blank, `Scheme Code` or `--` line contributes nothing, wherever it stands |
| FetchMFData.FewFieldsYieldNothing | util/fetchMFData.js:27-30 | a line with fewer than five `;` gives no entry |
| FetchMFData.ExtraFieldsIgnored | util/fetchMFData.js:32-39 | fields after the sixth do not change the result |
| FetchMFData.SelectIsin | util/fetchMFData.js:41-59 | defines the ISIN choice, reinvestment first; `IsinSelection` states it |
| FetchMFData.IsinSelection | util/fetchMFData.js:41-59 | a usable reinvestment ISIN wins even over a usable payout ISIN; the payout ISIN is taken only otherwise; with neither the record is dropped |
| FetchMFData.DropRules | util/fetchMFData.js:61-79 | a blank, `N.A.` or non-numeric NAV, a blank date or a blank name each drop the record; a record passing all checks gives the entry with the chosen ISIN, the trimmed name and the NAV and date text as the feed gives them, untrimmed |
| FundsIntoMongo.CreateOrUpdate | util/fundsintomongo.js:8-16 | one fund: whether updated or created, its ISIN now holds its fields, and every other document is untouched |
| FundsIntoMongo.AfterAll | util/fundsintomongo.js:7-17 | defines the collection after the sequential loop; its properties are `AfterAllFrame`, `LastWins` and `AfterAllKeys` |
| FundsIntoMongo.AfterAllFrame | util/fundsintomongo.js:7-17 | documents of ISINs no fund has are unchanged; a fund's ISIN holds the fields of one of the funds with that ISIN |
| FundsIntoMongo.LastWins | util/fundsintomongo.js:7-17 | each ISIN ends up holding the last fund with that ISIN |
| FundsIntoMongo.AfterAllKeys | util/fundsintomongo.js:7-17 | the collection holds exactly the old ISINs and those of the funds |
| FundsIntoMongo.CreatedCountIsNewIsins | util/fundsintomongo.js:8-16 | `inserted` is the number of distinct ISINs that had no document, so a repeated ISIN is created once |
| FundsIntoMongo.CreatedCountBound | util/fundsintomongo.js:13-15 | never more creations than funds |
| FundsIntoMongo.SecondRunCreatesNothing | util/fundsintomongo.js:7-17 | a second run over the same funds creates nothing |
| FundsIntoMongo.InsertFundsToMongo | util/fundsintomongo.js:3-17 | the loop gives the collection `AfterAll`; `inserted` counts the new ISINs, and `inserted + updated == funds.length` |
| BuildIsinMap.AaKeyParts | util/buildISINMap.js:16 | the parts are the trimmed pieces of the `-` split, at least one of them |
| BuildIsinMap.RowEntry | util/buildISINMap.js:11-24 | defines the entry one row writes, if any; `RowEntryRule` states when and what |
| BuildIsinMap.RowEntryRule | util/buildISINMap.js:11-24 | a row writes an entry iff its trimmed ISIN starts with `INF`, its trimmed name and key are non-empty, and the key has at least three parts; the entry is keyed by the trimmed ISIN and holds the trimmed name and the first three parts |
| BuildIsinMap.IsinMapOf | util/buildISINMap.js:10-27 | defines the map after the rows in order; `IsinMapKeys` and `LastRowWins` state its keys and values |
| BuildIsinMap.IsinMapKeys | util/buildISINMap.js:10-27 | the map's keys are exactly the ISINs of the accepted rows |
| BuildIsinMap.IsinMapKeysAreFunds | util/buildISINMap.js:15 | every key starts with `INF` |
| BuildIsinMap.LastRowWins | util/buildISINMap.js:18-24 | the map holds what the last accepted row for an ISIN wrote |
| BuildIsinMap.ExtraPartsIgnored | util/buildISINMap.js:16-18 | key parts past the third do not change the first three |
| BuildIsinMap.BuildISINMap | util/buildISINMap.js:10-29 | the `forEach` loop builds `IsinMapOf(rows)`, whose keys are the accepted ISINs |
| InsertFundsToDB.Chunked | util/insertFundsToDB.js:18-24 | defines the batches `chunkArray` returns; `ChunkedSpec` states what they are |
| InsertFundsToDB.ChunkedSpec | util/insertFundsToDB.js:18-24 | the chunks concatenate back to the input; each is non-empty and at most `size` long, and all but the last are exactly `size` long |
| InsertFundsToDB.ChunkArray | util/insertFundsToDB.js:18-24 | the `i += size` slicing loop returns `Chunked(a, size)` |
| InsertFundsToDB.OpsFor | util/insertFundsToDB.js:50-83 | every operation is the upsert, stamped with `now`, of a batch fund that is new or whose NAV or date changed; never more operations than funds |
| InsertFundsToDB.BuildOps | util/insertFundsToDB.js:50-83 | the push loop builds exactly `OpsFor` |
| InsertFundsToDB.OpsForMembership | util/insertFundsToDB.js:52-81 | a fund has an upsert iff it is in the batch and is new or changed |
| InsertFundsToDB.OpsForDistinct | util/insertFundsToDB.js:52-81 | with distinct ISINs in a batch, no two operations filter on the same ISIN |
| InsertFundsToDB.NoOpsIff | util/insertFundsToDB.js:85-104 | there are no operations iff no fund of the batch needs a write |
| InsertFundsToDB.NeedsWrite | util/insertFundsToDB.js:54-70 | defines the change test by value: no stored document, or a different NAV or NAV date; `NeedsWriteIff` states its meaning |
| InsertFundsToDB.NeedsWriteIff | util/insertFundsToDB.js:38-70 | against the batch's existing map, a fund needs a write iff the collection does not already hold its NAV and date |
| InsertFundsToDB.ChunkEffect | util/insertFundsToDB.js:36-104 | for a batch of funds with distinct ISINs: afterwards each of its funds is stored with its NAV and date, a written fund exactly as the schema keeps it, and other ISINs are untouched |
| InsertFundsToDB.ChunkRerun | util/insertFundsToDB.js:85-104 | a batch whose funds are all stored gives no operations and no write |
| InsertFundsToDB.AllChunksEffect | util/insertFundsToDB.js:33-108 | for funds with distinct ISINs: after all batches every fund is stored with its NAV and date, and other ISINs are untouched |
| InsertFundsToDB.RerunWritesNothing | util/insertFundsToDB.js:33-108 | when every fund is already stored, a pass changes nothing and issues no `bulkWrite` |
| InsertFundsToDB.SecondRunIsNoOp | util/insertFundsToDB.js:26-110 | idempotence for funds with distinct ISINs: a second call, at any time, changes nothing and writes nothing |
| InsertFundsToDB.DuplicateIsinRewrittenOnRerun | util/insertFundsToDB.js:52-90 | with two funds of one ISIN and different NAVs in a batch, the two orders of the unordered write differ, and a second run writes again |
| InsertFundsToDB.UpsertMutualFundsInBatches | util/insertFundsToDB.js:26-110 | the collection becomes `AfterChunks` of the batches; a ghost result, which the code does not return, counts the batches that issued a `bulkWrite` |
| InsertFundsToDB.InsertFundsToDB | util/insertFundsToDB.js:4-16 | an empty list changes nothing and issues no `bulkWrite`; otherwise one pass with batch size 1000 |
| InsertFundsToDB.OpsForAsWritten | util/insertFundsToDB.js:67-70 | with the `!==` date test as written, every fund gets an upsert, whatever is stored |
| InsertFundsToDB.UnchangedFundRewrittenAsWritten | util/insertFundsToDB.js:67-70 | a stored, unchanged fund gets no operation under the value test, but an upsert under the test as written |
| InsertCategoryToDB.TallyOf | util/insertCategoryToDB.js:17-47 | defines the names and counters after the loop; `TallyKnown`, `TallyTotal` and `TallyInserted` state them |
| InsertCategoryToDB.TallyKnown | util/insertCategoryToDB.js:17-47 | afterwards the stored names are the old ones plus every valid trimmed name |
| InsertCategoryToDB.TallyTotal | util/insertCategoryToDB.js:19-42 | each valid item counts once, as inserted or as existing; invalid items count in neither |
| InsertCategoryToDB.TallyInserted | util/insertCategoryToDB.js:27-42 | `inserted` is the number of distinct valid names not stored before, so a repeated name counts as existing |
| InsertCategoryToDB.RerunInsertsNothing | util/insertCategoryToDB.js:17-47 | a second run with the same input inserts nothing and adds no name |
| InsertCategoryToDB.FindOrCreate | util/insertCategoryToDB.js:27-42 | the name is created iff absent, and is present afterwards; a created name is appended as one new document, unset and unlinked, with the next id, and otherwise the collection is unchanged; only AMFI categories change |
| InsertCategoryToDB.InsertItem | util/insertCategoryToDB.js:18-46 | one turn advances the tally as the loop body does; the inserted count grows by at most one, and exactly when a document for the item's trimmed name is appended, unset and unlinked; an invalid or already stored item leaves the collection as it was |
| InsertCategoryToDB.InsertNames | util/insertCategoryToDB.js:12-47 | the loop's counters and stored names are those of `TallyOf`; exactly `insertedCount` documents are appended, all unset and unlinked, the old ones are kept as a prefix, and unique names stay unique |
| InsertCategoryToDB.InsertAmfiCategories | util/insertCategoryToDB.js:3-67 | a nullish argument throws; a non-array or an empty array gives `{0, 0, 0}` and changes nothing; for an array, `inserted`, `existing` and `total == inserted + existing` are those of `TallyOf`, `errors` is undefined, the stored names are the old ones plus the valid trimmed names, and exactly `inserted` unset, unlinked documents are appended |
| CategoryModel.FirstWhere | helper/categoryInDB.helper.js:153-155 | `findOne` returns the first matching document, or none when nothing matches |
| CategoryModel.ObjectIdOf | controller/category/amfi-category.controller.js:253-255 | a request id casts iff it is 24 hexadecimal digits, to a number below 16^24 |
| CategoryModel.HexValue | controller/category/amfi-category.controller.js:253-255 | the base-16 reading is defined exactly on hexadecimal digits and is below 16 to the power of the length |
| CategoryModel.ObjectIdOfHexText | controller/category/amfi-category.controller.js:253-255 | an id written as 24 lowercase hexadecimal digits casts back to the same id |
| CategoryModel.CategoryStore.AssetClassIdsDistinct | helper/categoryInDB.helper.js:225-227 | asset-class ids never repeat, so the find-by-id is unambiguous |
| CategoryModel.CategoryStore.InsertAssetClass | helper/categoryInDB.helper.js:157-158 | the new asset class is appended with the next id; nothing else changes |
| CategoryModel.CategoryStore.InsertRoute | helper/categoryInDB.helper.js:199-203 | the new route is appended with the next id; nothing else changes |
| CategoryModel.CategoryStore.InsertInstrumentCategory | helper/categoryInDB.helper.js:254-262 | the new instrument category is appended with the next id; nothing else changes |
| CategoryModel.CategoryStore.InsertAmfiCategory | util/insertCategoryToDB.js:31-36 | a new AMFI category is appended `unset` and unlinked with the next id |
| CategoryModel.CategoryStore.ReplaceAmfiCategory | controller/category/amfi-category.controller.js:253-257 | one AMFI category is rewritten under the same id; nothing else changes |
| CategorySeed.FindAssetClass | helper/categoryInDB.helper.js:153-155 | the first asset class with the name, or none |
| CategorySeed.FindRoute | helper/categoryInDB.helper.js:193-196 | the first route with the name and asset-class id, or none |
| CategorySeed.FindInstrument | helper/categoryInDB.helper.js:248-251 | the first instrument category with the name and route id, or none |
| CategorySeed.PopulateAssetClass | helper/categoryInDB.helper.js:151-174 | one find-or-create turn resolves one more seed, creating only seed names and nothing when every name is present |
| CategorySeed.PopulateAssetClasses | helper/categoryInDB.helper.js:151-176 | every seed resolves to the asset class `findOne` returns for its name; only seed names are created; nothing is created when all are present |
| CategorySeed.AssetClassMapOf | helper/categoryInDB.helper.js:177-179 | the name map holds exactly the seed names, each with the id `findOne` gives |
| CategorySeed.FindOrCreateRoute | helper/categoryInDB.helper.js:193-213 | an existing route is returned unchanged; otherwise one is appended; either way the query then finds the returned route |
| CategorySeed.PopulateRoute | helper/categoryInDB.helper.js:183-218 | one turn resolves one more route seed under its asset class id |
| CategorySeed.PopulateRoutes | helper/categoryInDB.helper.js:183-220 | throws iff some route's asset class is not in the map; otherwise every seed resolves and only seed routes are created |
| CategorySeed.AssetClassNameOf | helper/categoryInDB.helper.js:225-227 | the name returned is that of an asset class with the id |
| CategorySeed.BuildRouteMap | helper/categoryInDB.helper.js:223-230 | the `forEach` loop builds `RouteMapOf` |
| CategorySeed.RouteAssetClassNames | helper/categoryInDB.helper.js:224-228 | every route of step 2 hangs on an asset class of step 1, and the name found for it is its seed's asset class |
| CategorySeed.RouteMapEntry | helper/categoryInDB.helper.js:223-230 | a seed's composite key maps to the id of the route found or created for it |
| CategorySeed.RouteMapKeys | helper/categoryInDB.helper.js:223-230 | the route map's keys are exactly the seeds' composite keys |
| CategorySeed.RouteMapOfSeeds | helper/categoryInDB.helper.js:223-230 | with distinct composite keys, each seed's key maps to its route's id and there is no other key |
| CategorySeed.CompositeKeyInjective | helper/categoryInDB.helper.js:228 | the composite key determines route name and asset class when the route name has no bar character |
| CategorySeed.FindOrCreateInstrument | helper/categoryInDB.helper.js:248-272 | an existing category is kept; otherwise one is created copying the seed's name, asset class, route and range under the route id |
| CategorySeed.PopulateInstrument | helper/categoryInDB.helper.js:236-280 | one turn resolves one more instrument seed under its route |
| CategorySeed.PopulateInstruments | helper/categoryInDB.helper.js:234-283 | throws iff some composite key is missing; otherwise every seed resolves and only seed entries are created |
| CategorySeed.RouteAssetClassesExist | helper/categoryInDB.helper.js:7-21 | every route names an asset class of the table, so "Asset Class not found" cannot be thrown |
| CategorySeed.RoutePairsDistinct | helper/categoryInDB.helper.js:13-21 | the seven (route, asset class) pairs are distinct |
| CategorySeed.RouteNamesHaveNoBar | helper/categoryInDB.helper.js:13-21 | no route name contains the bar character that separates the key's two halves |
| CategorySeed.RouteKeysAreDistinct | helper/categoryInDB.helper.js:13-21 | the seven composite keys are distinct, so the route map has seven keys |
| CategorySeed.InstrumentRoutesExist | helper/categoryInDB.helper.js:23-143 | every instrument category's route and asset class form a route of the table, so "Route not found" cannot be thrown |
| CategorySeed.CoreDirectBands | helper/categoryInDB.helper.js:64-87 | only the Core Direct categories have ranges, and they are the contiguous bands [0,100], [100,200], [200,300], [300,1000] with min < max |
| CategorySeed.SeedTablesConsistent | helper/categoryInDB.helper.js:7-143 | the three tables are consistent: no lookup of `populateCategories` throws on them |
| CategorySeed.InstrumentRouteIds | helper/categoryInDB.helper.js:223-245 | after step 2 every table route is in the store and the map sends each instrument's key to its route's id |
| CategorySeed.FinalSeedPresent | helper/categoryInDB.helper.js:145-283 | after a successful run every table entry is in the store |
| CategorySeed.PresentRoutesFound | helper/categoryInDB.helper.js:193-198 | when the tables are present, step 2 finds every route |
| CategorySeed.PresentInstrumentsFound | helper/categoryInDB.helper.js:248-253 | when the tables are present, step 3 finds every instrument category |
| CategorySeed.NewInstrumentsOnRoutes | helper/categoryInDB.helper.js:254-261 | each created instrument category copies its table entry and hangs on that entry's route |
| CategorySeed.AssetClassStep | helper/categoryInDB.helper.js:149-179 | step 1: every asset class of the table is present with unique ids; a store holding all entries is unchanged |
| CategorySeed.RouteStep | helper/categoryInDB.helper.js:181-230 | step 2 and the route map: every table route is present and the map is sound; nothing is created when all routes were there |
| CategorySeed.PopulateRouteMap | helper/categoryInDB.helper.js:149-230 | steps 1 and 2: asset classes and routes present and a sound map; nothing created on a full store |
| CategorySeed.PopulateCategoriesFrom | helper/categoryInDB.helper.js:145-297 | the summary gives the table sizes; every entry is then present; AMFI categories are untouched; created categories copy their entries; a second run creates nothing |
| CategorySeed.PopulateCategories | helper/categoryInDB.helper.js:288-292 | on the seed tables the summary is 3, 7, 23, with the guarantees above |
| NavService.NeedsRefetch | index.js:103-107 | defines the refetch test: no cache, no timestamp, or older than 300000 ms; `CacheLifetime` states the boundary |
| NavService.CacheLifetime | index.js:99-107 | a cache filled at a non-zero time serves up to exactly 300000 ms later and refetches one millisecond after |
| NavService.ParseRecordPayoutFirst | index.js:129-166 | every entry has a non-empty ISIN and name and an empty category list |
| NavService.SelectIsinPayoutFirst | index.js:141-146 | defines the ISIN choice, payout first; `PayoutIsinPreferred` states it |
| NavService.PayoutIsinPreferred | index.js:141-146 | a usable payout ISIN wins even over a usable reinvestment ISIN; the reinvestment ISIN is taken only otherwise |
| NavService.ParsersDifferOnlyInIsin | index.js:129-157 | this parser and util/fetchMFData.js keep the same records, built from the same trimmed name and the same NAV and date text; the ISINs differ only when both are usable, this parser taking the payout ISIN and the other the reinvestment ISIN |
| NavService.ParsedFunds | index.js:126-167 | never more entries than lines |
| NavService.ParsedFundsMatch | index.js:126-167 | both parsers give equally many entries, pairwise with the same trimmed name and the same NAV and date text; only the ISIN and the category may differ |
| NavService.ParseFeed | index.js:118-167 | the parse loop returns exactly the entries of the kept lines |
| NavService.FilterMatches | index.js:179-185 | exactly the funds whose lowercased name, ISIN or a category contains the search text are kept |
| NavService.SearchFilter | index.js:176-186 | an empty search keeps every fund; otherwise exactly the matching ones |
| NavService.FilterMatchesAppend | index.js:179-185 | the filter keeps order |
| NavService.PageOf | index.js:188-201 | defines the page and its pagination object; `PageContents`, `PageFlags` and `EveryFundOnItsPage` state them |
| NavService.PageContents | index.js:188-191 | the page holds the funds from `(page - 1) * limit` on, in order, as many as remain up to `limit` |
| NavService.PageFlags | index.js:199-201 | `hasNext` iff this is before the last page; `hasPrev` iff it is after the first |
| NavService.EveryFundOnItsPage | index.js:189-191 | fund `i` is item `i % limit` of page `i / limit + 1` |
| NavService.NavCache.constructor | index.js:97-98 | the cache starts empty, with no timestamp |
| NavService.NavCache.FetchAndPrintNAVs | index.js:100-202 | a stale cache is refilled from the feed, stamped `now` and written to the collection; a fresh one is left as it is; the result is the requested page of the searched cache |
| MutualFundController.WithCategory | controller/mutualFundController.js:73-81 | the list is unchanged iff it already holds the category in some case; otherwise the normalised name is appended; it holds the category afterwards |
| MutualFundController.AddTwiceIsAddOnce | controller/mutualFundController.js:73-81 | adding the same category twice, in any case and spacing, is adding it once |
| MutualFundController.WithCategoryKeepsListClean | controller/mutualFundController.js:73-81 | adding keeps a list free of case-insensitive duplicates, and a lowercase list lowercase |
| MutualFundController.FundDocument.constructor | controller/mutualFundController.js:64 | a fund document with the given categories |
| MutualFundController.AddCategory | controller/mutualFundController.js:55-91 | a blank category gives 400; a non-string category or an id that is not 24 hexadecimal digits throws and gives 500; a well-formed id with no fund gives 404; all leave every document as it was; otherwise 200, with the fund's list (empty if it had none) given the category and no other document changed |
| MutualFundController.ListPagination | controller/mutualFundController.js:5-36 | defines the pagination object; `ListPaginationFlags` states its defaults and flags |
| MutualFundController.ListPaginationFlags | controller/mutualFundController.js:5-36 | page defaults to 1 and limit to 100; `hasNext` iff the page is before the last; `hasPrev` iff it is after the first |
| AmfiCategoryController.Escape | controller/category/amfi-category.controller.js:17 | defines the escaping `replace`; `EscapeLength`, `UnescapeEscape`, `EscapePlain` and `EscapeAppend` state it |
| AmfiCategoryController.EscapeLength | controller/category/amfi-category.controller.js:17 | escaping adds exactly one character per metacharacter |
| AmfiCategoryController.UnescapeEscape | controller/category/amfi-category.controller.js:17 | removing the inserted backslashes gives back the search text |
| AmfiCategoryController.EscapePlain | controller/category/amfi-category.controller.js:17 | text without metacharacters is unchanged |
| AmfiCategoryController.EscapeAppend | controller/category/amfi-category.controller.js:17 | escaping works character by character |
| AmfiCategoryController.ListPagination | controller/category/amfi-category.controller.js:8-124 | defines the pagination object; `ListPaginationMeaning` states its meaning |
| AmfiCategoryController.ListPaginationMeaning | controller/category/amfi-category.controller.js:8-124 | defaults page 1 and 10 items; no count document means 0 items and 0 pages; there is a next page iff items remain after this page, and a previous one iff items are skipped |
| AmfiCategoryController.FindAmfiById | controller/category/amfi-category.controller.js:215 | `findById` gives the category with the id, or none when no category has it |
| AmfiCategoryController.FindInstrumentById | controller/category/amfi-category.controller.js:276-278 | `findById` gives the instrument category with the id, or none |
| AmfiCategoryController.AmfiIndexOf | controller/category/amfi-category.controller.js:253-260 | a request id finds a category iff it casts and some category has that id, and then it is that category |
| AmfiCategoryController.AddAmfiCategory | controller/category/amfi-category.controller.js:225-242 | a missing, empty or already-used name gives 500 with nothing changed; otherwise 201 and an appended unset, unlinked category; names stay unique |
| AmfiCategoryController.AppendKeepsInvariants | controller/category/amfi-category.controller.js:236-237 | appending an unlinked category with a new name keeps names unique and links consistent |
| AmfiCategoryController.UpdateAmfiCategoryStatus | controller/category/amfi-category.controller.js:244-265 | 200 iff both fields are present, the status is `set` or `unset` and the id names a category; then only that status changes; otherwise 500 and nothing changes |
| AmfiCategoryController.StatusChangeInvariants | controller/category/amfi-category.controller.js:253-257 | a status change keeps names unique; on a store whose linked categories are `set` it keeps that iff the new status is `set` or the category is unlinked |
| AmfiCategoryController.LinkInstrumentCategoryToAmfiCategory | controller/category/amfi-category.controller.js:267-297 | 200 iff both ids are present and both records exist; then the category is linked with status `set`; otherwise 500 and nothing changes |
| AmfiCategoryController.RenameRequestValid | controller/category/amfi-category.controller.js:301-303 | defines the check a request passes: both fields are strings, the id is not blank and is 24 UTF-16 code units long, and the name is not blank; `UpdateAmfiCategory` answers 400 iff it fails and `trim` does not throw |
| AmfiCategoryController.UpdateAmfiCategory | controller/category/amfi-category.controller.js:299-318 | a truthy non-string id, or a truthy non-string name after an id that passes, makes `trim` throw outside the `try`, so no response is sent; any other failed check gives 400; a valid request whose id does not cast or names no category gives 500; otherwise 200, with the category renamed to the name as sent and reset to `unset`; every answer but 200 changes nothing |
| AmfiCategoryController.RenameCheckThrows | controller/category/amfi-category.controller.js:301 | defines when the check itself throws: the `trim` of a truthy non-string id, or of a truthy non-string name once the id checks pass; `UpdateAmfiCategory` leaves the request unanswered iff it holds |
| AmfiCategoryController.AstralIdPassesLengthCheck | controller/category/amfi-category.controller.js:301-309 | an id of 22 hexadecimal digits and one astral character has `length` 24, passes the request check, yet does not cast, so it gets 500 rather than 400 |
| Js.Utf16Length | controller/category/amfi-category.controller.js:301 | JavaScript's `length` counts UTF-16 code units: between one and two per character, exactly one per character when all are in the Basic Multilingual Plane |
| Js.Utf16LengthAppend | controller/category/amfi-category.controller.js:301 | the `length` of a concatenation is the sum of the lengths |
| AmfiCategoryController.RenameInvariants | controller/category/amfi-category.controller.js:305-309 | on a store with unique names a rename keeps them unique iff no other category has the new name; on a store whose linked categories are `set` it keeps that iff the category is unlinked |

## Left out

- HTTP fetching (axios, timeout, error branches) is not modelled. The feed text is an input, so the "return `[]` on error" path of util/fetchMFData.js does not arise.
- Spreadsheet reading (`xlsx.readFile`, `sheet_to_json`) is not modelled. The rows are an input, and an absent cell is the empty text.
- `parseFloat` and `new Date` are not modelled. NAV and date stay the feed's text, and only the `isNaN(parseFloat(...))` test is modelled. The date is never checked for validity, in the code as in the model.
- `p-limit` and `Promise.all` are not modelled. Batches and seed entries are processed one after the other, so interleavings of concurrent find-then-create are not captured.
- Mongo failures are not modelled: no write fails in the model. This leaves out the rethrow of util/insertFundsToDB.js and the `errors` list of util/insertCategoryToDB.js, which is therefore always undefined.
- Aggregation pipelines are not modelled: `$lookup`, `$match`, `$sort`, `$skip`, `$limit` and `$count` are out. The count document is an input, and the search regex is modelled only as its escaping.
- Unique indexes are not modelled, nor the list query and `countDocuments` of `listMutualFunds`.
- `Date.now()` and `new Date()` become a `now` parameter.
- `console` output is not modelled.
- The "Updated upstream" half of index.js (lines 1-83 and 203-213) is not modelled. It is a merge-conflict remnant, and its `buildISINMap` and older loop are not valid code.
- The default `page = 1, limit = 100` of `fetchAndPrintNAVs` and the `parseInt(page)` in its result are not modelled; page and limit are integers supplied by the caller.
- `getAmfiCategoryById`, `deleteAmfiCategory` and `allAmfiCategories` are not modelled. Their logic is a presence check and a store call, or a pipeline with no page arithmetic.
- `getStats` is not modelled. It is one `countDocuments` call.
- The other category controllers and route files are not modelled. They repeat the same pagination and presence checks.
- The AMFI category schema is not part of this model; models/category.model.js does not declare it. It is taken to be `{name, status: 'set' | 'unset', instrumentCategorySchema}`, with a new document `unset` and unlinked.
- controller/mutualFundController.js loads a fund model file that is not part of this model. Its `categories` field is taken to be an optional list of names.
- The `amfiCategory` field of a created instrument category is not modelled. The seed tables never give it, so it is always undefined.
- `CategoryModel.ObjectIdOf`: a request id casts only when it is 24 hexadecimal digits. Mongoose's other accepted forms are left out.
- Mongoose schema casting is modelled only as the dropping of paths models/mf.model.js does not declare (`category`, `createdAt`). `nav` and `navDate` stay text and are not cast to a Number and a Date. So the model's change test calls `"10.50"` against a stored `"10.5"` a change where the stored numbers would be equal. The `categories` path of a stored fund is not modelled.
- `MutualFundModel.FundStore.BulkWrite`: applies the operations in list order, while `ordered: false` leaves the order to the server. With distinct filters the order does not matter (`BulkWriteOrderFree`). When a batch repeats an ISIN, the code does not fix which fund's fields win; the model takes the last (`DuplicateIsinRewrittenOnRerun`).
- `InsertFundsToDB.SecondRunIsNoOp`: proved only for funds with distinct ISINs, as are `ChunkEffect` and `AllChunksEffect`. Nothing in the code makes ISINs distinct, and with a repeated ISIN a second run writes again (`DuplicateIsinRewrittenOnRerun`).
- `Js.ToLower`: lowercases ASCII letters only, because Unicode case mapping is not modelled.
- `InsertFundsToDB.ChunkArray`: requires `size >= 1`, because the `chunkArray` loop does not terminate for a size of 0 or less and every caller passes 1000.
- `InsertFundsToDB.OpsFor`: compares NAV dates by value, not as written (see Findings).
- `NavService.ParsersDifferOnlyInIsin`: like `NavService.ParsedFundsMatch`, compares the NAV as text. util/fetchMFData.js:74 stores `parseFloat(nav)`, a number, while index.js:164 stores the raw, untrimmed `nav` text, so the two entries agree on the text they are built from but not on the stored value. The category also differs: `null` against `[]`.
- `NavService.NavCache.FetchAndPrintNAVs`: the `totalPages` of a zero page size is `None`, because `Math.ceil(total / 0)` is not a finite number.

## Findings

| source | as written | input that shows it | evidently intended | confidence | as-written member | corrected member |
|---|---|---|---|---|---|---|
| util/insertFundsToDB.js:67-70 | `existing.navDate !== fund.navDate` compares two distinct `Date` objects by identity, so it always holds and every existing fund is re-upserted | a fund already stored with NAV `10.5` and date `01-Jan-2024`, sent again unchanged | compare the dates by value, so an unchanged fund gives no operation and, for funds with distinct ISINs, a second run writes nothing | not executed | InsertFundsToDB.UnchangedFundRewrittenAsWritten | InsertFundsToDB.SecondRunIsNoOp |
