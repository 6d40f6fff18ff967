# Form 700 sync from NetFile to DataSF, modelled in Dafny

This project models the core of `Form700_Blocking` in
`scripts/eth_seisync/netfile_client.py`: a one-way sync of Form 700 filings
from NetFile's export API into DataSF (a Socrata catalog). The sync
- pulls the cover pages and then the schedule pages;
- reshapes each nested JSON record into flat rows of the target schema;
- joins every schedule item to its filing's cover record;
- keeps reconciliation counters (`sanity_check`);
- loads each category's rows in chunks of 1000, replacing the dataset with
  the first chunk and upserting the rest.

NetFile and the catalog are inputs to the model. NetFile is a function from a
page request to a status and a JSON body. The catalog is a function from a
write to its reply (`Errors`, `Rows Created`, or an exception). Every
`sys.exit` and every uncaught exception becomes an `Err(Halt)` result.

Modules, one per component of the client:

- `values.dfy` (`Values`): JSON values, rows (`map<string, Value>`), the halt
  kinds, and the few Python behaviours the code relies on. These are iterating
  a value, indexing it, `str()` of a scalar, dictionary-key hashing (`True`
  is `1`) and `==` between a JSON total and an int counter.
- `dates.dfy` (`Dates`): `castDate`.
- `flatten.dfy` (`Flatten`): `flattenOffices`, `flattenIncomeSources`.
- `schemas.dfy` (`Schemas`): categories, schemas, `date_columns`, `pickKeys`,
  `deal_with_dates`.
- `explode.dfy` (`Explode`): `explodeScheduleA2`, `explodeScheduleB`,
  `explodeScheduleD`.
- `ledger.dfy` (`Ledger`): the client's state as a value (join table, row
  stores, counters, reset flags), its initial value, the bookkeeping
  invariant `Accounted`, and the three checkpoint predicates.
- `transform.dfy` (`Transform`): `transformCoverResponse` and
  `transformScheduleResponse` as functions from the state and a page to the
  new state.
- `loader.dfy` (`Loader`): chunking, the replace/upsert choice of
  `sendToDataSF`, and `loadData` as a function of the state and the catalog.
- `sync.dfy` (`SyncFlow`): the page order and checkpoint order of `sync`, as
  a function of NetFile's responses and the catalog's replies.
- `client.dfy` (`Client`): the client object as a class, `Form700`. Its
  fields are `filings`, `data`, `counters` and `wasReset`, and its methods
  update them in place with the source's loops. Each method is proved to
  halt exactly when the functional model of the same step halts, and
  otherwise to leave exactly the state that model gives. The properties
  proved about those functions therefore hold of the object.

### Where the code differs from a plain reading

- Office text. Line 154 ends the f-string's first line with a backslash, so
  the newline is dropped but the 28 spaces that indent line 155 remain. An
  office renders as `position + " - " + 28 spaces + district`, not as
  `"<position> - <district>"`. The model follows the code
  (`Flatten.OFFICE_SEPARATOR`, `Flatten.FlattenTwoOffices`).
- Schedule paging. The loop at lines 539-546 runs while the page is below
  `totalMatchingPages`, and one more page is fetched afterwards (547-551).
  So pages 1..T are read when T >= 2, but pages 1 and 2 when T <= 1. The
  model reproduces this (`SyncFlow.PageLists`). With T = 1 the second
  request is for a page past the end. What NetFile answers there is an
  input of the model.
- Reset flags are per category. A category whose store is empty issues no
  write at all, so its dataset is never replaced and keeps the previous run's
  rows (`Loader.LoadDataState`: the flag becomes true only if rows were
  stored).
- The per-category `loadConfirm` results of the schedule load are discarded
  (line 567). Only the aggregate `items` check halts. Passing every
  per-category check implies the aggregate one (`Ledger.CategoryChecksGiveItems`),
  but not the other way round (`Ledger.ItemsCheckHidesCategoryMismatch`).
- Schedule rows are date-cast after the join, so the filing columns joined in
  (already cast on the cover) are cast a second time. A second cast changes a
  value exactly when the first cast produced a `M/D/YYYY` string or a
  33-character one (`Dates.CastDateTwice`). Both cases can happen
  (`Dates.TruncationExposesSlashDate`, `Dates.LongSlashDateReaches33`).
- The schemas are not validated. A schema column missing from a row halts
  with a `KeyError` (`Schemas.PickKeysSpec`).

## Model

| member | source | states |
|---|---|---|
| `Dates.CastDateDomain` | scripts/eth_seisync/netfile_client.py:128-133 | castDate succeeds exactly on None and strings, and gives None exactly for None and "" |
| `Dates.CastDateNonEmpty` | scripts/eth_seisync/netfile_client.py:130-145 | castDate never returns the empty string |
| `Dates.SlashDateShape` | scripts/eth_seisync/netfile_client.py:128-134 | the `M/D/YYYY` pattern accepts a string iff it is a non-empty digit run, "/", a non-empty digit run, "/", four digits; its groups are those three parts |
| `Dates.CastDateSlash` | scripts/eth_seisync/netfile_client.py:134-139 | a `M/D/YYYY` string becomes year-month-day with month and day zero-filled to two digits, whatever its length (also at 33) |
| `Dates.CastDateKeeps` | scripts/eth_seisync/netfile_client.py:140-141 | any other non-empty string whose length is not 33 is returned unchanged |
| `Dates.CastDateTruncates` | scripts/eth_seisync/netfile_client.py:142-145 | a 33-character string that is not `M/D/YYYY` becomes its first 19 characters |
| `Dates.CastDateTwice` | scripts/eth_seisync/netfile_client.py:134-145 | casting a cast value again changes it iff the first result is itself `M/D/YYYY` or 33 characters long |
| `Dates.TruncationExposesSlashDate` | scripts/eth_seisync/netfile_client.py:140-145 | a 33-character string can truncate to a `M/D/YYYY` date, which a second cast rewrites |
| `Dates.LongSlashDateReaches33` | scripts/eth_seisync/netfile_client.py:134-139 | a `M/D/YYYY` date with long groups casts to a 33-character string, which a second cast truncates |
| `Flatten.FlattenOfficesEntries` | scripts/eth_seisync/netfile_client.py:147-156 | one entry per office in list order, each position + separator + district, joined by single spaces; "" for no offices; halts iff some office lacks a field |
| `Flatten.FlattenTwoOffices` | scripts/eth_seisync/netfile_client.py:153-156 | two offices render with " - " followed by 28 spaces between position and district |
| `Flatten.FlattenIncomeSourcesNames` | scripts/eth_seisync/netfile_client.py:158-166 | the names, in order, joined by "\|"; "" for no sources; halts iff some source has no printable name |
| `Flatten.FlattenIncomeSourcesRoundTrip` | scripts/eth_seisync/netfile_client.py:158-166 | for one or more named sources none of whose names contains "\|", splitting the result at "\|" gives back exactly the names, in order |
| `Flatten.FlattenIncomeSourcesEmpty` | scripts/eth_seisync/netfile_client.py:158-166 | the result is "" exactly for an empty list, an empty string, an empty record (Python iterates these to nothing) or a single source named ""; any other value that is not a list halts |
| `Schemas.DateColumnsSpec` | scripts/eth_seisync/netfile_client.py:71-76 | the date columns are exactly the schema columns typed "date", each once, in schema order |
| `Schemas.CollectDateColumns` | scripts/eth_seisync/netfile_client.py:72-76 | the `__init__` loop collects exactly the date columns of the schema |
| `Schemas.PickColumnsSpec` | scripts/eth_seisync/netfile_client.py:230-236 | projection succeeds iff every column is present, then keeps exactly those columns with the row's values; otherwise it halts on the first missing one |
| `Schemas.PickKeysSpec` | scripts/eth_seisync/netfile_client.py:230-236 | pickKeys returns exactly the schema's columns, each copied from the row; extra fields are dropped |
| `Schemas.CastColumnsSpec` | scripts/eth_seisync/netfile_client.py:222-228 | deal_with_dates succeeds iff every date column is present and castable; it rewrites those columns with castDate, keeps every other field and adds none |
| `Schemas.DealWithDates` | scripts/eth_seisync/netfile_client.py:222-228 | the in-place loop computes the rewrite of CastColumnsSpec, halting where it does |
| `Explode.CopyPrefixed` | scripts/eth_seisync/netfile_client.py:193-194 | the copy loop adds `prefix + k` for every key k of the nested record and keeps every other field |
| `Explode.ExplodeScheduleA2` | scripts/eth_seisync/netfile_client.py:168-198 | the method yields the rows ExplodeA2Empty and ExplodeA2Many describe |
| `Explode.ExplodeProperties` | scripts/eth_seisync/netfile_client.py:191-197 | the loop over real properties yields one projected row per property, in order |
| `Explode.ExplodeA2Empty` | scripts/eth_seisync/netfile_client.py:173-189 | no real properties: the row is produced iff every schema column is an item key or one of the eleven realProperty columns, and is not `realProperties`; it is exactly one row, the eleven realProperty columns None, other columns from the item, `realProperties` dropped |
| `Explode.ExplodeA2Many` | scripts/eth_seisync/netfile_client.py:190-197 | N properties: the rows are produced iff every property is a record and every schema column other than `realProperties` is an item key or `realProperty_k` for a key k of that property; then exactly N rows in order, row i has `realProperty_k` = property i's k and the item's value elsewhere; a non-record property halts |
| `Explode.ExplodeScheduleB` | scripts/eth_seisync/netfile_client.py:200-205 | the method yields the single row ExplodeBSpec describes |
| `Explode.ExplodeBSpec` | scripts/eth_seisync/netfile_client.py:200-205 | the row is produced iff `loan` is present and a record and every schema column other than `loan` is an item key or `loan_k` for a key k of the loan; it is exactly one row: `loan_k` = loan's k, item's value elsewhere, `loan` dropped; a non-record loan halts |
| `Explode.CopyGiftFields` | scripts/eth_seisync/netfile_client.py:215-216 | the loop copies the listed gift fields onto the row, halting on the first missing one |
| `Explode.CopyGiftFieldsSpec` | scripts/eth_seisync/netfile_client.py:212-216 | copying succeeds iff the gift has amount, description and giftDate, and then overrides exactly those three |
| `Explode.ExplodeScheduleD` | scripts/eth_seisync/netfile_client.py:207-220 | the method yields the rows ExplodeDSpec describes |
| `Explode.ExplodeGifts` | scripts/eth_seisync/netfile_client.py:213-219 | the loop over gifts yields one projected row per gift, in order |
| `Explode.ExplodeDSpec` | scripts/eth_seisync/netfile_client.py:207-220 | the rows are produced iff every gift is a record with amount, description and giftDate and (when there is a gift) every schema column other than `gifts` is an item key or one of those three; then one row per gift in order (none for no gifts), those three from the gift, item's value elsewhere, `gifts` dropped |
| `Ledger.InitialState` | scripts/eth_seisync/netfile_client.py:69-100 | every category starts with an empty store, zero counters and a cleared reset flag; `items` has zero counters; no filings |
| `Ledger.InitialAccounted` | scripts/eth_seisync/netfile_client.py:91-100 | the initial counters satisfy the bookkeeping invariant |
| `Ledger.ItemsChecks` | scripts/eth_seisync/netfile_client.py:267-281 | on balanced books the schedule extract check compares NetFile's total with the received count summed over the seven schedules, and the `items` load check compares created with sent summed likewise |
| `Ledger.CategoryChecksGiveItems` | scripts/eth_seisync/netfile_client.py:562-572 | if every schedule category passes loadConfirm, sent and created sums agree |
| `Ledger.ItemsCheckHidesCategoryMismatch` | scripts/eth_seisync/netfile_client.py:566-572 | on balanced books where comments sent two rows and one was created while A1 sent one and two were reported created, the aggregate check passes and the comments check fails |
| `Loader.ChunksShape` | scripts/eth_seisync/netfile_client.py:426 | there are ceil(n/1000) chunks; chunk i is the slice from row 1000·i, 1000 rows long except the last |
| `Loader.ChunksConcat` | scripts/eth_seisync/netfile_client.py:426 | the chunks concatenate back to the row store, and each holds 1 to 1000 rows |
| `Loader.ModeFor` | scripts/eth_seisync/netfile_client.py:412-415 | replace is chosen iff the category was not reset |
| `Loader.WritesFromSpec` | scripts/eth_seisync/netfile_client.py:427-445 | the chunk loop issues one write per chunk in order, replacing only on the first chunk of a not-yet-reset category; it finishes iff every reply was accepted |
| `Loader.LoadDataWrites` | scripts/eth_seisync/netfile_client.py:418-447 | loadData writes chunk i in replace mode iff i = 0 and the category was not reset; it halts iff a reply raised or reported errors |
| `Loader.LoadDataState` | scripts/eth_seisync/netfile_client.py:427-447 | after loadData the category is reset iff it was or it stored rows; `created` grows by the rows created for the category and, unless it is the cover, for `items`; nothing else changes |
| `Loader.LoadDataAccounted` | scripts/eth_seisync/netfile_client.py:442-445 | loading keeps the books balanced |
| `Loader.LoadConfirmAfterLoad` | scripts/eth_seisync/netfile_client.py:449-459 | from zero created, loadConfirm holds after the load iff the catalog created as many rows as the category stores |
| `Transform.TalliedAccounted` | scripts/eth_seisync/netfile_client.py:318-324 | counting a page's rows and storing them keeps the books balanced |
| `Transform.CoverRowSpec` | scripts/eth_seisync/netfile_client.py:299-316 | a filing's stored row and join record hold its fields with dates cast and `offices` flattened; the row holds exactly the schema columns, the record exactly the filer columns; a non-record filing halts, and so does every filing when the schema types `offices` as a date |
| `Transform.CoverRowsRows` | scripts/eth_seisync/netfile_client.py:299-316 | a cover page appends one row per filing, in order |
| `Transform.CoverRowsTable` | scripts/eth_seisync/netfile_client.py:307-311 | each filing's record lands in the join table under its filingId; the last filing with an id wins; other ids keep their records |
| `Transform.CoverDuplicateKeepsLast` | scripts/eth_seisync/netfile_client.py:307-316 | two filings with one id: both rows are stored, the join table keeps the second record |
| `Transform.CoverPageSpec` | scripts/eth_seisync/netfile_client.py:283-325 | a cover page adds its filing count to the cover's received and send, appends each filing's stored row in page order, lays each filing's filer into the join table (a later filing with the same filingId replaces an earlier one, other filers are kept), sets the total only on page 1, touches no schedule category, and keeps the books balanced |
| `Transform.JoinFilingSpec` | scripts/eth_seisync/netfile_client.py:356-362 | the join succeeds iff the item's filingId names a known filing; the filer fields then override the item's own; an unknown id halts |
| `Transform.ItemUnknownFiling` | scripts/eth_seisync/netfile_client.py:356-360 | an item with a missing or unknown filingId halts with the missing-filing error |
| `Transform.ItemRowsSpec` | scripts/eth_seisync/netfile_client.py:354-391 | an item halts iff its join, flattening, reshaping or a date cast does; otherwise it yields its reshaped rows, each date-cast, in order |
| `Transform.PlainItemRow` | scripts/eth_seisync/netfile_client.py:388-391 | comments, A1, C and E items give exactly one row of the schema's columns from the joined item, date columns cast |
| `Transform.CategoryRowsSpec` | scripts/eth_seisync/netfile_client.py:354-391 | the item loop halts iff an item does, and otherwise appends every item's rows in order |
| `Transform.ItemsTotal` | scripts/eth_seisync/netfile_client.py:343-345 | `items.total` is set from the page's totalMatchingCount on page 1 only; nothing else changes |
| `Transform.ScheduleCategoryBooks` | scripts/eth_seisync/netfile_client.py:340-395 | one category's turn keeps the books balanced and leaves other categories, the join table and the reset flags alone |
| `Transform.SchedulePageSpec` | scripts/eth_seisync/netfile_client.py:327-397 | a schedule page grows each category's received by its item count and its store by exactly its rows; `items.total` only on page 1; the cover and the join table are untouched; the books stay balanced |
| `SyncFlow.Extract` | scripts/eth_seisync/netfile_client.py:247-256 | a page request succeeds iff the status is 200 or 201; otherwise it halts with that status |
| `SyncFlow.Authenticated` | scripts/eth_seisync/netfile_client.py:485-490 | authentication succeeds iff the status is 200, 201 or 202 |
| `SyncFlow.PageLists` | scripts/eth_seisync/netfile_client.py:493-551 | covers read pages 1..max(T,1); schedules read 1..T when T ≥ 2 but pages 1 and 2 when T ≤ 1 |
| `SyncFlow.ExtractCovers` | scripts/eth_seisync/netfile_client.py:492-509 | a finished cover extraction made exactly the cover requests for the page count page 1 announced |
| `SyncFlow.ExtractSchedulesRequests` | scripts/eth_seisync/netfile_client.py:527-551 | a finished schedule extraction made exactly the schedule requests for the page count page 1 announced |
| `SyncFlow.SyncAuthFails` | scripts/eth_seisync/netfile_client.py:484-490 | a failed authentication halts the run with its status |
| `SyncFlow.SyncRunPhases` | scripts/eth_seisync/netfile_client.py:527-574 | a finished run ends with exactly the filer join table the cover half built: the schedule pages and loads only read it |
| `SyncFlow.SyncRequests` | scripts/eth_seisync/netfile_client.py:492-551 | a finished run requested the cover pages, then the schedule pages, exactly as PageLists describes |
| `SyncFlow.LoadFreshCategory` | scripts/eth_seisync/netfile_client.py:427-435 | loading a never-reset category replaces exactly with its first chunk |
| `SyncFlow.LoadSchedulesBooks` | scripts/eth_seisync/netfile_client.py:561-567 | the schedule loads keep the books balanced, leave the cover counters, the filer table and the items received and total alone, and replace only on first chunks |
| `SyncFlow.CoverPhaseBooks` | scripts/eth_seisync/netfile_client.py:492-525 | after the cover half, both cover checks hold, the books balance, and no schedule category is reset |
| `SyncFlow.SchedulePhaseBooks` | scripts/eth_seisync/netfile_client.py:527-572 | after the schedule half, all four checkpoints hold, every replace carried a first chunk, and the filer table is the one the cover half left |
| `SyncFlow.SyncChecks` | scripts/eth_seisync/netfile_client.py:472-574 | a finished run passed every checkpoint, its books balance, and each write replaced iff it carried a category's first chunk |
| `Client.DealWithEach` | scripts/eth_seisync/netfile_client.py:376-378 | the loop date-casts every exploded row, in order, halting on the first failure |
| `Client.Form700.constructor` | scripts/eth_seisync/netfile_client.py:17-100 | `__init__` collects every category's date columns from its schema and leaves the initial state of Ledger.InitialState |
| `Client.Form700.CategoryTables` | scripts/eth_seisync/netfile_client.py:69-81 | the loop over the schema categories gives every category its schema's date columns (in schema order, no repeats), an empty row store and a cleared reset flag |
| `Client.Form700.SaveResponseTemp` | scripts/eth_seisync/netfile_client.py:399-404 | the rows are appended to the category's store; nothing else changes |
| `Client.Form700.AddReceived` | scripts/eth_seisync/netfile_client.py:346-349 | received grows for the category and, for a schedule, for `items` |
| `Client.Form700.SendRows` | scripts/eth_seisync/netfile_client.py:392-395 | send grows by the rows for the category and, for a schedule, for `items`, and the rows are stored |
| `Client.Form700.JoinFilings` | scripts/eth_seisync/netfile_client.py:299-316 | the in-place filing loop leaves the join table and the rows of Transform.CoverRowsTable and CoverRowsRows |
| `Client.Form700.TransformPage` | scripts/eth_seisync/netfile_client.py:499-551 | a page of the cover endpoint goes through the cover transform and a page of the schedule endpoint through the schedule transform; the method halts iff that transform does, and otherwise leaves its state |
| `Client.Form700.TransformCoverResponse` | scripts/eth_seisync/netfile_client.py:283-325 | the method halts iff the cover-page model does, and otherwise leaves the state Transform.CoverPageSpec describes |
| `Client.Form700.TransformItem` | scripts/eth_seisync/netfile_client.py:354-391 | one item's rows, as Transform.ItemRowsSpec describes |
| `Client.Form700.ShapeRows` | scripts/eth_seisync/netfile_client.py:371-391 | A2 and D items explode into their rows, B and the rest give one row, and every row is date-cast in order; the first halt stops it |
| `Client.Form700.TransformItems` | scripts/eth_seisync/netfile_client.py:354-391 | the item loop's rows, as Transform.CategoryRowsSpec describes |
| `Client.Form700.SetItemsTotal` | scripts/eth_seisync/netfile_client.py:343-345 | `items.total` is set on page 1 only |
| `Client.Form700.StoreItems` | scripts/eth_seisync/netfile_client.py:346-395 | a listed category is counted as received, transformed, counted as sent and stored; an empty one changes nothing |
| `Client.Form700.TransformCategory` | scripts/eth_seisync/netfile_client.py:340-395 | one category's turn of the schedule loop, as the model gives it |
| `Client.Form700.TransformScheduleResponse` | scripts/eth_seisync/netfile_client.py:327-397 | the method halts iff the schedule-page model does, and otherwise leaves the state Transform.SchedulePageSpec describes |
| `Client.Form700.CountCreated` | scripts/eth_seisync/netfile_client.py:442-445 | created grows for the category and, unless it is the cover, for `items` |
| `Client.Form700.LoadChunk` | scripts/eth_seisync/netfile_client.py:427-445 | the chunk is written in replace mode iff the category was not reset; the flag is then set; errors halt; created rows are counted |
| `Client.Form700.LoadData` | scripts/eth_seisync/netfile_client.py:418-447 | the chunk loop halts iff the load model does, and otherwise gives the writes and state of Loader.LoadDataWrites and LoadDataState |
| `Client.Form700.FetchPage` | scripts/eth_seisync/netfile_client.py:505-508 | one page is requested and transformed, or the run halts |
| `Client.Form700.PageLoop` | scripts/eth_seisync/netfile_client.py:504-509 | the while loop requests every page from lo below hi, in order, and stops on max(lo, hi) |
| `Client.Form700.CoverPages` | scripts/eth_seisync/netfile_client.py:492-509 | the cover extraction halts iff the model does, and otherwise makes the requests of SyncFlow.ExtractCovers |
| `Client.Form700.SchedulePages` | scripts/eth_seisync/netfile_client.py:527-551 | the schedule extraction halts iff the model does, and otherwise makes the requests of SyncFlow.ExtractSchedulesRequests |
| `Client.Form700.LoadSchedules` | scripts/eth_seisync/netfile_client.py:561-567 | every schedule category is loaded in order; the per-category check is computed and ignored |
| `Client.Form700.CoverHalf` | scripts/eth_seisync/netfile_client.py:492-525 | the cover half halts iff SyncFlow.CoverPhase does, and otherwise ends in its state, requests and writes |
| `Client.Form700.ScheduleHalf` | scripts/eth_seisync/netfile_client.py:527-572 | the schedule half halts iff SyncFlow.SchedulePhase does, and otherwise ends in its state, requests and writes |
| `Client.Form700.Sync` | scripts/eth_seisync/netfile_client.py:472-574 | on a fresh client, the run halts iff the model does, and otherwise ends in the state, requests and writes for which SyncFlow.SyncChecks and SyncRequests hold |

## Left out

- Authentication, the HTTP session and the Socrata client are external I/O.
  The authentication status, each page's status and body, and each catalog
  reply are inputs. Only the replace-or-upsert decision is kept from the
  catalog calls.
- Logging, `logPageCounts` output, and `stop_all_execution`'s exit are left
  out. A halt is an `Err` result; `logPageCounts` is kept only as the two
  field reads that can raise.
- The error message at line 440 formats an undefined `page_num`, so the real
  halt there is a `NameError`. It is modelled as the catalog-errors halt.
- Credentials (lines 43-54), the URLs and the request parameters are
  configuration with no logic.
- `socrata_config` is not modelled: dataset ids are opaque. A category
  missing from it would raise at line 352 or 422; the model assumes every
  category is configured.
- Client.Form700.constructor: requires a schema for every category. `__init__`
  would raise `KeyError` without one; a client missing a schema is not
  modelled.
- Client.Form700.Sync: on a halt, the state the object is left in is not
  described, because the process exits there.
- JSON floating-point numbers are not modelled. Nor is the text `str()`
  gives a nested list or dictionary inside an office or income source (such
  a value halts with `ReprNotModelled`).
- `\d` is read as ASCII `0-9`. Python's match of `$` before a trailing
  newline is not modelled.
- Rows are maps, so the column order of a row is not modelled.
  `copy.deepcopy` and the in-place mutation of the response's dictionaries
  are not modelled either: with value semantics they are unobservable.
- `dags/dag_eth_seisync.py` (scheduling and configuration) and
  `scripts/eth_seisync/netfile_client_unittest.py` are not part of this
  model. The latter builds the client with arguments `__init__` does not
  accept.
