# Samarium cell-measurement pipeline, in Dafny

This project models the core of the Samarium Android app. On each sampling run,
`MainActivity.getCellInfo` walks the device's list of cell measurements. Each LTE,
WCDMA or GSM measurement becomes one uniform row of the `cellinfo` table: event time,
PLMN id, area code, cell id, two signal columns and a technology name. Each
measurement also adds a paragraph to the on-screen summary. Values the running
platform cannot supply are written as the sentinel `"N/A"`. `DatabaseHelper` owns the
table. The table is append-only with an `AUTOINCREMENT` id, and an upgrade drops and
recreates it.

Modules:

- `Decimal` (`decimal.dfy`): Kotlin's `Int.toString()`, which formats both the stored
  and the shown signal values, and a reader that inverts it.
- `CellInfoDb` (`database_helper.dfy`): the schema constants, the row values, the table
  as a value (`TableState`, `Inserted`, `InsertAll`, `Upgraded`), and the class
  `CellInfoTable`, whose `Create`, `Insert` and `Upgrade` change the table in place.
- `CellNormalizer` (`cell_normalizer.dfy`): the measurement variants (`Cell`),
  `getNetworkType`, the per-variant field choices gated on the API level (`Normalize`),
  and the paragraph text for one item (`Lines`, `Render`).
- `CellSampling` (`cell_sampling.dfy`): the loop itself. The class `Sampler` holds the
  `cellInfoText` buffer and the table. `GetCellInfo` is specified by the pure functions
  `Summary` (the text appended) and `Persisted` (the rows stored).
- `Wrappers` (`wrappers.dfy`): `Option`.

Inputs the app reads from the platform are parameters here:

- the cell list, the API level `sdk` and the network-type code;
- whether the location permission is granted;
- `clock(i)`, the formatted wall-clock time read while item `i` is processed;
- `faults`, the set of item indices whose insert the storage rejects.

## Model

| member | source | states |
|---|---|---|
| `CellInfoDb.SchemaShape` | app/src/main/java/com/example/samarium/DatabaseHelper.kt:24-32 | the table has eight columns with distinct names, and `id` is the first, an integer |
| `CellInfoDb.RecordFollowsSchema` | app/src/main/java/com/example/samarium/DatabaseHelper.kt:24-32 | a record has a value for exactly the declared column names; tac and cell_id hold integers; event_time, plmn_id, rsrp, rsrq and technology hold text (plmn_id may be NULL) |
| `CellInfoDb.Inserted` | app/src/main/java/com/example/samarium/DatabaseHelper.kt:25 | an insert keeps every existing record, appends exactly one record with the given values, gives it an id above every earlier id, and keeps the table well formed |
| `CellInfoDb.InsertAllAppends` | app/src/main/java/com/example/samarium/DatabaseHelper.kt:25 | a series of inserts keeps the old records as a prefix and appends one record per value, in order; every new id is at least the old next id; ids stay strictly increasing |
| `CellInfoDb.Upgraded` | app/src/main/java/com/example/samarium/DatabaseHelper.kt:36-39 | after an upgrade the table has no rows, whatever it held before |
| `CellInfoDb.UpgradeIgnoresVersions` | app/src/main/java/com/example/samarium/DatabaseHelper.kt:36-38 | the old and new version numbers make no difference to the upgrade |
| `CellInfoDb.CellInfoTable.Create` | app/src/main/java/com/example/samarium/DatabaseHelper.kt:23-34 | `onCreate` gives the declared columns, no rows, and ids starting at 1 |
| `CellInfoDb.CellInfoTable.Insert` | app/src/main/java/com/example/samarium/DatabaseHelper.kt:25 | a successful insert appends one record under the next id and returns that id, which is greater than every stored id; a rejected insert changes nothing and returns -1 |
| `CellInfoDb.CellInfoTable.Upgrade` | app/src/main/java/com/example/samarium/DatabaseHelper.kt:36-39 | drop and recreate: the table is empty and valid again |
| `Decimal.IntToString` | app/src/main/java/com/example/samarium/MainActivity.kt:162-163 | the text of a value is non-empty digits, with a leading minus sign exactly for negative values and no leading zero; zero alone is "0" |
| `Decimal.IntRoundTrip` | app/src/main/java/com/example/samarium/MainActivity.kt:162-163 | reading back the stored text of a signal value gives the value |
| `Decimal.IntToStringInjective` | app/src/main/java/com/example/samarium/MainActivity.kt:162-163 | two values have the same text only if they are equal |
| `CellNormalizer.NetworkTypeName` | app/src/main/java/com/example/samarium/MainActivity.kt:255-262 | the header name is one of four strings; it is "Unknown" exactly for codes other than LTE, HSPA, HSPA+, EDGE and GPRS |
| `CellNormalizer.NetworkTypeClasses` | app/src/main/java/com/example/samarium/MainActivity.kt:255-262 | "4G (LTE)" exactly for LTE, "3G (HSPA)" exactly for HSPA and HSPA+, "2G (EDGE/GPRS)" exactly for EDGE and GPRS; UMTS and NR give "Unknown" |
| `CellNormalizer.Normalize` | app/src/main/java/com/example/samarium/MainActivity.kt:133-249 | a row exists exactly for LTE, WCDMA and GSM items; its technology is "4G (LTE)", "3G (WCDMA)" or "2G (GSM)", each exactly for its own variant |
| `CellNormalizer.CommonColumns` | app/src/main/java/com/example/samarium/MainActivity.kt:138-231 | for every recognised variant, the row stores the given event time; plmn_id is the operator from API level 28 and exactly "N/A" below it; the LTE tac or the WCDMA/GSM lac goes in `tac`; the ci or cid goes in `cell_id` |
| `CellNormalizer.SignalColumns` | app/src/main/java/com/example/samarium/MainActivity.kt:145-233 | LTE rsrp and rsrq hold the values from API level 26 and exactly "N/A" below; WCDMA rsrp always holds RSCP; WCDMA rsrq holds Ec/N0 from API level 30, else "N/A"; GSM rsrp holds RSSI and rsrq is always "N/A"; "N/A" never reads as a number |
| `CellNormalizer.LteExample` | app/src/main/java/com/example/samarium/MainActivity.kt:134-164 | the LTE cell (tac 100, ci 5000, RSRP -95, RSRQ -10, operator "310260") read on API level 28 or later stores exactly that row |
| `CellNormalizer.Render` | app/src/main/java/com/example/samarium/MainActivity.kt:168-248 | every item's paragraph ends with an empty line; its exact lines are stated by `ShownMatchesStored` (recognised variants), `LteParagraph`, `UnknownParagraph` and `RenderBreaks` |
| `CellNormalizer.LteParagraph` | app/src/main/java/com/example/samarium/MainActivity.kt:168-174 | the paragraph of the `LteExample` cell on API level 28 or later is exactly its seven captioned lines ("Event Time: ", "PLMN ID: 310260", "TAC: 100", "Cell ID: 5000", "RSRP: -95", "RSRQ: -10", "Cell Technology: 4G (LTE)") followed by an empty line |
| `CellNormalizer.UnknownParagraph` | app/src/main/java/com/example/samarium/MainActivity.kt:246-248 | an unhandled variant appends exactly "Unknown Cell Info Type\n\n" |
| `CellNormalizer.ShownMatchesStored` | app/src/main/java/com/example/samarium/MainActivity.kt:156-243 | the paragraph shows the stored values: same event time, PLMN as stored, same area code, cell id, signal texts and technology; GSM has 6 lines, LTE and WCDMA 7 |
| `CellNormalizer.RenderBreaks` | app/src/main/java/com/example/samarium/MainActivity.kt:168-248 | if the time and operator are single lines, an LTE or WCDMA paragraph has 8 line breaks, a GSM paragraph 7, and the unknown paragraph 2 |
| `CellSampling.Header` | app/src/main/java/com/example/samarium/MainActivity.kt:125-126 | the header is "Network Type: 4G (LTE)", "Network Type: 3G (HSPA)", "Network Type: 2G (EDGE/GPRS)" or "Network Type: Unknown" followed by an empty line, each exactly for the codes `getNetworkType` gives that name |
| `CellSampling.PersistedInListOrder` | app/src/main/java/com/example/samarium/MainActivity.kt:130-250 | the stored rows are exactly the rows of the recognised items whose insert succeeded; each appears once, in list order, with the time read for that item |
| `CellSampling.PersistedCount` | app/src/main/java/com/example/samarium/MainActivity.kt:130-250 | rows stored plus rows rejected equals the number of LTE, WCDMA and GSM items; with no storage failure, one row is stored per such item |
| `CellSampling.Sampler.constructor` | app/src/main/java/com/example/samarium/MainActivity.kt:37 | the summary buffer starts empty, next to the opened table |
| `CellSampling.Sampler.ProcessItem` | app/src/main/java/com/example/samarium/MainActivity.kt:131-249 | one item's row, if it has one, is inserted; its paragraph is appended whatever the insert returned |
| `CellSampling.Sampler.AppendItems` | app/src/main/java/com/example/samarium/MainActivity.kt:130-250 | the loop appends every item's paragraph in list order and inserts the stored rows in list order |
| `CellSampling.Sampler.GetCellInfo` | app/src/main/java/com/example/samarium/MainActivity.kt:116-253 | without the location permission nothing changes; otherwise the old buffer is a prefix of the new one, and the buffer gains the `Network Type` header once, then every paragraph (independent of storage failures); the table gains `Persisted` |

## Left out

- Activity lifecycle, the permission requests and their callbacks (`onCreate`,
  `requestPermissionLauncher`, `onRequestPermissionsResult`): framework plumbing.
  Only `getCellInfo`'s own permission check is kept, as the `locationPermitted` input.
- Google Maps, `FusedLocationProviderClient`, `getCurrentLocation` and
  `storeLocationData`: asynchronous platform callbacks. `storeLocationData` also writes
  `COLUMN_LATITUDE` and `COLUMN_LONGITUDE`, which `DatabaseHelper` neither declares nor
  creates, so the model invents no location columns or location records.
- `SimpleDateFormat`/`Date` formatting: the `clock` parameter gives the formatted time
  read for each item. The model does not check that time's format.
- `TelephonyManager` queries and the `TextView` assignment: the cell list, API level and
  network-type code are inputs. The `cellInfoText` buffer is the output.
- The SQLite engine and `SQLiteOpenHelper`'s open-time version dispatch (which calls
  `onCreate` or `onUpgrade`), plus `DATABASE_NAME` and `DATABASE_VERSION`. These are
  kept only as constants. Why an insert fails is not modelled. The `faults` input says
  which inserts fail.
- `AUTOINCREMENT` is modelled as a counter. A failed insert does not advance it.
  Dropping the table discards it, so ids restart at 1 after an upgrade.
- Integer widths: cell fields are 32-bit (`Int32`). No arithmetic is done on them, so
  wrap-around plays no part. SQLite's 64-bit INTEGER storage is modelled as `int`.
- Behaviour of the code worth noting:
  - `getNetworkType` has four names: LTE; HSPA and HSPA+; EDGE and GPRS; every other
    code, NR and UMTS included, gives `Unknown`.
  - An unrecognised variant stores no row. It only appends its fixed paragraph.
  - `mobileNetworkOperator` may be null. In that case `plmn_id` is stored as NULL and
    the summary shows `null`, as Kotlin string templates do.
  - The summary buffer is never cleared, so successive runs keep appending to it.
- Closing the database, concurrency and threading: the source has no such logic in
  the core.
