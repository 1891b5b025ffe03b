# School records back end: import, listing filters and RA lookup

This project models, in Dafny, the core of the Express service in
`index.js`. That service keeps school years, grades, classes and students in
PostgreSQL. The model covers four parts of it:

- **Batched multi-row insert.** The spreadsheet upload handlers
  (`POST /api/upload/classes` and `POST /api/upload/students`) cut the parsed
  sheet into slices of 100 rows. Each row is projected onto the table's
  column tuple. Each slice becomes one `INSERT ... VALUES ($1, ...), (...)`
  statement. Its placeholder groups are numbered by position, and its
  parameter array is the tuples flattened (module `BatchInsert`).
- **Transactional import.** On a pooled client the handlers send `BEGIN`,
  then one `INSERT` per batch in order, then `COMMIT`. On the first error
  they send `ROLLBACK`. They call `release()` in `finally`
  (module `ImportProtocol`).
- **Optional filters.** `GET /api/grades` and `GET /api/classes` push every
  truthy query value onto `queryParams` and add a condition `<column> = $n`
  for it. `WHERE` is added only when there is a condition
  (module `QueryFilters`).
- **RA extraction.** `GET /api/ra` reads a student's registration number
  from a fetched page: it takes the `<label>` right after the first label
  whose trimmed text is `Número da RA:`, and returns the trimmed text before
  that label's first `-` (module `RaLookup`).

Two support modules hold the JavaScript and PostgreSQL behaviour the
handlers rely on:

- `Text` has `String(n)`, `Array.join`, `String.prototype.trim` with the
  ECMAScript white-space set, and `split(sep)[0]`.
- `Sql` has the `$n` references of a statement text, a simplified reading
  of how the store binds them to the parameter array, and `Array.flat`.

### How the store is modelled

- **Verdicts.** A connection answers its n-th statement with the verdict
  `answers[n]`. Statements past the end of `answers` succeed. Every pattern
  of database failures is therefore one choice of `answers`.
- **Reading an `INSERT`.** The protocol functions take the store's reading
  of an `INSERT` as a parameter `read`. The store of this model uses
  `ImportProtocol.Bound`, a simplified reading of how PostgreSQL binds the
  `$n` references: each reference, in text order, is replaced by the
  parameter it names, and the values are cut into rows of the table's
  width. An `INSERT` whose references do not bind is refused. The handlers'
  own statements are read exactly as PostgreSQL reads them, because their
  references are `$1` to `$(k * c)` in groups of `c` (`BatchSqlParams`,
  `BatchParamAt`); what the reading drops is listed under "Left out".
- **State changes.** A refused statement changes nothing but the log of
  statements sent.
- **Classes and methods.** `ImportProtocol.Connection` is the pooled client,
  as a class whose fields the statements update. The handlers' loops and
  array pushes are methods (`SendBatches`, `Upload`, `GradesQuery`,
  `ClassesQuery`), each proved against a specification function.
- **One method for both uploads.** The class handler (index.js:133-188) and
  the student handler (index.js:190-242) differ only in the table and its
  columns. Both are `ImportProtocol.Upload`, with the table as a parameter.

### Rows and pages as the code reads them

- **Sheet columns.** A class row is read by the keys `id`, `name`,
  `grade_id`, `year_id` and `course_id` (index.js:149-155). A student row is
  read by `ra`, `name`, `digit` and `class_id` (index.js:206-211). A key the
  row lacks reads as `undefined`, which is sent as `NULL`.
- **Searched elements.** Only `label` elements are searched for the marker
  (index.js:54), and only a `label` right after it is read (index.js:56).

## Model

| member | source | states |
|---|---|---|
| Text.Join | index.js:163 | `parts.join(sep)`: the parts in order, with `sep` between neighbours |
| Text.IsSpace | index.js:54 | the characters `trim()` removes: the ECMAScript WhiteSpace and LineTerminator code points |
| Text.Decimal | index.js:161 | the numeral of `n` in a template literal is non-empty, all digits, and has no leading zero |
| Text.ParseDecimalOfDecimal | index.js:161 | reading the numeral back gives `n`, so distinct placeholder numbers are written differently |
| Text.JoinAvoids | index.js:163 | a character absent from every part and from the separator is absent from `join`'s result |
| Text.Trim | index.js:54 | `trim()` keeps a core that neither starts nor ends with white space, and only white space surrounds it |
| Text.TrimOfPadded | index.js:54 | any core with white space on both sides trims to exactly that core, so the trimmed core is unique |
| Text.TrimAvoids | index.js:58 | trimming adds no character |
| Text.BeforeFirst | index.js:58 | `split(sep)[0]` is a prefix without `sep`, followed by `sep` unless it is the whole text |
| Text.BeforeFirstOf | index.js:58 | `split(sep)[0]` of `a + sep + b`, where `a` has no `sep`, is `a` |
| Sql.Params | index.js:169-172 | the parameter numbers a statement text references, in order: every `$` followed by digits |
| Sql.Resolve | index.js:169-172 | the parameters the references name, one per reference, or none when a reference is out of range |
| Sql.BoundRows | index.js:169-172 | the simplified reading of a multi-row `INSERT`: the named parameters cut into rows of the table's width |
| Sql.ParamRefScans | index.js:161 | `$n` followed by a non-digit is read as one reference to parameter `n` |
| Sql.ParamsOfPlain | index.js:170 | text without `$` adds no reference to what follows it |
| Sql.JoinScans | index.js:163 | the references of a joined text are those of its parts, in order |
| Sql.FlattenAt | index.js:166 | entry `j * c + m` of rows of width `c`, flattened, is entry `m` of row `j` |
| Sql.RowsOfFlatten | index.js:166 | cutting flattened rows of width `c` back into rows of `c` gives the rows again |
| Sql.ResolveIn | index.js:169-172 | binding succeeds exactly when every reference is in range, and then each reference yields the parameter it names |
| Sql.ResolveInOrder | index.js:169-172 | the references 1, 2, ... up to the number of parameters, in order, bind to the parameter array itself |
| BatchInsert.Columns | index.js:149-155 | the keys read from a row, in the order of the `INSERT`'s column list: id, name, grade_id, year_id, course_id for classes (ra, name, digit, class_id for students, index.js:206-211) |
| BatchInsert.Lookup | index.js:150 | `row.key`: a key the row lacks reads as `undefined`, sent as `NULL` |
| BatchInsert.Project | index.js:149-155 | the tuple built for one row: its value under each column key, in column order |
| BatchInsert.Tuples | index.js:149-155 | `batch.map(...)`: one tuple per row, in row order |
| BatchInsert.Slice | index.js:146 | `rows.slice(i, j)`: both bounds clamped to the length, a reversed range empty |
| BatchInsert.Batches | index.js:145-146 | the slices `slice(i, i + 100)` for `i = 0, 100, 200, ...` while `i` is below the row count |
| BatchInsert.Placeholders | index.js:158-162 | group `j` of a batch holds the numbers `j * c + 1` to `j * c + c` |
| BatchInsert.RenderGroup | index.js:161 | one group written as `($a, $b, ...)` |
| BatchInsert.PlaceholderText | index.js:158-163 | the groups written out and joined by `", "` |
| BatchInsert.InsertSql | index.js:170 | `INSERT INTO <table> (<columns>) VALUES <placeholders>` |
| BatchInsert.BatchSql | index.js:169-170 | the statement text sent for one batch |
| BatchInsert.BatchParams | index.js:166 | `values.flat()`, the parameter array sent for one batch |
| BatchInsert.BatchesPartition | index.js:145-146 | the slices, concatenated, are the sheet's rows in their original order |
| BatchInsert.BatchesSized | index.js:144-146 | every slice holds 1 to 100 rows, and every slice but the last holds exactly 100 |
| BatchInsert.BatchesCount | index.js:145 | there are ceil(n / 100) slices: none for an empty sheet |
| BatchInsert.BatchesFrom | index.js:145-146 | at loop index `i`, the remaining slices are `slice(i, i + 100)` followed by the slices of the rest |
| BatchInsert.PlaceholderAt | index.js:158-163 | entry `p` of the flattened placeholder numbers is `p + 1` |
| BatchInsert.PlaceholderNumbering | index.js:158-163 | the placeholder numbers of `k` groups of `c`, in order, are exactly 1 to `k * c`: no gap and no repeat |
| BatchInsert.PlaceholderTextScans | index.js:158-163 | the references in the placeholder text are the group numbers in order |
| BatchInsert.BatchSqlParams | index.js:169-172 | the references in a batch's statement are exactly `$1` to `$(k * c)`, in order |
| BatchInsert.BatchParamAt | index.js:149-166 | group `j` holds `$(j * c + m + 1)`, and entry `j * c + m` of `flatValues` is column `m` of row `j` |
| BatchInsert.BatchBinds | index.js:149-172 | binding a batch's statement to its `flatValues` reads back exactly the batch's tuples, in order |
| ImportProtocol.Exec | index.js:169-172 | one `client.query` as the store runs it: a refused statement is only logged; `BEGIN` opens a transaction, an `INSERT` adds its rows to it, `COMMIT` publishes them, `ROLLBACK` drops them |
| ImportProtocol.RunStatements | index.js:145-173 | the batch statements sent in order, stopping at the first refused one, whose rejection throws out of the loop |
| ImportProtocol.Transact | index.js:141-183 | the inner `try`/`catch`/`finally`: `BEGIN`, the batch statements, `COMMIT`; `ROLLBACK` after the first failure; then `release()`; a failed `ROLLBACK` answers "Error processing file" |
| ImportProtocol.RunImport | index.js:140-183 | one upload of a sheet on a client: the transaction over one `INSERT` per slice of 100 rows |
| ImportProtocol.Released | index.js:182 | `client.release()`: one release more |
| ImportProtocol.InsertBatch | index.js:169-172 | the `INSERT` sent for one batch: its statement text and its `flatValues` |
| ImportProtocol.Inserts | index.js:145-172 | the loop's statements: one `INSERT` per batch, in order |
| ImportProtocol.FirstRefusal | index.js:141-180 | the position of the first refused statement: every earlier one was accepted |
| ImportProtocol.FirstRefusalExtend | index.js:145-173 | one more statement changes the first refusal only when none of the earlier ones was refused |
| ImportProtocol.PlanRefusal | index.js:141-180 | the first refused step of a transaction, in terms of the verdicts on `BEGIN`, the `INSERT`s and `COMMIT` |
| ImportProtocol.InsertBatchBound | index.js:169-172 | the store reads a batch's statement as exactly the batch's rows |
| ImportProtocol.RecordsOfBatches | index.js:145-172 | the rows the batches write, concatenated, are the rows of the whole sheet |
| ImportProtocol.InsertsBind | index.js:145-172 | every batch statement binds and writes its own batch's rows |
| ImportProtocol.ExecInsert | index.js:169-172 | an `INSERT` that binds succeeds exactly when the store accepts it |
| ImportProtocol.ExecControl | index.js:142 | `BEGIN`, `COMMIT` and `ROLLBACK` succeed exactly when the store accepts them |
| ImportProtocol.RunStatementsOutcome | index.js:145-173 | the loop succeeds exactly when no `INSERT` is refused, and sends up to and including the first refused one |
| ImportProtocol.RunStatementsLog | index.js:145-173 | the loop sends the batch statements in order and stops after the first refused one |
| ImportProtocol.RunStatementsPending | index.js:145-173 | inside the transaction the loop publishes nothing, and keeps pending the rows of the batches before the first refusal |
| ImportProtocol.TransactReleasesOnce | index.js:181-183 | the client is released exactly once, on every path |
| ImportProtocol.TransactBeginRefused | index.js:142 | a refused `BEGIN` is followed at once by `ROLLBACK`, and no `INSERT` is sent |
| ImportProtocol.InsertRefusedRun | index.js:145-173 | after an accepted `BEGIN`, the loop stops right after the first refused `INSERT` |
| ImportProtocol.TransactAfterRefusal | index.js:177-180 | a failed loop is followed by `ROLLBACK` and nothing else; the answer depends on whether `ROLLBACK` succeeds |
| ImportProtocol.TransactInsertRefused | index.js:145-180 | a refused `INSERT`: the statements up to it, then `ROLLBACK` |
| ImportProtocol.InsertsAcceptedRun | index.js:145-173 | when every `INSERT` is accepted, the loop sends them all, in order |
| ImportProtocol.TransactAfterRun | index.js:175-180 | a successful loop is followed by `COMMIT`, and by `ROLLBACK` only when `COMMIT` is refused |
| ImportProtocol.TransactInsertsAccepted | index.js:175-180 | every `INSERT` accepted: `COMMIT`, and success exactly when it is accepted |
| ImportProtocol.TransactStatements | index.js:141-180 | `BEGIN` is sent first; the planned statements are sent up to the first refused one and then `ROLLBACK`, or all of them; success exactly when none is refused |
| ImportProtocol.TransactAllOrNothing | index.js:141-180 | on success the store publishes the rows of every `INSERT` in order; on any failure it publishes none |
| ImportProtocol.ImportReleasesOnce | index.js:181-183 | an upload releases its client exactly once, on every path |
| ImportProtocol.ImportStatements | index.js:140-180 | an upload sends `BEGIN`, one `INSERT` per slice in order and `COMMIT`, up to the first refused one and then `ROLLBACK` |
| ImportProtocol.ImportAllOrNothing | index.js:140-180 | on success every row of the sheet is stored, projected onto the table's columns, in sheet order; on failure none is |
| ImportProtocol.EmptySheet | index.js:175-176 | an empty sheet sends `BEGIN` and `COMMIT` only, and answers success when both are accepted |
| ImportProtocol.Connection.constructor | index.js:140 | a client fresh from `pool.connect()`: no transaction, nothing sent, never released |
| ImportProtocol.Connection.Query | index.js:169-172 | `await client.query` moves the client to the state the store's step gives, and rejects exactly when that step fails |
| ImportProtocol.Connection.Release | index.js:182 | `release()` counts one release and changes nothing else |
| ImportProtocol.SendBatches | index.js:145-173 | the batch loop leaves the client exactly where the statement-run specification does |
| ImportProtocol.Upload | index.js:133-188 | the handler's result and final client state are those of `RunImport`; a sheet that cannot be read, or a failed `pool.connect()`, gives "Error processing file" |
| QueryFilters.Truthy | index.js:84 | a query value is truthy when it is present and not empty |
| QueryFilters.GradeFilters | index.js:84-87 | the grades handler's filter: the year, only when truthy |
| QueryFilters.ClassFilters | index.js:111-118 | the classes handler's filters in push order: the year, then the grade, each only when truthy |
| QueryFilters.Condition | index.js:113 | `<column> = $n` |
| QueryFilters.Conditions | index.js:111-118 | the conditions of the filters: the k-th names `$k` |
| QueryFilters.Where | index.js:120-121 | nothing without a condition, otherwise ` WHERE ` and the conditions joined by ` AND ` |
| QueryFilters.Values | index.js:112 | `queryParams`: the filters' values in push order |
| QueryFilters.ConditionScans | index.js:113 | a condition `<column> = $n` references `n` and nothing else |
| QueryFilters.WhereScans | index.js:120-121 | the references in the `WHERE` clause are `$1` to `$k` in order, one per pushed value |
| QueryFilters.AvoidsNotContains | index.js:120-121 | text without the letter `W` does not contain `WHERE` |
| QueryFilters.TextPlain | index.js:77-89 | the fixed query text holds no `$` and no `W` |
| QueryFilters.WhereIffFilters | index.js:120-121 | the query contains `WHERE` exactly when there is a filter |
| QueryFilters.ClassFiltersWellFormed | index.js:111-118 | each pushed value is truthy, and each condition's column holds no `$` and no `W` |
| QueryFilters.ClassFiltersChosen | index.js:111-118 | one filter per truthy value; the year comes before the grade; absent or empty values add nothing |
| QueryFilters.GradesQueryMeaning | index.js:82-89 | the grades query has at most one parameter, present exactly when `yearId` is truthy; `$1` names it; `WHERE` appears only then; the grouping is always last |
| QueryFilters.ClassesQueryMeaning | index.js:108-122 | the k-th condition names `$k`, so the references are exactly the positions of `queryParams`; `WHERE` appears exactly when there is a parameter |
| QueryFilters.YearWhere | index.js:85 | the grades handler's literal condition is the one the filter builder produces for the year |
| QueryFilters.GradesQuery | index.js:77-89 | the handler's text and parameters are the base query, the year filter and the grouping, with the properties above |
| QueryFilters.ClassesQuery | index.js:103-122 | the handler's pushes and appends give the base query, the filters' `WHERE` clause and their values, with the properties above |
| RaLookup.IsMarker | index.js:54 | a label whose trimmed text is exactly `Número da RA:` |
| RaLookup.NextLabel | index.js:56 | `next('label')` is the next sibling exactly when that sibling is a `<label>` |
| RaLookup.FirstTrue | index.js:54 | the index found is the first match: no earlier entry matches, and none matches when nothing is found |
| RaLookup.FirstMarker | index.js:54 | the label found is the first whose trimmed text is `Número da RA:`, and there is none when nothing is found |
| RaLookup.RaOf | index.js:58 | the RA holds no `-` and neither starts nor ends with white space |
| RaLookup.LookupRa | index.js:54-61 | a found RA holds no `-` and is trimmed |
| RaLookup.FirstTrueAt | index.js:54 | the search stops at the first match |
| RaLookup.LookupAtFirstMarker | index.js:54-61 | the reply is read off the element after the first marker label: its RA when it is a `<label>`, "RA not found." otherwise |
| RaLookup.LookupRaFound | index.js:54-61 | there is an RA exactly when some label is the first marker and a `<label>` follows it |
| RaLookup.LookupIgnoresLater | index.js:54 | labels after the first marker, later markers included, do not change the reply |
| RaLookup.RaOfPadded | index.js:58 | an RA padded with white space and followed by `-` and anything at all is read back exactly |
| RaLookup.RaOfPlain | index.js:58 | a text without `-` is read whole, trimmed |
| RaLookup.PaddedMarker | index.js:54 | the marker padded with spaces still counts as the marker |
| RaLookup.RaOfNumbered | index.js:58 | `"<digits> - <name>"` yields the digits |
| RaLookup.PageWithRa | index.js:54-58 | a page whose marker label is followed by the label `"<digits> - <name>"` answers with those digits |
| RaLookup.PageWithoutLabel | index.js:56-60 | a marker followed by an element that is not a `<label>` answers "RA not found." |

## Left out

- HTTP plumbing is not modelled: Express routing, CORS, JSON bodies and response serialisation. A response is a value.
- multer and `xlsx.readFile`/`sheet_to_json` are foreign libraries doing file I/O. The sheet is a given sequence of rows keyed by header; a file that cannot be read or parsed is `None`.
- Spreadsheet cell types are reduced to `Value`. The model keeps no number formatting, dates or floating point.
- `Bound` leaves out three checks PostgreSQL makes when it binds an `INSERT`: that the parameter array has as many entries as the highest `$n` names, that each parenthesised group of the `VALUES` list matches the column list, and that a `$n` inside a quoted literal is not a reference. The handlers' statements never depend on these, because their references are exactly `$1` to `$(k * c)` in groups of `c`.
- ImportAllOrNothing: assumes, like TransactAllOrNothing, that `pool.connect()` gives a client outside any transaction. After a refused `ROLLBACK` (index.js:178) the client is released while still inside its transaction (index.js:182). A later upload on that client would find its `BEGIN` doing nothing and its `COMMIT` publishing the earlier rows. `pg`'s pool discards a client whose connection has failed, which is the usual cause of a refused `ROLLBACK`. The model does not follow a client across uploads.
- The `pg` pool, its configuration from the environment, and its sizing are not modelled. `pool.connect()` either gives a client or fails.
- SQL meaning is not modelled: joins, `GROUP BY`, `ORDER BY`, keys and constraints. A statement is accepted or refused by the `answers` verdicts. The only part of SQL kept is how an `INSERT`'s `$n` references bind.
- The "current transaction is aborted" state of PostgreSQL after a failed statement is not modelled. The handlers stop at the first failure, so no statement follows one inside the transaction except `ROLLBACK`.
- `fetch` of the caller's URL and cheerio's HTML parsing are network I/O and a foreign parser. The page is its `<label>` elements in document order, each with its next sibling element and that element's text content.
- A rejected `fetch`, or a page that cannot be read, is not modelled. In the handler such a rejection is not caught.
- The listing queries' execution and their 500 "Database query failed" reply are not modelled, because they happen inside the store.
- An array-valued query-string parameter (`?yearId=1&yearId=2`) is not modelled. A query value is an optional string.
- `GET /api/students` and `GET /api/years` are not modelled. They send a fixed query with no parameter.
- The attendance endpoints are not modelled. They hand request values to the store, which does the date and time-zone logic.
- Console logging is not modelled.
- Concurrency between requests is not modelled; each handler runs on its own client.
