# knex-repositories: a verified model of the generic repository

knex-repositories gives every configured entity table the same set of data
operations: create, bulk create, update by id or by criteria, read by id or by
criteria, and delete. `AbstractRepository` is a thin layer over the Knex query
builder, but it makes its own decisions around each statement:

- which caller-supplied fields and filter keys reach the database (the create,
  update and filter allow-lists, and dropping undefined values);
- how a bulk insert is split into chunks and how the results are joined;
- which ORDER BY applies (the caller's sort, else the configured default);
- which branch runs on a driver that cannot return written rows (MySQL,
  SQLite) or cannot order an UPDATE (SQL Server);
- when a single-result operation fails with `NonUniqueResultError` or
  `NoEntityExistsError`.

This project models those decisions in Dafny and proves what they guarantee.

Files:

- `rows.dfy` (module `Rows`): column values, rows (`map<string, Value>`), caller
  field maps in which a value may be undefined (`map<string, Option<Value>>`),
  and `First`, the model of JavaScript's `xs[0]`.
- `db_support.dfy` (module `DbSupport`): the dialect capability predicates of
  `lib/dbSupportHelper.ts`, over the driver name.
- `knex_utils.dfy` (module `KnexUtils`): `pickWithoutUndefined`,
  `copyWithoutUndefined` and `chunk` from the knex-utils package. That package's
  source is not part of this model, so these are defined from their names and
  how the repository uses them.
- `engine.dfy` (module `Engine`): an in-memory stand-in for Knex and the
  database. `class Db` holds one table as a sequence of rows, a key generator,
  the driver name and the engine's row ordering. Pure functions say what
  WHERE, INSERT, UPDATE, DELETE, RETURNING and ORDER BY do to that table.
- `repository.dfy` (module `Repository`):
  - the configuration and error datatypes;
  - the projection, sort-fallback and cardinality functions;
  - `class AbstractRepository`, whose readonly configuration is `const` fields
    and whose operations are methods that modify the connection they run on.

The constructor follows the code, not the documented intent. Lines 55-56 of
`lib/AbstractRepository.ts` set both `columnsToFetchList` and
`columnsToFetchDetails` from `columnsToFetch` (`config.columnsToFetch ??
config.columnsToFetch`). The configured list and detail sets are therefore
ignored, although the configuration type declares them as separate sets.

A transaction is modelled as a second `Db` handle that the caller passes
instead of the repository's own connection. It must belong to the same client:
the same driver name, as `SameClient` requires. The source checks dialect
capabilities on `this.knex`, and so does the model.

The stand-in database decides whether a write hands rows back by the same
deny-list the repository consults (`DoesSupportReturning`). The model thus
assumes that the repository's list and the real driver agree. A disagreement,
such as a sqlite3 driver on a Knex version that does support RETURNING, cannot
arise in the model.

`updateSingleByCriteria` is modelled with line 170 corrected: on success it
returns the one row it checked. The code as written returns the first element
of the UPDATE's own result, which is no row on a driver without RETURNING. The
as-written behaviour is modelled separately; see ## Findings.

`updateById` is modelled as written. On a driver without RETURNING the UPDATE
resolves to a count, so `updatedUserRows[0]` (line 142) is undefined even when
a row was updated, and the model returns `None` there. The return type
`FullEntityRow | undefined` admits this, and unlike `updateSingleByCriteria`
the method has no re-fetch showing another intent, so this is not listed as a
finding.

## Model

| member | source | states |
|---|---|---|
| Rows.First | lib/AbstractRepository.ts:142 | `xs[0]` is undefined exactly when the array is empty, and otherwise the first element |
| DbSupport.DoesSupportReturning | lib/dbSupportHelper.ts:3-7 | false exactly for the driver names mysql, mysql2 and sqlite3 |
| DbSupport.DoesSupportUpdateOrderBy | lib/dbSupportHelper.ts:9-11 | false exactly for mssql |
| DbSupport.CapabilitiesAreIndependent | lib/dbSupportHelper.ts:3-11 | mssql returns rows but cannot order updates; mysql and sqlite3 order updates but return no rows; a driver name nobody listed supports both, since the list is a deny-list |
| KnexUtils.PickWithoutUndefined | lib/AbstractRepository.ts:67 | a key survives exactly when it is listed, present and defined, and it keeps its value |
| KnexUtils.CopyWithoutUndefined | lib/AbstractRepository.ts:129 | a key survives exactly when it is present and defined, and it keeps its value |
| KnexUtils.PickAllIsCopy | lib/AbstractRepository.ts:127-129 | an allow-list that lists every supplied key behaves like having no allow-list |
| KnexUtils.PickDisjointIsEmpty | lib/AbstractRepository.ts:183-185 | an allow-list that lists none of the supplied keys yields an empty map |
| KnexUtils.PickWithinCopy | lib/AbstractRepository.ts:180-182 | configuring an allow-list can only remove fields, never add or change one |
| KnexUtils.Chunk | lib/AbstractRepository.ts:91 | the chunks joined in order give back the input; each chunk is non-empty and at most chunkSize long; all but the last have exactly chunkSize rows |
| KnexUtils.ChunkCount | lib/AbstractRepository.ts:91 | no chunks exactly for no rows; otherwise full chunks followed by a last chunk of 1 to chunkSize rows, so there are ceil(n / chunkSize) of them |
| KnexUtils.ChunkThreeByTwo | lib/AbstractRepository.ts:91 | three rows in chunks of two become a chunk of two followed by a chunk of one |
| KnexUtils.FlattenConcat | lib/AbstractRepository.ts:93-98 | joining two runs of chunks is joining the results of each run |
| KnexUtils.FlattenPrefix | lib/AbstractRepository.ts:94-98 | each loop iteration appends exactly the next chunk to what has been inserted |
| Engine.Where | lib/AbstractRepository.ts:188 | WHERE keeps exactly the rows whose columns equal every filter value, in table order, and never more rows than the table has |
| Engine.DeleteWhere | lib/AbstractRepository.ts:292 | DELETE keeps exactly the rows that do not match the filter |
| Engine.DeleteWhereConcat | lib/AbstractRepository.ts:292 | DELETE distributes over appending rows, so the rows it keeps stay in table order |
| Engine.WhereEmptyFilter | lib/AbstractRepository.ts:240 | an empty filter matches every row, so a read sees the whole table and a delete empties it |
| Engine.WherePartition | lib/AbstractRepository.ts:283-293 | the rows a delete removes and the rows it keeps together make up the original table, counting duplicates |
| Engine.WhereNoneMatch | lib/AbstractRepository.ts:208 | when no row matches, the WHERE result is empty |
| Engine.WhereConcat | lib/AbstractRepository.ts:208 | WHERE over a table with rows appended is WHERE over each part, joined |
| Engine.Merge | lib/AbstractRepository.ts:189 | an updated row has the new value for every written column and its old value for every other column |
| Engine.UpdateWhere | lib/AbstractRepository.ts:187-189 | UPDATE keeps the table's length, merges the fields into every matching row and leaves every other row untouched |
| Engine.MergeAll | lib/AbstractRepository.ts:189-190 | the updated rows are the matching rows, each merged with the fields |
| Engine.Project | lib/AbstractRepository.ts:209 | a selected row has exactly the requested columns, each with the stored value |
| Engine.ProjectAll | lib/AbstractRepository.ts:244 | a SELECT returns one projected row per row, in the same order |
| Engine.Keyed | lib/AbstractRepository.ts:69-70 | an inserted row keeps every supplied column; the key column gets the generated key unless the row supplied one |
| Engine.WithKeysAt | lib/AbstractRepository.ts:96 | the i-th row stored by an INSERT is the i-th row given, with the i-th key handed out |
| Engine.WithKeysConcat | lib/AbstractRepository.ts:94-98 | two consecutive INSERTs store the same rows, with the same keys, as one INSERT of both batches |
| Engine.InsertReturningAt | lib/AbstractRepository.ts:71 | with RETURNING, the i-th returned item is the i-th stored row cut to the fetched columns; without it, that row's generated key |
| Engine.InsertReturningConcat | lib/AbstractRepository.ts:94-98 | what two consecutive INSERTs return, joined, is what one INSERT of both batches returns |
| Engine.InsertInOrder | lib/AbstractRepository.ts:194 | placing a row into an ordered run adds exactly that row |
| Engine.SortRows | lib/AbstractRepository.ts:194 | sorting by the ORDER BY list is a permutation of the rows |
| Engine.Ordered | lib/AbstractRepository.ts:247-250 | ORDER BY returns the same rows, counting duplicates; with no ORDER BY the rows are untouched |
| Engine.OrderedSingleton | lib/AbstractRepository.ts:260-268 | a single row comes back as itself under any ORDER BY |
| Engine.Db.Insert | lib/AbstractRepository.ts:69-71 | INSERT appends the keyed rows, advances the key generator by the number of rows, and returns what RETURNING yields for them |
| Engine.Db.Select | lib/AbstractRepository.ts:243-252 | SELECT returns the matching rows, ordered, cut to the requested columns |
| Engine.Db.Update | lib/AbstractRepository.ts:187-197 | UPDATE merges the fields into the matching rows; it returns the updated rows, ordered and projected, with RETURNING, and the number of matched rows without it |
| Engine.Db.Delete | lib/AbstractRepository.ts:292 | DELETE removes the matching rows and does not touch the key generator |
| Repository.CreateRows | lib/AbstractRepository.ts:87-89 | every row of a bulk create is cut to the create allow-list exactly as create cuts a single row, in input order |
| Repository.AllowedFields | lib/AbstractRepository.ts:127-129 | with an allow-list (columnsForUpdate, or columnsForFilters at lines 183-185, 236-238 and 287-289) a key survives only when listed and defined; without one, every defined key survives; values are kept and other keys are dropped, never rejected |
| Repository.CriteriaFilter | lib/AbstractRepository.ts:234-241 | absent criteria give the empty filter; given criteria keep exactly the allowed keys with defined values, with their values |
| Repository.FetchColumns | lib/AbstractRepository.ts:209 | the caller's columns when given, else the configured ones (also at lines 244 and 263) |
| Repository.SortParam | lib/AbstractRepository.ts:192 | the caller's sort when given, else defaultOrderBy; no ordering exactly when both are absent |
| Repository.UpdateSortParam | lib/AbstractRepository.ts:192-195 | an UPDATE is ordered exactly when the driver is not mssql and a caller sort or default exists, and then by the fallback choice |
| Repository.SingleUpdateAsWritten | lib/AbstractRepository.ts:164-170 | the as-written verdict: an error exactly when the checked set does not have one row; on a driver without RETURNING a success carries no row |
| Repository.SingleUpdate | lib/AbstractRepository.ts:164-169 | succeeds exactly when one row was checked and returns that row; more than one row is NonUniqueResultError, none is NoEntityExistsError, each with the criteria |
| Repository.SingleUpdateAgreesWithReturning | lib/AbstractRepository.ts:153-154 | with RETURNING, the as-written and the intended verdicts agree |
| Repository.SingleUpdateAsWrittenLosesRow | lib/AbstractRepository.ts:170 | without RETURNING, one updated row yields success with no row as written, and that row as intended |
| Repository.SingleUpdateIgnoresOrder | lib/AbstractRepository.ts:150-161 | the single-update verdict does not depend on the ORDER BY the update or the re-fetch applied |
| Repository.SingleGet | lib/AbstractRepository.ts:265-268 | more than one match is NonUniqueResultError with the criteria; otherwise the first match, or nothing |
| Repository.DisallowedCriteriaMatchEverything | test/integration/AbstractRepository.spec.ts:104-113 | criteria made only of disallowed keys filter nothing: a read returns every row and a delete removes every row |
| Repository.AbsentCriteriaMatchEverything | lib/AbstractRepository.ts:234-241 | absent criteria and empty criteria give the same empty filter, which keeps every row |
| Repository.RefetchFindsInserted | lib/AbstractRepository.ts:73-75 | re-reading an inserted row by a key no earlier row holds finds exactly that row |
| Repository.RestrictedUpdateKeepsName | test/integration/repositories/UserRepository.ts:33-36 | with updates restricted to age, updating age and name by id sets the age and leaves the name as it was |
| Repository.DeleteByIdKeepsOther | test/integration/AbstractRepository.spec.ts:116-128 | deleting one of two users by id leaves exactly the other |
| Repository.StoredInTwo | lib/AbstractRepository.ts:94-96 | after one more chunk, the table holds what one INSERT of all rows so far would have stored |
| Repository.ReturnedInTwo | lib/AbstractRepository.ts:95-97 | after one more chunk, the accumulated results are what one INSERT of all rows so far would have returned |
| Repository.AllChunksInserted | lib/AbstractRepository.ts:91-98 | once every chunk is inserted, exactly the input rows are stored |
| Repository.BulkInsertedInOrder | lib/AbstractRepository.ts:87-100 | the i-th stored row of a bulk create is the i-th input row, cut and keyed; with RETURNING the i-th returned row is that stored row |
| Repository.AbstractRepository.constructor | lib/AbstractRepository.ts:45-60 | list and detail columns both equal columnsToFetch whatever is configured; an unconfigured create allow-list is empty; every other field is copied |
| Repository.AbstractRepository.IdFilter | lib/AbstractRepository.ts:132 | the filter `{ [idColumn]: id }` has the single key idColumn, and matches a row exactly when that row's id column holds id (also at lines 208 and 277-279) |
| Repository.AbstractRepository.GetKnexOrTransaction | lib/AbstractRepository.ts:309-311 | a statement runs on the transaction when one is given, else on the repository's own connection |
| Repository.AbstractRepository.Create | lib/AbstractRepository.ts:62-79 | appends the one row cut to columnsForCreate and keyed; returns it as RETURNING yields it, or without RETURNING as getById re-reads it by the generated key |
| Repository.AbstractRepository.CreateBulk | lib/AbstractRepository.ts:81-101 | for any chunk size, stores and returns exactly what one INSERT of all cut rows would, in input order |
| Repository.AbstractRepository.CreateBulkNoReturning | lib/AbstractRepository.ts:103-118 | for any chunk size, stores exactly what one INSERT of all cut rows would |
| Repository.AbstractRepository.CreateBulkInDefaultChunks | lib/AbstractRepository.ts:84 | createBulk without a chunk size uses chunks of 1000 rows and stores and returns the same as with any other size |
| Repository.AbstractRepository.CreateBulkNoReturningInDefaultChunks | lib/AbstractRepository.ts:106 | createBulkNoReturning without a chunk size uses chunks of 1000 rows and stores the same as with any other size |
| Repository.AbstractRepository.UpdateById | lib/AbstractRepository.ts:120-143 | updates only rows whose id column equals id, with the allowed defined fields; returns the first updated row with RETURNING, nothing without |
| Repository.AbstractRepository.UpdateByCriteria | lib/AbstractRepository.ts:173-199 | updates exactly the rows matching the allowed criteria; orders the returned rows by the sort fallback only where the driver allows it; without RETURNING yields the count |
| Repository.AbstractRepository.UpdateSingleByCriteria | lib/AbstractRepository.ts:145-171 | updates like updateByCriteria; the checked set is the returned rows, or without RETURNING a re-fetch by the same criteria; fails unless exactly one row was checked; on success returns the checked row, which is the corrected line 170 (see ## Findings) |
| Repository.AbstractRepository.GetById | lib/AbstractRepository.ts:201-211 | the first row whose id column equals id, cut to the requested or detail columns; nothing exactly when no row has that id |
| Repository.AbstractRepository.GetByCriteria | lib/AbstractRepository.ts:227-254 | the rows matching the allowed criteria (all rows without criteria), ordered by the sort fallback, cut to the requested or list columns, one per match |
| Repository.AbstractRepository.GetSingleByCriteria | lib/AbstractRepository.ts:256-269 | an error exactly when more than one row matches; otherwise the single match cut to the detail columns, or nothing |
| Repository.AbstractRepository.DeleteById | lib/AbstractRepository.ts:271-281 | removes exactly the rows whose id column equals id, and none is not an error |
| Repository.AbstractRepository.DeleteByCriteria | lib/AbstractRepository.ts:283-293 | removes exactly the rows matching the allowed criteria, keeping the rest in order |

## Left out

- Knex itself: SQL generation, execution, the connection pool and dialect quirks are replaced by the in-memory `Db`. `tableName` is recorded, but each `Db` holds one table.
- Transactions: `createTransactionProvider`, `commitTransaction` and `rollbackTransaction` (lib/AbstractRepository.ts:295-307) call straight into Knex, and isolation and rollback belong to the database. A transaction is only a second handle of the same client.
- `getByIdForUpdate` (lib/AbstractRepository.ts:213-225): its point is a row lock, which is concurrency control.
- The `updateById` timeout (lib/AbstractRepository.ts:136-138): it is wall-clock cancellation of a running query.
- Asynchrony: every operation runs to completion before the next starts, and a failure part-way through a bulk insert is not modelled.
- Database-side failures (constraint violations, unknown columns, an UPDATE with no fields to set) are not modelled; every statement succeeds.
- Repository.AbstractRepository.UpdateSingleByCriteria: returns the checked row as corrected under ## Findings. As written, line 170 returns no row on drivers without RETURNING; `SingleUpdateAsWritten` models that, and `SingleUpdateAsWrittenLosesRow` shows the difference.
- Engine.Db.Insert: without RETURNING, Knex hands back one generated id per statement. The model hands back one key per row. `create` reads only the first, so it is unaffected; `createBulk` on such a driver returns more items in the model.
- Columns the database fills itself (timestamps, defaults) are not modelled. Only the generated key is.
- A column a row does not hold reads as NULL instead of failing.
- Engine.Ordered: states only that ORDER BY permutes the rows, not which order results, because the comparison of an ORDER BY list is left to the engine as the abstract `precedes`.
- Without ORDER BY, the model returns rows in table order, where a database promises no order.
- Generic type parameters, `index.ts` re-exports, and the bodies of the two error classes (lib/NonUniqueResultError.ts, lib/NoEntityExistsError.ts): the errors are two constructors carrying the message and the criteria.
- Test helpers and the repositories under test/ serve only as scenario constants.

## Findings

| source | as written | input that shows it | evidently intended | confidence | as-written member | corrected member |
|---|---|---|---|---|---|---|
| lib/AbstractRepository.ts:170 | `updateSingleByCriteria` checks cardinality on `returningResult` but returns `result[0]`. On mysql, mysql2 and sqlite3, `result` is the affected-row count, not a list of rows | driver mysql, criteria matching exactly one row: the update succeeds, the re-fetch finds one row, and the method returns undefined | return `returningResult[0]`, the one row that was checked | medium, not executed | Repository.SingleUpdateAsWritten | Repository.SingleUpdate |
