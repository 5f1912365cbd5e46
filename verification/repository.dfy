/**
 * The generic repository: one configured entity table, whose operations
 * project caller input through the configured allow-lists, choose an
 * ordering, branch on the driver's capabilities and enforce the
 * single-result rules before and after each statement the engine runs.
 */
module Repository {
  import opened Rows
  import opened DbSupport
  import opened KnexUtils
  import opened Engine

  /** The configuration a repository is built from; None stands for a key left out. */
  datatype RepositoryConfig = RepositoryConfig(
    tableName: string,
    idColumn: string,
    defaultOrderBy: Option<seq<SortingParam>>,
    columnsForCreate: Option<seq<string>>,
    columnsForUpdate: Option<seq<string>>,
    columnsForFilters: Option<seq<string>>,
    columnsToFetch: seq<string>,
    columnsToFetchList: Option<seq<string>>,
    columnsToFetchDetails: Option<seq<string>>)

  /** The two errors the repository raises itself; each carries the criteria it was given. */
  datatype RepositoryError =
    | NonUniqueResultError(message: string, filterCriteria: Fields)
    | NoEntityExistsError(message: string, filterCriteria: Fields)

  datatype Result<+T> = Ok(value: T) | Err(error: RepositoryError)

  /** The chunk size createBulk and createBulkNoReturning use when the caller gives none. */
  const DefaultChunkSize: nat := 1000

  const UpdatedMoreThanOneRow := "Query updated more than one row"
  const UpdatedNoRows := "Query updated no rows"
  const MoreThanSingleResult := "Query resulted more than in a single result"

  /** The rows an INSERT is given: each input row cut down to the allowed, defined fields. */
  function CreateRows(newEntityRows: seq<Fields>, columnsForCreate: seq<string>): (insertRows: seq<Row>)
    ensures |insertRows| == |newEntityRows|
    ensures forall i :: 0 <= i < |newEntityRows| ==>
      insertRows[i] == PickWithoutUndefined(newEntityRows[i], columnsForCreate)
  {
    seq(|newEntityRows|, i requires 0 <= i < |newEntityRows| => PickWithoutUndefined(newEntityRows[i], columnsForCreate))
  }

  /**
   * A caller's fields or filter criteria cut to an optional allow-list: with
   * one, the allowed keys whose value is defined; without one, every defined
   * key. Other keys are ignored, never rejected. The repository applies this
   * to the fields an UPDATE writes (columnsForUpdate) and to the WHERE map
   * built from criteria (columnsForFilters).
   */
  function AllowedFields(allowList: Option<seq<string>>, fields: Fields): (allowed: Row)
    ensures forall k :: k in allowed <==>
      k in fields && fields[k].Some? && (allowList.Some? ==> k in allowList.value)
    ensures forall k :: k in allowed ==> fields[k] == Some(allowed[k])
  {
    match allowList
    case Some(keys) => PickWithoutUndefined(fields, keys)
    case None => CopyWithoutUndefined(fields)
  }

  /** getByCriteria's WHERE map: no criteria at all is an empty filter, otherwise the allowed, defined criteria. */
  function CriteriaFilter(columnsForFilters: Option<seq<string>>, criteria: Option<Fields>): (filter: Row)
    ensures criteria.None? ==> filter == map[]
    ensures forall k :: k in filter <==>
      criteria.Some? && k in criteria.value && criteria.value[k].Some? && (columnsForFilters.Some? ==> k in columnsForFilters.value)
    ensures forall k :: k in filter ==> criteria.value[k] == Some(filter[k])
  {
    match criteria
    case None => map[]
    case Some(c) => AllowedFields(columnsForFilters, c)
  }

  /** The columns a read selects: the ones asked for, else the configured ones. */
  function FetchColumns(requested: Option<seq<string>>, configured: seq<string>): (columns: seq<string>)
    ensures requested.Some? ==> columns == requested.value
    ensures requested.None? ==> columns == configured
  {
    match requested
    case Some(columns) => columns
    case None => configured
  }

  /** The ORDER BY list a read applies: the caller's sort when given, else the configured default. */
  function SortParam(sorting: Option<seq<SortingParam>>, defaultOrderBy: Option<seq<SortingParam>>): (applied: Option<seq<SortingParam>>)
    ensures sorting.Some? ==> applied == sorting
    ensures sorting.None? ==> applied == defaultOrderBy
    ensures applied.None? <==> sorting.None? && defaultOrderBy.None?
  {
    match sorting
    case Some(_) => sorting
    case None => defaultOrderBy
  }

  /** The ORDER BY list an UPDATE carries: the read's choice, but none at all on a driver that refuses one. */
  function UpdateSortParam(driverName: string, sorting: Option<seq<SortingParam>>, defaultOrderBy: Option<seq<SortingParam>>): (applied: Option<seq<SortingParam>>)
    ensures applied.Some? <==> driverName != "mssql" && (sorting.Some? || defaultOrderBy.Some?)
    ensures applied.Some? ==> applied == SortParam(sorting, defaultOrderBy)
  {
    if DoesSupportUpdateOrderBy(driverName) then SortParam(sorting, defaultOrderBy) else None
  }

  /**
   * updateSingleByCriteria's verdict exactly as written: the cardinality is
   * checked on `checked`, but the row handed back is the first element of the
   * UPDATE's own result, which on a driver without RETURNING is a count.
   */
  function SingleUpdateAsWritten(checked: seq<Row>, result: UpdateResult, criteria: Fields): (outcome: Result<Option<Row>>)
    ensures outcome.Err? <==> |checked| != 1
    ensures |checked| > 1 ==> outcome == Err(NonUniqueResultError(UpdatedMoreThanOneRow, criteria))
    ensures |checked| == 0 ==> outcome == Err(NoEntityExistsError(UpdatedNoRows, criteria))
    ensures |checked| == 1 && result.AffectedCount? ==> outcome == Ok(None)
  {
    if |checked| > 1 then Err(NonUniqueResultError(UpdatedMoreThanOneRow, criteria))
    else if |checked| == 0 then Err(NoEntityExistsError(UpdatedNoRows, criteria))
    else Ok(match result case UpdatedRows(rows) => First(rows) case AffectedCount(_) => None)
  }

  /** updateSingleByCriteria's verdict as intended: exactly one checked row, and that row is the answer. */
  function SingleUpdate(checked: seq<Row>, criteria: Fields): (outcome: Result<Row>)
    ensures outcome.Ok? <==> |checked| == 1
    ensures outcome.Ok? ==> outcome.value == checked[0]
    ensures |checked| > 1 ==> outcome.error == NonUniqueResultError(UpdatedMoreThanOneRow, criteria)
    ensures |checked| == 0 ==> outcome.error == NoEntityExistsError(UpdatedNoRows, criteria)
  {
    if |checked| > 1 then Err(NonUniqueResultError(UpdatedMoreThanOneRow, criteria))
    else if |checked| == 0 then Err(NoEntityExistsError(UpdatedNoRows, criteria))
    else Ok(checked[0])
  }

  /** On a driver with RETURNING both verdicts agree; there the UPDATE's rows are what is checked. */
  lemma SingleUpdateAgreesWithReturning(rows: seq<Row>, criteria: Fields)
    ensures var asWritten := SingleUpdateAsWritten(rows, UpdatedRows(rows), criteria);
      var intended := SingleUpdate(rows, criteria);
      && (asWritten.Err? <==> intended.Err?)
      && (asWritten.Err? ==> asWritten.error == intended.error)
      && (asWritten.Ok? ==> asWritten.value == Some(intended.value))
  {
  }

  /**
   * On a driver without RETURNING, an update that touched exactly one row
   * reports success but hands back no row, where the re-fetched row was meant.
   */
  lemma SingleUpdateAsWrittenLosesRow(row: Row, criteria: Fields)
    ensures SingleUpdateAsWritten([row], AffectedCount(1), criteria) == Ok(None)
    ensures SingleUpdate([row], criteria) == Ok(row)
  {
  }

  /** Whatever order the rows come back in, the single-result verdict is the same. */
  lemma SingleUpdateIgnoresOrder(rows: seq<Row>, sort: Option<seq<SortingParam>>, precedes: (seq<SortingParam>, Row, Row) -> bool,
                                 columns: seq<string>, criteria: Fields)
    ensures SingleUpdate(ProjectAll(Ordered(rows, sort, precedes), columns), criteria)
         == SingleUpdate(ProjectAll(rows, columns), criteria)
  {
    if |rows| == 1 {
      assert rows == [rows[0]];
      OrderedSingleton(rows[0], sort, precedes);
    }
  }

  /** getSingleByCriteria's verdict: more than one match is an error, otherwise the match if any. */
  function SingleGet(matched: seq<Row>, criteria: Fields): (outcome: Result<Option<Row>>)
    ensures outcome.Err? <==> |matched| > 1
    ensures outcome.Err? ==> outcome.error == NonUniqueResultError(MoreThanSingleResult, criteria)
    ensures outcome.Ok? ==> outcome.value == First(matched)
  {
    if |matched| > 1 then Err(NonUniqueResultError(MoreThanSingleResult, criteria))
    else Ok(First(matched))
  }

  /**
   * Criteria made only of keys outside the filter allow-list filter nothing:
   * a read sees every row, and a delete empties the table.
   */
  lemma DisallowedCriteriaMatchEverything(allowed: seq<string>, criteria: Fields, rows: seq<Row>)
    requires forall k :: k in criteria ==> k !in allowed
    ensures AllowedFields(Some(allowed), criteria) == map[]
    ensures Where(rows, AllowedFields(Some(allowed), criteria)) == rows
    ensures DeleteWhere(rows, AllowedFields(Some(allowed), criteria)) == []
  {
    PickDisjointIsEmpty(criteria, allowed);
    WhereEmptyFilter(rows);
  }

  /** No criteria and empty criteria are the same filter, and it keeps every row. */
  lemma AbsentCriteriaMatchEverything(columnsForFilters: Option<seq<string>>, rows: seq<Row>)
    ensures CriteriaFilter(columnsForFilters, None) == CriteriaFilter(columnsForFilters, Some(map[])) == map[]
    ensures Where(rows, CriteriaFilter(columnsForFilters, None)) == rows
  {
    var f := CriteriaFilter(columnsForFilters, Some(map[]));
    assert f.Keys == {};
    WhereEmptyFilter(rows);
  }

  /**
   * Looking a freshly stored row up by its key finds exactly that row, as
   * long as no row stored before holds the same key.
   */
  lemma RefetchFindsInserted(rows: seq<Row>, stored: Row, idColumn: string, columns: seq<string>)
    requires forall row :: row in rows ==> Field(row, idColumn) != Field(stored, idColumn)
    ensures First(ProjectAll(Where(rows + [stored], map[idColumn := Field(stored, idColumn)]), columns))
         == Some(Project(stored, columns))
  {
    var filter := map[idColumn := Field(stored, idColumn)];
    WhereConcat(rows, [stored], filter);
    WhereNoneMatch(rows, filter);
    assert Matches(stored, filter);
    assert Where([stored], filter) == [stored] + Where([], filter);
  }

  /**
   * The update scenario of the test repository: with updates restricted to
   * `age`, updating `{age: 11, name: 'x'}` by id sets the age and leaves the
   * name as it was.
   */
  lemma RestrictedUpdateKeepsName(row: Row, id: Value)
    requires Field(row, "userId") == id
    ensures var fields := AllowedFields(Some(["age"]), map["age" := Some(Int(11)), "name" := Some(Str("x"))]);
      var updated := UpdateWhere([row], map["userId" := id], fields)[0];
      Field(updated, "age") == Int(11) && Field(updated, "name") == Field(row, "name")
  {
    var fields := AllowedFields(Some(["age"]), map["age" := Some(Int(11)), "name" := Some(Str("x"))]);
    assert "name" !in fields;
    assert "age" in fields;
    assert Matches(row, map["userId" := id]);
  }

  /**
   * The delete scenario of the test suite: of two users with different ids,
   * deleting the first by its id leaves exactly the second.
   */
  lemma DeleteByIdKeepsOther(first: Row, second: Row, idColumn: string)
    requires Field(first, idColumn) != Field(second, idColumn)
    ensures DeleteWhere([first, second], map[idColumn := Field(first, idColumn)]) == [second]
  {
    var filter := map[idColumn := Field(first, idColumn)];
    assert Matches(first, filter) && !Matches(second, filter);
    assert [first, second][1..] == [second];
    assert [second][1..] == [];
  }

  /** Appending two pieces one after the other is appending their concatenation. */
  lemma ConcatAssociates<T>(a: seq<T>, b: seq<T>, c: seq<T>)
    ensures (a + b) + c == a + (b + c)
  {
  }

  /**
   * Storing one batch after another leaves the table as one INSERT of both
   * batches would.
   */
  lemma StoredInTwo(before: seq<Row>, done: seq<Row>, next: seq<Row>, keyColumn: string, start: int, key: int,
                    rowsThen: seq<Row>, rowsNow: seq<Row>)
    requires rowsThen == before + WithKeys(done, keyColumn, start)
    requires key == start + |done|
    requires rowsNow == rowsThen + WithKeys(next, keyColumn, key)
    ensures rowsNow == before + WithKeys(done + next, keyColumn, start)
  {
    WithKeysConcat(done, next, keyColumn, start);
    ConcatAssociates(before, WithKeys(done, keyColumn, start), WithKeys(next, keyColumn, key));
  }

  /** Inserting one batch after another returns what one INSERT of both batches would. */
  lemma ReturnedInTwo(done: seq<Row>, next: seq<Row>, keyColumn: string, start: int, key: int,
                      returnedSoFar: seq<Returned>, returnedNow: seq<Returned>, columns: seq<string>, driverName: string)
    requires key == start + |done|
    requires returnedSoFar == InsertReturning(WithKeys(done, keyColumn, start), columns, keyColumn, driverName)
    requires returnedNow == InsertReturning(WithKeys(next, keyColumn, key), columns, keyColumn, driverName)
    ensures returnedSoFar + returnedNow == InsertReturning(WithKeys(done + next, keyColumn, start), columns, keyColumn, driverName)
  {
    WithKeysConcat(done, next, keyColumn, start);
    InsertReturningConcat(WithKeys(done, keyColumn, start), WithKeys(next, keyColumn, key), columns, keyColumn, driverName);
  }

  /** After the last chunk, what was inserted is every row given. */
  lemma AllChunksInserted(insertRows: seq<Row>, size: nat, keyColumn: string, start: int)
    requires size > 0
    ensures var chunks := Chunk(insertRows, size);
      WithKeys(Flatten(chunks[..|chunks|]), keyColumn, start) == WithKeys(insertRows, keyColumn, start)
  {
    var chunks := Chunk(insertRows, size);
    assert chunks[..|chunks|] == chunks;
  }

  /**
   * A bulk insert keeps input order: the i-th row stored is the i-th input
   * row cut to the create allow-list and given the i-th key handed out, and
   * with RETURNING the i-th row handed back is that stored row.
   */
  lemma BulkInsertedInOrder(newEntityRows: seq<Fields>, columnsForCreate: seq<string>, keyColumn: string, start: int,
                            columns: seq<string>, driverName: string, i: nat)
    requires i < |newEntityRows|
    ensures var stored := WithKeys(CreateRows(newEntityRows, columnsForCreate), keyColumn, start);
      && stored[i] == Keyed(PickWithoutUndefined(newEntityRows[i], columnsForCreate), keyColumn, start + i)
      && (DoesSupportReturning(driverName) ==>
            InsertReturning(stored, columns, keyColumn, driverName)[i] == FetchedRow(Project(stored[i], columns)))
  {
    var insertRows := CreateRows(newEntityRows, columnsForCreate);
    WithKeysAt(insertRows, keyColumn, start, i);
    InsertReturningAt(WithKeys(insertRows, keyColumn, start), columns, keyColumn, driverName, i);
  }

  /**
   * A repository over one table of the engine. Its configuration is fixed at
   * construction; its operations change only the rows of the connection they
   * run on.
   */
  class AbstractRepository {
    const knex: Db
    const tableName: string
    const columnsToFetch: seq<string>
    const columnsToFetchList: seq<string>
    const columnsToFetchDetails: seq<string>
    const idColumn: string
    const defaultOrderBy: Option<seq<SortingParam>>
    const columnsForCreate: seq<string>
    const columnsForFilters: Option<seq<string>>
    const columnsForUpdate: Option<seq<string>>

    /**
     * The list and detail column sets are both taken from columnsToFetch,
     * whatever the configuration says for them; an unconfigured create
     * allow-list is empty.
     */
    constructor(knex: Db, config: RepositoryConfig)
      ensures this.knex == knex
      ensures tableName == config.tableName && idColumn == config.idColumn
      ensures defaultOrderBy == config.defaultOrderBy
      ensures columnsToFetch == config.columnsToFetch
      ensures columnsToFetchList == config.columnsToFetch && columnsToFetchDetails == config.columnsToFetch
      ensures config.columnsForCreate.None? ==> columnsForCreate == []
      ensures config.columnsForCreate.Some? ==> columnsForCreate == config.columnsForCreate.value
      ensures columnsForFilters == config.columnsForFilters && columnsForUpdate == config.columnsForUpdate
    {
      this.knex := knex;
      tableName := config.tableName;
      idColumn := config.idColumn;
      defaultOrderBy := config.defaultOrderBy;
      columnsToFetch := config.columnsToFetch;
      columnsToFetchList := config.columnsToFetch;
      columnsToFetchDetails := config.columnsToFetch;
      columnsForCreate := match config.columnsForCreate case Some(c) => c case None => [];
      columnsForFilters := config.columnsForFilters;
      columnsForUpdate := config.columnsForUpdate;
    }

    /** The connection a statement runs on: the transaction when one is given, the repository's own otherwise. */
    function GetKnexOrTransaction(trx: Option<Db>): (db: Db)
      ensures trx.Some? ==> db == trx.value
      ensures trx.None? ==> db == knex
    {
      match trx
      case Some(t) => t
      case None => knex
    }

    /** A transaction handed to the repository belongs to its own client, so it speaks the same dialect. */
    predicate SameClient(trx: Option<Db>)
    {
      trx.Some? ==> trx.value.driverName == knex.driverName
    }

    /** The WHERE map `{ [idColumn]: id }`: it matches a row exactly when the row's id column holds id. */
    function IdFilter(id: Value): (filter: Row)
      ensures filter.Keys == {idColumn} && filter[idColumn] == id
      ensures forall row :: Matches(row, filter) <==> Field(row, idColumn) == id
    {
      map[idColumn := id]
    }

    method Create(newEntityRow: Fields, trx: Option<Db>) returns (created: Option<Row>)
      requires SameClient(trx)
      modifies GetKnexOrTransaction(trx)
      ensures var db := GetKnexOrTransaction(trx);
        var stored := Keyed(PickWithoutUndefined(newEntityRow, columnsForCreate), db.keyColumn, old(db.nextKey));
        && db.rows == old(db.rows) + [stored]
        && db.nextKey == old(db.nextKey) + 1
        && (DoesSupportReturning(knex.driverName) ==> created == Some(Project(stored, columnsToFetch)))
        && (!DoesSupportReturning(knex.driverName) ==>
              created == First(ProjectAll(Where(db.rows, IdFilter(Field(stored, db.keyColumn))), columnsToFetchDetails)))
    {
      var db := GetKnexOrTransaction(trx);
      var insertRow := PickWithoutUndefined(newEntityRow, columnsForCreate);
      ghost var stored := Keyed(insertRow, db.keyColumn, db.nextKey);
      var insertedRows := db.Insert([insertRow], columnsToFetch);
      assert WithKeys([insertRow], db.keyColumn, old(db.nextKey)) == [stored] + WithKeys([], db.keyColumn, old(db.nextKey) + 1);
      assert insertedRows == [ReturnedFor(stored, columnsToFetch, db.keyColumn, db.driverName)] + InsertReturning([], columnsToFetch, db.keyColumn, db.driverName);
      if !DoesSupportReturning(knex.driverName) {
        created := GetById(insertedRows[0].key, None, trx);
        return;
      }
      created := Some(insertedRows[0].row);
    }

    method CreateBulk(newEntityRows: seq<Fields>, trx: Option<Db>, chunkSize: nat) returns (insertedRows: seq<Returned>)
      requires SameClient(trx)
      requires chunkSize > 0
      modifies GetKnexOrTransaction(trx)
      ensures var db := GetKnexOrTransaction(trx);
        var stored := WithKeys(CreateRows(newEntityRows, columnsForCreate), db.keyColumn, old(db.nextKey));
        && db.rows == old(db.rows) + stored
        && db.nextKey == old(db.nextKey) + |newEntityRows|
        && insertedRows == InsertReturning(stored, columnsToFetch, db.keyColumn, knex.driverName)
    {
      var db := GetKnexOrTransaction(trx);
      var insertRows := CreateRows(newEntityRows, columnsForCreate);
      var chunks := Chunk(insertRows, chunkSize);
      ghost var before, start := db.rows, db.nextKey;
      insertedRows := [];
      ghost var done: seq<Row> := [];
      for i := 0 to |chunks|
        invariant done == Flatten(chunks[..i])
        invariant db.rows == before + WithKeys(done, db.keyColumn, start)
        invariant db.nextKey == start + |done|
        invariant insertedRows == InsertReturning(WithKeys(done, db.keyColumn, start), columnsToFetch, db.keyColumn, db.driverName)
      {
        ghost var rowsThen, key := db.rows, db.nextKey;
        var returned := db.Insert(chunks[i], columnsToFetch);
        StoredInTwo(before, done, chunks[i], db.keyColumn, start, key, rowsThen, db.rows);
        ReturnedInTwo(done, chunks[i], db.keyColumn, start, key, insertedRows, returned, columnsToFetch, db.driverName);
        FlattenPrefix(chunks, i);
        insertedRows := insertedRows + returned;
        done := done + chunks[i];
      }
      AllChunksInserted(insertRows, chunkSize, db.keyColumn, start);
    }

    method CreateBulkNoReturning(newEntityRows: seq<Fields>, trx: Option<Db>, chunkSize: nat)
      requires SameClient(trx)
      requires chunkSize > 0
      modifies GetKnexOrTransaction(trx)
      ensures var db := GetKnexOrTransaction(trx);
        && db.rows == old(db.rows) + WithKeys(CreateRows(newEntityRows, columnsForCreate), db.keyColumn, old(db.nextKey))
        && db.nextKey == old(db.nextKey) + |newEntityRows|
    {
      var db := GetKnexOrTransaction(trx);
      var insertRows := CreateRows(newEntityRows, columnsForCreate);
      var chunks := Chunk(insertRows, chunkSize);
      ghost var before, start := db.rows, db.nextKey;
      ghost var done: seq<Row> := [];
      for i := 0 to |chunks|
        invariant done == Flatten(chunks[..i])
        invariant db.rows == before + WithKeys(done, db.keyColumn, start)
        invariant db.nextKey == start + |done|
      {
        ghost var rowsThen, key := db.rows, db.nextKey;
        var returned := db.Insert(chunks[i], []);
        StoredInTwo(before, done, chunks[i], db.keyColumn, start, key, rowsThen, db.rows);
        FlattenPrefix(chunks, i);
        done := done + chunks[i];
      }
      AllChunksInserted(insertRows, chunkSize, db.keyColumn, start);
    }

    /** createBulk called without a chunk size: chunks of DefaultChunkSize rows, with the same outcome. */
    method CreateBulkInDefaultChunks(newEntityRows: seq<Fields>, trx: Option<Db>) returns (insertedRows: seq<Returned>)
      requires SameClient(trx)
      modifies GetKnexOrTransaction(trx)
      ensures var db := GetKnexOrTransaction(trx);
        var stored := WithKeys(CreateRows(newEntityRows, columnsForCreate), db.keyColumn, old(db.nextKey));
        && db.rows == old(db.rows) + stored
        && db.nextKey == old(db.nextKey) + |newEntityRows|
        && insertedRows == InsertReturning(stored, columnsToFetch, db.keyColumn, knex.driverName)
    {
      insertedRows := CreateBulk(newEntityRows, trx, DefaultChunkSize);
    }

    /** createBulkNoReturning called without a chunk size: chunks of DefaultChunkSize rows. */
    method CreateBulkNoReturningInDefaultChunks(newEntityRows: seq<Fields>, trx: Option<Db>)
      requires SameClient(trx)
      modifies GetKnexOrTransaction(trx)
      ensures var db := GetKnexOrTransaction(trx);
        && db.rows == old(db.rows) + WithKeys(CreateRows(newEntityRows, columnsForCreate), db.keyColumn, old(db.nextKey))
        && db.nextKey == old(db.nextKey) + |newEntityRows|
    {
      CreateBulkNoReturning(newEntityRows, trx, DefaultChunkSize);
    }

    method UpdateById(id: Value, updatedFields: Fields, trx: Option<Db>) returns (updated: Option<Row>)
      requires SameClient(trx)
      modifies GetKnexOrTransaction(trx)
      ensures var db := GetKnexOrTransaction(trx);
        var fields := AllowedFields(columnsForUpdate, updatedFields);
        && db.rows == UpdateWhere(old(db.rows), IdFilter(id), fields)
        && db.nextKey == old(db.nextKey)
        && (DoesSupportReturning(knex.driverName) ==>
              updated == First(ProjectAll(MergeAll(Where(old(db.rows), IdFilter(id)), fields), columnsToFetch)))
        && (!DoesSupportReturning(knex.driverName) ==> updated == None)
    {
      var db := GetKnexOrTransaction(trx);
      var updatedColumns := AllowedFields(columnsForUpdate, updatedFields);
      var result := db.Update(IdFilter(id), updatedColumns, columnsToFetch, None);
      updated := match result case UpdatedRows(rows) => First(rows) case AffectedCount(_) => None;
    }

    method UpdateByCriteria(filterCriteria: Fields, updatedFields: Fields, trx: Option<Db>, sorting: Option<seq<SortingParam>>)
      returns (result: UpdateResult)
      requires SameClient(trx)
      modifies GetKnexOrTransaction(trx)
      ensures var db := GetKnexOrTransaction(trx);
        var filter := AllowedFields(columnsForFilters, filterCriteria);
        var fields := AllowedFields(columnsForUpdate, updatedFields);
        var matched := Where(old(db.rows), filter);
        && db.rows == UpdateWhere(old(db.rows), filter, fields)
        && db.nextKey == old(db.nextKey)
        && result == if DoesSupportReturning(knex.driverName)
             then UpdatedRows(ProjectAll(Ordered(MergeAll(matched, fields), UpdateSortParam(knex.driverName, sorting, defaultOrderBy), db.precedes), columnsToFetch))
             else AffectedCount(|matched|)
    {
      var db := GetKnexOrTransaction(trx);
      var updatedColumns := AllowedFields(columnsForUpdate, updatedFields);
      var filters := AllowedFields(columnsForFilters, filterCriteria);
      var sortParam := SortParam(sorting, defaultOrderBy);
      var applied := if DoesSupportUpdateOrderBy(knex.driverName) then sortParam else None;
      result := db.Update(filters, updatedColumns, columnsToFetch, applied);
    }

    method UpdateSingleByCriteria(filterCriteria: Fields, updatedFields: Fields, trx: Option<Db>) returns (outcome: Result<Row>)
      requires SameClient(trx)
      modifies GetKnexOrTransaction(trx)
      ensures var db := GetKnexOrTransaction(trx);
        var filter := AllowedFields(columnsForFilters, filterCriteria);
        var fields := AllowedFields(columnsForUpdate, updatedFields);
        var matchedBefore := Where(old(db.rows), filter);
        var matchedAfter := Where(db.rows, filter);
        && db.rows == UpdateWhere(old(db.rows), filter, fields)
        && db.nextKey == old(db.nextKey)
        && (DoesSupportReturning(knex.driverName) ==>
              outcome == SingleUpdate(ProjectAll(MergeAll(matchedBefore, fields), columnsToFetch), filterCriteria))
        && (!DoesSupportReturning(knex.driverName) ==>
              outcome == SingleUpdate(ProjectAll(matchedAfter, columnsToFetchDetails), filterCriteria))
    {
      var db := GetKnexOrTransaction(trx);
      ghost var filter := AllowedFields(columnsForFilters, filterCriteria);
      ghost var fields := AllowedFields(columnsForUpdate, updatedFields);
      ghost var matchedBefore := Where(db.rows, filter);
      var result := UpdateByCriteria(filterCriteria, updatedFields, trx, None);
      var returningResult: seq<Row>;
      if DoesSupportReturning(knex.driverName) {
        returningResult := result.rows;
        SingleUpdateIgnoresOrder(MergeAll(matchedBefore, fields), UpdateSortParam(knex.driverName, None, defaultOrderBy),
                                 db.precedes, columnsToFetch, filterCriteria);
      } else {
        returningResult := GetByCriteria(Some(filterCriteria), None, Some(columnsToFetchDetails), trx);
        SingleUpdateIgnoresOrder(Where(db.rows, filter), SortParam(None, defaultOrderBy),
                                 db.precedes, columnsToFetchDetails, filterCriteria);
      }
      outcome := SingleUpdate(returningResult, filterCriteria);
    }

    method GetById(id: Value, columns: Option<seq<string>>, trx: Option<Db>) returns (found: Option<Row>)
      ensures var db := GetKnexOrTransaction(trx);
        found == First(ProjectAll(Where(db.rows, IdFilter(id)), FetchColumns(columns, columnsToFetchDetails)))
      ensures var db := GetKnexOrTransaction(trx);
        found.None? <==> forall row :: row in db.rows ==> Field(row, idColumn) != id
    {
      var db := GetKnexOrTransaction(trx);
      var result := db.Select(IdFilter(id), FetchColumns(columns, columnsToFetchDetails), None);
      found := First(result);
      if result != [] {
        var matched := Where(db.rows, IdFilter(id));
        assert matched[0] in matched;
      }
    }

    method GetByCriteria(filterCriteria: Option<Fields>, sorting: Option<seq<SortingParam>>, columns: Option<seq<string>>, trx: Option<Db>)
      returns (result: seq<Row>)
      ensures var db := GetKnexOrTransaction(trx);
        var matched := Where(db.rows, CriteriaFilter(columnsForFilters, filterCriteria));
        && result == ProjectAll(Ordered(matched, SortParam(sorting, defaultOrderBy), db.precedes), FetchColumns(columns, columnsToFetchList))
        && |result| == |matched|
    {
      var db := GetKnexOrTransaction(trx);
      var filters := CriteriaFilter(columnsForFilters, filterCriteria);
      var sortParam := SortParam(sorting, defaultOrderBy);
      result := db.Select(filters, FetchColumns(columns, columnsToFetchList), sortParam);
    }

    method GetSingleByCriteria(filterCriteria: Fields, columns: Option<seq<string>>) returns (outcome: Result<Option<Row>>)
      ensures var matched := Where(knex.rows, AllowedFields(columnsForFilters, filterCriteria));
        && (outcome.Err? <==> |matched| > 1)
        && (outcome.Err? ==> outcome.error == NonUniqueResultError(MoreThanSingleResult, filterCriteria))
        && (|matched| == 0 ==> outcome == Ok(None))
        && (|matched| == 1 ==> outcome == Ok(Some(Project(matched[0], FetchColumns(columns, columnsToFetchDetails)))))
    {
      var result := GetByCriteria(Some(filterCriteria), None, Some(FetchColumns(columns, columnsToFetchDetails)), None);
      ghost var matched := Where(knex.rows, AllowedFields(columnsForFilters, filterCriteria));
      if |matched| == 1 {
        assert matched == [matched[0]];
        OrderedSingleton(matched[0], defaultOrderBy, knex.precedes);
      }
      outcome := SingleGet(result, filterCriteria);
    }

    method DeleteById(id: Value, trx: Option<Db>)
      modifies GetKnexOrTransaction(trx)
      ensures var db := GetKnexOrTransaction(trx);
        db.rows == DeleteWhere(old(db.rows), IdFilter(id)) && db.nextKey == old(db.nextKey)
    {
      var db := GetKnexOrTransaction(trx);
      db.Delete(IdFilter(id));
    }

    method DeleteByCriteria(filterCriteria: Fields, trx: Option<Db>)
      modifies GetKnexOrTransaction(trx)
      ensures var db := GetKnexOrTransaction(trx);
        db.rows == DeleteWhere(old(db.rows), AllowedFields(columnsForFilters, filterCriteria)) && db.nextKey == old(db.nextKey)
    {
      var filters := AllowedFields(columnsForFilters, filterCriteria);
      var db := GetKnexOrTransaction(trx);
      db.Delete(filters);
    }
  }
}
