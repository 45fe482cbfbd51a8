/**
 * The older batch service, `getQueryDataMap`: the same selection and
 * per-query execution as the live one, with the differences of its own
 * version. Only the parameter map can be overridden by the request and it
 * serves both as the variable map and as the replacements; MySQL and SQL
 * Server both get the `DECLARE` preamble, which is prefixed to the query's
 * SQL in place before the connection is built; a rollback error is not
 * swallowed; the session is never closed; and every entry carries the
 * query's own metadata and the SQL as finally prepared.
 */
module QueryDataMapService {
  import opened Wrappers
  import opened ObjectEntries
  import opened JsValues
  import opened ParameterResolution
  import opened Preamble
  import opened Connection
  import opened Session
  import opened StoreFilter

  /** A row of `queries` (`IQuery`); `groupName` is `None` for a NULL `group_name`. */
  datatype LegacyQuery = LegacyQuery(
    id: int,
    name: string,
    groupName: Option<string>,
    databasesId: int,
    sql: string,
    parameterMap: Json,
    isQueryActive: bool,
    createdAt: string,
    updatedAt: string)

  const NoticeMessage: string := "Unexpected error occurred while processing the data."
  const NoticeSuggestion: string := "Please try again later. If this issue persists, contact our support team for assistance."

  /** What an entry reports besides the query's metadata: the rows, or the error pair. */
  datatype Payload = Data(rows: Rows) | Notice(message: string, suggestion: string)

  const FailureNotice: Payload := Notice(NoticeMessage, NoticeSuggestion)

  /** An entry of the response map (`ISuccessQueryData` or `IErrorQueryData`). */
  datatype QueryData = QueryData(
    timestamp: string,
    id: int,
    name: string,
    groupName: Option<string>,
    databasesId: int,
    sql: string,
    parameterMap: Value,
    isQueryActive: bool,
    createdAt: string,
    updatedAt: string,
    payload: Payload)
  {
    /** The entry's `status` field. */
    predicate Status()
    {
      payload.Data?
    }
  }

  /** The `parameterMap` object of `processQueryData`: its `sql` is rewritten in place. */
  class ParameterMap {
    var sql: string
    const parameterMap: Value

    constructor (sql: string, parameterMap: Value)
      ensures this.sql == sql && this.parameterMap == parameterMap
    {
      this.sql := sql;
      this.parameterMap := parameterMap;
    }

    /** `parameterMap.sql = parameterDeclaration + parameterMap.sql`. */
    method PrependDeclarations()
      modifies this
      ensures sql == DeclarePreamble(Entries(parameterMap)) + old(sql)
    {
      sql := DeclarePreamble(Entries(parameterMap)) + sql;
    }
  }

  /** The resolved parameter map: the only column a request can override. */
  function ResolvedParameterMap(q: LegacyQuery, body: Value): Value
  {
    ExtractParameterLegacy(body, q.name, "parameter_map", q.parameterMap)
  }

  /** The SQL after the dialect switch: MySQL and SQL Server prefix declarations for a truthy map. */
  function PreparedSql(sql: string, dialect: Option<Dialect>, parameterMap: Value): string
  {
    if (dialect == Some(SqlServer) || dialect == Some(MySql)) && Truthy(parameterMap) then
      DeclarePreamble(Entries(parameterMap)) + sql
    else sql
  }

  /** The entry for a query, with the SQL as it stood and the payload. */
  function Entry(q: LegacyQuery, timestamp: string, sql: string, parameterMap: Value, payload: Payload): QueryData
  {
    QueryData(timestamp, q.id, q.name, q.groupName, q.databasesId, sql, parameterMap,
              q.isQueryActive, q.createdAt, q.updatedAt, payload)
  }

  /** The dialect of the query's database, `None` when it is missing or unknown. */
  function QueryDialect(q: LegacyQuery, databases: map<int, DatabaseRecord>): Option<Dialect>
  {
    if q.databasesId in databases then ParseDialect(databases[q.databasesId].databaseType) else None
  }

  /** The descriptor the dialect switch builds for a found database; `None` for the `default` branch. */
  function DialectDescriptor(database: DatabaseRecord, decrypt: Decrypt): Option<Descriptor>
  {
    var dialect := ParseDialect(database.databaseType);
    if dialect.None? then None else LegacyDescriptor(dialect.value, database, decrypt)
  }

  /** The descriptor a session is created with, `None` when no session is created. */
  function LegacySessionDescriptor(q: LegacyQuery, databases: map<int, DatabaseRecord>, decrypt: Decrypt)
    : Option<Descriptor>
  {
    if q.databasesId in databases then DialectDescriptor(databases[q.databasesId], decrypt) else None
  }

  /** The entry `processQueryData` yields. */
  function LegacyData(q: LegacyQuery, body: Value, timestamp: string, databases: map<int, DatabaseRecord>,
                      decrypt: Decrypt, driver: Driver): QueryData
  {
    var pm := ResolvedParameterMap(q, body);
    if q.databasesId !in databases then Entry(q, timestamp, q.sql, pm, FailureNotice)
    else
      var sql := PreparedSql(q.sql, QueryDialect(q, databases), pm);
      var descriptor := LegacySessionDescriptor(q, databases, decrypt);
      if descriptor.None? then Entry(q, timestamp, sql, pm, FailureNotice)
      else
        match TransactionOutcome(driver(descriptor.value, Some(JStr(sql)), pm), false)
        case Done(rows) => Entry(q, timestamp, sql, pm, Data(rows))
        case Failed(_) => Entry(q, timestamp, sql, pm, FailureNotice)
  }

  /** The calls made on the query's session: the transaction only, no `close`. */
  function LegacySteps(q: LegacyQuery, body: Value, databases: map<int, DatabaseRecord>, decrypt: Decrypt,
                       driver: Driver): seq<Step>
  {
    var pm := ResolvedParameterMap(q, body);
    var descriptor := LegacySessionDescriptor(q, databases, decrypt);
    if descriptor.None? then []
    else
      var statement := Some(JStr(PreparedSql(q.sql, QueryDialect(q, databases), pm)));
      TransactionSteps(driver(descriptor.value, statement, pm), statement, pm)
  }

  /**
   * The `switch` of `processQueryData`: MySQL and SQL Server prefix the
   * declarations to `parameterMap.sql` in place when the parameter map is
   * truthy, then every known dialect builds its descriptor; `None` is the
   * `default` branch or a decryption error.
   */
  method SwitchDialect(parameterMap: ParameterMap, database: DatabaseRecord, decrypt: Decrypt)
    returns (descriptor: Option<Descriptor>)
    modifies parameterMap
    ensures parameterMap.sql == PreparedSql(old(parameterMap.sql), ParseDialect(database.databaseType),
                                            parameterMap.parameterMap)
    ensures descriptor == DialectDescriptor(database, decrypt)
  {
    descriptor := None;
    match ParseDialect(database.databaseType) {
      case Some(Oracle) =>
        descriptor := LegacyDescriptor(Oracle, database, decrypt);
      case Some(SqlServer) =>
        if Truthy(parameterMap.parameterMap) {
          parameterMap.PrependDeclarations();
        }
        descriptor := LegacyDescriptor(SqlServer, database, decrypt);
      case Some(MySql) =>
        if Truthy(parameterMap.parameterMap) {
          parameterMap.PrependDeclarations();
        }
        descriptor := LegacyDescriptor(MySql, database, decrypt);
      case None =>
    }
  }

  /**
   * `processQueryData`. Never throws: every failure, a failing rollback
   * included, ends in an entry with `status: false` and the error pair.
   */
  method ProcessQueryData(q: LegacyQuery, body: Value, timestamp: string, databases: map<int, DatabaseRecord>,
                          decrypt: Decrypt, driver: Driver)
    returns (entry: (string, QueryData), steps: seq<Step>)
    ensures entry == (q.name, LegacyData(q, body, timestamp, databases, decrypt, driver))
    ensures steps == LegacySteps(q, body, databases, decrypt, driver)
  {
    var parameterMap := new ParameterMap(q.sql, ResolvedParameterMap(q, body));
    if q.databasesId !in databases {
      return (q.name, Entry(q, timestamp, parameterMap.sql, parameterMap.parameterMap, FailureNotice)), [];
    }
    var descriptor := SwitchDialect(parameterMap, databases[q.databasesId], decrypt);
    if descriptor.None? {
      return (q.name, Entry(q, timestamp, parameterMap.sql, parameterMap.parameterMap, FailureNotice)), [];
    }
    var statement := Some(JStr(parameterMap.sql));
    var session := new Session(descriptor.value, driver(descriptor.value, statement, parameterMap.parameterMap));
    var outcome := session.RunTransaction(statement, parameterMap.parameterMap, false);
    var payload := if outcome.Done? then Data(outcome.rows) else FailureNotice;
    entry := (q.name, Entry(q, timestamp, parameterMap.sql, parameterMap.parameterMap, payload));
    steps := session.steps;
  }

  /**
   * The SQL always comes from the stored query: the reported and executed
   * text is the stored SQL, possibly after a `DECLARE` preamble built from
   * the resolved parameter map, and the request body influences the entry and
   * the calls only through that parameter map.
   */
  lemma SqlNotOverridable(q: LegacyQuery, body: Value, other: Value, timestamp: string,
                          databases: map<int, DatabaseRecord>, decrypt: Decrypt, driver: Driver)
    ensures var data := LegacyData(q, body, timestamp, databases, decrypt, driver);
            var pm := ResolvedParameterMap(q, body);
            data.sql == q.sql || (Truthy(pm) && data.sql == DeclarePreamble(Entries(pm)) + q.sql)
    ensures var steps := LegacySteps(q, body, databases, decrypt, driver);
            var data := LegacyData(q, body, timestamp, databases, decrypt, driver);
            forall s :: s in steps && s.Execute? ==> s.statement == Some(JStr(data.sql))
    ensures ResolvedParameterMap(q, other) == ResolvedParameterMap(q, body) ==>
              LegacyData(q, other, timestamp, databases, decrypt, driver)
              == LegacyData(q, body, timestamp, databases, decrypt, driver)
              && LegacySteps(q, other, databases, decrypt, driver) == LegacySteps(q, body, databases, decrypt, driver)
  {
  }

  /**
   * Every entry, success or failure, carries the query's id, name, group,
   * database id, activity flag and timestamps, the resolved parameter map and
   * the item's own timestamp, and a failure holds the one fixed error pair.
   */
  lemma EntryCarriesQueryMetadata(q: LegacyQuery, body: Value, timestamp: string,
                                  databases: map<int, DatabaseRecord>, decrypt: Decrypt, driver: Driver)
    ensures var data := LegacyData(q, body, timestamp, databases, decrypt, driver);
            && data.timestamp == timestamp && data.id == q.id && data.name == q.name
            && data.groupName == q.groupName && data.databasesId == q.databasesId
            && data.isQueryActive == q.isQueryActive
            && data.createdAt == q.createdAt && data.updatedAt == q.updatedAt
            && data.parameterMap == ResolvedParameterMap(q, body)
            && (!data.Status() ==> data.payload == FailureNotice)
  {
  }

  /**
   * A missing database or a type outside the three dialects gives the error
   * entry with the stored SQL untouched, and no session.
   */
  lemma UnusableDatabaseFailsClosed(q: LegacyQuery, body: Value, timestamp: string,
                                    databases: map<int, DatabaseRecord>, decrypt: Decrypt, driver: Driver)
    requires QueryDialect(q, databases).None?
    ensures LegacyData(q, body, timestamp, databases, decrypt, driver).payload == FailureNotice
    ensures LegacyData(q, body, timestamp, databases, decrypt, driver).sql == q.sql
    ensures LegacySteps(q, body, databases, decrypt, driver) == []
  {
  }

  /**
   * The preamble is prefixed before the credentials are decrypted, so an entry
   * that failed on decryption still reports the prefixed SQL.
   */
  lemma DecryptionFailureReportsPreparedSql(q: LegacyQuery, body: Value, timestamp: string,
                                            databases: map<int, DatabaseRecord>, decrypt: Decrypt, driver: Driver,
                                            d: Dialect)
    requires QueryDialect(q, databases) == Some(d)
    requires !Decryptable(d, databases[q.databasesId], decrypt)
    ensures var data := LegacyData(q, body, timestamp, databases, decrypt, driver);
            var pm := ResolvedParameterMap(q, body);
            && data.payload == FailureNotice
            && data.sql == if d != Oracle && Truthy(pm) then DeclarePreamble(Entries(pm)) + q.sql else q.sql
    ensures LegacySteps(q, body, databases, decrypt, driver) == []
  {
  }

  /**
   * An entry holds rows exactly when the database is usable, its credentials
   * decrypt, and the transaction opens, runs and commits; the session is
   * never closed, and a failed rollback changes nothing in the entry.
   */
  lemma LegacyExecutionContract(q: LegacyQuery, body: Value, timestamp: string,
                                databases: map<int, DatabaseRecord>, decrypt: Decrypt, driver: Driver)
    ensures var data := LegacyData(q, body, timestamp, databases, decrypt, driver);
            var descriptor := LegacySessionDescriptor(q, databases, decrypt);
            var pm := ResolvedParameterMap(q, body);
            && (data.Status() <==> descriptor.Some?
                                   && var plan := driver(descriptor.value, Some(JStr(data.sql)), pm);
                                      plan.begins && plan.rows.Some? && plan.commits)
            && (data.Status() ==> data.payload.rows == driver(descriptor.value, Some(JStr(data.sql)), pm).rows.value)
    ensures Close !in LegacySteps(q, body, databases, decrypt, driver)
  {
    var descriptor := LegacySessionDescriptor(q, databases, decrypt);
    if descriptor.Some? {
      var pm := ResolvedParameterMap(q, body);
      var statement := Some(JStr(PreparedSql(q.sql, QueryDialect(q, databases), pm)));
      TransactionContract(driver(descriptor.value, statement, pm), false, statement, pm);
    }
  }

  /**
   * The two versions disagree on MySQL: for a non-empty map of plain values
   * the live service prefixes one `SET` per variable, while this one prefixes
   * nothing, since none of the values has the `{dataType, value}` shape.
   */
  lemma MySqlPreamblesDiffer(q: LegacyQuery, fields: seq<(string, Json)>)
    requires fields != []
    requires forall i :: 0 <= i < |fields| ==> !fields[i].1.JObj? && !fields[i].1.JArr?
    ensures PreparedSql(q.sql, Some(MySql), Some(JObj(fields))) == q.sql
    ensures SetPreamble(Entries(Some(JObj(fields)))) != ""
  {
    PlainValuesDeclareNothing(fields);
  }

  /** The handler's answer: 200 with the entry map, or 500 with the generic error pair. */
  datatype MapReply = MapReply(status: int, data: seq<(string, QueryData)>)
                    | ServerError(status: int, message: string, suggestion: string)

  const ServerErrorMessage: string := "Something went wrong."

  /** The selection `findMany` returns, or `None` when it throws. */
  type FindLegacyQueries = Where -> Option<seq<LegacyQuery>>

  /** One entry per selected query, stamped with the time at which it was started. */
  function LegacyEntries(list: seq<LegacyQuery>, body: Value, clock: nat -> string,
                         databases: map<int, DatabaseRecord>, decrypt: Decrypt, driver: Driver)
    : seq<(string, QueryData)>
  {
    seq(|list|, i requires 0 <= i < |list| =>
      (list[i].name, LegacyData(list[i], body, clock(i), databases, decrypt, driver)))
  }

  /**
   * `getQueryDataMap`: 500 exactly when selecting the queries fails, and
   * otherwise 200 with `Object.fromEntries` of the entries in selection
   * order. `clock(i)` is the formatted local time read for the `i`-th query.
   */
  method GetQueryDataMap(body: Value, findMany: FindLegacyQueries, clock: nat -> string,
                         databases: map<int, DatabaseRecord>, decrypt: Decrypt, driver: Driver)
    returns (reply: MapReply)
    ensures findMany(LegacyWhere(Prop(body, "filterMap"))).None? ==>
              reply == ServerError(500, ServerErrorMessage, NoticeSuggestion)
    ensures findMany(LegacyWhere(Prop(body, "filterMap"))).Some? ==>
              reply == MapReply(200, FromEntries(LegacyEntries(findMany(LegacyWhere(Prop(body, "filterMap"))).value,
                                                               body, clock, databases, decrypt, driver)))
  {
    var selected := findMany(LegacyWhere(Prop(body, "filterMap")));
    if selected.None? {
      return ServerError(500, ServerErrorMessage, NoticeSuggestion);
    }
    var list := selected.value;
    var entries: seq<(string, QueryData)> := [];
    var i := 0;
    while i < |list|
      invariant 0 <= i <= |list|
      invariant |entries| == i
      invariant forall j :: 0 <= j < i ==>
                  entries[j] == (list[j].name, LegacyData(list[j], body, clock(j), databases, decrypt, driver))
    {
      var entry, _ := ProcessQueryData(list[i], body, clock(i), databases, decrypt, driver);
      entries := entries + [entry];
      i := i + 1;
    }
    assert entries == LegacyEntries(list, body, clock, databases, decrypt, driver);
    reply := MapReply(200, FromEntries(entries));
  }

  /** The entry map has one key per distinct selected name. */
  lemma LegacyBatchKeysAreNames(list: seq<LegacyQuery>, body: Value, clock: nat -> string,
                                databases: map<int, DatabaseRecord>, decrypt: Decrypt, driver: Driver)
    ensures KeySet(FromEntries(LegacyEntries(list, body, clock, databases, decrypt, driver)))
            == (set i | 0 <= i < |list| :: list[i].name)
  {
    var es := LegacyEntries(list, body, clock, databases, decrypt, driver);
    forall x | x in KeySet(es) ensures x in set i | 0 <= i < |list| :: list[i].name {
      var i :| 0 <= i < |es| && es[i].0 == x;
    }
    forall x | x in (set i | 0 <= i < |list| :: list[i].name) ensures x in KeySet(es) {
      var i :| 0 <= i < |list| && list[i].name == x;
      assert es[i].0 == x;
    }
  }

  /** The entry under a name is that of the last query selected with it, with that query's timestamp. */
  lemma LegacyBatchLastWriterWins(list: seq<LegacyQuery>, body: Value, clock: nat -> string,
                                  databases: map<int, DatabaseRecord>, decrypt: Decrypt, driver: Driver,
                                  name: string)
    requires name in KeySet(FromEntries(LegacyEntries(list, body, clock, databases, decrypt, driver)))
    ensures exists i :: 0 <= i < |list| && list[i].name == name
                        && Lookup(FromEntries(LegacyEntries(list, body, clock, databases, decrypt, driver)), name)
                           == Some(LegacyData(list[i], body, clock(i), databases, decrypt, driver))
                        && forall j :: i < j < |list| ==> list[j].name != name
  {
    var es := LegacyEntries(list, body, clock, databases, decrypt, driver);
    FromEntriesLastWins(es, name);
    var i :| 0 <= i < |es| && es[i].0 == name && Lookup(FromEntries(es), name) == Some(es[i].1)
             && forall j :: i < j < |es| ==> es[j].0 != name;
    assert forall j :: i < j < |list| ==> list[j].name == es[j].0;
  }
}
