/**
 * The live batch service, `createQueryData`: select stored queries with the
 * request's filter map, run each one on its own driver session, and answer
 * with an object mapping every query name to its rows or to a fixed error
 * pair. Each query first resolves its four columns against the request body,
 * then finds its database, prefixes a variable preamble for MySQL and SQL
 * Server, connects, runs the transaction, and always closes the session it
 * opened.
 */
module QueryDataService {
  import opened Wrappers
  import opened ObjectEntries
  import opened JsValues
  import opened ParameterResolution
  import opened Preamble
  import opened Connection
  import opened Session
  import opened StoreFilter

  /** A row of `query_gateway_queries`, reduced to the columns the service reads. */
  datatype GatewayQuery = GatewayQuery(
    name: string,
    databaseId: int,
    sql: string,
    variableMap: Json,
    replacementMap: Json)

  const FailureMessage: string := "The query data creation process encountered a technical issue."
  const FailureSuggestion: string := "Please try again later or contact support if the issue persists."

  /** The value stored under a query's name: its rows, or the error pair. */
  datatype QueryValue = QueryRows(rows: Rows) | QueryFailure(message: string, suggestion: string)

  /** The one error pair every failing query gets, whatever went wrong. */
  const Failure: QueryValue := QueryFailure(FailureMessage, FailureSuggestion)

  /** The four resolved columns, the `parameterMap` of `processQuery`. */
  datatype Parameters = Parameters(databaseId: Value, sql: Value, variableMap: Value, replacementMap: Value)

  datatype Column = DatabaseIdColumn | SqlColumn | VariableMapColumn | ReplacementMapColumn

  /** The column's name, the key a request override is looked up under. */
  function ColumnName(c: Column): string
  {
    match c
    case DatabaseIdColumn => "database_id"
    case SqlColumn => "sql"
    case VariableMapColumn => "variable_map"
    case ReplacementMapColumn => "replacement_map"
  }

  /** The stored value of a column. */
  function StoredColumn(q: GatewayQuery, c: Column): Json
  {
    match c
    case DatabaseIdColumn => JNum(q.databaseId)
    case SqlColumn => JStr(q.sql)
    case VariableMapColumn => q.variableMap
    case ReplacementMapColumn => q.replacementMap
  }

  function ParameterOf(p: Parameters, c: Column): Value
  {
    match c
    case DatabaseIdColumn => p.databaseId
    case SqlColumn => p.sql
    case VariableMapColumn => p.variableMap
    case ReplacementMapColumn => p.replacementMap
  }

  /** Every column goes through `extractParameter` with the query's name. */
  function ResolveParameters(q: GatewayQuery, body: Value): Parameters
  {
    Parameters(
      ExtractParameter(body, JNum(q.databaseId), "database_id", q.name),
      ExtractParameter(body, JStr(q.sql), "sql", q.name),
      ExtractParameter(body, q.variableMap, "variable_map", q.name),
      ExtractParameter(body, q.replacementMap, "replacement_map", q.name))
  }

  /**
   * All four columns, the SQL text and the target database included, follow
   * the same precedence: global override, per-query override, stored value.
   */
  lemma EveryColumnOverridable(q: GatewayQuery, body: Value, c: Column)
    ensures ParameterOf(ResolveParameters(q, body), c)
         == FirstDefined([GlobalOverride(body, ColumnName(c)),
                          LocalOverride(body, q.name, ColumnName(c)),
                          StoredDefault(StoredColumn(q, c))])
  {
    ExtractParameterIsFirstDefined(body, StoredColumn(q, c), ColumnName(c), q.name);
  }

  /**
   * `findUnique({where: {id}})`: a record exists only for a numeric id that
   * is a key of the table; any other id (undefined, a string, an object) makes
   * the lookup fail, which ends in the same error entry.
   */
  function FindDatabase(databases: map<int, DatabaseRecord>, id: Value): (r: Option<DatabaseRecord>)
    ensures r.Some? ==> id.Some? && id.value.JNum? && id.value.n in databases && r.value == databases[id.value.n]
    ensures id.Some? && id.value.JNum? && id.value.n in databases ==> r == Some(databases[id.value.n])
  {
    if id.Some? && id.value.JNum? && id.value.n in databases then Some(databases[id.value.n]) else None
  }

  /** The preamble each dialect builds from the variable map's entries. */
  function LivePreamble(d: Dialect, variableMap: Value): string
  {
    match d
    case MySql => SetPreamble(Entries(variableMap))
    case SqlServer => DeclarePreamble(Entries(variableMap))
    case Oracle => ""
  }

  /**
   * `querySql` after the dialect switch: with a truthy variable map, MySQL and
   * SQL Server prefix their preamble (which turns the SQL into a string);
   * otherwise, and always for Oracle, the resolved SQL is used as it is.
   */
  function LiveStatement(d: Dialect, sql: Value, variableMap: Value): Value
  {
    if d != Oracle && Truthy(variableMap) then Some(JStr(LivePreamble(d, variableMap) + ToJsString(sql)))
    else sql
  }

  /**
   * For a string SQL text, the statement is the dialect's statements, one per
   * (declarable) variable in map order, followed by the SQL itself; a falsy
   * variable map, or Oracle, leaves the SQL untouched.
   */
  lemma StatementIsPreambleThenSql(d: Dialect, sql: string, variableMap: Value)
    ensures !Truthy(variableMap) || d == Oracle ==> LiveStatement(d, Some(JStr(sql)), variableMap) == Some(JStr(sql))
    ensures Truthy(variableMap) && d == MySql ==>
              LiveStatement(d, Some(JStr(sql)), variableMap)
              == Some(JStr(Concat(SetStatements(Entries(variableMap))) + sql))
    ensures Truthy(variableMap) && d == SqlServer ==>
              LiveStatement(d, Some(JStr(sql)), variableMap)
              == Some(JStr(Concat(DeclareStatements(Entries(variableMap))) + sql))
  {
    if Truthy(variableMap) && d == MySql {
      SetPreambleIsConcat(Entries(variableMap));
    } else if Truthy(variableMap) && d == SqlServer {
      DeclarePreambleIsConcat(Entries(variableMap));
    }
  }

  /** What a query is run with once it has a session: descriptor, statement and replacements. */
  datatype Prepared = Prepared(descriptor: Descriptor, statement: Value, replacements: Value)

  /** The dialect switch for a found database: `None` for an unknown type or a decryption error. */
  function PrepareFor(database: DatabaseRecord, p: Parameters, decrypt: Decrypt): Option<Prepared>
  {
    var dialect := ParseDialect(database.databaseType);
    if dialect.None? then None
    else
      var descriptor := LiveDescriptor(dialect.value, database, decrypt);
      if descriptor.None? then None
      else Some(Prepared(descriptor.value, LiveStatement(dialect.value, p.sql, p.variableMap), p.replacementMap))
  }

  /** Everything up to `new Sequelize(...)`; `None` when no session is created. */
  function Prepare(q: GatewayQuery, body: Value, databases: map<int, DatabaseRecord>, decrypt: Decrypt)
    : Option<Prepared>
  {
    var p := ResolveParameters(q, body);
    var database := FindDatabase(databases, p.databaseId);
    if database.None? then None else PrepareFor(database.value, p, decrypt)
  }

  /** The driver's answers for a prepared query. */
  function PlanFor(prepared: Prepared, driver: Driver): DriverPlan
  {
    driver(prepared.descriptor, prepared.statement, prepared.replacements)
  }

  /** The value stored under the query's name in the response. */
  function QueryEntryValue(q: GatewayQuery, body: Value, databases: map<int, DatabaseRecord>, decrypt: Decrypt,
                           driver: Driver): QueryValue
  {
    var prepared := Prepare(q, body, databases, decrypt);
    if prepared.None? then Failure
    else
      match TransactionOutcome(PlanFor(prepared.value, driver), true)
      case Done(rows) => QueryRows(rows)
      case Failed(_) => Failure
  }

  /** The calls made on the query's session: the transaction, then `close` in `finally`. */
  function QuerySteps(q: GatewayQuery, body: Value, databases: map<int, DatabaseRecord>, decrypt: Decrypt,
                      driver: Driver): seq<Step>
  {
    var prepared := Prepare(q, body, databases, decrypt);
    if prepared.None? then []
    else
      var pr := prepared.value;
      TransactionSteps(PlanFor(pr, driver), pr.statement, pr.replacements) + [Close]
  }

  /**
   * The `switch` of `processQuery`: `querySql` starts as the resolved SQL and
   * MySQL and SQL Server prefix their preamble to it when the variable map is
   * truthy; then the descriptor is built. `None` is the `default` branch or a
   * decryption error.
   */
  method SwitchDialect(database: DatabaseRecord, p: Parameters, decrypt: Decrypt)
    returns (prepared: Option<Prepared>)
    ensures prepared == PrepareFor(database, p, decrypt)
  {
    var querySql := p.sql;
    var descriptor: Option<Descriptor>;
    match ParseDialect(database.databaseType) {
      case Some(MySql) =>
        if Truthy(p.variableMap) {
          querySql := Some(JStr(SetPreamble(Entries(p.variableMap)) + ToJsString(querySql)));
        }
        descriptor := LiveDescriptor(MySql, database, decrypt);
      case Some(Oracle) =>
        descriptor := LiveDescriptor(Oracle, database, decrypt);
      case Some(SqlServer) =>
        if Truthy(p.variableMap) {
          querySql := Some(JStr(DeclarePreamble(Entries(p.variableMap)) + ToJsString(querySql)));
        }
        descriptor := LiveDescriptor(SqlServer, database, decrypt);
      case None =>
        return None;
    }
    if descriptor.None? {
      return None;
    }
    prepared := Some(Prepared(descriptor.value, querySql, p.replacementMap));
  }

  /**
   * `processQuery`. Never throws: a missing database, an unknown dialect, a
   * decryption error or any failing step yields the error pair; a session is
   * closed whenever one was created.
   */
  method ProcessQuery(q: GatewayQuery, body: Value, databases: map<int, DatabaseRecord>, decrypt: Decrypt,
                      driver: Driver)
    returns (entry: (string, QueryValue), steps: seq<Step>)
    ensures entry == (q.name, QueryEntryValue(q, body, databases, decrypt, driver))
    ensures steps == QuerySteps(q, body, databases, decrypt, driver)
  {
    var p := ResolveParameters(q, body);
    var database := FindDatabase(databases, p.databaseId);
    if database.None? {
      return (q.name, Failure), [];
    }
    var prepared := SwitchDialect(database.value, p, decrypt);
    if prepared.None? {
      return (q.name, Failure), [];
    }
    var pr := prepared.value;
    var session := new Session(pr.descriptor, driver(pr.descriptor, pr.statement, pr.replacements));
    var outcome := session.RunTransaction(pr.statement, pr.replacements, true);
    entry := (q.name, if outcome.Done? then QueryRows(outcome.rows) else Failure);
    var _ := session.Close();
    steps := session.steps;
  }

  /**
   * No session exists exactly when the database is missing, its type is not
   * one of the three dialects, or a credential does not decrypt; the query
   * then fails with the error pair and the driver is never called.
   */
  lemma FailsClosedWithoutSession(q: GatewayQuery, body: Value, databases: map<int, DatabaseRecord>,
                                  decrypt: Decrypt, driver: Driver)
    ensures var p := ResolveParameters(q, body);
            var database := FindDatabase(databases, p.databaseId);
            QuerySteps(q, body, databases, decrypt, driver) == []
            <==> database.None?
                 || ParseDialect(database.value.databaseType).None?
                 || !Decryptable(ParseDialect(database.value.databaseType).value, database.value, decrypt)
    ensures QuerySteps(q, body, databases, decrypt, driver) == [] ==>
              QueryEntryValue(q, body, databases, decrypt, driver) == Failure
  {
  }

  /**
   * Once a session exists, it is opened first and closed last, exactly once;
   * rollback is called exactly when the transaction opened and did not
   * commit.
   */
  lemma SessionAlwaysClosed(q: GatewayQuery, body: Value, databases: map<int, DatabaseRecord>,
                            decrypt: Decrypt, driver: Driver)
    requires Prepare(q, body, databases, decrypt).Some?
    ensures var steps := QuerySteps(q, body, databases, decrypt, driver);
            && |steps| >= 2
            && steps[0] == Begin
            && steps[|steps| - 1] == Close
            && Close !in steps[..|steps| - 1]
            && (Rollback in steps <==> PlanFor(Prepare(q, body, databases, decrypt).value, driver).begins
                                       && QueryEntryValue(q, body, databases, decrypt, driver) == Failure)
  {
    var pr := Prepare(q, body, databases, decrypt).value;
    var plan := PlanFor(pr, driver);
    var tx := TransactionSteps(plan, pr.statement, pr.replacements);
    TransactionContract(plan, true, pr.statement, pr.replacements);
    var steps := tx + [Close];
    assert steps[..|steps| - 1] == tx;
    assert Rollback in steps <==> Rollback in tx;
  }

  /**
   * A query yields rows exactly when it has a session, the transaction opens,
   * the statement runs and the commit succeeds; the rows are the statement's.
   * Every other outcome is the one fixed error pair.
   */
  lemma SuccessExactlyWhenEveryStepSucceeds(q: GatewayQuery, body: Value, databases: map<int, DatabaseRecord>,
                                            decrypt: Decrypt, driver: Driver)
    ensures var v := QueryEntryValue(q, body, databases, decrypt, driver);
            var pr := Prepare(q, body, databases, decrypt);
            && (v.QueryRows? <==> pr.Some? && PlanFor(pr.value, driver).begins
                                  && PlanFor(pr.value, driver).rows.Some? && PlanFor(pr.value, driver).commits)
            && (v.QueryRows? ==> v.rows == PlanFor(pr.value, driver).rows.value)
            && (!v.QueryRows? ==> v == Failure)
  {
    var pr := Prepare(q, body, databases, decrypt);
    if pr.Some? {
      TransactionContract(PlanFor(pr.value, driver), true, pr.value.statement, pr.value.replacements);
    }
  }

  /**
   * Rollback and close errors are swallowed: two drivers that differ only in
   * whether rollback and close succeed give the same entry and the same calls.
   */
  lemma CleanupErrorsSwallowed(q: GatewayQuery, body: Value, databases: map<int, DatabaseRecord>,
                               decrypt: Decrypt, driver: Driver, other: Driver)
    requires forall desc, statement, replacements ::
               other(desc, statement, replacements).(rollsBack := true, closes := true)
               == driver(desc, statement, replacements).(rollsBack := true, closes := true)
    ensures QueryEntryValue(q, body, databases, decrypt, other) == QueryEntryValue(q, body, databases, decrypt, driver)
    ensures QuerySteps(q, body, databases, decrypt, other) == QuerySteps(q, body, databases, decrypt, driver)
  {
    var pr := Prepare(q, body, databases, decrypt);
    if pr.Some? {
      var a := PlanFor(pr.value, other);
      var b := PlanFor(pr.value, driver);
      assert a.(rollsBack := true, closes := true) == b.(rollsBack := true, closes := true);
      assert a.begins == b.begins && a.rows == b.rows && a.commits == b.commits;
    }
  }

  /**
   * A request that names a database id and SQL text in its global map runs
   * that text on that database, whatever the stored query says: the
   * descriptor is the one built from that database's record, and the
   * statement is the request's SQL behind the preamble of its dialect.
   */
  lemma RequestRedirectsQuery(q: GatewayQuery, body: Value, databases: map<int, DatabaseRecord>, decrypt: Decrypt,
                              id: int, sql: string, d: Dialect)
    requires GlobalOverride(body, "database_id") == Some(JNum(id))
    requires GlobalOverride(body, "sql") == Some(JStr(sql))
    requires id in databases && ParseDialect(databases[id].databaseType) == Some(d)
    requires Decryptable(d, databases[id], decrypt)
    ensures Prepare(q, body, databases, decrypt).Some?
    ensures Prepare(q, body, databases, decrypt).value.descriptor == LiveDescriptor(d, databases[id], decrypt).value
    ensures Prepare(q, body, databases, decrypt).value.statement
         == LiveStatement(d, Some(JStr(sql)), ResolveParameters(q, body).variableMap)
  {
    EveryColumnOverridable(q, body, DatabaseIdColumn);
    EveryColumnOverridable(q, body, SqlColumn);
  }

  /** One entry per selected query, in selection order. */
  function QueryEntries(list: seq<GatewayQuery>, body: Value, databases: map<int, DatabaseRecord>,
                        decrypt: Decrypt, driver: Driver): (r: seq<(string, QueryValue)>)
  {
    seq(|list|, i requires 0 <= i < |list| => (list[i].name, QueryEntryValue(list[i], body, databases, decrypt, driver)))
  }

  /** The service's answer; `Rejected` is the store's error propagating out of the handler. */
  datatype BatchReply = Reply(status: int, data: seq<(string, QueryValue)>) | Rejected

  /** The selection `findMany` returns, or `None` when it throws. */
  type FindQueries = Where -> Option<seq<GatewayQuery>>

  /** The `where` argument built from the request's `filterMap`. */
  function BatchWhere(body: Value): Where
  {
    LiveWhere(Prop(body, "filterMap"))
  }

  /**
   * `createQueryData`: select, run every selected query (their order of
   * completion does not matter, each one is independent), and answer 200
   * with `Object.fromEntries` of the entries in selection order.
   */
  method CreateQueryData(body: Value, findMany: FindQueries, databases: map<int, DatabaseRecord>,
                         decrypt: Decrypt, driver: Driver)
    returns (reply: BatchReply)
    ensures reply.Rejected? <==> findMany(BatchWhere(body)).None?
    ensures reply.Reply? ==>
              reply.status == 200
              && reply.data == FromEntries(QueryEntries(findMany(BatchWhere(body)).value, body, databases, decrypt, driver))
  {
    var selected := findMany(BatchWhere(body));
    if selected.None? {
      return Rejected;
    }
    var list := selected.value;
    var entries: seq<(string, QueryValue)> := [];
    var i := 0;
    while i < |list|
      invariant 0 <= i <= |list|
      invariant |entries| == i
      invariant forall j :: 0 <= j < i ==>
                  entries[j] == (list[j].name, QueryEntryValue(list[j], body, databases, decrypt, driver))
    {
      var entry, _ := ProcessQuery(list[i], body, databases, decrypt, driver);
      entries := entries + [entry];
      i := i + 1;
    }
    assert entries == QueryEntries(list, body, databases, decrypt, driver);
    reply := Reply(200, FromEntries(entries));
  }

  /** The response object has exactly one key per distinct selected name. */
  lemma BatchKeysAreNames(list: seq<GatewayQuery>, body: Value, databases: map<int, DatabaseRecord>,
                          decrypt: Decrypt, driver: Driver)
    ensures var data := FromEntries(QueryEntries(list, body, databases, decrypt, driver));
            && DistinctKeys(data)
            && KeySet(data) == (set i | 0 <= i < |list| :: list[i].name)
  {
    var es := QueryEntries(list, body, databases, decrypt, driver);
    forall x | x in KeySet(es) ensures x in set i | 0 <= i < |list| :: list[i].name {
      var i :| 0 <= i < |es| && es[i].0 == x;
    }
    forall x | x in (set i | 0 <= i < |list| :: list[i].name) ensures x in KeySet(es) {
      var i :| 0 <= i < |list| && list[i].name == x;
      assert es[i].0 == x;
    }
  }

  /** Under a name sits the entry of the LAST selected query with that name. */
  lemma BatchLastWriterWins(list: seq<GatewayQuery>, body: Value, databases: map<int, DatabaseRecord>,
                            decrypt: Decrypt, driver: Driver, name: string)
    requires name in KeySet(FromEntries(QueryEntries(list, body, databases, decrypt, driver)))
    ensures exists i :: 0 <= i < |list| && list[i].name == name
                        && Lookup(FromEntries(QueryEntries(list, body, databases, decrypt, driver)), name)
                           == Some(QueryEntryValue(list[i], body, databases, decrypt, driver))
                        && forall j :: i < j < |list| ==> list[j].name != name
  {
    var es := QueryEntries(list, body, databases, decrypt, driver);
    FromEntriesLastWins(es, name);
    var i :| 0 <= i < |es| && es[i].0 == name && Lookup(FromEntries(es), name) == Some(es[i].1)
             && forall j :: i < j < |es| ==> es[j].0 != name;
    assert forall j :: i < j < |list| ==> list[j].name == es[j].0;
  }

  /** No two selected queries share a name. */
  predicate DistinctNames(list: seq<GatewayQuery>)
  {
    forall i, j :: 0 <= i < j < |list| ==> list[i].name != list[j].name
  }

  /** With distinct names, the response holds every entry, in selection order. */
  lemma BatchKeepsDistinctNames(list: seq<GatewayQuery>, body: Value, databases: map<int, DatabaseRecord>,
                                decrypt: Decrypt, driver: Driver)
    requires DistinctNames(list)
    ensures FromEntries(QueryEntries(list, body, databases, decrypt, driver))
            == QueryEntries(list, body, databases, decrypt, driver)
    ensures |FromEntries(QueryEntries(list, body, databases, decrypt, driver))| == |list|
  {
    var es := QueryEntries(list, body, databases, decrypt, driver);
    assert DistinctKeys(es) by {
      forall i, j | 0 <= i < j < |es| ensures es[i].0 != es[j].0 {
        assert es[i].0 == list[i].name && es[j].0 == list[j].name;
      }
    }
    FromEntriesOfDistinct(es);
  }
}
