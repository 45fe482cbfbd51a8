/**
 * The ad hoc service, `createQuery`: run one SQL text, given in the request,
 * on a database named in the request. An ordered chain of checks answers
 * 400, 404 or 500 before anything is run; the text is then run verbatim,
 * without preamble or replacements, in a transaction that is rolled back
 * when it fails; any error ends in a 500 with the generic error pair.
 */
module AdHocQueryService {
  import opened Wrappers
  import opened JsValues
  import opened Connection
  import opened Session
  import QueryDataMapService

  /** `findUnique({where: {name}})`: the record, no record, or an error thrown by the store. */
  datatype StoreAnswer = Found(record: DatabaseRecord) | NotFound | StoreError

  type FindByName = string -> StoreAnswer

  /** The handler's answer; request echo fields and the timestamp are not modelled. */
  datatype QueryReply = Success(rows: Rows) | Problem(status: int, message: string, suggestion: string)
  {
    /** The HTTP status code. */
    function Status(): int
    {
      if Success? then 200 else status
    }
  }

  const InvalidBody: QueryReply := Problem(400,
    "Invalid request format. Request body must be a valid JSON object.",
    "Please check your request format and ensure you are sending a properly structured JSON object.")

  const InvalidDatabaseName: QueryReply := Problem(400,
    "Missing or invalid database name. Database name must be a string.",
    "Please provide a valid database name as a string in your request.")

  const InvalidSql: QueryReply := Problem(400,
    "Missing or invalid SQL query. SQL query must be a string.",
    "Please provide a valid SQL query as a string in your request.")

  const NotFoundSuggestion: string := "Please verify the database name and ensure it exists in the system."

  const UnsupportedSuggestion: string :=
    "This operation only supports Oracle, SQL Server, and MySQL databases. Please use a supported database type."

  /** The 404 answer, naming the database that was asked for. */
  function DatabaseNotFound(databaseName: string): QueryReply
  {
    Problem(404, "Database with name \"" + databaseName + "\" not found.", NotFoundSuggestion)
  }

  /** The 500 answer for a stored type outside the three dialects, naming that type. */
  function UnsupportedType(databaseType: string): QueryReply
  {
    Problem(500, "Unsupported database type: " + databaseType + ".", UnsupportedSuggestion)
  }

  /** The 500 answer for every error thrown along the way. */
  const GenericError: QueryReply :=
    Problem(500, QueryDataMapService.ServerErrorMessage, QueryDataMapService.NoticeSuggestion)

  /** The checks passed: the SQL text to run and the database to run it on. */
  datatype Screening = Rejected(reply: QueryReply) | Accepted(sql: string, record: DatabaseRecord, dialect: Dialect)

  /** The chain of checks, in the order the handler makes them. */
  function Screen(body: Value, find: FindByName): Screening
  {
    if !IsPlainObject(body) then Rejected(InvalidBody)
    else
      var databaseName := Prop(body, "databaseName");
      var sql := Prop(body, "sql");
      if !IsString(databaseName) then Rejected(InvalidDatabaseName)
      else if !IsString(sql) then Rejected(InvalidSql)
      else
        match find(databaseName.value.s)
        case StoreError => Rejected(GenericError)
        case NotFound => Rejected(DatabaseNotFound(databaseName.value.s))
        case Found(record) =>
          var dialect := ParseDialect(record.databaseType);
          if dialect.None? then Rejected(UnsupportedType(record.databaseType))
          else Accepted(sql.value.s, record, dialect.value)
  }

  /** The descriptor, once the checks pass: falsy port unset, no request timeout. */
  function AdHocDescriptor(body: Value, find: FindByName, decrypt: Decrypt): Option<Descriptor>
  {
    var screening := Screen(body, find);
    if screening.Rejected? then None
    else LegacyDescriptor(screening.dialect, screening.record, decrypt)
  }

  /** The handler's answer. */
  function AdHocReply(body: Value, find: FindByName, decrypt: Decrypt, driver: Driver): QueryReply
  {
    var screening := Screen(body, find);
    if screening.Rejected? then screening.reply
    else
      var descriptor := AdHocDescriptor(body, find, decrypt);
      if descriptor.None? then GenericError
      else
        match TransactionOutcome(driver(descriptor.value, Some(JStr(screening.sql)), None), false)
        case Done(rows) => Success(rows)
        case Failed(_) => GenericError
  }

  /** The calls made on the session: the transaction only, no `close`. */
  function AdHocSteps(body: Value, find: FindByName, decrypt: Decrypt, driver: Driver): seq<Step>
  {
    var descriptor := AdHocDescriptor(body, find, decrypt);
    if descriptor.None? then []
    else
      var statement := Some(JStr(Screen(body, find).sql));
      TransactionSteps(driver(descriptor.value, statement, None), statement, None)
  }

  /** `createQuery`. */
  method CreateQuery(body: Value, find: FindByName, decrypt: Decrypt, driver: Driver)
    returns (reply: QueryReply, steps: seq<Step>)
    ensures reply == AdHocReply(body, find, decrypt, driver)
    ensures steps == AdHocSteps(body, find, decrypt, driver)
  {
    steps := [];
    if !IsPlainObject(body) {
      return InvalidBody, steps;
    }
    var databaseName := Prop(body, "databaseName");
    var sql := Prop(body, "sql");
    if !IsString(databaseName) {
      return InvalidDatabaseName, steps;
    }
    if !IsString(sql) {
      return InvalidSql, steps;
    }
    var database: DatabaseRecord;
    match find(databaseName.value.s) {
      case StoreError =>
        return GenericError, steps;
      case NotFound =>
        return DatabaseNotFound(databaseName.value.s), steps;
      case Found(record) =>
        database := record;
    }
    var descriptor: Option<Descriptor> := None;
    match ParseDialect(database.databaseType) {
      case Some(Oracle) =>
        descriptor := LegacyDescriptor(Oracle, database, decrypt);
      case Some(SqlServer) =>
        descriptor := LegacyDescriptor(SqlServer, database, decrypt);
      case Some(MySql) =>
        descriptor := LegacyDescriptor(MySql, database, decrypt);
      case None =>
        return UnsupportedType(database.databaseType), steps;
    }
    if descriptor.None? {
      return GenericError, steps;
    }
    var statement := Some(JStr(sql.value.s));
    var session := new Session(descriptor.value, driver(descriptor.value, statement, None));
    var outcome := session.RunTransaction(statement, None, false);
    reply := if outcome.Done? then Success(outcome.rows) else GenericError;
    steps := session.steps;
  }

  /** Every answer is 200, 400, 404 or 500, and only a success is 200. */
  lemma StatusIsOneOfFour(body: Value, find: FindByName, decrypt: Decrypt, driver: Driver)
    ensures AdHocReply(body, find, decrypt, driver).Status() in {200, 400, 404, 500}
    ensures AdHocReply(body, find, decrypt, driver).Status() == 200 <==> AdHocReply(body, find, decrypt, driver).Success?
  {
  }

  /**
   * The checks come in a fixed order: a body that is not a plain object is
   * refused first; then a non-string database name, whatever the SQL; then a
   * non-string SQL text. None of these consults the store or the driver.
   */
  lemma ChecksInOrder(body: Value, find: FindByName, otherFind: FindByName, decrypt: Decrypt, driver: Driver)
    ensures !IsPlainObject(body) ==> AdHocReply(body, find, decrypt, driver) == InvalidBody
    ensures IsPlainObject(body) && !IsString(Prop(body, "databaseName")) ==>
              AdHocReply(body, find, decrypt, driver) == InvalidDatabaseName
    ensures IsPlainObject(body) && IsString(Prop(body, "databaseName")) && !IsString(Prop(body, "sql")) ==>
              AdHocReply(body, find, decrypt, driver) == InvalidSql
    ensures AdHocReply(body, find, decrypt, driver).Status() == 400 ==>
              AdHocReply(body, otherFind, decrypt, driver) == AdHocReply(body, find, decrypt, driver)
              && AdHocSteps(body, find, decrypt, driver) == []
  {
  }

  /** A name the store does not know gives 404, with the name inside the message. */
  lemma UnknownNameIsNotFound(body: Value, find: FindByName, decrypt: Decrypt, driver: Driver, name: string)
    requires IsPlainObject(body) && Prop(body, "databaseName") == Some(JStr(name)) && IsString(Prop(body, "sql"))
    requires find(name) == NotFound
    ensures var reply := AdHocReply(body, find, decrypt, driver);
            && reply.Status() == 404
            && reply.message[|"Database with name \""|..|"Database with name \""| + |name|] == name
            && AdHocSteps(body, find, decrypt, driver) == []
  {
    var m := "Database with name \"" + name + "\" not found.";
    assert m == ("Database with name \"" + name) + "\" not found.";
  }

  /** A stored type outside the three dialects gives 500 naming that type; nothing is run. */
  lemma UnsupportedTypeIsServerError(body: Value, find: FindByName, decrypt: Decrypt, driver: Driver,
                                     record: DatabaseRecord)
    requires IsPlainObject(body) && IsString(Prop(body, "databaseName")) && IsString(Prop(body, "sql"))
    requires find(Prop(body, "databaseName").value.s) == Found(record)
    requires record.databaseType !in {"Oracle", "SQL Server", "MySQL"}
    ensures var reply := AdHocReply(body, find, decrypt, driver);
            && reply.Status() == 500
            && reply.message[|"Unsupported database type: "|..|"Unsupported database type: "| + |record.databaseType|]
               == record.databaseType
            && reply.suggestion == UnsupportedSuggestion
    ensures AdHocSteps(body, find, decrypt, driver) == []
  {
    var t := record.databaseType;
    var m := "Unsupported database type: " + t + ".";
    assert m == ("Unsupported database type: " + t) + ".";
  }

  /**
   * Once the checks pass and the credentials decrypt, the request's SQL text
   * runs exactly as given, with no replacements, on a descriptor whose falsy
   * port is unset and which has no request timeout; the session is never
   * closed. The answer is 200 with the rows exactly when the transaction
   * opens, runs and commits, and 500 with the generic pair otherwise.
   */
  lemma SqlRunsVerbatim(body: Value, find: FindByName, decrypt: Decrypt, driver: Driver)
    requires Screen(body, find).Accepted?
    ensures var s := Screen(body, find);
            var descriptor := AdHocDescriptor(body, find, decrypt);
            && s.sql == Prop(body, "sql").value.s
            && (descriptor.Some? <==> Decryptable(s.dialect, s.record, decrypt))
            && (descriptor.Some? ==>
                  && descriptor.value.port == TruthyPort(s.record.port)
                  && descriptor.value.requestTimeout == None
                  && var steps := AdHocSteps(body, find, decrypt, driver);
                     var plan := driver(descriptor.value, Some(JStr(s.sql)), None);
                     && steps[0] == Begin
                     && (plan.begins ==> steps[1] == Execute(Some(JStr(s.sql)), None))
                     && Close !in steps
                     && (AdHocReply(body, find, decrypt, driver).Success?
                         <==> plan.begins && plan.rows.Some? && plan.commits)
                     && (AdHocReply(body, find, decrypt, driver).Success? ==>
                           AdHocReply(body, find, decrypt, driver).rows == plan.rows.value))
    ensures !AdHocReply(body, find, decrypt, driver).Success? ==> AdHocReply(body, find, decrypt, driver) == GenericError
  {
    var s := Screen(body, find);
    var descriptor := AdHocDescriptor(body, find, decrypt);
    if descriptor.Some? {
      var statement := Some(JStr(s.sql));
      TransactionContract(driver(descriptor.value, statement, None), false, statement, None);
    }
  }
}
