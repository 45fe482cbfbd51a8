# Query gateway: a Dafny model of its three query services

The query gateway keeps SQL queries, each tied to a database, in its own
store and runs them on request against Oracle, SQL Server and MySQL
databases whose credentials are stored encrypted. This project models the
three services that do the running:

- `createQueryData` (module `QueryDataService`) is the live batch service. It
  selects stored queries with the request's `filterMap`. For each query it
  resolves the database id, SQL text, variable map and replacement map
  against the request body. It then finds the database and prefixes a `SET`
  (MySQL) or `DECLARE` (SQL Server) preamble built from the variable map. It
  decrypts the credentials, runs the statement in a transaction and always
  closes the session it opened. Every query ends either in its rows or in one
  fixed error pair. The answer maps each query name to that value, through
  `Object.fromEntries`.
- `getQueryDataMap` (module `QueryDataMapService`) is the older batch
  service. Only the parameter map can be overridden, and it serves both as
  the variable map and as the replacements. MySQL and SQL Server both get
  the `DECLARE` preamble. The preamble is written into the SQL in place
  before the credentials are decrypted. Every entry carries the query's
  metadata and the SQL as finally prepared.
- `createQuery` (module `AdHocQueryService`) is the ad hoc service. It
  checks the body, the database name and the SQL text, in that order. It
  then looks the database up by name and runs the given SQL verbatim. The
  possible answers are 200, 400, 404 and 500.

Shared modules:

- `JsValues`: the JavaScript values the services handle, with truthiness,
  optional chaining, `Object.entries` and template-literal conversion.
- `ObjectEntries`: `Object.fromEntries`. Each key appears once, with the last
  value given for it.
- `ParameterResolution`: both versions of `extractParameter`.
- `Preamble`: the two variable preambles.
- `Connection`: the dialect switch and the connection descriptor.
- `Session`: one driver session as a class with a state and a trace of the
  calls made on it, and the transaction sequence.
- `StoreFilter`: the translation of `filterMap` into the store's `where`
  argument.

Each per-query operation is an imperative method. It mutates a `Session`
object and, in the older service, the `ParameterMap` object whose `sql`
field the source rewrites. Each method is proved equal to a specification
function. The lemmas prove the services' promises about those functions.

The three services differ from one another in ways that the model keeps:

- **Rollback errors.** Only the live service swallows a failing rollback's
  error. The older batch service and the ad hoc service let it propagate.
  The outer handler then catches it, so only the logged message differs
  (`Session.RollbackGuardOnlyChangesCause`).
- **Closing the session.** Only the live service closes its session, in a
  `finally` block. The older batch service and the ad hoc service never
  call `close` (`QueryDataMapService.LegacyExecutionContract`,
  `AdHocQueryService.SqlRunsVerbatim`).
- **Request timeout.** Only the live service sets the 30-second request
  timeout. The older batch service and the ad hoc service set none.
- **Duplicate query names.** `Promise.all` keeps selection order, and
  `Object.fromEntries` keeps the last value under a key. So among queries
  sharing a name, the entry kept is that of the last one selected, however
  the executions interleave.
- **Per-query overrides.** These are read from the body property named
  after the query itself.
- **Absent filter.** A missing or non-object `filterMap` gives the store
  `where: undefined`, which selects every stored query, active or not
  (`StoreFilter.LiveWhere`, `StoreFilter.LegacyWhere`).

## Model

| member | source | states |
|---|---|---|
| ParameterResolution.StoredDefault | src/services/createQueryData.service.ts:38-40 | a stored column yields `undefined` exactly when it is null, and otherwise its own value |
| ParameterResolution.ExtractParameter | src/services/createQueryData.service.ts:14-41 | a non-object body yields the stored default; the result is always the global override, the per-query override or the stored default; it is `undefined` exactly when neither override is defined and the column is null |
| ParameterResolution.ExtractParameterIsFirstDefined | src/services/createQueryData.service.ts:20-40 | the resolved value is the first defined one of global override, per-query override and stored default |
| ParameterResolution.NullOverrideWins | src/services/createQueryData.service.ts:26-29 | a `null` in the global map is a defined value and wins over everything below it |
| ParameterResolution.ExtractParameterLegacy | src/services/getQueryDataMap.service.ts:10-33 | a body that is not a plain object yields the stored default |
| ParameterResolution.ExtractParameterVersionsAgree | src/services/getQueryDataMap.service.ts:16-32 | the older resolution, with its explicit object guards, agrees with the live one on every body (property reads on named keys only; see Left out) |
| QueryDataService.EveryColumnOverridable | src/services/createQueryData.service.ts:55-60 | all four columns, the SQL text and the database id included, follow the same precedence |
| QueryDataService.FindDatabase | src/services/createQueryData.service.ts:65-75 | a record is found exactly for a numeric id that is in the table, and it is that id's record |
| JsValues.Prop | src/services/createQueryData.service.ts:26 | optional chaining yields a defined value only on a plain object that has the key, and on a plain object it yields the key's value |
| JsValues.Entries | src/services/createQueryData.service.ts:82-83 | an object's entries are its fields in order; a value that is neither an object, an array nor a string has none |
| Preamble.SetPreambleIsConcat | src/services/createQueryData.service.ts:80-97 | the MySQL preamble is the concatenation of `SetStatements`, which holds exactly one `SET @k = v; ` per entry, in entry order |
| Preamble.SetPreambleAppend | src/services/createQueryData.service.ts:82-94 | the MySQL reducer distributes over concatenated entry lists |
| Preamble.SetStatementWritesNonStrings | src/services/createQueryData.service.ts:89 | for every key and every value that is not a string, the value is written unquoted as its template-literal text: `SET @k = v; ` |
| Preamble.SetStatementWritesNumbers | src/services/createQueryData.service.ts:89 | for every key and number, the number is written unquoted, in decimal: `SET @k = n; ` |
| Preamble.SetStatementQuotesStrings | src/services/createQueryData.service.ts:89 | for every key and string, the string is written between single quotes, unescaped: `SET @k = 's'; ` |
| Preamble.SetPreambleExample | src/services/createQueryData.service.ts:80-97 | `{x: 5, y: "abc"}` gives `SET @x = 5; SET @y = 'abc'; ` |
| Preamble.DeclareStatement | src/services/createQueryData.service.ts:177-179 | an entry contributes a statement exactly when its value is an object with a string `dataType` |
| Preamble.DeclarableGuardsAgree | src/services/getQueryDataMap.service.ts:118 | the older `Object.isObject` guard accepts the same entries as the live `isObjectType` guard |
| Preamble.DeclarePreambleIsConcat | src/services/createQueryData.service.ts:168-187 | the SQL Server preamble is the concatenation of `DeclareStatements`, which holds only statements of declarable entries, one per entry when all are declarable |
| Preamble.DeclareStatementsAppend | src/services/createQueryData.service.ts:170-184 | the statement list keeps entry order: the list of concatenated entries is the concatenation of their lists |
| Preamble.DeclareStatementsSnoc | src/services/createQueryData.service.ts:170-184 | one entry contributes its own statement or nothing, at the end of the list |
| Preamble.DeclarePreambleAppend | src/services/createQueryData.service.ts:170-184 | the SQL Server reducer distributes over concatenated entry lists |
| Preamble.SkippedEntryContributesNothing | src/services/createQueryData.service.ts:177-181 | an entry that is not declarable leaves the preamble as if it were absent |
| Preamble.DeclareStatementWritesNonStrings | src/services/createQueryData.service.ts:177-179 | for every key and every object whose `dataType` field is a string T and whose `value` field v is not a string, in any field order and with any other fields, v is written unquoted as its template-literal text: `DECLARE @k T = v; ` |
| Preamble.DeclareStatementQuotesStrings | src/services/createQueryData.service.ts:177-179 | for every key and every object whose `dataType` field is a string T and whose `value` field is a string s, in any field order and with any other fields: `DECLARE @k T = 's'; ` |
| Preamble.DeclareStatementMissingValue | src/services/createQueryData.service.ts:177-179 | for every key and every object whose `dataType` field is a string T and which has no `value` field: `DECLARE @k T = undefined; ` |
| Preamble.DeclareStatementNeedsStringType | src/services/createQueryData.service.ts:177 | an object whose `dataType` field is missing or not a string is skipped, whatever other fields it holds, in any order |
| Preamble.PlainValuesDeclareNothing | src/services/getQueryDataMap.service.ts:161-175 | a map of plain values gets no `DECLARE` preamble, while the `SET` reducer would emit one statement per entry |
| QueryDataService.StatementIsPreambleThenSql | src/services/createQueryData.service.ts:77-187 | with a truthy variable map, MySQL and SQL Server run their preamble followed by the SQL; Oracle and a falsy map run the SQL untouched |
| Connection.ParseDialect | src/services/createQueryData.service.ts:79-233 | a dialect is selected exactly for `MySQL`, `Oracle` and `SQL Server`, and it is the one of that name |
| Connection.ParseDialectRoundTrip | src/services/createQueryData.service.ts:79-233 | each dialect's name selects that dialect |
| Connection.BuildDescriptor | src/services/createQueryData.service.ts:99-221 | a descriptor exists exactly when every field its dialect needs decrypts; Oracle carries username, password and connect string, the others host, database, username and password, each decrypted from its own column |
| Connection.LivePort | src/services/createQueryData.service.ts:106 | the live path always sets the port: the stored number, or `null` for a NULL column |
| Connection.TruthyPort | src/services/getQueryDataMap.service.ts:87 | a non-zero port is passed as its value; a NULL or zero port is left unset; it is never `null` |
| Connection.DescriptorPathsDiffer | src/services/getQueryDataMap.service.ts:84-206 | the live and the older descriptors fail together and differ only in the port and the 30-second timeout; a non-zero stored port is passed the same way by both |
| Connection.DescriptorIgnoresUnusedColumns | src/services/createQueryData.service.ts:135-164 | Oracle ignores the host and database columns, and the others ignore the connect string |
| Session.TransactionContract | src/services/createQueryData.service.ts:235-254 | the transaction commits exactly when begin, run and commit succeed, and yields the rows; rollback is called exactly after an opened transaction that did not commit; nothing runs before begin; no close |
| Session.RollbackGuardOnlyChangesCause | src/services/createQueryData.service.ts:250-254 | swallowing a rollback error changes only which error propagates, never the outcome or the rows |
| Session.Session.constructor | src/services/createQueryData.service.ts:99-131 | a new session holds its descriptor, is idle and has made no call |
| Session.Session.Transaction | src/services/createQueryData.service.ts:235 | begin is recorded, and the session is in a transaction exactly when it succeeded |
| Session.Session.Query | src/services/createQueryData.service.ts:238-245 | the statement and its replacements are recorded, and the driver's rows are returned |
| Session.Session.Commit | src/services/createQueryData.service.ts:247 | commit is recorded, and the session is committed exactly when it succeeded |
| Session.Session.Rollback | src/services/createQueryData.service.ts:251 | rollback is recorded, and the session is rolled back exactly when it succeeded |
| Session.Session.Close | src/services/createQueryData.service.ts:266 | close is recorded, and the session is closed whatever the driver answers |
| Session.Session.RunTransaction | src/services/createQueryData.service.ts:235-254 | the calls made and the outcome are those of the transaction sequence; a committed outcome leaves the session committed |
| QueryDataService.SwitchDialect | src/services/createQueryData.service.ts:77-233 | the switch's statement and descriptor are `PrepareFor`'s: MySQL and SQL Server prefix their preamble for a truthy variable map, an unknown type or a decryption error gives none |
| QueryDataService.ProcessQuery | src/services/createQueryData.service.ts:43-268 | the entry is `QueryEntryValue` (rows or the error pair) and the calls made are `QuerySteps` (the transaction followed by close, or none) |
| QueryDataService.FailsClosedWithoutSession | src/services/createQueryData.service.ts:65-232 | no session is created exactly when the database is missing, of an unknown type or not decryptable; the query then fails with the error pair |
| QueryDataService.SessionAlwaysClosed | src/services/createQueryData.service.ts:235-267 | a created session is begun first and closed last, exactly once; rollback happens exactly when the transaction opened and the query failed |
| QueryDataService.SuccessExactlyWhenEveryStepSucceeds | src/services/createQueryData.service.ts:235-264 | a query yields rows exactly when it has a session and begin, run and commit succeed; the rows are the driver's; every failure is the one error pair |
| QueryDataService.CleanupErrorsSwallowed | src/services/createQueryData.service.ts:250-267 | rollback and close errors change neither the entry nor the calls made |
| QueryDataService.RequestRedirectsQuery | src/services/createQueryData.service.ts:55-233 | a global override of the database id and the SQL runs that text, behind its dialect's preamble, on that database with its decrypted credentials, for any of the three dialects, whatever the stored query says |
| StoreFilter.ConstraintFor | src/services/createQueryData.service.ts:279 | an array value becomes `in` with its items, any other value `equals` with the value |
| StoreFilter.TranslateEntriesPointwise | src/services/createQueryData.service.ts:277-279 | translation keeps every key in place and translates its value |
| StoreFilter.TranslateEntriesLastValue | src/services/createQueryData.service.ts:276-279 | the last value under a key survives translation |
| StoreFilter.LiveWhere | src/services/createQueryData.service.ts:275-281 | there is a filter exactly when `filterMap` is an object or an array |
| StoreFilter.LegacyWhere | src/services/getQueryDataMap.service.ts:301-311 | there is a filter exactly when `filterMap` is a plain object |
| StoreFilter.FilterTranslation | src/services/getQueryDataMap.service.ts:301-311 | for an object, both services build the same filter, with one constraint per key of the object and the constraint of the last value given for it |
| StoreFilter.ArrayFilterMapDiffers | src/services/createQueryData.service.ts:275 | an array `filterMap` filters in the live service and not in the older one |
| StoreFilter.FilterExample | src/services/createQueryData.service.ts:275-281 | `{status: "active", id: [1, 2, 3]}` becomes `{status: {equals: "active"}, id: {in: [1, 2, 3]}}` |
| ObjectEntries.FromEntries | src/services/createQueryData.service.ts:289 | the object has distinct keys, exactly the entries' keys, no more entries than given, and under each key the last value given for it |
| ObjectEntries.FromEntriesOfDistinct | src/services/createQueryData.service.ts:289 | entries with distinct keys are kept as they are |
| ObjectEntries.FromEntriesCount | src/services/createQueryData.service.ts:289 | the object has one entry per distinct key |
| ObjectEntries.FromEntriesLastWins | src/services/createQueryData.service.ts:289 | under a key sits the value of its last entry |
| QueryDataService.CreateQueryData | src/services/createQueryData.service.ts:270-291 | a store error propagates; otherwise 200 with `Object.fromEntries` of one entry per selected query, in selection order |
| QueryDataService.BatchKeysAreNames | src/services/createQueryData.service.ts:285-289 | the response has exactly one key per distinct selected name |
| QueryDataService.BatchLastWriterWins | src/services/createQueryData.service.ts:285-289 | under a name sits the value of the last selected query with that name |
| QueryDataService.BatchKeepsDistinctNames | src/services/createQueryData.service.ts:285-289 | with distinct names, the response holds every entry, in selection order |
| QueryDataMapService.ParameterMap.constructor | src/services/getQueryDataMap.service.ts:52-55 | the object starts with the stored SQL and the resolved parameter map |
| QueryDataMapService.ParameterMap.PrependDeclarations | src/services/getQueryDataMap.service.ts:127 | the SQL becomes the `DECLARE` preamble of the parameter map followed by the previous SQL |
| QueryDataMapService.SwitchDialect | src/services/getQueryDataMap.service.ts:83-209 | MySQL and SQL Server prefix the `DECLARE` preamble to the SQL in place when the map is truthy; the descriptor is `DialectDescriptor`'s, none for an unknown type or a decryption error |
| QueryDataMapService.ProcessQueryData | src/services/getQueryDataMap.service.ts:35-290 | the entry is `LegacyData` and the calls made are `LegacySteps`: the transaction only, with no close |
| QueryDataMapService.SqlNotOverridable | src/services/getQueryDataMap.service.ts:52-55 | the reported and executed SQL is the stored SQL, possibly after the preamble of the resolved map; the body matters only through that map |
| QueryDataMapService.EntryCarriesQueryMetadata | src/services/getQueryDataMap.service.ts:246-288 | every entry carries the query's metadata, the resolved map and its timestamp; a failure holds the one error pair |
| QueryDataMapService.UnusableDatabaseFailsClosed | src/services/getQueryDataMap.service.ts:58-230 | a missing database or an unknown type gives the error entry with the stored SQL untouched, and no session |
| QueryDataMapService.DecryptionFailureReportsPreparedSql | src/services/getQueryDataMap.service.ts:114-157 | a decryption failure still reports the SQL with its preamble, which was written before the credentials were decrypted |
| QueryDataMapService.LegacyExecutionContract | src/services/getQueryDataMap.service.ts:232-289 | an entry holds rows exactly when the database is usable, its credentials decrypt, and begin, run and commit succeed; the session is never closed |
| QueryDataMapService.MySqlPreamblesDiffer | src/services/getQueryDataMap.service.ts:161-175 | for a non-empty map of plain values, the older service prefixes nothing to MySQL SQL where the live one prefixes `SET` statements |
| QueryDataMapService.GetQueryDataMap | src/services/getQueryDataMap.service.ts:292-358 | 500 with the generic pair exactly when selection fails; otherwise 200 with `Object.fromEntries` of one entry per selected query, in selection order |
| QueryDataMapService.LegacyBatchKeysAreNames | src/services/getQueryDataMap.service.ts:315-323 | the map has exactly one key per distinct selected name |
| QueryDataMapService.LegacyBatchLastWriterWins | src/services/getQueryDataMap.service.ts:315-323 | under a name sits the entry of the last selected query with that name, with that query's timestamp |
| AdHocQueryService.CreateQuery | src/services/createQuery.service.ts:10-267 | the answer is `AdHocReply` (the checks of `Screen`, then the transaction) and the calls made are `AdHocSteps` |
| AdHocQueryService.StatusIsOneOfFour | src/services/createQuery.service.ts:16-266 | every answer is 200, 400, 404 or 500, and 200 exactly on success |
| AdHocQueryService.ChecksInOrder | src/services/createQuery.service.ts:19-76 | a non-object body, then a non-string name, then a non-string SQL text give their own 400, without consulting the store or the driver |
| AdHocQueryService.UnknownNameIsNotFound | src/services/createQuery.service.ts:78-96 | an unknown name gives 404 naming it, and nothing is run |
| AdHocQueryService.UnsupportedTypeIsServerError | src/services/createQuery.service.ts:198-214 | a type outside the three dialects gives 500 naming it, and nothing is run |
| AdHocQueryService.SqlRunsVerbatim | src/services/createQuery.service.ts:216-247 | the request's SQL runs as given, without replacements, on a descriptor with a falsy port unset and no timeout, and the session is never closed; 200 with the rows exactly when the transaction commits, else the generic 500 |

## Left out

- `JsValues.Render` writes every object as `[object Object]`. In JavaScript,
  `${v}` throws a TypeError when the object, or an object anywhere inside an
  array being joined, has its own `toString` key, which a parsed JSON body can
  give it (`{"x": {"toString": 1}}` as a variable map). The model has no such
  error. For such a value the live service would fail with the error pair
  before any session exists, and the older service would report the stored
  SQL, without its preamble, as a failure with no session. The model instead
  runs the statement with `[object Object]` in it.
- `QueryDataService.FailsClosedWithoutSession` lists only a missing record, an
  unknown type and failed decryption as causes. The `toString` error above is
  a fourth cause in the source that the model does not have.
- `QueryDataMapService.DecryptionFailureReportsPreparedSql` and
  `QueryDataMapService.SqlNotOverridable` hold only for variable maps without
  an object with its own `toString` key. With such an object the source never
  writes the preamble.
- `Preamble.SetStatementWritesNonStrings` and
  `Preamble.DeclareStatementWritesNonStrings` give a text for an object with
  its own `toString` key, where the source throws.
- Network, store and database I/O are left out. The store's queries and the
  driver's answers are parameters. The driver is one function of the
  descriptor, the statement and the replacements, so two invocations with
  the same inputs always get the same answers. A database whose answers
  vary between identical invocations (because of data changing between
  them, say) is not modelled.
- Concurrency is left out. `Promise.all` becomes a loop in selection order.
  Each query is independent and the result keeps selection order, so the
  order in which queries complete plays no part.
- Decryption is an uninterpreted function: text decoding, AES-256-CBC and
  the environment's keys and IVs are not modelled. Nothing is proved about
  decryption beyond which fields are decrypted, and that a failure means no
  session.
- Logging (`loggerUtil`, `console.log`) is left out. Some errors differ only
  in what they log: a failing rollback in the older and ad hoc services, and
  a failing `findUnique` in the batch services, which gives the same entry
  as a missing record.
- The clock and timestamp formatting are left out. Each older-service entry
  gets `clock(i)`, a parameter.
- The echo fields of the older and ad hoc answers are left out: method,
  path, query, headers, body, timestamp, and the `status` / `statusCode`
  duplicates. The route table and the health endpoint are not part of this
  model.
- `new Sequelize` is assumed not to throw once its options are built. The
  Sequelize options `encrypt: false`, `freezeTableName` and `dialectModule`
  are constants and are not represented.
- Numbers are integers. Fractional numbers and exponent notation in
  template literals are not modelled.
- Property reads use named keys only: array indices and `length` are not
  modelled. So `ExtractParameterVersionsAgree` holds for this model only: with
  an array body and a query named like an index (`"0"`), the live
  `reqBody["0"]?.x` would read the element, while the older guard rejects
  the array and falls back to the default.
- Object fields are kept in insertion order. The JavaScript rule that puts
  integer-like keys first is not modelled.
- A `JObj` value stands for a parsed JSON object and is assumed to have
  distinct keys.
- `Object.isObject` is taken to accept plain objects only, not arrays. Its
  definition is not part of this model.
- `Object.entries` is modelled on truthy values only, since the services
  never call it on anything else. On `undefined` and `null` it gives no
  entries rather than throwing.
- The row type of the store's records (`query_gateway_queries`) is reduced
  to the columns the live service reads.
- `Entries` splits a string into Unicode code points. JavaScript splits it
  into UTF-16 code units, so the two differ for characters outside the
  Basic Multilingual Plane.
