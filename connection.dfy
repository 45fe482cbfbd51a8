/**
 * Dialect dispatch and connection descriptors: which stored database record
 * fields are decrypted and handed to the driver for each dialect, and how the
 * port and the request timeout are set on each code path.
 */
module Connection {
  import opened Wrappers

  datatype Dialect = MySql | Oracle | SqlServer

  /** The `database_type` text that selects each dialect. */
  function DialectName(d: Dialect): string
  {
    match d
    case MySql => "MySQL"
    case Oracle => "Oracle"
    case SqlServer => "SQL Server"
  }

  /** The `switch (database.database_type)`: an unknown type selects no dialect. */
  function ParseDialect(databaseType: string): (r: Option<Dialect>)
    ensures r.Some? <==> databaseType in {"MySQL", "Oracle", "SQL Server"}
    ensures r.Some? ==> DialectName(r.value) == databaseType
  {
    if databaseType == "MySQL" then Some(MySql)
    else if databaseType == "Oracle" then Some(Oracle)
    else if databaseType == "SQL Server" then Some(SqlServer)
    else None
  }

  lemma ParseDialectRoundTrip(d: Dialect)
    ensures ParseDialect(DialectName(d)) == Some(d)
  {
  }

  newtype byte = x: int | 0 <= x < 256

  type Bytes = seq<byte>

  /** A row of the `databases` table; `None` is a SQL NULL. */
  datatype DatabaseRecord = DatabaseRecord(
    id: int,
    name: string,
    databaseType: string,
    host: Option<Bytes>,
    database: Option<Bytes>,
    username: Bytes,
    password: Bytes,
    connectString: Option<Bytes>,
    port: Option<int>)

  /** The encrypted columns; each has its own key and IV in the environment. */
  datatype CredentialField = HostField | DatabaseField | UsernameField | PasswordField | ConnectStringField

  /** The stored ciphertext of one field. */
  function Cipher(rec: DatabaseRecord, f: CredentialField): Option<Bytes>
  {
    match f
    case HostField => rec.host
    case DatabaseField => rec.database
    case UsernameField => Some(rec.username)
    case PasswordField => Some(rec.password)
    case ConnectStringField => rec.connectString
  }

  /**
   * Text decoding followed by AES-256-CBC decryption under the field's own key
   * and IV, as an uninterpreted function; `None` means it threw.
   */
  type Decrypt = (CredentialField, Option<Bytes>) -> Option<string>

  /** The `port` option: absent (`undefined`), `null`, or a number. */
  datatype PortSetting = PortUnset | PortNull | PortNumber(n: int)

  const RequestTimeoutMs: int := 30000

  /** The options object handed to `new Sequelize(...)`. */
  datatype Descriptor = Descriptor(
    dialect: Dialect,
    host: Option<string>,
    database: Option<string>,
    username: string,
    password: string,
    port: PortSetting,
    connectString: Option<string>,
    requestTimeout: Option<int>)

  /** The fields each dialect's descriptor is built from. */
  function RequiredFields(d: Dialect): set<CredentialField>
  {
    if d == Oracle then {UsernameField, PasswordField, ConnectStringField}
    else {HostField, DatabaseField, UsernameField, PasswordField}
  }

  /** The descriptor's value for one credential field, `None` when it carries none. */
  function DescriptorField(desc: Descriptor, f: CredentialField): Option<string>
  {
    match f
    case HostField => desc.host
    case DatabaseField => desc.database
    case UsernameField => Some(desc.username)
    case PasswordField => Some(desc.password)
    case ConnectStringField => desc.connectString
  }

  /** Every field a dialect needs decrypts without error. */
  predicate Decryptable(d: Dialect, rec: DatabaseRecord, decrypt: Decrypt)
  {
    forall f :: f in RequiredFields(d) ==> decrypt(f, Cipher(rec, f)).Some?
  }

  /**
   * The dialect switch building a descriptor. Oracle takes username, password
   * and connect string and no host or database; SQL Server and MySQL take
   * host, database, username and password and no connect string. Each value
   * is its own column decrypted under its own key; a decryption that throws
   * means no descriptor.
   */
  function BuildDescriptor(d: Dialect, rec: DatabaseRecord, decrypt: Decrypt, port: PortSetting, timeout: Option<int>)
    : (r: Option<Descriptor>)
    ensures r.Some? <==> Decryptable(d, rec, decrypt)
    ensures r.Some? ==> r.value.dialect == d && r.value.port == port && r.value.requestTimeout == timeout
    ensures r.Some? ==> forall f :: DescriptorField(r.value, f)
                                   == if f in RequiredFields(d) then decrypt(f, Cipher(rec, f)) else None
  {
    var username := decrypt(UsernameField, Some(rec.username));
    var password := decrypt(PasswordField, Some(rec.password));
    match d
    case Oracle =>
      var connectString := decrypt(ConnectStringField, rec.connectString);
      if username.Some? && password.Some? && connectString.Some? then
        Some(Descriptor(Oracle, None, None, username.value, password.value, port, connectString, timeout))
      else
        assert !Decryptable(d, rec, decrypt) by {
          if username.None? { assert UsernameField in RequiredFields(d); }
          else if password.None? { assert PasswordField in RequiredFields(d); }
          else { assert ConnectStringField in RequiredFields(d); }
        }
        None
    case _ =>
      var host := decrypt(HostField, rec.host);
      var database := decrypt(DatabaseField, rec.database);
      if host.Some? && database.Some? && username.Some? && password.Some? then
        Some(Descriptor(d, host, database, username.value, password.value, port, None, timeout))
      else
        assert !Decryptable(d, rec, decrypt) by {
          if host.None? { assert HostField in RequiredFields(d); }
          else if database.None? { assert DatabaseField in RequiredFields(d); }
          else if username.None? { assert UsernameField in RequiredFields(d); }
          else { assert PasswordField in RequiredFields(d); }
        }
        None
  }

  /** The live batch path passes the stored port as it is, a NULL port as `null`. */
  function LivePort(port: Option<int>): (r: PortSetting)
    ensures r != PortUnset
    ensures port.None? ==> r == PortNull
    ensures port.Some? ==> r == PortNumber(port.value)
  {
    if port.Some? then PortNumber(port.value) else PortNull
  }

  /** `database.port ? database.port : undefined`: a NULL or zero port is left unset. */
  function TruthyPort(port: Option<int>): (r: PortSetting)
    ensures r == PortUnset <==> port == None || port == Some(0)
    ensures r != PortNull
    ensures port.Some? && port.value != 0 ==> r == PortNumber(port.value)
  {
    if port.Some? && port.value != 0 then PortNumber(port.value) else PortUnset
  }

  /** The live batch path: stored port as is, and a 30-second request timeout. */
  function LiveDescriptor(d: Dialect, rec: DatabaseRecord, decrypt: Decrypt): Option<Descriptor>
  {
    BuildDescriptor(d, rec, decrypt, LivePort(rec.port), Some(RequestTimeoutMs))
  }

  /** The ad hoc and older batch paths: falsy port unset, and no request timeout. */
  function LegacyDescriptor(d: Dialect, rec: DatabaseRecord, decrypt: Decrypt): Option<Descriptor>
  {
    BuildDescriptor(d, rec, decrypt, TruthyPort(rec.port), None)
  }

  /**
   * The paths differ in the port and the timeout only: they connect with the
   * same credentials, fail on the same decryption errors, and agree on the
   * port whenever the stored port is a non-zero number.
   */
  lemma DescriptorPathsDiffer(d: Dialect, rec: DatabaseRecord, decrypt: Decrypt)
    ensures LiveDescriptor(d, rec, decrypt).Some? <==> LegacyDescriptor(d, rec, decrypt).Some?
    ensures LiveDescriptor(d, rec, decrypt).Some? ==>
              var live := LiveDescriptor(d, rec, decrypt).value;
              var legacy := LegacyDescriptor(d, rec, decrypt).value;
              && live.requestTimeout == Some(RequestTimeoutMs)
              && legacy.requestTimeout == None
              && live.(port := legacy.port, requestTimeout := None) == legacy
              && (rec.port.Some? && rec.port.value != 0 ==> live.port == legacy.port)
  {
    var live := LiveDescriptor(d, rec, decrypt);
    var legacy := LegacyDescriptor(d, rec, decrypt);
    if live.Some? {
      var a := live.value.(port := legacy.value.port, requestTimeout := None);
      var b := legacy.value;
      assert DescriptorField(a, HostField) == DescriptorField(b, HostField);
      assert DescriptorField(a, DatabaseField) == DescriptorField(b, DatabaseField);
      assert DescriptorField(a, UsernameField) == DescriptorField(b, UsernameField);
      assert DescriptorField(a, PasswordField) == DescriptorField(b, PasswordField);
      assert DescriptorField(a, ConnectStringField) == DescriptorField(b, ConnectStringField);
    }
  }

  /** Oracle ignores the host and database columns; the others ignore the connect string. */
  lemma DescriptorIgnoresUnusedColumns(d: Dialect, rec: DatabaseRecord, other: DatabaseRecord, decrypt: Decrypt,
                                       port: PortSetting, timeout: Option<int>)
    requires forall f :: f in RequiredFields(d) ==> Cipher(rec, f) == Cipher(other, f)
    ensures BuildDescriptor(d, rec, decrypt, port, timeout) == BuildDescriptor(d, other, decrypt, port, timeout)
  {
    assert UsernameField in RequiredFields(d) && PasswordField in RequiredFields(d);
    if d == Oracle {
      assert ConnectStringField in RequiredFields(d);
    } else {
      assert HostField in RequiredFields(d) && DatabaseField in RequiredFields(d);
    }
  }
}
