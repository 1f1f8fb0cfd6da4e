/**
 * The MySQL access helpers of app/core/services_db.py: which settings must be present,
 * where the connection goes (directly or through an SSH bastion tunnel), and how cursor
 * results become dictionaries. The connection, the tunnel and the cursor are not modelled;
 * the tunnel's local port and the rows a cursor yields are inputs.
 */
module ServicesDb {
  import opened Wrappers
  import opened Text
  import opened Json

  /** MySQLDBConfig. */
  datatype MysqlConfig = MysqlConfig(
    host: string,
    port: int,
    user: string,
    password: string,
    database: string,
    usersTable: string,
    rentalsTable: string,
    paymentsTable: string,
    bikesTable: string,
    filesTable: string,
    noticesTable: string,
    inquiriesTable: string,
    chatTable: string,
    bastionHost: string,
    bastionPort: int,
    bastionUser: string,
    bastionKeyPath: string)

  // ---------------------------------------------------------------------------
  // _ValidateMysqlConfig
  // ---------------------------------------------------------------------------

  /** The settings _ValidateMysqlConfig checks, by environment name, in the order it lists them. */
  function Required(c: MysqlConfig): seq<(string, string)> {
    [("MYSQL_HOST", c.host), ("MYSQL_USER", c.user), ("MYSQL_PASSWORD", c.password), ("MYSQL_DATABASE", c.database)]
  }

  /** [name for name, value in pairs if not value]. */
  function MissingNames(pairs: seq<(string, string)>): (r: seq<string>)
    ensures |r| <= |pairs|
    ensures r == [] <==> forall i :: 0 <= i < |pairs| ==> pairs[i].1 != ""
    ensures forall i :: 0 <= i < |pairs| && pairs[i].1 == "" ==> pairs[i].0 in r
    ensures forall n :: n in r ==> exists i :: 0 <= i < |pairs| && pairs[i] == (n, "")
  {
    if pairs == [] then []
    else
      var rest := MissingNames(pairs[1..]);
      assert forall i :: 1 <= i < |pairs| ==> pairs[i] == pairs[1..][i - 1];
      if pairs[0].1 == "" then [pairs[0].0] + rest else rest
  }

  /** The missing names of consecutive settings come in the same order: the comprehension keeps order. */
  lemma {:induction false} MissingNamesAppend(a: seq<(string, string)>, b: seq<(string, string)>)
    ensures MissingNames(a + b) == MissingNames(a) + MissingNames(b)
  {
    if a == [] {
      assert a + b == b;
    } else {
      assert (a + b)[1..] == a[1..] + b;
      assert (a + b)[0] == a[0];
      MissingNamesAppend(a[1..], b);
    }
  }

  function MissingSettings(c: MysqlConfig): seq<string> {
    MissingNames(Required(c))
  }

  const MissingPrefix := "MySQL settings are missing: "

  /** _ValidateMysqlConfig: raises RuntimeError naming every missing setting, joined by ", ". */
  function ValidateMysqlConfig(c: MysqlConfig): (r: Outcome<string>)
    ensures r.Fail? <==> c.host == "" || c.user == "" || c.password == "" || c.database == ""
    ensures r.Fail? ==> r.error == MissingPrefix + Join(MissingSettings(c), ", ")
  {
    var missing := MissingSettings(c);
    var req := Required(c);
    assert req[0].1 == c.host && req[1].1 == c.user && req[2].1 == c.password && req[3].1 == c.database;
    if missing != [] then Fail(MissingPrefix + Join(missing, ", ")) else Pass
  }

  /** Port, table names and bastion settings play no part in validation. */
  lemma ValidationReadsOnlyCredentials(c: MysqlConfig, d: MysqlConfig)
    requires c.host == d.host && c.user == d.user && c.password == d.password && c.database == d.database
    ensures ValidateMysqlConfig(c) == ValidateMysqlConfig(d)
  {
    assert Required(c) == Required(d);
  }

  /** Missing names keep the fixed order: host and database missing give "MYSQL_HOST, MYSQL_DATABASE". */
  lemma MissingHostAndDatabase(c: MysqlConfig)
    requires c.host == "" && c.user != "" && c.password != "" && c.database == ""
    ensures ValidateMysqlConfig(c) == Fail(MissingPrefix + "MYSQL_HOST" + ", " + "MYSQL_DATABASE")
  {
    MissingHostAndDatabaseNames(c);
    JoinPair("MYSQL_HOST", "MYSQL_DATABASE", ", ");
    assert MissingPrefix + ("MYSQL_HOST" + ", " + "MYSQL_DATABASE") == MissingPrefix + "MYSQL_HOST" + ", " + "MYSQL_DATABASE";
  }

  lemma JoinPair(a: string, b: string, sep: string)
    ensures Join([a, b], sep) == a + sep + b
  {
    assert [a, b][1..] == [b];
  }

  lemma MissingHostAndDatabaseNames(c: MysqlConfig)
    requires c.host == "" && c.user != "" && c.password != "" && c.database == ""
    ensures MissingSettings(c) == ["MYSQL_HOST", "MYSQL_DATABASE"]
  {
    var req := Required(c);
    assert req[1..] == [req[1], req[2], req[3]];
    assert req[1..][1..] == [req[2], req[3]];
    assert req[1..][1..][1..] == [req[3]];
    assert req[1..][1..][1..][1..] == [];
    assert MissingNames([req[3]]) == ["MYSQL_DATABASE"];
    assert MissingNames([req[2], req[3]]) == ["MYSQL_DATABASE"];
    assert MissingNames([req[1], req[2], req[3]]) == ["MYSQL_DATABASE"];
  }

  // ---------------------------------------------------------------------------
  // Host and port selection in MysqlConnection
  // ---------------------------------------------------------------------------

  /** The SSHTunnelForwarder: the bastion it logs into and the address it forwards to. */
  datatype Tunnel = Tunnel(bastionHost: string, bastionPort: int, user: string, keyPath: string,
                           remoteHost: string, remotePort: int)

  /** Where pymysql.connect goes, and the tunnel opened for it, if any. */
  datatype Target = Target(host: string, port: int, tunnel: Option<Tunnel>)

  predicate UsesBastion(c: MysqlConfig) {
    c.bastionHost != "" && c.bastionUser != "" && c.bastionKeyPath != ""
  }

  const Loopback := "127.0.0.1"

  /**
   * MysqlConnection up to pymysql.connect: validation first, then the configured host and port,
   * replaced by the loopback address and the tunnel's local port when a bastion is configured.
   */
  method ConnectTarget(c: MysqlConfig, tunnelLocalPort: int) returns (r: Result<Target, string>)
    ensures r.Failure? <==> ValidateMysqlConfig(c).Fail?
    ensures r.Failure? ==> r.error == ValidateMysqlConfig(c).error
    ensures r.Success? ==> (r.value.tunnel.Some? <==> UsesBastion(c))
    ensures r.Success? && UsesBastion(c) ==>
              r.value == Target(Loopback, tunnelLocalPort,
                                Some(Tunnel(c.bastionHost, c.bastionPort, c.bastionUser, c.bastionKeyPath, c.host, c.port)))
    ensures r.Success? && !UsesBastion(c) ==> r.value == Target(c.host, c.port, None)
  {
    var check := ValidateMysqlConfig(c);
    if check.Fail? {
      return Failure(check.error);
    }
    var tunnel: Option<Tunnel> := None;
    var host := c.host;
    var port := c.port;
    if c.bastionHost != "" && c.bastionUser != "" && c.bastionKeyPath != "" {
      tunnel := Some(Tunnel(c.bastionHost, c.bastionPort, c.bastionUser, c.bastionKeyPath, c.host, c.port));
      host := Loopback;
      port := tunnelLocalPort;
    }
    r := Success(Target(host, port, tunnel));
  }

  // ---------------------------------------------------------------------------
  // Cursor results
  // ---------------------------------------------------------------------------

  /** FetchOneDict: the row cursor.fetchone() gives (None when there is none), or {} when it is falsy. */
  function FetchOneDict(row: Option<seq<(string, Json)>>): (r: seq<(string, Json)>)
    ensures row.Some? && row.value != [] ==> r == row.value
    ensures row.None? || row.value == [] ==> r == []
  {
    if row.Some? && row.value != [] then row.value else []
  }

  /** FetchAllDicts: the rows of cursor.fetchall() in order, [] when there are none. */
  function FetchAllDicts(rows: Option<seq<seq<(string, Json)>>>): (r: seq<seq<(string, Json)>>)
    ensures rows.Some? ==> r == rows.value
    ensures rows.None? ==> r == []
  {
    if rows.Some? && rows.value != [] then rows.value else []
  }
}
