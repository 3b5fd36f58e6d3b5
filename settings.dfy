/** The server's connection test: validate the port, probe the host over TCP,
    accept the mock credentials, then build the DSN and connect through the
    database driver. The TCP probe and the driver are inputs. */
module Settings {
  import opened Common
  import opened PyText

  const ServiceNameMode: string := "SERVICE_NAME"
  const SidMode: string := "SID"

  const InvalidPort: string := "Invalid Port Number"
  const MockHost: string := "localhost"
  const MockPassword: string := "mock"
  const MockConnected: string := "Successfully connected to MOCK DB (Simulated)"
  const DriverMissing: string := "Oracle Driver (python-oracledb or cx_Oracle) not found in server environment."
  const ConnectFailedPrefix: string := "Connection Failed: "

  /** The request body. */
  datatype ConnectionInfo = ConnectionInfo(
    host: string,
    port: string,
    serviceName: string,
    username: string,
    password: string,
    mode: string)

  /** The body as the server validates it: a missing mode becomes SERVICE_NAME. */
  function WithDefaults(host: string, port: string, serviceName: string, username: string,
                        password: string, mode: Option<string>): (info: ConnectionInfo)
    ensures info.host == host && info.port == port && info.serviceName == serviceName
    ensures info.username == username && info.password == password
    ensures mode.None? ==> info.mode == ServiceNameMode
    ensures mode.Some? ==> info.mode == mode.value
  {
    ConnectionInfo(host, port, serviceName, username, password,
                   if mode.Some? then mode.value else ServiceNameMode)
  }

  datatype Reply = Reply(status: string, message: string)

  /** The database driver as the server finds it: neither python-oracledb nor
      cx_Oracle importable, or one of them, with its makedsn for SID mode
      (which yields the DSN or raises) and its connect (which yields the
      server version or raises); a raised exception is given as its str(). */
  datatype Driver =
    | NotInstalled
    | Installed(makeSidDsn: (string, string, string) -> Result<string, string>,
                connect: (string, string, string) -> Result<string, string>)

  /** The DSN: makedsn(host, port, sid=service) in SID mode, which may raise,
      otherwise the easy-connect string host:port/service, which cannot. */
  function Dsn(info: ConnectionInfo, makeSidDsn: (string, string, string) -> Result<string, string>)
    : (dsn: Result<string, string>)
    ensures info.mode != SidMode ==> dsn == Ok(info.host + ":" + info.port + "/" + info.serviceName)
    ensures info.mode == SidMode ==> dsn == makeSidDsn(info.host, info.port, info.serviceName)
  {
    if info.mode == SidMode then makeSidDsn(info.host, info.port, info.serviceName)
    else Ok(info.host + ":" + info.port + "/" + info.serviceName)
  }

  const UnreachablePrefix: string := "Network Error: Unable to reach "
  const UnreachableSuffix: string := " (TCP Connection Refused or Timeout)."

  /** The network error names the host, then a colon, then the port in
      decimal, which reads back as the probed port. */
  function UnreachableMessage(host: string, port: nat): (m: string)
    ensures UnreachablePrefix + host + ":" <= m
    ensures |m| >= |UnreachablePrefix + host + ":"| + |UnreachableSuffix|
    ensures m[|m| - |UnreachableSuffix|..] == UnreachableSuffix
    ensures m[|UnreachablePrefix + host + ":"|..|m| - |UnreachableSuffix|] == NatToString(port)
    ensures ParseNat(m[|UnreachablePrefix + host + ":"|..|m| - |UnreachableSuffix|]) == Some(port)
  {
    var head := UnreachablePrefix + host + ":";
    var m := head + NatToString(port) + UnreachableSuffix;
    MiddleOf(head, NatToString(port), UnreachableSuffix);
    ParseNatToString(port);
    assert m[..|head|] == head;
    assert m[|m| - |UnreachableSuffix|..] == UnreachableSuffix;
    m
  }

  /** POST /api/settings/test-connection. `reachable` answers the TCP probe. */
  function TestConnection(info: ConnectionInfo, reachable: (string, nat) -> bool, driver: Driver): (r: Reply)
    ensures r.status == "success" || r.status == "error"
    ensures ParseNat(info.port).None? ==> r == Reply("error", InvalidPort)
    ensures ParseNat(info.port).Some? && !reachable(info.host, ParseNat(info.port).value) ==>
      r == Reply("error", UnreachableMessage(info.host, ParseNat(info.port).value))
    ensures r.status == "success" ==>
      ParseNat(info.port).Some? && reachable(info.host, ParseNat(info.port).value)
    ensures driver.NotInstalled? && r.status == "success" ==> r.message == MockConnected
  {
    match ParseNat(info.port)
    case None => Reply("error", InvalidPort)
    case Some(port) =>
      if !reachable(info.host, port) then Reply("error", UnreachableMessage(info.host, port))
      else if info.host == MockHost && info.password == MockPassword then Reply("success", MockConnected)
      else
        match driver
        case NotInstalled => Reply("error", DriverMissing)
        case Installed(makeSidDsn, connect) =>
          match Dsn(info, makeSidDsn)
          case Err(e) => Reply("error", ConnectFailedPrefix + e)
          case Ok(dsn) =>
            match connect(info.username, info.password, dsn)
            case Ok(version) => Reply("success", "Successfully connected to " + dsn + " (DB Version: " + version + ")")
            case Err(e) => Reply("error", ConnectFailedPrefix + e)
  }

  /** A port that is not a number is reported before anything is probed: the
      reply depends neither on the probe nor on the driver. */
  lemma InvalidPortProbesNothing(info: ConnectionInfo, reach1: (string, nat) -> bool, reach2: (string, nat) -> bool,
                                 driver1: Driver, driver2: Driver)
    requires ParseNat(info.port).None?
    ensures TestConnection(info, reach1, driver1) == TestConnection(info, reach2, driver2) == Reply("error", InvalidPort)
  {
  }

  /** The mock credentials succeed whatever the driver, once the port is a
      number and the host answered the probe. */
  lemma MockCredentialsAfterProbe(info: ConnectionInfo, reachable: (string, nat) -> bool, driver: Driver)
    requires info.host == MockHost && info.password == MockPassword
    requires ParseNat(info.port).Some? && reachable(info.host, ParseNat(info.port).value)
    ensures TestConnection(info, reachable, driver) == Reply("success", MockConnected)
  {
  }

  /** Past the probe and the mock check, the driver decides: a makedsn or
      connect error comes back behind "Connection Failed: ", a version means
      success, and in the default mode the DSN is host:port/service. */
  lemma DriverOutcome(info: ConnectionInfo, reachable: (string, nat) -> bool,
                      makeSidDsn: (string, string, string) -> Result<string, string>,
                      connect: (string, string, string) -> Result<string, string>)
    requires ParseNat(info.port).Some? && reachable(info.host, ParseNat(info.port).value)
    requires !(info.host == MockHost && info.password == MockPassword)
    ensures var r := TestConnection(info, reachable, Installed(makeSidDsn, connect));
      match Dsn(info, makeSidDsn)
      case Err(e) => r == Reply("error", ConnectFailedPrefix + e)
      case Ok(dsn) =>
        match connect(info.username, info.password, dsn)
        case Err(e) => r == Reply("error", ConnectFailedPrefix + e)
        case Ok(v) => r == Reply("success", "Successfully connected to " + dsn + " (DB Version: " + v + ")")
    ensures info.mode != SidMode ==> Dsn(info, makeSidDsn) == Ok(info.host + ":" + info.port + "/" + info.serviceName)
    ensures TestConnection(info, reachable, NotInstalled) == Reply("error", DriverMissing)
  {
  }

  /** For a port written without leading zeros, the network error names the
      host and the port exactly as the client sent them. */
  lemma UnreachableNamesHostAndPort(info: ConnectionInfo, port: nat, reachable: (string, nat) -> bool, driver: Driver)
    requires info.port == NatToString(port)
    requires !reachable(info.host, port)
    ensures TestConnection(info, reachable, driver).message
      == UnreachablePrefix + info.host + ":" + info.port + UnreachableSuffix
  {
    ParseNatToString(port);
  }
}
