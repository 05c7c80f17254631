/**
 * How the command turns its inputs into an effective configuration: host and
 * port precedence (`getHost`, `getPort`), the per-port PID-file path built by
 * `init`, and what `start` derives from the configuration before it hands
 * over to the server engine (mode, socket type, memory table, file monitor)
 * together with the keys it removes from the command's configuration map.
 */
module ConfigResolver {
  import opened IntCast
  import opened PhpValue

  const DEFAULT_HOST: string := "0.0.0.0"
  const DEFAULT_PORT: int := 9501
  const PID_FILE_NAME: string := "swoole.pid"
  const DEFAULT_MONITOR_INTERVAL: int := 2

  /**
   * The console options as already parsed: `Some(v)` when the option is
   * present (`hasOption`), carrying what `getOption` returns.
   */
  datatype Options = Options(host: Option<Value>, port: Option<Value>, daemon: bool)

  /** `getHost`: the option, else a non-empty configured `host`, else 0.0.0.0. */
  function GetHost(options: Options, config: map<string, Value>): (host: Value)
    ensures options.host.Some? ==> host == options.host.value
    ensures options.host.None? ==> !Empty(host)
    ensures options.host.None? && !Empty(Lookup(config, "host")) ==> host == config["host"]
    ensures options.host.None? && Empty(Lookup(config, "host")) ==> host == Str(DEFAULT_HOST)
  {
    if options.host.Some? then options.host.value
    else if !Empty(Lookup(config, "host")) then config["host"]
    else Str(DEFAULT_HOST)
  }

  /** `getPort`: the option, else a non-empty configured `port`, else 9501. */
  function GetPort(options: Options, config: map<string, Value>): (port: Value)
    ensures options.port.Some? ==> port == options.port.value
    ensures options.port.None? ==> !Empty(port)
    ensures options.port.None? && !Empty(Lookup(config, "port")) ==> port == config["port"]
    ensures options.port.None? && Empty(Lookup(config, "port")) ==> port == Int(DEFAULT_PORT)
  {
    if options.port.Some? then options.port.value
    else if !Empty(Lookup(config, "port")) then config["port"]
    else Int(DEFAULT_PORT)
  }

  /** The PID-file path before the port suffix: the configured `pid_file`, or APP_PATH followed by swoole.pid. */
  function PidFileBase(config: map<string, Value>, appPath: string): (base: string)
    ensures Empty(Lookup(config, "pid_file")) ==> base == appPath + PID_FILE_NAME
    ensures "pid_file" in config && config["pid_file"].Str? && !Empty(config["pid_file"]) ==> base == config["pid_file"].s
  {
    if Empty(Lookup(config, "pid_file")) then appPath + PID_FILE_NAME else ToStr(config["pid_file"])
  }

  /** The PID-file path `init` stores: the base, then `_` and the port. */
  function PidFilePath(config: map<string, Value>, appPath: string, port: Value): (path: string)
    ensures var base, suffix := PidFileBase(config, appPath), "_" + ToStr(port);
      |path| == |base| + |suffix| && path[..|base|] == base && path[|base|..] == suffix
  {
    var base := PidFileBase(config, appPath);
    assert base + "_" + ToStr(port) == base + ("_" + ToStr(port));
    base + "_" + ToStr(port)
  }

  /** `init`: the configuration with `pid_file` replaced by the per-port path; nothing else changes. */
  function InitConfig(options: Options, appPath: string, swoole: map<string, Value>): (config: map<string, Value>)
    ensures ValidConfig(config)
    ensures PidPath(config) == PidFilePath(swoole, appPath, GetPort(options, swoole))
    ensures config - {"pid_file"} == swoole - {"pid_file"}
  {
    var path := PidFilePath(swoole, appPath, GetPort(options, swoole));
    var config := swoole["pid_file" := Str(path)];
    assert config["pid_file"] == Str(path);
    assert forall k :: k in config - {"pid_file"} <==> k in swoole - {"pid_file"};
    config
  }

  /** What holds of the command's configuration once `init` has run. */
  predicate ValidConfig(config: map<string, Value>) {
    "pid_file" in config && config["pid_file"].Str?
  }

  function PidPath(config: map<string, Value>): string
    requires ValidConfig(config)
  {
    config["pid_file"].s
  }

  /** Ports that print differently never share a PID file, whatever the base. */
  lemma PidFileUniquePerPort(config: map<string, Value>, appPath: string, p: Value, q: Value)
    requires ToStr(p) != ToStr(q)
    ensures PidFilePath(config, appPath, p) != PidFilePath(config, appPath, q)
  {
    var base := PidFileBase(config, appPath);
    var a, b := PidFilePath(config, appPath, p), PidFilePath(config, appPath, q);
    assert a[|base|..][1..] == ToStr(p);
    assert b[|base|..][1..] == ToStr(q);
  }

  /** Two different integer ports give two different PID files. */
  lemma IntPortsUniquePidFiles(config: map<string, Value>, appPath: string, p: int, q: int)
    requires p != q
    ensures PidFilePath(config, appPath, Int(p)) != PidFilePath(config, appPath, Int(q))
  {
    assert CastToInt(IntText(p)) != CastToInt(IntText(q));
    PidFileUniquePerPort(config, appPath, Int(p), Int(q));
  }

  // ---- What `start` derives before launching the engine ----

  datatype ServerMode = ProcessMode | ConfiguredMode(mode: Value)

  /** The socket type; its constants are kept abstract (SWOOLE_SOCK_TCP, SWOOLE_SOCK_TCP | SWOOLE_SSL). */
  datatype SockType = TcpSock | TcpSsl | ConfiguredSock(sockType: Value)

  datatype Monitor = Monitor(interval: Value, paths: Value)

  /** Everything `start` hands to the server engine. */
  datatype Launch = Launch(
    host: Value,
    port: Value,
    mode: ServerMode,
    sockType: SockType,
    appPath: Value,
    table: Option<Value>,
    monitor: Option<Monitor>,
    settings: Value)

  predicate SslEnabled(config: map<string, Value>) {
    !Empty(Lookup(config, "ssl")) || !Empty(Lookup(config, "open_http2_protocol"))
  }

  function ServerModeOf(config: map<string, Value>): (mode: ServerMode)
    ensures mode == ProcessMode <==> Empty(Lookup(config, "mode"))
    ensures !Empty(Lookup(config, "mode")) ==> mode == ConfiguredMode(config["mode"])
  {
    if !Empty(Lookup(config, "mode")) then ConfiguredMode(config["mode"]) else ProcessMode
  }

  /** TCP with SSL exactly when `ssl` or `open_http2_protocol` is set, whatever `sock_type` says. */
  function SockTypeOf(config: map<string, Value>): (t: SockType)
    ensures t == TcpSsl <==> SslEnabled(config)
    ensures t == TcpSock <==> !SslEnabled(config) && Empty(Lookup(config, "sock_type"))
    ensures !SslEnabled(config) && !Empty(Lookup(config, "sock_type")) ==> t == ConfiguredSock(config["sock_type"])
  {
    var configured := if !Empty(Lookup(config, "sock_type")) then ConfiguredSock(config["sock_type"]) else TcpSock;
    if SslEnabled(config) then TcpSsl else configured
  }

  /** The memory table `start` creates, when `table` is not empty. */
  function TableOf(config: map<string, Value>): (table: Option<Value>)
    ensures table.Some? <==> !Empty(Lookup(config, "table"))
    ensures table.Some? ==> table.value == config["table"]
  {
    if !Empty(Lookup(config, "table")) then Some(config["table"]) else None
  }

  /** The file monitor: on in debug mode or when `file_monitor` is set; interval 2 and no paths unless configured. */
  function MonitorOf(appDebug: Value, config: map<string, Value>): (monitor: Option<Monitor>)
    ensures monitor.Some? <==> !Empty(appDebug) || !Empty(Lookup(config, "file_monitor"))
    ensures monitor.Some? && !IsSet(config, "file_monitor_interval") ==> monitor.value.interval == Int(DEFAULT_MONITOR_INTERVAL)
    ensures monitor.Some? && !IsSet(config, "file_monitor_path") ==> monitor.value.paths == Arr(map[])
    ensures monitor.Some? && IsSet(config, "file_monitor_interval") ==> monitor.value.interval == config["file_monitor_interval"]
    ensures monitor.Some? && IsSet(config, "file_monitor_path") ==> monitor.value.paths == config["file_monitor_path"]
  {
    if !Empty(appDebug) || !Empty(Lookup(config, "file_monitor")) then
      var interval := if IsSet(config, "file_monitor_interval") then config["file_monitor_interval"] else Int(DEFAULT_MONITOR_INTERVAL);
      var paths := if IsSet(config, "file_monitor_path") then config["file_monitor_path"] else Arr(map[]);
      Some(Monitor(interval, paths))
    else
      None
  }

  const MONITOR_KEYS: set<string> := {"file_monitor", "file_monitor_interval", "file_monitor_path"}

  /** The keys `start` may write or remove in the command's configuration. */
  const START_KEYS: set<string> := {"daemonize", "table"} + MONITOR_KEYS

  /** Step 1 of `start`'s updates: `daemonize` set to 1 under --daemon. */
  function DaemonFlagged(daemon: bool, config: map<string, Value>): map<string, Value> {
    if daemon then config["daemonize" := Int(1)] else config
  }

  /** Step 2: `table` removed once the memory table has been created from it. */
  function TableRemoved(config: map<string, Value>): map<string, Value> {
    if TableOf(config).Some? then config - {"table"} else config
  }

  /** Step 3: the monitor keys removed once the file monitor has been set from them. */
  function MonitorRemoved(appDebug: Value, config: map<string, Value>): map<string, Value> {
    if MonitorOf(appDebug, config).Some? then config - MONITOR_KEYS else config
  }

  /**
   * The command's configuration after `start` has launched: `daemonize` set
   * to 1 under --daemon, `table` removed once the table is created, the
   * monitor keys removed once the monitor is set; every other key kept.
   */
  function ConfigAfterLaunch(daemon: bool, appDebug: Value, config: map<string, Value>): map<string, Value> {
    MonitorRemoved(appDebug, TableRemoved(DaemonFlagged(daemon, config)))
  }

  /** Key `k` is in `after` exactly when it is in `before`, with the same value. */
  predicate Kept(after: map<string, Value>, before: map<string, Value>, k: string) {
    (k in after <==> k in before) && (k in after ==> after[k] == before[k])
  }

  /** What `start` changes in the command's configuration, and that it changes nothing else. */
  lemma ConfigAfterLaunchChanges(daemon: bool, appDebug: Value, config: map<string, Value>)
    ensures var after := ConfigAfterLaunch(daemon, appDebug, config);
      && (daemon ==> "daemonize" in after && after["daemonize"] == Int(1))
      && (!daemon ==> Kept(after, config, "daemonize"))
      && (TableOf(config).Some? ==> "table" !in after)
      && (TableOf(config).None? ==> Kept(after, config, "table"))
      && (MonitorOf(appDebug, config).Some? ==> after.Keys !! MONITOR_KEYS)
      && (MonitorOf(appDebug, config).None? ==> forall k :: k in MONITOR_KEYS ==> Kept(after, config, k))
      && (forall k :: k !in START_KEYS ==> Kept(after, config, k))
  {
  }

  /**
   * What `start` hands to the engine. The table, monitor, application path
   * and settings are read, as the command reads them, from the configuration
   * it is updating; they are the values of the configuration it started from.
   */
  function LaunchOf(options: Options, appDebug: Value, config: map<string, Value>): (launch: Launch)
    ensures launch.host == GetHost(options, config) && launch.port == GetPort(options, config)
    ensures launch.mode == ServerModeOf(config) && launch.sockType == SockTypeOf(config)
    ensures launch.table == TableOf(config) && launch.monitor == MonitorOf(appDebug, config)
    ensures launch.appPath == Lookup(config, "app_path") && launch.settings == Lookup(config, "server_setting")
  {
    var flagged := DaemonFlagged(options.daemon, config);
    var tabled := TableRemoved(flagged);
    Launch(GetHost(options, config), GetPort(options, config), ServerModeOf(config), SockTypeOf(config),
           Lookup(flagged, "app_path"), TableOf(flagged), MonitorOf(appDebug, tabled),
           Lookup(MonitorRemoved(appDebug, tabled), "server_setting"))
  }
}
