/**
 * The supervisor's lifecycle as functions on a snapshot of the abstract
 * world one invocation of the command sees: the command's configuration,
 * the file system (path to contents), the set of live PIDs (a signal-0
 * probe succeeds exactly for them), and append-only logs of the signals
 * sent, the hooks fired, the launches of the server engine and the lines
 * written to the console. Each action is given here as a function of the
 * snapshot before it; the command's methods are proved to compute them.
 */
module Lifecycle {
  import opened IntCast
  import opened PhpValue
  import opened ConfigResolver

  /**
   * The named hooks the command fires through the framework's hook registry:
   * swoole_before_start, swoole_before_stop, swoole_before_restart and
   * swoole_reload.
   */
  datatype Hook = SwooleBeforeStart | SwooleBeforeStop | SwooleBeforeRestart | SwooleReload

  /** A hook fired with the PID it was given. */
  datatype Fired = Fired(hook: Hook, pid: int)

  /** The signals the command delivers; liveness probes (signal 0) have no effect and are not logged. */
  datatype Signal = Sigterm | Sigusr1

  datatype Sent = Sent(pid: int, signal: Signal)

  /** The console lines, by kind; their wording is not modelled. */
  datatype Message =
    | AlreadyRunning
    | Starting
    | Started(host: Value, port: Value)
    | ExitHint
    | NotRunning
    | Reloading
    | Stopping
    | Success
    | InvalidAction(action: string)

  /**
   * The inputs of one invocation: the console options, APP_PATH, and what
   * `Config::get` returns for `swoole` and `app_debug`.
   */
  datatype Env = Env(options: Options, appPath: string, swoole: map<string, Value>, appDebug: Value)

  datatype Snapshot = Snapshot(
    config: map<string, Value>,
    files: map<string, string>,
    live: set<int>,
    signals: seq<Sent>,
    hooks: seq<Fired>,
    launches: seq<Launch>,
    output: seq<Message>)

  datatype Action = StartAction | StopAction | ReloadAction | RestartAction

  function ActionName(a: Action): string {
    match a
    case StartAction => "start"
    case StopAction => "stop"
    case ReloadAction => "reload"
    case RestartAction => "restart"
  }

  /** The dispatch test of `execute`: exactly the four action names are accepted. */
  function ParseAction(name: string): (a: Option<Action>)
    ensures a.Some? <==> name in {"start", "stop", "reload", "restart"}
    ensures a.Some? ==> ActionName(a.value) == name
  {
    if name == "start" then Some(StartAction)
    else if name == "stop" then Some(StopAction)
    else if name == "reload" then Some(ReloadAction)
    else if name == "restart" then Some(RestartAction)
    else None
  }

  lemma ParseActionName(a: Action)
    ensures ParseAction(ActionName(a)) == Some(a)
  {
  }

  /** `getMasterPid`: 0 when there is no file at `path`, else the integer cast of its contents. */
  function ReadPid(files: map<string, string>, path: string): (pid: int)
    ensures path !in files ==> pid == 0
    ensures pid != 0 ==> path in files && HasNumericPrefix(files[path])
  {
    if path in files then CastToInt(files[path]) else 0
  }

  /** `isRunning`: a zero PID is never running; otherwise one signal-0 probe. */
  predicate IsRunning(live: set<int>, pid: int)
    ensures pid == 0 ==> !IsRunning(live, pid)
    ensures pid != 0 ==> (IsRunning(live, pid) <==> pid in live)
  {
    pid != 0 && pid in live
  }

  /** The PID a server writes for itself is what the command reads back. */
  lemma ReadPidOfWrittenPid(files: map<string, string>, path: string, pid: nat, rest: string)
    requires rest == [] || !IsDigit(rest[0])
    requires path in files && files[path] == Decimal(pid) + rest
    ensures ReadPid(files, path) == pid
  {
    CastOfDecimal(pid, rest);
  }

  /** A missing or non-numeric PID file reads as 0, so nothing is running. */
  lemma UnreadablePidMeansStopped(files: map<string, string>, path: string, live: set<int>)
    requires path in files ==> !HasNumericPrefix(files[path])
    ensures ReadPid(files, path) == 0 && !IsRunning(live, ReadPid(files, path))
  {
  }

  function MasterPid(s: Snapshot): int
    requires ValidConfig(s.config)
  {
    ReadPid(s.files, PidPath(s.config))
  }

  predicate Running(s: Snapshot)
    requires ValidConfig(s.config)
  {
    IsRunning(s.live, MasterPid(s))
  }

  /** `removePid`: the PID file is gone, every other file is as it was, and with no PID file nothing happens. */
  function RemovePidSpec(s: Snapshot): (t: Snapshot)
    requires ValidConfig(s.config)
    ensures PidPath(s.config) !in s.files ==> t == s
    ensures PidPath(s.config) !in t.files
    ensures forall p :: p != PidPath(s.config) ==> (p in t.files <==> p in s.files)
    ensures forall p :: p in t.files ==> t.files[p] == s.files[p]
    ensures t == s.(files := t.files)
  {
    s.(files := s.files - {PidPath(s.config)})
  }

  /**
   * `start`: fire swoole_before_start with the recorded PID; if that process
   * is running, report it and stop there; otherwise launch the engine once.
   */
  function StartSpec(env: Env, s: Snapshot): (t: Snapshot)
    requires ValidConfig(s.config)
    ensures ValidConfig(t.config) && PidPath(t.config) == PidPath(s.config)
    ensures t.hooks == s.hooks + [Fired(SwooleBeforeStart, MasterPid(s))]
    ensures t.files == s.files && t.live == s.live && t.signals == s.signals
    ensures Running(s) ==> t.launches == s.launches && t.config == s.config
    ensures Running(s) ==> t.output == s.output + [AlreadyRunning]
    ensures !Running(s) ==> t.launches == s.launches + [LaunchOf(env.options, env.appDebug, s.config)]
    ensures |t.launches| == |s.launches| + (if Running(s) then 0 else 1)
  {
    var pid := MasterPid(s);
    var hooked := s.(hooks := s.hooks + [Fired(SwooleBeforeStart, pid)]);
    if IsRunning(s.live, pid) then hooked.(output := hooked.output + [AlreadyRunning]) else LaunchSpec(env, hooked)
  }

  /**
   * The part of `start` after the running check: report, derive the
   * server's settings from the configuration, update the configuration,
   * and launch the engine.
   */
  function LaunchSpec(env: Env, s: Snapshot): (t: Snapshot)
    requires ValidConfig(s.config)
    ensures ValidConfig(t.config) && PidPath(t.config) == PidPath(s.config)
    ensures t == s.(config := t.config, output := t.output, launches := t.launches)
    ensures t.launches == s.launches + [LaunchOf(env.options, env.appDebug, s.config)]
  {
    var launch := LaunchOf(env.options, env.appDebug, s.config);
    s.(config := ConfigAfterLaunch(env.options.daemon, env.appDebug, s.config),
       output := s.output + [Starting, Started(launch.host, launch.port), ExitHint],
       launches := s.launches + [launch])
  }

  /**
   * `stop`: fire swoole_before_stop with the recorded PID; if it is not
   * running, report it; otherwise send it SIGTERM and remove the PID file.
   */
  function StopSpec(s: Snapshot): (t: Snapshot)
    requires ValidConfig(s.config)
    ensures t.config == s.config && t.live == s.live && t.launches == s.launches
    ensures t.hooks == s.hooks + [Fired(SwooleBeforeStop, MasterPid(s))]
    ensures !Running(s) ==> t.signals == s.signals && t.files == s.files && t.output == s.output + [NotRunning]
    ensures Running(s) ==> t.signals == s.signals + [Sent(MasterPid(s), Sigterm)]
    ensures Running(s) ==> t.files == s.files - {PidPath(s.config)}
    ensures Running(s) ==> PidPath(s.config) !in t.files && MasterPid(t) == 0 && !Running(t)
  {
    var pid := MasterPid(s);
    var hooked := s.(hooks := s.hooks + [Fired(SwooleBeforeStop, pid)]);
    if !IsRunning(s.live, pid) then
      hooked.(output := hooked.output + [NotRunning])
    else
      var signalled := hooked.(output := hooked.output + [Stopping], signals := hooked.signals + [Sent(pid, Sigterm)]);
      var removed := RemovePidSpec(signalled);
      removed.(output := removed.output + [Success])
  }

  /**
   * `reload`: if the recorded process is not running, report it and do
   * nothing else; otherwise send it SIGUSR1 and then fire swoole_reload.
   */
  function ReloadSpec(s: Snapshot): (t: Snapshot)
    requires ValidConfig(s.config)
    ensures t.config == s.config && t.files == s.files && t.live == s.live && t.launches == s.launches
    ensures !Running(s) ==> t.signals == s.signals && t.hooks == s.hooks && t.output == s.output + [NotRunning]
    ensures Running(s) ==> t.signals == s.signals + [Sent(MasterPid(s), Sigusr1)]
    ensures Running(s) ==> t.hooks == s.hooks + [Fired(SwooleReload, MasterPid(s))]
  {
    var pid := MasterPid(s);
    if !IsRunning(s.live, pid) then
      s.(output := s.output + [NotRunning])
    else
      s.(output := s.output + [Reloading, Success],
         signals := s.signals + [Sent(pid, Sigusr1)],
         hooks := s.hooks + [Fired(SwooleReload, pid)])
  }

  /**
   * `restart`: fire swoole_before_restart with the recorded PID, run `stop`
   * if that process is running, then run `start`; both re-read the PID file.
   */
  function RestartSpec(env: Env, s: Snapshot): (t: Snapshot)
    requires ValidConfig(s.config)
    ensures ValidConfig(t.config) && PidPath(t.config) == PidPath(s.config)
    ensures t.live == s.live
    ensures |t.launches| == |s.launches| + 1
    ensures t.launches == s.launches + [LaunchOf(env.options, env.appDebug, s.config)]
    ensures !Running(s) ==> t.signals == s.signals && t.files == s.files
    ensures !Running(s) ==> t.hooks == s.hooks + [Fired(SwooleBeforeRestart, MasterPid(s)), Fired(SwooleBeforeStart, MasterPid(s))]
    ensures Running(s) ==> t.signals == s.signals + [Sent(MasterPid(s), Sigterm)]
    ensures Running(s) ==> t.files == s.files - {PidPath(s.config)}
    ensures Running(s) ==> t.hooks == s.hooks + [Fired(SwooleBeforeRestart, MasterPid(s)),
                                                 Fired(SwooleBeforeStop, MasterPid(s)),
                                                 Fired(SwooleBeforeStart, 0)]
  {
    var pid := MasterPid(s);
    var hooked := s.(hooks := s.hooks + [Fired(SwooleBeforeRestart, pid)]);
    assert MasterPid(hooked) == pid;
    if IsRunning(s.live, pid) then
      var stopped := StopSpec(hooked);
      assert stopped.config == s.config && stopped.live == s.live;
      assert stopped.hooks == s.hooks + [Fired(SwooleBeforeRestart, pid), Fired(SwooleBeforeStop, pid)];
      assert MasterPid(stopped) == 0 && !Running(stopped);
      var t := StartSpec(env, stopped);
      assert t.hooks == stopped.hooks + [Fired(SwooleBeforeStart, 0)];
      assert t.files == stopped.files && t.signals == stopped.signals;
      t
    else
      var t := StartSpec(env, hooked);
      assert t.hooks == hooked.hooks + [Fired(SwooleBeforeStart, pid)];
      t
  }

  /** `execute`: run `init`, then the named action, or only report an unknown one. */
  function ExecuteSpec(env: Env, s: Snapshot, action: string): (t: Snapshot)
    ensures ValidConfig(t.config)
    ensures var initialised := s.(config := InitConfig(env.options, env.appPath, env.swoole));
      && (ParseAction(action).None? ==> t == initialised.(output := s.output + [InvalidAction(action)]))
      && (ParseAction(action) == Some(StartAction) ==> t == StartSpec(env, initialised))
      && (ParseAction(action) == Some(StopAction) ==> t == StopSpec(initialised))
      && (ParseAction(action) == Some(ReloadAction) ==> t == ReloadSpec(initialised))
      && (ParseAction(action) == Some(RestartAction) ==> t == RestartSpec(env, initialised))
  {
    var initialised := s.(config := InitConfig(env.options, env.appPath, env.swoole));
    match ParseAction(action)
    case None => initialised.(output := initialised.output + [InvalidAction(action)])
    case Some(StartAction) => StartSpec(env, initialised)
    case Some(StopAction) => StopSpec(initialised)
    case Some(ReloadAction) => ReloadSpec(initialised)
    case Some(RestartAction) => RestartSpec(env, initialised)
  }

  /**
   * What the launched server does on its own, outside the command: it is
   * alive under `pid` and has written that PID into the file at the
   * command's per-port path. This is an assumption about the engine: the
   * command never hands that path to the engine (it passes only
   * `server_setting`), so the engine must be configured to write there.
   */
  function ServerWrotePid(s: Snapshot, pid: nat): (t: Snapshot)
    requires ValidConfig(s.config)
    ensures ValidConfig(t.config) && PidPath(t.config) == PidPath(s.config)
  {
    s.(files := s.files[PidPath(s.config) := Decimal(pid)], live := s.live + {pid})
  }

  /** Once the server has written its PID, the command reads that PID and finds it running. */
  lemma WrittenPidIsRunning(s: Snapshot, pid: nat)
    requires ValidConfig(s.config) && pid > 0
    ensures MasterPid(ServerWrotePid(s, pid)) == pid && Running(ServerWrotePid(s, pid))
  {
    var up := ServerWrotePid(s, pid);
    var path := PidPath(up.config);
    assert path in up.files && up.files[path] == Decimal(pid) + [];
    ReadPidOfWrittenPid(up.files, path, pid, []);
  }

  /** `start` on a running instance only fires its hook and reports. */
  lemma StartWhenRunning(env: Env, s: Snapshot)
    requires ValidConfig(s.config) && Running(s)
    ensures StartSpec(env, s) == s.(hooks := s.hooks + [Fired(SwooleBeforeStart, MasterPid(s))], output := s.output + [AlreadyRunning])
  {
  }

  /**
   * A second `start` without a `stop` in between finds the first server
   * running: it fires swoole_before_start with that PID, reports it, and
   * does not launch again.
   */
  lemma StartTwiceLaunchesOnce(env: Env, s: Snapshot, pid: nat)
    requires ValidConfig(s.config) && !Running(s) && pid > 0
    ensures var second := StartSpec(env, ServerWrotePid(StartSpec(env, s), pid));
      && |second.launches| == |s.launches| + 1
      && second.output[|second.output| - 1] == AlreadyRunning
      && second.hooks == s.hooks + [Fired(SwooleBeforeStart, MasterPid(s)), Fired(SwooleBeforeStart, pid)]
  {
    var first := StartSpec(env, s);
    var up := ServerWrotePid(first, pid);
    WrittenPidIsRunning(first, pid);
    StartWhenRunning(env, up);
  }

  /** A second `stop` finds nothing to stop: SIGTERM is sent once in all. */
  lemma StopTwiceSignalsOnce(s: Snapshot)
    requires ValidConfig(s.config) && Running(s)
    ensures StopSpec(StopSpec(s)).signals == s.signals + [Sent(MasterPid(s), Sigterm)]
    ensures StopSpec(StopSpec(s)).output[|StopSpec(StopSpec(s)).output| - 1] == NotRunning
  {
  }

  /** `reload` keeps the server running under the same PID, so it can be reloaded again. */
  lemma ReloadKeepsRunning(s: Snapshot)
    requires ValidConfig(s.config) && Running(s)
    ensures Running(ReloadSpec(s)) && MasterPid(ReloadSpec(s)) == MasterPid(s)
  {
  }

  /** `restart` on a stopped instance is `start` preceded by the swoole_before_restart hook. */
  lemma RestartWhenStoppedIsStart(env: Env, s: Snapshot)
    requires ValidConfig(s.config) && !Running(s)
    ensures RestartSpec(env, s) == StartSpec(env, s.(hooks := s.hooks + [Fired(SwooleBeforeRestart, MasterPid(s))]))
  {
  }
}
