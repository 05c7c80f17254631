/**
 * The `swoole` console command: an object holding the configuration it
 * derives, over an abstract world (files, live PIDs) and the logs of what
 * it does (signals, hooks, launches, console lines). Each action works step
 * by step on these fields, in the order the command performs them, and is
 * proved to produce the snapshot the matching function of `Lifecycle`
 * describes.
 */
module SwooleCommand {
  import opened PhpValue
  import opened ConfigResolver
  import opened Lifecycle

  class Swoole {
    /** The inputs of this invocation (options, APP_PATH, `Config::get` results). */
    const env: Env
    /** The PIDs a signal-0 probe finds alive; the command itself never changes them. */
    const live: set<int>

    var config: map<string, Value>
    var files: map<string, string>
    var signals: seq<Sent>
    var hooks: seq<Fired>
    var launches: seq<Launch>
    var output: seq<Message>

    function State(): Snapshot
      reads this
    {
      Snapshot(config, files, live, signals, hooks, launches, output)
    }

    predicate Valid()
      reads this
    {
      ValidConfig(config)
    }

    constructor (env: Env, files: map<string, string>, live: set<int>)
      ensures this.env == env
      ensures State() == Snapshot(map[], files, live, [], [], [], [])
    {
      this.env := env;
      this.live := live;
      this.config := map[];
      this.files := files;
      this.signals := [];
      this.hooks := [];
      this.launches := [];
      this.output := [];
    }

    /** `execute`: `init`, then dispatch on the action name. */
    method Execute(action: string)
      modifies this
      ensures Valid()
      ensures State() == ExecuteSpec(env, old(State()), action)
    {
      Init();
      if action == "start" {
        var _ := Start();
      } else if action == "stop" {
        var _ := Stop();
      } else if action == "reload" {
        var _ := Reload();
      } else if action == "restart" {
        Restart();
      } else {
        output := output + [InvalidAction(action)];
      }
    }

    /** `init`: load the configuration, default `pid_file`, then append `_` and the port. */
    method Init()
      modifies this`config
      ensures Valid()
      ensures config == InitConfig(env.options, env.appPath, env.swoole)
    {
      config := env.swoole;
      ghost var port := GetPort(env.options, env.swoole);
      if Empty(Lookup(config, "pid_file")) {
        config := config["pid_file" := Str(env.appPath + PID_FILE_NAME)];
      }
      assert ToStr(config["pid_file"]) == PidFileBase(env.swoole, env.appPath);
      assert Lookup(config, "port") == Lookup(env.swoole, "port");
      assert GetPort(env.options, config) == port;
      config := config["pid_file" := Str(ToStr(config["pid_file"]) + "_" + ToStr(GetPort(env.options, config)))];
      assert config["pid_file"] == Str(PidFilePath(env.swoole, env.appPath, port));
      assert config.Keys == env.swoole.Keys + {"pid_file"};
    }

    /** `start`; `launched` is false exactly when the recorded process is already running. */
    method Start() returns (launched: bool)
      requires Valid()
      modifies this
      ensures Valid()
      ensures State() == StartSpec(env, old(State()))
      ensures launched == !Running(old(State()))
    {
      ghost var s := State();
      var pid := ReadPid(files, PidPath(config));
      assert pid == MasterPid(s);
      hooks := hooks + [Fired(SwooleBeforeStart, pid)];
      if IsRunning(live, pid) {
        output := output + [AlreadyRunning];
        return false;
      }
      LaunchServer();
      launched := true;
    }

    /** The part of `start` after the running check: derive the server's settings and launch it. */
    method LaunchServer()
      requires Valid()
      modifies this`config, this`output, this`launches
      ensures config == ConfigAfterLaunch(env.options.daemon, env.appDebug, old(config))
      ensures launches == old(launches) + [LaunchOf(env.options, env.appDebug, old(config))]
      ensures output == old(output) + [Starting, Started(GetHost(env.options, old(config)), GetPort(env.options, old(config))), ExitHint]
    {
      ghost var lines := output;
      output := output + [Starting];
      var host := GetHost(env.options, config);
      var port := GetPort(env.options, config);
      var mode := ServerModeOf(config);
      var sockType := SockTypeOf(config);
      ghost var before := config;
      if env.options.daemon {
        config := config["daemonize" := Int(1)];
      }
      assert config == DaemonFlagged(env.options.daemon, before);
      var appPath := Lookup(config, "app_path");
      var table := TableOf(config);
      if table.Some? {
        config := config - {"table"};
      }
      assert config == TableRemoved(DaemonFlagged(env.options.daemon, before));
      var monitor := MonitorOf(env.appDebug, config);
      if monitor.Some? {
        config := config - MONITOR_KEYS;
      }
      assert config == ConfigAfterLaunch(env.options.daemon, env.appDebug, before);
      var settings := Lookup(config, "server_setting");
      output := output + [Started(host, port)];
      output := output + [ExitHint];
      assert output == lines + [Starting, Started(host, port), ExitHint];
      launches := launches + [Launch(host, port, mode, sockType, appPath, table, monitor, settings)];
    }

    /** `reload`; `signalled` is true exactly when the recorded process was running. */
    method Reload() returns (signalled: bool)
      requires Valid()
      modifies this
      ensures Valid()
      ensures State() == ReloadSpec(old(State()))
      ensures signalled == Running(old(State()))
    {
      ghost var s := State();
      var pid := ReadPid(files, PidPath(config));
      assert pid == MasterPid(s);
      if !IsRunning(live, pid) {
        output := output + [NotRunning];
        assert State() == ReloadSpec(s);
        return false;
      }
      output := output + [Reloading];
      signals := signals + [Sent(pid, Sigusr1)];
      output := output + [Success];
      hooks := hooks + [Fired(SwooleReload, pid)];
      assert output == s.output + [Reloading, Success];
      assert State() == ReloadSpec(s);
      signalled := true;
    }

    /** `stop`; `signalled` is true exactly when the recorded process was running. */
    method Stop() returns (signalled: bool)
      requires Valid()
      modifies this
      ensures Valid()
      ensures State() == StopSpec(old(State()))
      ensures signalled == Running(old(State()))
    {
      ghost var s := State();
      var pid := ReadPid(files, PidPath(config));
      assert pid == MasterPid(s);
      hooks := hooks + [Fired(SwooleBeforeStop, pid)];
      if !IsRunning(live, pid) {
        output := output + [NotRunning];
        return false;
      }
      output := output + [Stopping];
      signals := signals + [Sent(pid, Sigterm)];
      RemovePid();
      output := output + [Success];
      signalled := true;
    }

    /** `restart`: `stop` only if running, then always `start`. */
    method Restart()
      requires Valid()
      modifies this
      ensures Valid()
      ensures State() == RestartSpec(env, old(State()))
    {
      ghost var s := State();
      var pid := ReadPid(files, PidPath(config));
      assert pid == MasterPid(s);
      hooks := hooks + [Fired(SwooleBeforeRestart, pid)];
      if IsRunning(live, pid) {
        var _ := Stop();
      }
      var _ := Start();
    }

    /** `removePid`: delete the PID file if there is one. */
    method RemovePid()
      requires Valid()
      modifies this`files
      ensures State() == RemovePidSpec(old(State()))
    {
      if PidPath(config) in files {
        files := files - {PidPath(config)};
      }
    }
  }

  /**
   * Three invocations in a row, as a user would type them: `start` with no
   * PID file, `start` once the server runs as PID 1234, then `stop`.
   */
  method ExampleSession(appPath: string)
    returns (firstLaunches: nat, secondLaunches: nat, secondHooks: seq<Fired>, stopSignals: seq<Sent>, fileLeft: bool)
    ensures firstLaunches == 1 && secondLaunches == 0
    ensures secondHooks == [Fired(SwooleBeforeStart, 1234)]
    ensures stopSignals == [Sent(1234, Sigterm)] && !fileLeft
  {
    var env := Env(Options(None, None, false), appPath, map["port" := Int(9501)], Bool(false));
    var first := new Swoole(env, map[], {});
    first.Execute("start");
    firstLaunches := |first.launches|;

    var path := PidPath(first.config);
    var written := map[path := IntText(1234)];
    var second := new Swoole(env, written, {1234});
    second.Execute("start");
    secondLaunches := |second.launches|;
    secondHooks := second.hooks;

    var third := new Swoole(env, written, {1234});
    third.Execute("stop");
    stopSignals := third.signals;
    fileLeft := path in third.files;
  }
}
