# Swoole server supervisor, modelled in Dafny

This project models the `swoole` console command of xavier-swoole
(`src/command/Swoole.php`), which supervises a Swoole HTTP server through a
PID file and POSIX signals. The command has four actions, `start`, `stop`,
`reload` and `restart`, and a configuration step run before each of them:

- `init` loads the `swoole` configuration. It defaults `pid_file` to
  `APP_PATH . 'swoole.pid'` and always appends `_<port>`, so the command
  reads and removes a different PID file for each port.
- `getHost` and `getPort` take the console option first, then a non-empty
  configured value, then `0.0.0.0` or `9501`.
- `getMasterPid` reads the PID file with PHP's `(int)` cast.
- `isRunning` treats PID 0 as stopped and otherwise asks a signal-0 probe.
- `start` fires `swoole_before_start`, refuses when the recorded process is
  running, and otherwise derives the server's settings and launches the engine.
- `stop` fires `swoole_before_stop` and, when running, sends SIGTERM and
  deletes the PID file.
- `reload`, when running, sends SIGUSR1 and then fires `swoole_reload`.
- `restart` fires `swoole_before_restart`, runs `stop` if running, then `start`.

The operating system and the framework are replaced by an abstract world:

- the file system as a map from path to contents;
- the set of live PIDs: a signal-0 probe succeeds exactly for them;
- append-only logs of the signals sent, the hooks fired, the launches of the
  server engine, and the console lines by kind.

Modules:

- `IntCast` (`int_cast.dfy`): PHP's `(int)` cast of a string, and `Decimal`,
  the text a server writes for its PID. Their round trip is proved.
- `PhpValue` (`php_value.dfy`): configuration values with PHP's `empty()`,
  `isset()` and string conversion.
- `ConfigResolver` (`config.dfy`): host and port precedence, the PID-file path
  built by `init`, and what `start` derives and removes from the configuration.
- `Lifecycle` (`lifecycle.dfy`): a `Snapshot` of the world, and each action as
  a function of the snapshot before it (`StartSpec`, `StopSpec`, `ReloadSpec`,
  `RestartSpec`, `ExecuteSpec`). The properties of each action are their
  `ensures`. Lemmas relate several invocations.
- `SwooleCommand` (`swoole.dfy`): class `Swoole`, whose methods update the
  configuration, the files and the logs step by step, in the code's order.
  Each method is proved to produce its `Lifecycle` function of the old state.
  `ExampleSession` is a client that runs three invocations.

Points of the code's behaviour that the model keeps:

- A second `start` on a running instance still fires
  `swoole_before_start(pid)`, because the hook is fired before the running
  check (src/command/Swoole.php:91-92).
- The default PID-file base is `APP_PATH . 'swoole.pid'`
  (src/command/Swoole.php:53-56).
- A negative number in the PID file reads as that negative PID
  (src/command/Swoole.php:215).
- `restart` on a running instance deletes the PID file in its `stop` phase.
  Its `start` phase then reads PID 0 and launches at once. It does not wait
  for the old process to exit.
- `--daemon` only sets `daemonize` in the command's own configuration map.
  The engine receives `server_setting`, which does not depend on the flag.
  Whether the engine reads `daemonize` some other way is not part of this
  model.
- The same holds for the PID file. The command never gives the engine its
  per-port path: the `isset($this->config['pid_file'])` block is empty and
  only `server_setting` is passed (src/command/Swoole.php:136-139).
  `Lifecycle.ServerWrotePid`, and the lemmas and the example session built
  on it, assume that the engine writes its PID to that path.

## Model

| member | source | states |
|---|---|---|
| IntCast.LeadingDigits | src/command/Swoole.php:215 | the digits the cast reads are the longest run of decimal digits at the front of the text |
| IntCast.SkipSpace | src/command/Swoole.php:215 | the cast skips exactly the leading whitespace, and what remains does not start with whitespace |
| IntCast.CastToInt | src/command/Swoole.php:215 | the cast gives a non-zero number only when a digit follows the leading whitespace and optional sign, so empty, blank or wordy text and a lone sign read as 0; a negative number comes only from a leading minus |
| IntCast.Decimal | src/command/Swoole.php:215 | a PID's decimal text is non-empty, all digits, and has no leading zero |
| IntCast.DigitsValueOfDecimal | src/command/Swoole.php:215 | the value of a number's decimal text is that number |
| IntCast.DigitRunEndsAtNonDigit | src/command/Swoole.php:215 | the digit run of a numeral followed by a non-digit (a newline, say) is the numeral |
| IntCast.CastOfDecimal | src/command/Swoole.php:215 | a PID written in decimal, optionally followed by a non-digit, casts back to itself |
| IntCast.CastOfNegativeDecimal | src/command/Swoole.php:215 | a minus sign and a numeral cast to the negative number |
| IntCast.SkipSpaceOfBlankPrefix | src/command/Swoole.php:215 | leading whitespace is skipped whatever follows it |
| IntCast.CastSkipsLeadingSpace | src/command/Swoole.php:215 | leading whitespace does not change the cast's result |
| PhpValue.IntText | src/command/Swoole.php:58 | an integer's text, as `.` appends it, is non-empty and casts back to the integer, so different integers print differently |
| PhpValue.EmptyIsFalsy | src/command/Swoole.php:53 | `empty()` holds exactly for null, false, 0, "", "0" and the empty array |
| PhpValue.ToStr | src/command/Swoole.php:58 | an integer converts to text that casts back to it, and a scalar converts to an empty string ("" or "0") exactly when it is itself empty |
| ConfigResolver.GetHost | src/command/Swoole.php:61-70 | the option wins when present; without it a non-empty configured `host` is used, and otherwise 0.0.0.0; the host is never empty unless the option says so |
| ConfigResolver.GetPort | src/command/Swoole.php:72-81 | the option wins when present; without it a non-empty configured `port` is used, and otherwise 9501; the port is never empty unless the option says so |
| ConfigResolver.PidFileBase | src/command/Swoole.php:53-56 | the base is APP_PATH followed by swoole.pid when `pid_file` is empty, and the configured path when it is a non-empty string |
| ConfigResolver.PidFilePath | src/command/Swoole.php:58 | the path is the base, then `_`, then the port's text, and nothing else |
| ConfigResolver.InitConfig | src/command/Swoole.php:48-59 | after `init`, `pid_file` is a string holding the per-port path, and every other key is as loaded |
| ConfigResolver.PidFileUniquePerPort | src/command/Swoole.php:53-58 | from the same configuration, ports with different texts never share a PID file |
| ConfigResolver.IntPortsUniquePidFiles | src/command/Swoole.php:53-58 | two different integer ports never share a PID file |
| ConfigResolver.ServerModeOf | src/command/Swoole.php:101 | the mode is SWOOLE_PROCESS exactly when the configured `mode` is empty, and otherwise the configured `mode` itself |
| ConfigResolver.SockTypeOf | src/command/Swoole.php:102-107 | the socket type is TCP with SSL exactly when `ssl` or `open_http2_protocol` is set, whatever `sock_type` says; otherwise it is the configured `sock_type` when that is non-empty, and plain TCP when it is empty |
| ConfigResolver.TableOf | src/command/Swoole.php:122-125 | a memory table is created exactly when `table` is not empty, and it is created from the configured `table` |
| ConfigResolver.MonitorOf | src/command/Swoole.php:128-131 | the file monitor is set exactly in debug mode or when `file_monitor` is set; its interval and paths are the configured ones when set, else 2 and the empty array |
| ConfigResolver.ConfigAfterLaunchChanges | src/command/Swoole.php:112-133 | after launching, `daemonize` is 1 under --daemon and untouched without it; `table` is gone when a table was created and untouched otherwise; the monitor keys are gone when the monitor was set and untouched otherwise; every other key is unchanged |
| ConfigResolver.LaunchOf | src/command/Swoole.php:99-139 | the engine gets the resolved host and port, mode and socket type, and the table, monitor, application path and settings of the configuration it started from, although the command reads them while removing keys |
| Lifecycle.ParseAction | src/command/Swoole.php:41-45 | an action is dispatched exactly when its name is start, stop, reload or restart, and the action dispatched carries that name |
| Lifecycle.ParseActionName | src/command/Swoole.php:41-45 | each action's name dispatches to that action |
| Lifecycle.IsRunning | src/command/Swoole.php:243-250 | PID 0 is never running; any other PID is running exactly when the signal-0 probe finds it alive |
| Lifecycle.ReadPid | src/command/Swoole.php:210-221 | a missing PID file reads as 0, and a non-zero PID is read only from a file with a number in it |
| Lifecycle.ReadPidOfWrittenPid | src/command/Swoole.php:210-221 | a PID file holding a PID in decimal reads back as that PID |
| Lifecycle.UnreadablePidMeansStopped | src/command/Swoole.php:210-221 | a missing PID file, or one without a number, reads as 0, and then nothing is running |
| Lifecycle.RemovePidSpec | src/command/Swoole.php:228-235 | the PID file is gone afterwards, no other file changes, and with no PID file nothing changes at all |
| Lifecycle.WrittenPidIsRunning | src/command/Swoole.php:210-221 | once the server has written its PID in decimal and is alive, the command reads that PID and finds it running |
| Lifecycle.StartSpec | src/command/Swoole.php:88-95 | `start` always fires swoole_before_start with the recorded PID first; if running it reports so and launches nothing; otherwise it launches exactly once; it never signals and never touches the PID file |
| Lifecycle.LaunchSpec | src/command/Swoole.php:97-144 | after the running check, `start` launches once with the derived settings and keeps the PID-file path |
| Lifecycle.StartWhenRunning | src/command/Swoole.php:88-95 | `start` on a running instance only fires its hook and reports; nothing else changes |
| Lifecycle.StopSpec | src/command/Swoole.php:172-187 | `stop` always fires swoole_before_stop first; when not running it sends nothing and leaves the files alone; when running it sends exactly one SIGTERM to that PID, and afterwards the files are the old ones without the PID file, so nothing reads as running |
| Lifecycle.ReloadSpec | src/command/Swoole.php:152-165 | `reload` never touches the files; when not running it sends nothing and fires no hook; when running it sends exactly one SIGUSR1 and then fires swoole_reload with that PID |
| Lifecycle.RestartSpec | src/command/Swoole.php:194-203 | `restart` always launches exactly once and never changes the live set; when stopped it sends no signal, keeps the files, and fires only swoole_before_restart and swoole_before_start; when running it sends one SIGTERM, the files are the old ones without the PID file, and its `start` sees PID 0 |
| Lifecycle.ExecuteSpec | src/command/Swoole.php:35-46 | `init` always runs; each named action then runs on the initialised state, and an unknown action only adds an error line |
| Lifecycle.StartTwiceLaunchesOnce | src/command/Swoole.php:88-95 | a second `start`, once the first server has written its PID, fires swoole_before_start with that PID, reports already running, and does not launch again |
| Lifecycle.StopTwiceSignalsOnce | src/command/Swoole.php:172-187 | two `stop`s in a row send SIGTERM once, and the second reports not running |
| Lifecycle.ReloadKeepsRunning | src/command/Swoole.php:152-165 | after `reload` the server still reads as running under the same PID |
| Lifecycle.RestartWhenStoppedIsStart | src/command/Swoole.php:194-203 | `restart` on a stopped instance is `start` preceded by swoole_before_restart |
| SwooleCommand.Swoole.Execute | src/command/Swoole.php:35-46 | the command's state afterwards is `ExecuteSpec` of its state before |
| SwooleCommand.Swoole.Init | src/command/Swoole.php:48-59 | the configuration afterwards is `InitConfig` of the loaded configuration |
| SwooleCommand.Swoole.Start | src/command/Swoole.php:88-95 | the state afterwards is `StartSpec` of the state before; the result says whether it launched |
| SwooleCommand.Swoole.LaunchServer | src/command/Swoole.php:97-144 | the configuration is updated in place as `ConfigAfterLaunch` says, one launch and the three start-up lines (starting, started at host and port, the CTRL-C hint) are logged, and nothing else changes |
| SwooleCommand.Swoole.Reload | src/command/Swoole.php:152-165 | the state afterwards is `ReloadSpec` of the state before; the result says whether a signal was sent |
| SwooleCommand.Swoole.Stop | src/command/Swoole.php:172-187 | the state afterwards is `StopSpec` of the state before; the result says whether a signal was sent |
| SwooleCommand.Swoole.Restart | src/command/Swoole.php:194-203 | the state afterwards is `RestartSpec` of the state before |
| SwooleCommand.Swoole.RemovePid | src/command/Swoole.php:228-235 | the files afterwards are `RemovePidSpec` of the files before |
| SwooleCommand.ExampleSession | src/command/Swoole.php:88-187 | `start` with no PID file launches once; `start` with PID 1234 alive fires swoole_before_start(1234) and does not launch; `stop` then sends one SIGTERM to 1234 and deletes the PID file |

## Left out

- The server engine (`xavier\swoole\Http`) is not modelled. This covers its construction and `setHttp`, `setAppPath`, `cachetable`, `table`, `setMonitor`, `option` and `start` (src/command/Swoole.php:109-144). The model records one `Launch` value holding everything the command passes to it.
- Signals use an abstract process table. A signal-0 probe is membership in a fixed set of live PIDs. SIGTERM and SIGUSR1 are appended to a log and do not change that set, because the command never waits for them to take effect. Negative PIDs (process groups) and permission failures are not distinguished.
- The framework is not modelled. `Config::get('swoole')`, `Config::get('app_debug')` and `APP_PATH` are inputs of an invocation. `Hook::listen` appends to a log, and no listener runs. `hasOption` with `getOption` is an optional value per option. ThinkPHP's `Input` is not part of this model.
- Console lines are kept as kinds (`AlreadyRunning`, `Started`, ...), not as text.
- The values of the `SWOOLE_*` constants are not modelled; they are abstract alternatives. A configured `sock_type` that numerically equals `SWOOLE_SOCK_TCP | SWOOLE_SSL` is still a different value in the model.
- IntCast.CastToInt: the integer is unbounded. It does not saturate at PHP_INT_MAX. It reads only an optional sign and leading decimal digits, so exponent forms such as `1e3` read as 1.
- `is_file` is membership in the file map. Directories and unreadable files are not modelled.
- Configuration values leave out floats. PHP arrays are maps keyed by strings.
- Concurrent invocations racing on the PID file are not modelled; the command has no locking.
- The option and argument definitions in `configure` (src/command/Swoole.php:25-33) are not modelled.
- Lifecycle.ServerWrotePid: assumes the engine writes its PID to the command's per-port path; the command never passes that path to the engine (src/command/Swoole.php:136-139), so that the two agree is a configuration requirement, not something the code ensures.
- The empty `if (isset($this->config['pid_file']))` block (src/command/Swoole.php:136-138) does nothing, so it is not modelled.
- Hooks and signals go to two separate logs. The model keeps the order within each log, but not whether a hook came before or after a signal. For example, `stop` fires its hook before SIGTERM and `reload` fires its hook after SIGUSR1.
- Return values: `start`, `stop` and `reload` return `false` or nothing in PHP. The model returns a boolean that says which.
