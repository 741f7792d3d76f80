/** The storlet daemon factory: the process that starts one storlet daemon
    per storlet, probes, stops and shuts them down, and answers the bus
    commands that ask it to. Its state is two dictionaries keyed by storlet
    name: the daemon's pid and the path of the daemon's bus. Every operating
    system call (Popen, waitpid, kill, SBus.send, the read of a ping reply)
    is an oracle parameter of the method that makes it. */
module StorletDaemonFactory {
  import opened Wrappers
  import opened Strings
  import opened Collections
  import opened Command
  import opened Os
  import StorletDaemon

  // ---------------------------------------------------------------------
  // Responses

  /** What a factory command handler returns to the bus client. */
  datatype CommandResponse = CommandResponse(status: bool, message: string, iterable: bool)

  function CommandSuccess(message: string, iterable: bool := true): CommandResponse {
    CommandResponse(true, message, iterable)
  }

  function CommandFailure(message: string, iterable: bool := true): CommandResponse {
    CommandResponse(false, message, iterable)
  }

  /** str() of a Python bool. */
  function BoolText(b: bool): string {
    if b then "True" else "False"
  }

  /** CommandResponse.report_message: the text sent back over the bus. */
  function ReportMessage(resp: CommandResponse): string {
    BoolText(resp.status) + ": " + resp.message
  }

  /** The status part of a reply: the text before its first colon. */
  function ReplyStatus(reply: string): string {
    reply[..IndexOf(reply, ':')]
  }

  predicate ReplySaysTrue(reply: string) {
    ReplyStatus(reply) == "True"
  }

  /** A reader of a report gets the status back, whatever the message says
      (colons in the message included). */
  lemma ReportMessageStatus(resp: CommandResponse)
    ensures ReplyStatus(ReportMessage(resp)) == BoolText(resp.status)
    ensures ReplySaysTrue(ReportMessage(resp)) <==> resp.status
  {
    var t := BoolText(resp.status);
    var s := ReportMessage(resp);
    assert s[|t|] == ':';
    assert forall j :: 0 <= j < |t| ==> s[j] == t[j] && t[j] != ':';
    var i := IndexOf(s, ':');
    assert i == |t|;
    assert s[..i] == t;
  }

  /** The report of CommandResponse(True, 'msg'). */
  lemma ReportMessageExample()
    ensures ReportMessage(CommandSuccess("msg")) == "True: msg"
    ensures ReplySaysTrue(ReportMessage(CommandSuccess("OK")))
    ensures !ReplySaysTrue(ReportMessage(CommandFailure("NG")))
  {
    ReportMessageStatus(CommandSuccess("OK"));
    ReportMessageStatus(CommandFailure("NG"));
  }

  // ---------------------------------------------------------------------
  // Errors

  /** SDaemonError, and the KeyError of a dictionary lookup that is not
      guarded. */
  datatype FactoryError = SDaemonError(message: string) | KeyError(key: string)

  function NotFoundMessage(storletName: string): string {
    storletName + " is not found"
  }

  function KillSignalMessage(storletName: string): string {
    "Failed to send kill signal to " + storletName
  }

  function HaltSendMessage(storletName: string): string {
    "Failed to send halt to " + storletName
  }

  function WaitFailedMessage(storletName: string): string {
    "Failed to wait for the storlet daemon " + storletName
  }

  function NoPermissionMessage(storletName: string): string {
    "No permission to access the storlet daemon for " + storletName
  }

  const UNKNOWN_ERROR: string := "Unknown error"

  function SpawnFailedMessage(storletName: string): string {
    "Failed to spawn the storlet daemon " + storletName
  }

  function TerminatedMessage(storletName: string): string {
    "The storlet daemon " + storletName + " terminated during its start"
  }

  function NoResponseMessage(storletName: string): string {
    "No response from the storlet daemon " + storletName
  }

  const KILL_ALL_PREFIX: string := "Failed to stop some storlet daemons: "
  const SHUTDOWN_ALL_PREFIX: string := "Failed to shutdown some storlet daemons: "

  function UnsupportedLanguageMessage(language: string): string {
    "Got unsupported daemon language: " + language
  }

  // ---------------------------------------------------------------------
  // Probing a daemon

  /** get_process_status_by_pid, given what waitpid(pid, WNOHANG) answered:
      a zero pid means the daemon still runs, any other pid that it has
      exited; "no such process" means not running; a permission error and
      every other OSError are reported as distinct errors. */
  function GetProcessStatusByPid(answer: WaitPidAnswer, storletName: string): (r: Result<bool, FactoryError>)
    ensures r.Ok? <==> answer.Status? || answer == WaitPidFailed(ESRCH)
    ensures r == Ok(true) <==> answer.Status? && answer.pid == 0
    ensures answer == WaitPidFailed(EPERM) ==> r == Err(SDaemonError(NoPermissionMessage(storletName)))
    ensures answer.WaitPidFailed? && answer.errno != ESRCH && answer.errno != EPERM ==>
              r == Err(SDaemonError(UNKNOWN_ERROR))
  {
    match answer
    case Status(pid, _) => Ok(pid == 0)
    case WaitPidFailed(ESRCH) => Ok(false)
    case WaitPidFailed(EPERM) => Err(SDaemonError(NoPermissionMessage(storletName)))
    case WaitPidFailed(_) => Err(SDaemonError(UNKNOWN_ERROR))
  }

  predicate Alive(answer: WaitPidAnswer) {
    answer.Status? && answer.pid == 0
  }

  // ---------------------------------------------------------------------
  // Launch arguments

  /** A command line and the environment to run it in. */
  datatype Launch = Launch(pargs: seq<string>, env: map<string, string>)

  const JAVA_BINARY: string := "/usr/bin/java"
  const SDAEMON_CLASS: string := "org.openstack.storlet.daemon.SDaemon"
  const PYTHON_DAEMON: string := "/usr/local/bin/storlets-daemon"
  const STORLETS_DIR: string := "/opt/storlets/"
  const PYTHON_STORLETS_DIR: string := "/home/swift/"

  /** The jars of the Java daemon, each followed by a colon, and the
      library directory. */
  const JVM_CLASSPATH: string :=
    "/opt/storlets/logback-classic-1.1.2.jar:/opt/storlets/logback-core-1.1.2.jar:" +
    "/opt/storlets/slf4j-api-1.7.7.jar:/opt/storlets/json_simple-1.1.jar:" +
    "/opt/storlets/SBusJavaFacade.jar:/opt/storlets/SCommon.jar:" +
    "/opt/storlets/SDaemon.jar:/opt/storlets/:"

  /** Appends a path to a search-path variable, or sets it when absent;
      every other variable is kept. */
  function AddPath(env: map<string, string>, key: string, path: string): (r: map<string, string>)
    ensures r.Keys == env.Keys + {key}
    ensures forall k :: k in env && k != key ==> r[k] == env[k]
    ensures EndsWith(r[key], path)
    ensures key in env ==> StartsWith(r[key], env[key] + ":")
  {
    var value := if key in env then env[key] + ":" + path else path;
    assert value[|value| - |path|..] == path;
    env[key := value]
  }

  /** A string that ends with a + b ends with b. */
  lemma EndsWithTail(s: string, a: string, b: string)
    requires EndsWith(s, a + b)
    ensures EndsWith(s, b)
  {
    assert s[|s| - |b|..] == s[|s| - |a + b|..][|a|..];
  }

  /** get_jvm_args: the Java daemon's command line, and the process
      environment with the daemon's classpath and library path added. */
  function GetJvmArgs(daemonLanguage: string, storletPath: string, storletName: string, poolSize: int,
                      udsPath: string, logLevel: string, containerId: string,
                      environ: map<string, string>): (r: Launch)
    ensures r.env.Keys == environ.Keys + {"CLASSPATH", "LD_LIBRARY_PATH"}
    ensures forall k :: k in environ && k != "CLASSPATH" && k != "LD_LIBRARY_PATH" ==> r.env[k] == environ[k]
    ensures EndsWith(r.env["CLASSPATH"], JVM_CLASSPATH + storletPath) && EndsWith(r.env["CLASSPATH"], storletPath)
    ensures EndsWith(r.env["LD_LIBRARY_PATH"], STORLETS_DIR)
    ensures "CLASSPATH" in environ ==> StartsWith(r.env["CLASSPATH"], environ["CLASSPATH"] + ":")
    ensures "LD_LIBRARY_PATH" in environ ==> StartsWith(r.env["LD_LIBRARY_PATH"], environ["LD_LIBRARY_PATH"] + ":")
  {
    var withClasspath := AddPath(environ, "CLASSPATH", JVM_CLASSPATH + storletPath);
    EndsWithTail(withClasspath["CLASSPATH"], JVM_CLASSPATH, storletPath);
    Launch([JAVA_BINARY, SDAEMON_CLASS, storletName, udsPath, logLevel, IntToString(poolSize), containerId],
           AddPath(withClasspath, "LD_LIBRARY_PATH", STORLETS_DIR))
  }

  /** get_python_args: the Python daemon's command line, and the process
      environment with the storlet's directory added to the module path. */
  function GetPythonArgs(daemonLanguage: string, storletPath: string, storletName: string, poolSize: int,
                         udsPath: string, logLevel: string, containerId: string,
                         environ: map<string, string>): (r: Launch)
    ensures |r.pargs| == 6 && r.pargs[0] == PYTHON_DAEMON
    ensures r.env.Keys == environ.Keys + {"PYTHONPATH"}
    ensures forall k :: k in environ && k != "PYTHONPATH" ==> r.env[k] == environ[k]
    ensures EndsWith(r.env["PYTHONPATH"], PYTHON_STORLETS_DIR + storletName)
    ensures "PYTHONPATH" in environ ==> StartsWith(r.env["PYTHONPATH"], environ["PYTHONPATH"] + ":")
  {
    Launch([PYTHON_DAEMON, storletName, udsPath, logLevel, IntToString(poolSize), containerId],
           AddPath(environ, "PYTHONPATH", PYTHON_STORLETS_DIR + storletName))
  }

  /** The Python daemon's main reads back exactly what the factory put on
      its command line, the pool size included, once main converts it to an
      integer. */
  lemma PythonArgsReachDaemon(daemonLanguage: string, storletPath: string, storletName: string, poolSize: nat,
                              udsPath: string, logLevel: string, containerId: string,
                              environ: map<string, string>)
    ensures StorletDaemon.ParseMainArgs(GetPythonArgs(daemonLanguage, storletPath, storletName, poolSize,
                                                      udsPath, logLevel, containerId, environ).pargs[1..])
            == Ok(StorletDaemon.DaemonArgs(storletName, udsPath, logLevel, poolSize, containerId))
  {
    ParseNatToString(poolSize);
  }

  /** Both daemons get the same argument vector after their launcher words,
      so the Java daemon reads the Python one's arguments in the same order. */
  lemma LaunchArgsAgree(daemonLanguage: string, storletPath: string, storletName: string, poolSize: int,
                        udsPath: string, logLevel: string, containerId: string, environ: map<string, string>)
    ensures var jvm := GetJvmArgs(daemonLanguage, storletPath, storletName, poolSize, udsPath, logLevel, containerId, environ);
            var python := GetPythonArgs(daemonLanguage, storletPath, storletName, poolSize, udsPath, logLevel, containerId, environ);
            |jvm.pargs| == 7 && jvm.pargs[..2] == [JAVA_BINARY, SDAEMON_CLASS] && jvm.pargs[2..] == python.pargs[1..]
  {
  }

  predicate SupportedLanguage(language: string) {
    language == "java" || language == "python"
  }

  /** The launch process_start_daemon builds for a supported language. */
  function LaunchFor(daemonLanguage: string, storletPath: string, storletName: string, poolSize: int,
                     udsPath: string, logLevel: string, containerId: string,
                     environ: map<string, string>): Launch
  {
    if daemonLanguage == "java"
    then GetJvmArgs(daemonLanguage, storletPath, storletName, poolSize, udsPath, logLevel, containerId, environ)
    else GetPythonArgs(daemonLanguage, storletPath, storletName, poolSize, udsPath, logLevel, containerId, environ)
  }

  // ---------------------------------------------------------------------
  // Readiness

  /** NUM_OF_TRIES_PINGING_STARTING_DAEMON. */
  const NUM_OF_TRIES_PINGING_STARTING_DAEMON: nat := 10

  /** One try of the readiness wait: what SBus.send returned, and what the
      read of the reply pipe would give when the send succeeded. */
  datatype PingAttempt = PingAttempt(sendRc: int, reply: string)

  /** A try that the daemon answered with a True reply. */
  predicate Answered(a: PingAttempt) {
    a.sendRc >= 0 && ReplySaysTrue(a.reply)
  }

  /** The number of reads among the first n tries: one per successful send. */
  function ReadsIn(attempts: nat -> PingAttempt, n: nat): nat {
    if n == 0 then 0 else ReadsIn(attempts, n - 1) + (if attempts(n - 1).sendRc >= 0 then 1 else 0)
  }

  ghost predicate Ready(attempts: nat -> PingAttempt) {
    exists i :: 0 <= i < NUM_OF_TRIES_PINGING_STARTING_DAEMON && Answered(attempts(i))
  }

  /** The first readiness example: the first send fails and the second one
      gets the report of a success, so the wait ends on its second try after
      one read. */
  lemma ReadinessExample()
    ensures var attempts := (i: nat) => if i == 0 then PingAttempt(-1, "") else PingAttempt(0, "True: OK");
            !Answered(attempts(0)) && Answered(attempts(1)) && ReadsIn(attempts, 2) == 1
  {
    ReportMessageStatus(CommandSuccess("OK"));
    assert ReportMessage(CommandSuccess("OK")) == "True: OK";
  }

  // ---------------------------------------------------------------------
  // Command lookup

  datatype FactoryHandler =
    StartDaemonHandler | StopDaemonHandler | DaemonStatusHandler | StopDaemonsHandler | HaltHandler | PingHandler

  /** The factory's methods marked as command handlers. */
  const HANDLERS: map<string, FactoryHandler> :=
    map["start_daemon" := StartDaemonHandler, "stop_daemon" := StopDaemonHandler,
        "daemon_status" := DaemonStatusHandler, "stop_daemons" := StopDaemonsHandler,
        "halt" := HaltHandler, "ping" := PingHandler]

  /** DaemonFactory.get_handler. */
  function GetHandler(command: string): (r: Result<FactoryHandler, UnknownCommand>)
    ensures r.Ok? <==> StartsWith(command, SBUS_CMD_PREFIX)
                       && HandlerName(command) in {"start_daemon", "stop_daemon", "daemon_status", "stop_daemons", "halt", "ping"}
    ensures r.Err? ==> r.error == UnknownCommand(command)
  {
    ResolveCommand(command, HANDLERS)
  }

  // Each factory command resolves to its handler.

  lemma GetHandlerStartDaemon()
    ensures GetHandler(SBUS_CMD_START_DAEMON) == Ok(StartDaemonHandler)
  {
    var name := HandlerName(SBUS_CMD_START_DAEMON);
    assert SBUS_CMD_START_DAEMON[..9] == SBUS_CMD_PREFIX && SBUS_CMD_START_DAEMON[9..] == "START_DAEMON";
    forall i | 0 <= i < 12 ensures name[i] == "start_daemon"[i] {
    }
    assert name == "start_daemon";
  }

  lemma GetHandlerStopDaemon()
    ensures GetHandler(SBUS_CMD_STOP_DAEMON) == Ok(StopDaemonHandler)
  {
    var name := HandlerName(SBUS_CMD_STOP_DAEMON);
    assert SBUS_CMD_STOP_DAEMON[..9] == SBUS_CMD_PREFIX && SBUS_CMD_STOP_DAEMON[9..] == "STOP_DAEMON";
    forall i | 0 <= i < 11 ensures name[i] == "stop_daemon"[i] {
    }
    assert name == "stop_daemon";
  }

  lemma GetHandlerDaemonStatus()
    ensures GetHandler(SBUS_CMD_DAEMON_STATUS) == Ok(DaemonStatusHandler)
  {
    var name := HandlerName(SBUS_CMD_DAEMON_STATUS);
    assert SBUS_CMD_DAEMON_STATUS[..9] == SBUS_CMD_PREFIX && SBUS_CMD_DAEMON_STATUS[9..] == "DAEMON_STATUS";
    forall i | 0 <= i < 13 ensures name[i] == "daemon_status"[i] {
    }
    assert name == "daemon_status";
  }

  lemma GetHandlerStopDaemons()
    ensures GetHandler(SBUS_CMD_STOP_DAEMONS) == Ok(StopDaemonsHandler)
  {
    var name := HandlerName(SBUS_CMD_STOP_DAEMONS);
    assert SBUS_CMD_STOP_DAEMONS[..9] == SBUS_CMD_PREFIX && SBUS_CMD_STOP_DAEMONS[9..] == "STOP_DAEMONS";
    forall i | 0 <= i < 12 ensures name[i] == "stop_daemons"[i] {
    }
    assert name == "stop_daemons";
  }

  /** The commands the factory shares with the daemon resolve to its own
      halt and ping. */
  lemma GetHandlerHaltPing()
    ensures GetHandler(SBUS_CMD_HALT) == Ok(HaltHandler)
    ensures GetHandler(SBUS_CMD_PING) == Ok(PingHandler)
  {
    HaltCommandName();
    PingCommandName();
  }

  lemma GetHandlerRejects()
    ensures GetHandler("FOO").Err?
    ensures GetHandler("SBUS_CMD_UNKNOWN").Err?
    ensures GetHandler("SBUS_CMD_GET_JVM_ARGS").Err?
  {
    // No handler name is seven characters long, and none of the
    // twelve-character ones starts with 'g'.
    assert |HandlerName("SBUS_CMD_UNKNOWN")| == 7;
    assert "SBUS_CMD_GET_JVM_ARGS"[9] == 'G';
    assert HandlerName("SBUS_CMD_GET_JVM_ARGS")[0] == 'g';
  }

  // ---------------------------------------------------------------------
  // The factory

  /** What Popen did: started a process, or raised OSError. */
  datatype PopenAnswer = Spawned(pid: int) | SpawnFailed

  /** The calls process_start_daemon makes, as their answers. */
  datatype StartEnv = StartEnv(
    environ: map<string, string>,
    popen: Launch -> PopenAnswer,
    probe: int -> WaitPidAnswer,
    attempts: nat -> PingAttempt)

  /** The parameters start_daemon reads from its request. */
  datatype StartParams = StartParams(daemonLanguage: string, storletPath: string, storletName: string, poolSize: int,
                                     udsPath: string, logLevel: string)

  /** One '<name>: terminated' line per daemon, in order. */
  function TerminatedLines(names: seq<string>): (lines: seq<string>)
    ensures |lines| == |names| && forall k :: 0 <= k < |names| ==> lines[k] == names[k] + ": terminated"
  {
    seq(|names|, k requires 0 <= k < |names| => names[k] + ": terminated")
  }

  /** A kill that went through: the signal was sent and the wait reaped it. */
  predicate KillSucceeds(pid: int, kill: int -> bool, waitpid: int -> WaitPidAnswer) {
    kill(pid) && waitpid(pid).Status?
  }

  /** The registered daemons a kill would stop. */
  function Killable(pids: map<string, int>, kill: int -> bool, waitpid: int -> WaitPidAnswer): set<string> {
    set n | n in pids && KillSucceeds(pids[n], kill, waitpid)
  }

  /** The error process_kill raises for a registered daemon it fails to kill. */
  function KillError(storletName: string, pid: int, kill: int -> bool): FactoryError {
    if !kill(pid) then SDaemonError(KillSignalMessage(storletName)) else SDaemonError(WaitFailedMessage(storletName))
  }

  /** A shutdown that went through: the daemon is known under both
      dictionaries, the halt was sent and the wait returned. */
  predicate ShutdownSucceeds(storletName: string, pids: map<string, int>, pipes: map<string, string>,
                             send: string -> int, waitpid: int -> WaitPidAnswer) {
    && storletName in pids && storletName in pipes
    && send(pipes[storletName]) >= 0 && waitpid(pids[storletName]).Status?
  }

  /** The registered daemons a shutdown would stop. */
  function Stoppable(pids: map<string, int>, pipes: map<string, string>,
                     send: string -> int, waitpid: int -> WaitPidAnswer): set<string> {
    set n | n in pids && ShutdownSucceeds(n, pids, pipes, send, waitpid)
  }

  /** The error shutdown_process raises when the shutdown does not go through. */
  function ShutdownError(storletName: string, pids: map<string, int>, pipes: map<string, string>,
                         send: string -> int): FactoryError {
    if storletName !in pids || storletName !in pipes then SDaemonError(NotFoundMessage(storletName))
    else if send(pipes[storletName]) < 0 then SDaemonError(HaltSendMessage(storletName))
    else SDaemonError(WaitFailedMessage(storletName))
  }

  /** The aggregate error of a try-all sweep names every daemon that failed. */
  lemma AggregateNames(prefix: string, failed: seq<string>, names: set<string>)
    requires forall n :: n in names ==> n in failed
    ensures forall n :: n in names ==> Contains(prefix + Join(failed, ", "), n)
  {
    forall n | n in names ensures Contains(prefix + Join(failed, ", "), n) {
      var k :| 0 <= k < |failed| && failed[k] == n;
      JoinContains(failed, ", ", k);
      ContainsExtend(prefix, Join(failed, ", "), n, "");
      assert prefix + Join(failed, ", ") + "" == prefix + Join(failed, ", ");
    }
  }

  class DaemonFactory {
    const pipePath: string
    var storletNameToPid: map<string, int>
    var storletNameToPipeName: map<string, string>

    constructor(pipePath: string)
      ensures this.pipePath == pipePath
      ensures storletNameToPid == map[] && storletNameToPipeName == map[]
    {
      this.pipePath := pipePath;
      storletNameToPid := map[];
      storletNameToPipeName := map[];
    }

    /** get_process_status_by_name: a storlet without a pid is not running,
        and its pid is not probed. */
    function GetProcessStatusByName(storletName: string, probe: int -> WaitPidAnswer): (r: Result<bool, FactoryError>)
      reads this
      ensures storletName !in storletNameToPid ==> r == Ok(false)
      ensures storletName in storletNameToPid ==>
                r == GetProcessStatusByPid(probe(storletNameToPid[storletName]), storletName)
      ensures r == Ok(true) <==> storletName in storletNameToPid && Alive(probe(storletNameToPid[storletName]))
    {
      if storletName !in storletNameToPid then Ok(false)
      else GetProcessStatusByPid(probe(storletNameToPid[storletName]), storletName)
    }

    /** wait_for_daemon_to_initialize: pings the daemon's bus up to
        NUM_OF_TRIES_PINGING_STARTING_DAEMON times; a try whose send fails
        reads nothing; the wait ends on the first True reply. */
    method WaitForDaemonToInitialize(storletName: string, attempts: nat -> PingAttempt)
      returns (r: Result<bool, FactoryError>, sendCount: nat, readCount: nat)
      ensures storletName !in storletNameToPipeName ==> r == Err(KeyError(storletName)) && sendCount == 0 && readCount == 0
      ensures storletName in storletNameToPipeName ==> r.Ok? && readCount == ReadsIn(attempts, sendCount)
      ensures r == Ok(true) ==>
                && 1 <= sendCount <= NUM_OF_TRIES_PINGING_STARTING_DAEMON && Answered(attempts(sendCount - 1))
                && forall i :: 0 <= i < sendCount - 1 ==> !Answered(attempts(i))
      ensures r == Ok(false) ==>
                && sendCount == NUM_OF_TRIES_PINGING_STARTING_DAEMON
                && forall i :: 0 <= i < NUM_OF_TRIES_PINGING_STARTING_DAEMON ==> !Answered(attempts(i))
    {
      sendCount, readCount := 0, 0;
      if storletName !in storletNameToPipeName {
        return Err(KeyError(storletName)), sendCount, readCount;
      }
      while sendCount < NUM_OF_TRIES_PINGING_STARTING_DAEMON
        invariant sendCount <= NUM_OF_TRIES_PINGING_STARTING_DAEMON
        invariant readCount == ReadsIn(attempts, sendCount)
        invariant forall i :: 0 <= i < sendCount ==> !Answered(attempts(i))
      {
        var a := attempts(sendCount);
        sendCount := sendCount + 1;
        if a.sendRc >= 0 {
          readCount := readCount + 1;
          if ReplySaysTrue(a.reply) {
            return Ok(true), sendCount, readCount;
          }
        }
      }
      return Ok(false), sendCount, readCount;
    }

    /** spawn_subprocess: starts the daemon, records its pid at once, then
        checks that it still runs and waits for it to answer a ping. The pid
        stays recorded when a later step fails. */
    method SpawnSubprocess(pargs: seq<string>, env: map<string, string>, storletName: string,
                           popen: PopenAnswer, probe: int -> WaitPidAnswer, attempts: nat -> PingAttempt)
      returns (r: Result<bool, FactoryError>)
      modifies this
      ensures storletNameToPipeName == old(storletNameToPipeName)
      ensures popen == SpawnFailed ==>
                r == Err(SDaemonError(SpawnFailedMessage(storletName))) && storletNameToPid == old(storletNameToPid)
      ensures popen.Spawned? ==> storletNameToPid == old(storletNameToPid)[storletName := popen.pid]
      ensures r.Ok? ==> r.value
      ensures r.Ok? <==> popen.Spawned? && Alive(probe(popen.pid)) && storletName in storletNameToPipeName && Ready(attempts)
      ensures popen.Spawned? && GetProcessStatusByPid(probe(popen.pid), storletName) == Ok(false) ==>
                r == Err(SDaemonError(TerminatedMessage(storletName)))
      ensures popen.Spawned? && GetProcessStatusByPid(probe(popen.pid), storletName).Err? ==>
                r == Err(GetProcessStatusByPid(probe(popen.pid), storletName).error)
      ensures popen.Spawned? && Alive(probe(popen.pid)) && storletName in storletNameToPipeName && !Ready(attempts) ==>
                r == Err(SDaemonError(NoResponseMessage(storletName)))
    {
      if popen == SpawnFailed {
        return Err(SDaemonError(SpawnFailedMessage(storletName)));
      }
      var pid := popen.pid;
      storletNameToPid := storletNameToPid[storletName := pid];
      var status := GetProcessStatusByPid(probe(pid), storletName);
      if status.Err? {
        return Err(status.error);
      }
      if !status.value {
        return Err(SDaemonError(TerminatedMessage(storletName)));
      }
      var ready, sendCount, _ := WaitForDaemonToInitialize(storletName, attempts);
      if ready.Err? {
        return Err(ready.error);
      }
      if ready.value {
        assert Answered(attempts(sendCount - 1));
        return Ok(true);
      }
      return Err(SDaemonError(NoResponseMessage(storletName)));
    }

    /** process_start_daemon: rejects an unsupported language before
        anything else, records the daemon's bus path, does nothing more for
        a daemon that still runs, and otherwise spawns it with the
        language's launch. */
    method ProcessStartDaemon(daemonLanguage: string, storletPath: string, storletName: string, poolSize: int,
                              udsPath: string, logLevel: string, containerId: string, sys: StartEnv)
      returns (r: Result<bool, FactoryError>)
      modifies this
      ensures !SupportedLanguage(daemonLanguage) ==>
                && r == Err(SDaemonError(UnsupportedLanguageMessage(daemonLanguage)))
                && storletNameToPid == old(storletNameToPid) && storletNameToPipeName == old(storletNameToPipeName)
      ensures SupportedLanguage(daemonLanguage) ==> storletNameToPipeName == old(storletNameToPipeName)[storletName := udsPath]
      ensures r.Err? ==> r.error.SDaemonError?
      ensures r == Ok(false) <==>
                && SupportedLanguage(daemonLanguage) && storletName in old(storletNameToPid)
                && Alive(sys.probe(old(storletNameToPid)[storletName]))
      ensures r == Ok(false) ==> storletNameToPid == old(storletNameToPid)
      ensures SupportedLanguage(daemonLanguage) && old(GetProcessStatusByName(storletName, sys.probe)).Err? ==>
                r == old(GetProcessStatusByName(storletName, sys.probe)) && storletNameToPid == old(storletNameToPid)
      ensures r == Ok(true) <==>
                var launch := LaunchFor(daemonLanguage, storletPath, storletName, poolSize, udsPath, logLevel, containerId, sys.environ);
                && SupportedLanguage(daemonLanguage) && old(GetProcessStatusByName(storletName, sys.probe)) == Ok(false)
                && sys.popen(launch).Spawned? && Alive(sys.probe(sys.popen(launch).pid)) && Ready(sys.attempts)
      ensures r == Ok(true) ==>
                var launch := LaunchFor(daemonLanguage, storletPath, storletName, poolSize, udsPath, logLevel, containerId, sys.environ);
                storletNameToPid == old(storletNameToPid)[storletName := sys.popen(launch).pid]
    {
      if !SupportedLanguage(daemonLanguage) {
        return Err(SDaemonError(UnsupportedLanguageMessage(daemonLanguage)));
      }
      storletNameToPipeName := storletNameToPipeName[storletName := udsPath];
      var running := GetProcessStatusByName(storletName, sys.probe);
      if running.Err? {
        return running;
      }
      if running.value {
        return Ok(false);
      }
      var launch := LaunchFor(daemonLanguage, storletPath, storletName, poolSize, udsPath, logLevel, containerId, sys.environ);
      r := SpawnSubprocess(launch.pargs, launch.env, storletName, sys.popen(launch), sys.probe, sys.attempts);
    }

    /** process_kill: kills a registered daemon and reaps it, removing it
        from the pid dictionary only when both steps succeed; an unknown
        name is refused before any call; a failed kill is not followed by a
        wait. */
    method ProcessKill(storletName: string, kill: int -> bool, waitpid: int -> WaitPidAnswer)
      returns (r: Result<(int, int), FactoryError>, killSent: bool, waited: bool)
      modifies this
      ensures storletNameToPipeName == old(storletNameToPipeName)
      ensures storletName !in old(storletNameToPid) ==>
                r == Err(SDaemonError(NotFoundMessage(storletName))) && !killSent && !waited
      ensures storletName in old(storletNameToPid) ==>
                var pid := old(storletNameToPid)[storletName];
                && killSent && (waited <==> kill(pid))
                && (r.Ok? <==> KillSucceeds(pid, kill, waitpid))
                && (r.Ok? ==> r.value == (waitpid(pid).pid, waitpid(pid).rc))
                && (r.Err? ==> r.error == KillError(storletName, pid, kill))
      ensures r.Ok? ==> storletNameToPid == old(storletNameToPid) - {storletName}
      ensures r.Err? ==> storletNameToPid == old(storletNameToPid)
    {
      killSent, waited := false, false;
      if storletName !in storletNameToPid {
        return Err(SDaemonError(NotFoundMessage(storletName))), killSent, waited;
      }
      var pid := storletNameToPid[storletName];
      killSent := true;
      if !kill(pid) {
        return Err(SDaemonError(KillSignalMessage(storletName))), killSent, waited;
      }
      waited := true;
      match waitpid(pid) {
        case WaitPidFailed(_) =>
          r := Err(SDaemonError(WaitFailedMessage(storletName)));
        case Status(p, rc) =>
          storletNameToPid := storletNameToPid - {storletName};
          r := Ok((p, rc));
      }
    }

    /** process_kill_all: tries every registered daemon, in no particular
        order. With tryAll, failures are collected and reported together
        once the sweep is over; without it, the first failure is raised at
        once. Exactly the daemons killed leave the pid dictionary. */
    method ProcessKillAll(tryAll: bool, kill: int -> bool, waitpid: int -> WaitPidAnswer)
      returns (r: Outcome<FactoryError>, attempted: seq<string>)
      modifies this
      ensures storletNameToPipeName == old(storletNameToPipeName)
      ensures NoDuplicates(attempted) && forall i :: 0 <= i < |attempted| ==> attempted[i] in old(storletNameToPid)
      ensures SubMap(storletNameToPid, old(storletNameToPid))
      ensures forall n :: n in storletNameToPid <==>
                n in old(storletNameToPid) && (n !in attempted || n !in Killable(old(storletNameToPid), kill, waitpid))
      ensures tryAll || r.Pass? ==> forall n :: n in old(storletNameToPid) ==> n in attempted
      ensures r.Pass? <==> forall i :: 0 <= i < |attempted| ==> attempted[i] in Killable(old(storletNameToPid), kill, waitpid)
      ensures r.Pass? ==> storletNameToPid == map[]
      ensures tryAll && r.Fail? ==>
                && r.error.SDaemonError? && StartsWith(r.error.message, KILL_ALL_PREFIX)
                && forall n :: n in old(storletNameToPid) && n !in Killable(old(storletNameToPid), kill, waitpid) ==>
                     Contains(r.error.message, n)
      ensures !tryAll && r.Fail? ==>
                && |attempted| >= 1
                && (forall i :: 0 <= i < |attempted| - 1 ==> attempted[i] in Killable(old(storletNameToPid), kill, waitpid))
                && var last := attempted[|attempted| - 1];
                   r.error == KillError(last, old(storletNameToPid)[last], kill)
    {
      ghost var pids := storletNameToPid;
      ghost var good := Killable(pids, kill, waitpid);
      var failed, stop;
      attempted, failed, stop := KillSweep(tryAll, kill, waitpid);
      if stop.Some? {
        return Fail(stop.value), attempted;
      }
      if failed != [] {
        assert failed[0] in failed;
        var j :| 0 <= j < |attempted| && attempted[j] == failed[0];
        assert attempted[j] !in good;
        var message := KILL_ALL_PREFIX + Join(failed, ", ");
        AggregateNames(KILL_ALL_PREFIX, failed, pids.Keys - good);
        return Fail(SDaemonError(message)), attempted;
      }
      r := Pass;
    }

    /** The loop of process_kill_all: process_kill on each registered daemon
        in turn, in no particular order, stopping at the first failure unless
        tryAll; `failed` lists the daemons that could not be killed. */
    method KillSweep(tryAll: bool, kill: int -> bool, waitpid: int -> WaitPidAnswer)
      returns (attempted: seq<string>, failed: seq<string>, stop: Option<FactoryError>)
      modifies this
      ensures storletNameToPipeName == old(storletNameToPipeName)
      ensures NoDuplicates(attempted) && forall i :: 0 <= i < |attempted| ==> attempted[i] in old(storletNameToPid)
      ensures SubMap(storletNameToPid, old(storletNameToPid))
      ensures forall n :: n in storletNameToPid <==>
                n in old(storletNameToPid) && (n !in attempted || n !in Killable(old(storletNameToPid), kill, waitpid))
      ensures forall n :: n in failed <==> n in attempted && n !in Killable(old(storletNameToPid), kill, waitpid)
      ensures stop.None? ==> forall n :: n in old(storletNameToPid) ==> n in attempted
      ensures tryAll ==> stop.None?
      ensures !tryAll && stop.None? ==> failed == []
      ensures !tryAll ==> forall i :: 0 <= i < |attempted| - 1 ==> attempted[i] in Killable(old(storletNameToPid), kill, waitpid)
      ensures stop.Some? ==>
                && |attempted| >= 1 && attempted[|attempted| - 1] !in Killable(old(storletNameToPid), kill, waitpid)
                && stop.value == KillError(attempted[|attempted| - 1], old(storletNameToPid)[attempted[|attempted| - 1]], kill)
    {
      ghost var pids := storletNameToPid;
      ghost var good := Killable(pids, kill, waitpid);
      var pending := storletNameToPid.Keys;
      failed := [];
      attempted := [];
      while pending != {}
        invariant pending <= pids.Keys && NoDuplicates(attempted)
        invariant forall i :: 0 <= i < |attempted| ==> attempted[i] in pids && attempted[i] !in pending
        invariant forall n :: n in pids ==> n in pending || n in attempted
        invariant forall n :: n in storletNameToPid <==> n in pids && (n !in attempted || n !in good)
        invariant SubMap(storletNameToPid, pids)
        invariant forall n :: n in failed <==> n in attempted && n !in good
        invariant !tryAll ==> failed == [] && forall i :: 0 <= i < |attempted| ==> attempted[i] in good
        invariant storletNameToPipeName == old(storletNameToPipeName)
        decreases |pending|
      {
        var name :| name in pending;
        pending := pending - {name};
        NoDuplicatesAppend(attempted, name);
        attempted := attempted + [name];
        var k := KillNext(name, kill, waitpid, pids);
        if k.Err? {
          assert attempted[|attempted| - 1] !in good;
          failed := failed + [name];
          if !tryAll {
            return attempted, failed, Some(k.error);
          }
        }
      }
      stop := None;
    }

    /** One step of process_kill_all: process_kill on a daemon not yet tried. */
    method KillNext(name: string, kill: int -> bool, waitpid: int -> WaitPidAnswer, ghost pids: map<string, int>)
      returns (r: Result<(int, int), FactoryError>)
      requires name in storletNameToPid && name in pids && storletNameToPid[name] == pids[name]
      modifies this
      ensures storletNameToPipeName == old(storletNameToPipeName)
      ensures r.Ok? <==> name in Killable(pids, kill, waitpid)
      ensures r.Err? ==> r.error == KillError(name, pids[name], kill) && storletNameToPid == old(storletNameToPid)
      ensures r.Ok? ==> storletNameToPid == old(storletNameToPid) - {name}
    {
      var killSent, waited;
      r, killSent, waited := ProcessKill(name, kill, waitpid);
    }

    /** shutdown_process: sends a halt to the daemon's bus and waits for the
        daemon to exit; a failed send is not followed by a wait. The reply
        is read and not checked. */
    method ShutdownProcess(storletName: string, send: string -> int, waitpid: int -> WaitPidAnswer)
      returns (r: Outcome<FactoryError>, sent: bool, waited: bool)
      modifies this
      ensures storletNameToPipeName == old(storletNameToPipeName)
      ensures sent <==> storletName in old(storletNameToPid) && storletName in storletNameToPipeName
      ensures waited <==> sent && send(storletNameToPipeName[storletName]) >= 0
      ensures r.Pass? <==> ShutdownSucceeds(storletName, old(storletNameToPid), storletNameToPipeName, send, waitpid)
      ensures r.Fail? ==> r.error == ShutdownError(storletName, old(storletNameToPid), storletNameToPipeName, send)
      ensures r.Pass? ==> storletNameToPid == old(storletNameToPid) - {storletName}
      ensures r.Fail? ==> storletNameToPid == old(storletNameToPid)
    {
      sent, waited := false, false;
      if storletName !in storletNameToPid || storletName !in storletNameToPipeName {
        return Fail(SDaemonError(NotFoundMessage(storletName))), sent, waited;
      }
      var pid := storletNameToPid[storletName];
      sent := true;
      if send(storletNameToPipeName[storletName]) < 0 {
        return Fail(SDaemonError(HaltSendMessage(storletName))), sent, waited;
      }
      waited := true;
      if waitpid(pid).WaitPidFailed? {
        return Fail(SDaemonError(WaitFailedMessage(storletName))), sent, waited;
      }
      storletNameToPid := storletNameToPid - {storletName};
      r := Pass;
    }

    /** shutdown_all_processes: shuts down every registered daemon, in no
        particular order, and returns the names of those terminated. The
        tryAll policy is the one of process_kill_all. */
    method ShutdownAllProcesses(tryAll: bool, send: string -> int, waitpid: int -> WaitPidAnswer)
      returns (r: Result<seq<string>, FactoryError>, attempted: seq<string>)
      modifies this
      ensures storletNameToPipeName == old(storletNameToPipeName)
      ensures NoDuplicates(attempted) && forall i :: 0 <= i < |attempted| ==> attempted[i] in old(storletNameToPid)
      ensures SubMap(storletNameToPid, old(storletNameToPid))
      ensures forall n :: n in storletNameToPid <==>
                n in old(storletNameToPid)
                && (n !in attempted || n !in Stoppable(old(storletNameToPid), storletNameToPipeName, send, waitpid))
      ensures tryAll || r.Ok? ==> forall n :: n in old(storletNameToPid) ==> n in attempted
      ensures r.Ok? <==> forall i :: 0 <= i < |attempted| ==>
                           attempted[i] in Stoppable(old(storletNameToPid), storletNameToPipeName, send, waitpid)
      ensures r.Ok? ==> r.value == attempted && storletNameToPid == map[]
      ensures tryAll && r.Err? ==>
                && r.error.SDaemonError? && StartsWith(r.error.message, SHUTDOWN_ALL_PREFIX)
                && forall n :: n in old(storletNameToPid)
                               && n !in Stoppable(old(storletNameToPid), storletNameToPipeName, send, waitpid) ==>
                     Contains(r.error.message, n)
      ensures !tryAll && r.Err? ==>
                && |attempted| >= 1
                && (forall i :: 0 <= i < |attempted| - 1 ==>
                      attempted[i] in Stoppable(old(storletNameToPid), storletNameToPipeName, send, waitpid))
                && r.error == ShutdownError(attempted[|attempted| - 1], old(storletNameToPid), storletNameToPipeName, send)
    {
      ghost var pids := storletNameToPid;
      ghost var good := Stoppable(pids, storletNameToPipeName, send, waitpid);
      var failed, stop;
      attempted, failed, stop := ShutdownSweep(tryAll, send, waitpid);
      if stop.Some? {
        return Err(stop.value), attempted;
      }
      if failed != [] {
        assert failed[0] in failed;
        var j :| 0 <= j < |attempted| && attempted[j] == failed[0];
        assert attempted[j] !in good;
        var message := SHUTDOWN_ALL_PREFIX + Join(failed, ", ");
        AggregateNames(SHUTDOWN_ALL_PREFIX, failed, pids.Keys - good);
        return Err(SDaemonError(message)), attempted;
      }
      r := Ok(attempted);
    }

    /** The loop of shutdown_all_processes, as KillSweep is the one of
        process_kill_all. */
    method ShutdownSweep(tryAll: bool, send: string -> int, waitpid: int -> WaitPidAnswer)
      returns (attempted: seq<string>, failed: seq<string>, stop: Option<FactoryError>)
      modifies this
      ensures storletNameToPipeName == old(storletNameToPipeName)
      ensures NoDuplicates(attempted) && forall i :: 0 <= i < |attempted| ==> attempted[i] in old(storletNameToPid)
      ensures SubMap(storletNameToPid, old(storletNameToPid))
      ensures forall n :: n in storletNameToPid <==>
                n in old(storletNameToPid)
                && (n !in attempted || n !in Stoppable(old(storletNameToPid), storletNameToPipeName, send, waitpid))
      ensures forall n :: n in failed <==>
                n in attempted && n !in Stoppable(old(storletNameToPid), storletNameToPipeName, send, waitpid)
      ensures stop.None? ==> forall n :: n in old(storletNameToPid) ==> n in attempted
      ensures tryAll ==> stop.None?
      ensures !tryAll && stop.None? ==> failed == []
      ensures !tryAll ==> forall i :: 0 <= i < |attempted| - 1 ==>
                            attempted[i] in Stoppable(old(storletNameToPid), storletNameToPipeName, send, waitpid)
      ensures stop.Some? ==>
                && |attempted| >= 1
                && attempted[|attempted| - 1] !in Stoppable(old(storletNameToPid), storletNameToPipeName, send, waitpid)
                && stop.value == ShutdownError(attempted[|attempted| - 1], old(storletNameToPid), storletNameToPipeName, send)
    {
      ghost var pids := storletNameToPid;
      ghost var good := Stoppable(pids, storletNameToPipeName, send, waitpid);
      var pending := storletNameToPid.Keys;
      failed := [];
      attempted := [];
      while pending != {}
        invariant pending <= pids.Keys && NoDuplicates(attempted)
        invariant forall i :: 0 <= i < |attempted| ==> attempted[i] in pids && attempted[i] !in pending
        invariant forall n :: n in pids ==> n in pending || n in attempted
        invariant forall n :: n in storletNameToPid <==> n in pids && (n !in attempted || n !in good)
        invariant SubMap(storletNameToPid, pids)
        invariant forall n :: n in failed <==> n in attempted && n !in good
        invariant !tryAll ==> failed == [] && forall i :: 0 <= i < |attempted| ==> attempted[i] in good
        invariant storletNameToPipeName == old(storletNameToPipeName)
        decreases |pending|
      {
        var name :| name in pending;
        pending := pending - {name};
        NoDuplicatesAppend(attempted, name);
        attempted := attempted + [name];
        var s := ShutdownNext(name, send, waitpid, pids);
        if s.Fail? {
          assert attempted[|attempted| - 1] !in good;
          failed := failed + [name];
          if !tryAll {
            return attempted, failed, Some(s.error);
          }
        }
      }
      stop := None;
    }

    /** One step of shutdown_all_processes: shutdown_process on a daemon not
        yet tried. */
    method ShutdownNext(name: string, send: string -> int, waitpid: int -> WaitPidAnswer, ghost pids: map<string, int>)
      returns (r: Outcome<FactoryError>)
      requires name in storletNameToPid && name in pids && storletNameToPid[name] == pids[name]
      modifies this
      ensures storletNameToPipeName == old(storletNameToPipeName)
      ensures r.Pass? <==> name in Stoppable(pids, storletNameToPipeName, send, waitpid)
      ensures r.Fail? ==> r.error == ShutdownError(name, pids, storletNameToPipeName, send) && storletNameToPid == old(storletNameToPid)
      ensures r.Pass? ==> storletNameToPid == old(storletNameToPid) - {name}
    {
      var sent, waited;
      r, sent, waited := ShutdownProcess(name, send, waitpid);
    }

    // -------------------------------------------------------------------
    // Command handlers

    /** start_daemon: 'OK' when it started the daemon, '<name> is already
        running' when the daemon still runs, and the error's message as a
        failure otherwise. */
    method StartDaemon(containerId: string, prms: StartParams, sys: StartEnv) returns (resp: CommandResponse)
      modifies this
      ensures resp.iterable
      ensures !SupportedLanguage(prms.daemonLanguage) ==>
                resp == CommandFailure(UnsupportedLanguageMessage(prms.daemonLanguage))
                && storletNameToPid == old(storletNameToPid) && storletNameToPipeName == old(storletNameToPipeName)
      ensures resp == CommandSuccess(prms.storletName + " is already running") <==>
                && SupportedLanguage(prms.daemonLanguage) && prms.storletName in old(storletNameToPid)
                && Alive(sys.probe(old(storletNameToPid)[prms.storletName]))
      ensures resp.status ==> resp.message == "OK" || resp.message == prms.storletName + " is already running"
      ensures resp == CommandSuccess("OK") <==>
                var launch := LaunchFor(prms.daemonLanguage, prms.storletPath, prms.storletName, prms.poolSize,
                                        prms.udsPath, prms.logLevel, containerId, sys.environ);
                && SupportedLanguage(prms.daemonLanguage) && old(GetProcessStatusByName(prms.storletName, sys.probe)) == Ok(false)
                && sys.popen(launch).Spawned? && Alive(sys.probe(sys.popen(launch).pid)) && Ready(sys.attempts)
      ensures resp == CommandSuccess("OK") ==>
                var launch := LaunchFor(prms.daemonLanguage, prms.storletPath, prms.storletName, prms.poolSize,
                                        prms.udsPath, prms.logLevel, containerId, sys.environ);
                storletNameToPid == old(storletNameToPid)[prms.storletName := sys.popen(launch).pid]
    {
      var r := ProcessStartDaemon(prms.daemonLanguage, prms.storletPath, prms.storletName, prms.poolSize,
                                  prms.udsPath, prms.logLevel, containerId, sys);
      match r {
        case Ok(started) =>
          resp := if started then CommandSuccess("OK") else CommandSuccess(prms.storletName + " is already running");
        case Err(e) =>
          resp := CommandFailure(e.message);
      }
    }

    /** stop_daemon: kills the daemon and reports its pid and exit code; any
        failure is reported with one fixed message. */
    method StopDaemon(containerId: string, storletName: string, kill: int -> bool, waitpid: int -> WaitPidAnswer)
      returns (resp: CommandResponse)
      modifies this
      ensures resp.iterable && storletNameToPipeName == old(storletNameToPipeName)
      ensures resp.status <==> storletName in old(storletNameToPid) && KillSucceeds(old(storletNameToPid)[storletName], kill, waitpid)
      ensures resp.status ==>
                var w := waitpid(old(storletNameToPid)[storletName]);
                && resp.message == "Storlet " + storletName + ", PID = " + IntToString(w.pid) + ", ErrCode = " + IntToString(w.rc)
                && storletNameToPid == old(storletNameToPid) - {storletName}
      ensures !resp.status ==>
                resp.message == "Failed to kill the storlet daemon " + storletName && storletNameToPid == old(storletNameToPid)
    {
      var r, killSent, waited := ProcessKill(storletName, kill, waitpid);
      match r {
        case Ok((pid, code)) =>
          resp := CommandSuccess("Storlet " + storletName + ", PID = " + IntToString(pid) + ", ErrCode = " + IntToString(code));
        case Err(_) =>
          resp := CommandFailure("Failed to kill the storlet daemon " + storletName);
      }
    }

    /** daemon_status: a success exactly when the daemon runs; a daemon that
        does not run and a probe that fails are failures. */
    function DaemonStatus(containerId: string, storletName: string, probe: int -> WaitPidAnswer): (resp: CommandResponse)
      reads this
      ensures resp.iterable
      ensures resp.status <==> storletName in storletNameToPid && Alive(probe(storletNameToPid[storletName]))
      ensures resp.status ==> resp.message == "Storlet " + storletName + " seems to be OK"
      ensures GetProcessStatusByName(storletName, probe) == Ok(false) ==>
                resp.message == "No running storlet daemon for " + storletName
      ensures GetProcessStatusByName(storletName, probe).Err? ==>
                resp.message == GetProcessStatusByName(storletName, probe).error.message
    {
      match GetProcessStatusByName(storletName, probe)
      case Ok(true) => CommandSuccess("Storlet " + storletName + " seems to be OK")
      case Ok(false) => CommandFailure("No running storlet daemon for " + storletName)
      case Err(e) => CommandFailure(e.message)
    }

    /** stop_daemons: kills every daemon; the response is not iterable. */
    method StopDaemons(containerId: string, kill: int -> bool, waitpid: int -> WaitPidAnswer) returns (resp: CommandResponse)
      modifies this
      ensures !resp.iterable && storletNameToPipeName == old(storletNameToPipeName)
      ensures resp.status <==> forall n :: n in old(storletNameToPid) ==> n in Killable(old(storletNameToPid), kill, waitpid)
      ensures resp.status ==> resp.message == "OK" && storletNameToPid == map[]
      ensures !resp.status ==>
                && StartsWith(resp.message, KILL_ALL_PREFIX)
                && forall n :: n in old(storletNameToPid) && n !in Killable(old(storletNameToPid), kill, waitpid) ==>
                     Contains(resp.message, n) && n in storletNameToPid
    {
      var r, attempted := ProcessKillAll(true, kill, waitpid);
      match r {
        case Pass =>
          resp := CommandSuccess("OK", false);
        case Fail(e) =>
          resp := CommandFailure(e.message, false);
      }
    }

    /** halt: shuts every daemon down and reports '<name>: terminated' for
        each of them; a failed shutdown is reported, not raised. The
        response is not iterable. */
    method Halt(containerId: string, send: string -> int, waitpid: int -> WaitPidAnswer) returns (resp: CommandResponse)
      modifies this
      ensures !resp.iterable && storletNameToPipeName == old(storletNameToPipeName)
      ensures resp.status <==>
                forall n :: n in old(storletNameToPid) ==> n in Stoppable(old(storletNameToPid), storletNameToPipeName, send, waitpid)
      ensures resp.status ==>
                && storletNameToPid == map[]
                && forall n :: n in old(storletNameToPid) ==> Contains(resp.message, n + ": terminated")
      ensures !resp.status ==>
                && StartsWith(resp.message, SHUTDOWN_ALL_PREFIX)
                && forall n :: n in old(storletNameToPid) && n !in Stoppable(old(storletNameToPid), storletNameToPipeName, send, waitpid) ==>
                     Contains(resp.message, n) && n in storletNameToPid
    {
      var r, attempted := ShutdownAllProcesses(true, send, waitpid);
      match r {
        case Ok(terminated) =>
          var lines := TerminatedLines(terminated);
          forall n | n in old(storletNameToPid) ensures Contains(Join(lines, "; "), n + ": terminated") {
            var k :| 0 <= k < |terminated| && terminated[k] == n;
            JoinContains(lines, "; ", k);
          }
          resp := CommandSuccess(Join(lines, "; "), false);
        case Err(e) =>
          resp := CommandFailure(e.message, false);
      }
    }
  }

  /** The first start of the factory tests: nothing is recorded, the java
      launch spawns pid 1000, the probe reports it running and the first
      ping is answered, so process_start_daemon answers True and records
      the pid and the bus path. */
  method ProcessStartDaemonExample() returns (r: Result<bool, FactoryError>, pids: map<string, int>, pipes: map<string, string>)
    ensures r == Ok(true)
    ensures pids == map["storleta" := 1000] && pipes == map["storleta" := "path/to/uds/a"]
  {
    var factory := new DaemonFactory("path/to/pipe");
    var sys := StartEnv(map[], (l: Launch) => Spawned(1000), (p: int) => Status(0, 0),
                        (i: nat) => PingAttempt(0, "True: OK"));
    ReportMessageStatus(CommandSuccess("OK"));
    assert ReportMessage(CommandSuccess("OK")) == "True: OK";
    assert Answered(sys.attempts(0));
    r := factory.ProcessStartDaemon("java", "path/to/storlet/a", "storleta", 1, "path/to/uds/a", "TRACE", "contid", sys);
    pids, pipes := factory.storletNameToPid, factory.storletNameToPipeName;
  }
}
