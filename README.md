# Storlets: daemon, daemon factory, bus datagrams and gateway validation

Storlets runs user computations ("storlets") inside Docker containers next to
an OpenStack Swift object store. Requests reach a container over a Unix
socket bus (SBus) as datagrams: a command name, a list of file descriptors,
one metadata record per descriptor, parameters and a task id. This project
models four parts of that system and proves properties of them.

- **The storlet daemon** is `daemon.py`, the Python process that runs one
  storlet. It keeps a table from task id to child pid and bounds it by a pool
  size. It dispatches bus commands by name: halt, execute, descriptor, ping
  and cancel. `execute` forks a child. The child echoes the input object to
  the output descriptor in chunks and writes the input metadata back. The
  parent closes its copies of the descriptors. Module `StorletDaemon`, class
  `Daemon`, in `daemon.dfy`.
- **The daemon factory** is the process that starts, watches, stops and
  halts storlet daemons. It keeps two maps: storlet name to pid, and storlet
  name to bus path. Module `StorletDaemonFactory`, class `DaemonFactory`, in
  `daemon_factory.dfy`. It is reconstructed from its unit tests, because the
  factory's own source is not part of this model.
- **Bus datagrams** are `FDMetadata` and the service and execute datagrams
  with their descriptor-role accessors and the raw-message decoder. Module
  `Datagram`, in `datagram.dfy`. It is reconstructed from the unit tests of
  the datagram module.
- **Docker gateway validation** is the mandatory-parameter check, storlet and
  dependency registration, and the invocation request. Module
  `StorletGateway`, in `gateway.dfy`. It is reconstructed from the gateway's
  unit tests.

Shared modules:

- `wrappers.dfy`: `Option`, `Result` and `Outcome` (pass, or fail with an
  error).
- `strings.dfy`: the string operations of Python the code relies on:
  `lower`, `upper`, `split`, `join`, `str(int)` and `int(s, base)`.
- `command.dfy`: the command names and the prefix-based handler lookup. The
  daemon and the factory share this lookup.
- `os_oracle.dfy`: the answers of the operating system: errno values, the
  results of `waitpid`, `wait`, `close` and `fork`.

Calls into the operating system are parameters of the operations:

- `kill` is `int -> bool`;
- `waitpid` and the non-blocking probe are `int -> WaitPidAnswer`;
- `os.close` is `int -> CloseAnswer`;
- sending on the bus is `string -> int`;
- `fork` and `Popen` are answers passed in;
- the readiness pings are `nat -> PingAttempt`.

The loops without a bound consume a finite script and report that they ran
out. These are the child-reaping loop, the loop that waits for a free pool
slot, and the daemon's main loop.

Where the documented behaviour and the code or tests disagree, the model
follows the code and the tests:

- `spawn_subprocess` records the new pid before the readiness wait, and a
  readiness failure leaves it recorded (`test_daemon_factory.py:190-197`).
- `process_start_daemon` checks the language before it probes for a running
  daemon (`test_daemon_factory.py:606-611`).
- Exceptions raised inside a daemon handler propagate out of `main_loop`.
  They are not caught there: the model returns them as `Raised` outcomes that
  end the loop.
- `process_kill_all` removes each daemon it killed from the pid map.
- `execute` on a datagram whose command lower-cases to `execute` but which is
  a service datagram fails with `AttributeError` (`daemon.py:136`).

## Model

| member | source | states |
|---|---|---|
| Command.ResolveCommand | Engine/agent/storlet_daemon/daemon.py:228-243 | a command resolves exactly when it starts with `SBUS_CMD_` and its lower-cased suffix names a handler, the result is that handler, and otherwise the error carries the command |
| Command.ResolveHandlerCommand | Engine/agent/storlet_daemon/daemon.py:228-243 | `SBUS_CMD_` followed by the upper-cased name of any handler resolves to that handler |
| Command.ResolveIgnoresSuffixCase | Engine/agent/storlet_daemon/daemon.py:228-243 | two commands whose suffixes differ only in letter case resolve to the same handler, or both fail |
| Datagram.FromDictToDict | tests/unit/sbus/test_datagram.py:36-53 | `from_dict(to_dict(md)) == md` for every metadata record whose storlets part has no `type` key |
| Datagram.ToDictFromDict | tests/unit/sbus/test_datagram.py:36-53 | every dictionary that `from_dict` accepts is given back unchanged by `to_dict` |
| Datagram.ToDictExample | tests/unit/sbus/test_datagram.py:36-42 | `to_dict` of the `MYTYPE` record puts `type` inside the storlets part and keeps the storage part |
| Datagram.MismatchMessagePrefix | tests/unit/sbus/test_datagram.py:110-122 | every fd-type mismatch message starts with `Fd type mismatch given_fd_types` |
| Datagram.CheckRequiredFdTypes | tests/unit/sbus/test_datagram.py:110-122 | a failed check reports the given types and the required types of the datagram kind |
| Datagram.CheckRejectsShort | tests/unit/sbus/test_datagram.py:110-122 | fewer types than required (the empty list included) fail with the mismatch error |
| Datagram.CheckRejectsPrepended | tests/unit/sbus/test_datagram.py:110-122 | a wrong type in front of the given types is refused, whatever follows it |
| Datagram.CheckAcceptsExtension | tests/unit/sbus/test_datagram.py:202-221 | only the first N types are checked: an accepted list stays accepted with any types appended |
| Datagram.CheckRejectsReversedExecute | tests/unit/sbus/test_datagram.py:238-244 | the execute types in reverse order are refused |
| Datagram.CheckFdNums | tests/unit/sbus/test_datagram.py:124-126 | passes exactly when there are as many descriptors as metadata records, and reports both counts otherwise |
| Datagram.NewDatagram | tests/unit/sbus/test_datagram.py:57-89 | construction succeeds exactly for a concrete class whose metadata are typed, begin with the kind's required types and match the descriptors in number; the result keeps every field; the bare class and a class without required types raise their NotImplementedError messages; a type mismatch reports the types |
| Datagram.NumFds | tests/unit/sbus/test_datagram.py:91-92 | `num_fds` is the number of descriptor types |
| Datagram.GetCmdParams | tests/unit/sbus/test_datagram.py:94-98 | `cmd_params` carries exactly the command, the parameters and the task id |
| Datagram.FdsOfTypeExactly | tests/unit/sbus/test_datagram.py:128-148 | a descriptor is found for a type exactly when it sits at a position of that type |
| Datagram.FdsOfTypeFirst | tests/unit/sbus/test_datagram.py:128-168 | `_find_fds` is empty exactly when the type is absent, and otherwise starts with the descriptor at its first position |
| Datagram.FindFd | tests/unit/sbus/test_datagram.py:150-168 | `_find_fd` is the descriptor at the type's first position, or None when the type is absent |
| Datagram.RequiredRoleAt | tests/unit/sbus/test_datagram.py:110-122 | in a datagram that was accepted, position k holds the k-th required type |
| Datagram.ServiceOutFd | tests/unit/sbus/test_datagram.py:171-182 | the service output descriptor is the first descriptor |
| Datagram.ObjectInFds | tests/unit/sbus/test_datagram.py:235-236 | the input-object descriptors are not empty and start with the first descriptor |
| Datagram.ObjectInMetadata | Engine/agent/storlet_daemon/daemon.py:147-148 | there is one input metadata record per input-object descriptor |
| Datagram.TaskIdOutFd | tests/unit/sbus/test_datagram.py:229-230 | the task-id descriptor is the second descriptor |
| Datagram.ObjectOutFds | tests/unit/sbus/test_datagram.py:223-224 | the output-object descriptors start with the third descriptor |
| Datagram.ObjectMetadataOutFds | tests/unit/sbus/test_datagram.py:226-227 | the output-metadata descriptors start with the fourth descriptor |
| Datagram.LoggerOutFd | tests/unit/sbus/test_datagram.py:232-233 | the logger descriptor is the fifth descriptor |
| Datagram.StrMapRoundTrip | tests/unit/sbus/test_datagram.py:104-108 | decoding the JSON of a string map gives the map back |
| Datagram.MetadataListRoundTrip | tests/unit/sbus/test_datagram.py:100-102 | `json.loads(serialized_metadata)` gives the metadata list back |
| Datagram.BuildDatagramFromRawMessage | tests/unit/sbus/test_datagram.py:249-298 | a built datagram is well formed, keeps the descriptors, and is an execute datagram exactly when its command is `SBUS_CMD_EXECUTE` |
| Datagram.RawMessageRoundTrip | tests/unit/sbus/test_datagram.py:249-298 | building from a datagram's own descriptors, serialized metadata and serialized command parameters gives that datagram back |
| Datagram.SampleMetadata | tests/unit/sbus/test_datagram.py:196-200 | the test's metadata list (`keyN`/`valueN` storlets and `skeyN`/`svalueN` storage records) has one typed record per given type, with exactly those types |
| Datagram.ExecuteAcceptsExtraInputs | tests/unit/sbus/test_datagram.py:202-221 | an execute datagram with three extra input objects is accepted and keeps its descriptors, metadata, parameters and task id |
| Datagram.ExecuteAccessorsExample | tests/unit/sbus/test_datagram.py:223-236 | with descriptors 1..5 the accessors give [1], 2, [3], [4] and 5 |
| StorletDaemon.Daemon.constructor | Engine/agent/storlet_daemon/daemon.py:41-47 | a new daemon keeps its name, its bus path and the pool size as the Python value it is handed, copies in chunks of 16, and starts with no tasks |
| StorletDaemon.Daemon.CleanupPids | Engine/agent/storlet_daemon/daemon.py:49-70 | the task table keeps exactly the tasks whose child the probe does not report as terminated |
| StorletDaemon.Daemon.RemovePid | Engine/agent/storlet_daemon/daemon.py:72-81 | one task with that pid is removed, if there is one, and nothing else changes |
| StorletDaemon.RemovedPidShrinks | Engine/agent/storlet_daemon/daemon.py:72-81 | removing a pid shrinks the table by exactly one when the pid is registered and leaves it unchanged otherwise |
| StorletDaemon.Daemon.WaitChildProcess | Engine/agent/storlet_daemon/daemon.py:83-109 | one reaping round: clean up terminated children, then wait for one child and remove it, or clear the table on ECHILD; the table only shrinks |
| StorletDaemon.WaitChildStepShrinks | Engine/agent/storlet_daemon/daemon.py:83-109 | a reaping round never adds a task |
| StorletDaemon.WaitChildStepProgress | Engine/agent/storlet_daemon/daemon.py:83-109 | a round in which a registered child terminated, a registered child was reaped, or ECHILD was returned makes the table strictly smaller |
| StorletDaemon.Daemon.WaitAllChildProcesses | Engine/agent/storlet_daemon/daemon.py:111-115 | rounds are taken until the table is empty or the script ends, the table only shrinks, and the rounds used form a drain from the old table to the new one |
| StorletDaemon.WaitsWhileShrinks | Engine/agent/storlet_daemon/daemon.py:111-115 | any sequence of reaping rounds, each taken while the table is at least a bound, only removes entries and never alters one |
| StorletDaemon.WaitsWhileAppend | Engine/agent/storlet_daemon/daemon.py:111-115 | a wait extended by one more round, taken while the table is still at least the bound, is again such a wait |
| StorletDaemon.Daemon.Halt | Engine/agent/storlet_daemon/daemon.py:117-119 | halt answers False, which is what stops the main loop |
| StorletDaemon.SafeCloseFd | Engine/agent/storlet_daemon/daemon.py:121-128 | a close succeeds or fails with EBADF silently, and any other errno is raised |
| StorletDaemon.FirstCloseFailureMeaning | Engine/agent/storlet_daemon/daemon.py:130-132 | closing a list fails exactly when some close fails with an errno other than EBADF, and it reports the first such errno, after all earlier closes succeeded |
| StorletDaemon.FirstCloseFailureConcat | Engine/agent/storlet_daemon/daemon.py:156-161 | closing two lists in turn fails with the first list's error if there is one and otherwise with the second list's |
| StorletDaemon.SafeCloseFds | Engine/agent/storlet_daemon/daemon.py:130-132 | the loop raises exactly the first failure of the list and passes when there is none |
| StorletDaemon.CloseParentFds | Engine/agent/storlet_daemon/daemon.py:156-162 | the parent's closes of the input, output-metadata, output and logger descriptors pass exactly when none of them fails, and otherwise raise the first failure |
| StorletDaemon.ChunksOfMeaning | Engine/agent/storlet_daemon/daemon.py:176-184 | the chunks read concatenate to the input, each holds 1 to chunk-size characters, and the last read is the empty one that ends the loop |
| StorletDaemon.CopyInChunks | Engine/agent/storlet_daemon/daemon.py:176-184 | the copy loop writes exactly the chunk sequence, with the final empty write |
| StorletDaemon.ChildWritesEcho | Engine/agent/storlet_daemon/daemon.py:163-191 | what the child writes to the output-object descriptor is exactly the input object, when that descriptor differs from the child's other output descriptors |
| StorletDaemon.Daemon.WaitForSlot | Engine/agent/storlet_daemon/daemon.py:140-141 | the rounds it takes are reaping rounds made while the table is at least `pool_size`, and it stops at the first that leaves room; it reports admission exactly when the table ends below `pool_size`; a refusal used up the whole script; with room from the start it takes no round and changes nothing |
| StorletDaemon.AdmissionWaitWithRoom | Engine/agent/storlet_daemon/daemon.py:140-141 | an admission wait that starts below `pool_size` takes no round and leaves the table as it was |
| StorletDaemon.AdmissionWaitShrinks | Engine/agent/storlet_daemon/daemon.py:140-141 | an admission wait only removes entries, so the table never grows while execute waits |
| StorletDaemon.Daemon.ForkTask | Engine/agent/storlet_daemon/daemon.py:143-192 | once admitted: the task id is written first; a failed fork raises and registers nothing; the parent registers exactly the new task under the child pid and answers True or raises its first close failure; the child writes the input metadata, `Executed`, and the echo of the input, then exits; the pool bound still holds |
| StorletDaemon.Daemon.Execute | Engine/agent/storlet_daemon/daemon.py:135-192 | a service datagram raises AttributeError and changes nothing; otherwise the admission wait above is followed by the fork of `ForkTask`, and a full pool whose script ends stalls with no writes; when there was room the parent table is exactly the old one plus the new task, and otherwise it is unchanged; the pool bound holds after every call |
| StorletDaemon.ExecuteWithRoom | Engine/agent/storlet_daemon/daemon.py:135-192 | with room in the pool, execute never stalls, the parent table is the old one plus exactly the new task, and every other outcome leaves the table as it was |
| StorletDaemon.ExecuteOnlyAddsTask | Engine/agent/storlet_daemon/daemon.py:135-192 | execute adds or alters no entry other than the new task's, and only a forked parent adds anything |
| StorletDaemon.ExecuteKeepsPool | Engine/agent/storlet_daemon/daemon.py:140-157 | an execute that starts within an integer `pool_size` ends within it |
| StorletDaemon.ExecuteReapsWhenFull | Engine/agent/storlet_daemon/daemon.py:140-157 | a parent that registers its child although the pool was full reaped first: the other entries are fewer than before |
| StorletDaemon.Daemon.Descriptor | Engine/agent/storlet_daemon/daemon.py:194-200 | descriptor raises NotImplementedError |
| StorletDaemon.Daemon.Ping | Engine/agent/storlet_daemon/daemon.py:202-207 | a service datagram gets `OK` on its service descriptor and answers True; any other datagram raises AttributeError |
| StorletDaemon.Daemon.Cancel | Engine/agent/storlet_daemon/daemon.py:209-226 | a non-service datagram raises AttributeError; an unknown task gets `BAD`; a task whose kill succeeds gets `OK` and exactly its pid removed; a failed kill gets `ERROR` and keeps the table; each answer goes to the service descriptor and keeps the loop running |
| StorletDaemon.Daemon.CancelAsWritten | Engine/agent/storlet_daemon/daemon.py:209-226 | as written: an unknown task gets `BAD` and answers False, which stops the main loop; a registered task raises TypeError, because `os.kill` there has no signal |
| StorletDaemon.GetHandler | Engine/agent/storlet_daemon/daemon.py:228-243 | exactly the five daemon commands resolve, and an unknown command is reported as `got unknown command <command>` |
| Command.HaltCommandName | Engine/agent/storlet_daemon/daemon.py:228-243 | `SBUS_CMD_HALT` carries the prefix and names the handler `halt`; the daemon and the factory both rely on this |
| Command.PingCommandName | Engine/agent/storlet_daemon/daemon.py:228-243 | `SBUS_CMD_PING` carries the prefix and names the handler `ping` |
| StorletDaemon.GetHandlerHalt | Engine/agent/storlet_daemon/daemon.py:228-243 | `SBUS_CMD_HALT` resolves to halt |
| StorletDaemon.GetHandlerCancel | Engine/agent/storlet_daemon/daemon.py:228-243 | `SBUS_CMD_CANCEL` resolves to cancel |
| StorletDaemon.GetHandlerExecute | Engine/agent/storlet_daemon/daemon.py:228-243 | `SBUS_CMD_EXECUTE` resolves to execute |
| StorletDaemon.GetHandlerPing | Engine/agent/storlet_daemon/daemon.py:228-243 | `SBUS_CMD_PING` resolves to ping |
| StorletDaemon.GetHandlerDescriptor | Engine/agent/storlet_daemon/daemon.py:228-243 | `SBUS_CMD_DESCRIPTOR` resolves to descriptor |
| StorletDaemon.GetHandlerRejects | Engine/agent/storlet_daemon/daemon.py:228-243 | non-handler methods, factory-only commands and names without the prefix are refused |
| StorletDaemon.Daemon.DispatchCommand | Engine/agent/storlet_daemon/daemon.py:245-256 | using the corrected cancel: the loop is told to stop exactly on halt; an unknown command is logged and answered True with no writes and no change; halt and descriptor write nothing and change nothing; ping, cancel and execute have exactly the effects of their handlers (together, the predicate `Dispatches` of the old and new table, the answer and the writes) |
| StorletDaemon.Daemon.DispatchCommandAsWritten | Engine/agent/storlet_daemon/daemon.py:209-256 | as written: the loop is told to stop on halt and also on a cancel for a task that is not registered; a cancel for a registered task raises TypeError with no writes; cancel never changes the table |
| StorletDaemon.Daemon.ServeEvent | Engine/agent/storlet_daemon/daemon.py:266-277 | one turn of the loop: a failed listen or an empty receive stops it with a bus failure and dispatches nothing; otherwise the received datagram is dispatched from the current table and appended to the trace, and the loop stops on halt or on a handler that did not answer True, going on exactly when the handler answered True |
| StorletDaemon.Daemon.DispatchLoop | Engine/agent/storlet_daemon/daemon.py:265-277 | the loop stops on the first event not received (bus failure), on a received halt, or on a handler that did not answer True; every earlier event was received, was not halt and was answered True; each dispatch took the table the previous one left and met `Dispatches`, the final table is the last one of that trace, and the writes are each dispatch's writes in order |
| StorletDaemon.Daemon.MainLoop | Engine/agent/storlet_daemon/daemon.py:258-281 | a failed bus creation exits with failure and takes no event; every event before the last was received, was not halt and was answered True; the last event not received exits with failure, and failure has no other cause; the writes are the concatenation of the traced dispatches' writes, each dispatch meeting `Dispatches` on the table the previous one left; a received halt drains the children from the table the halt left, and exits with success exactly when the table empties, otherwise reports that the drain script ended; a raised handler ends the loop with the traced table; running out of events means every event was received and none was halt |
| StorletDaemon.PoolSizeAsWritten | Engine/agent/storlet_daemon/daemon.py:342 | as written, the pool size reaches the daemon as the command-line string |
| StorletDaemon.AdmissionNeverWaitsAsWritten | Engine/agent/storlet_daemon/daemon.py:140 | as written, with the str pool size, every execute is admitted at once, so a parent adds one task to the table however many run, beyond the number argv[3] names |
| StorletDaemon.ParseMainArgs | Engine/agent/storlet_daemon/daemon.py:329-342 | the corrected parse of the daemon.py:342 finding, as if main did `pool_size = int(argv[3])`: a wrong argument count is the usage failure; otherwise fields are taken by position and a pool size that is not decimal digits is refused |
| StorletDaemon.AdmissionWaitsWhenFull | Engine/agent/storlet_daemon/daemon.py:140 | with the pool size converted as `ParseMainArgs` does, execute keeps the table within it, and with a full pool a parent registers its child only after an earlier child was reaped |
| StorletDaemonFactory.ReportMessageStatus | tests/unit/agent/storlet_daemon_factory/test_daemon_factory.py:29-68 | the reply `str(status): message` starts with `True` exactly for a successful response |
| StorletDaemonFactory.ReportMessageExample | tests/unit/agent/storlet_daemon_factory/test_daemon_factory.py:44-68 | `True: msg` for a success, and true and false replies for success and failure |
| StorletDaemonFactory.GetProcessStatusByPid | tests/unit/agent/storlet_daemon_factory/test_daemon_factory.py:312-349 | a running child gives True, an exited child or ESRCH gives False, EPERM gives the permission error and any other errno the unknown error |
| StorletDaemonFactory.AddPath | tests/unit/agent/storlet_daemon_factory/test_daemon_factory.py:113-153 | the path variable ends with the new path and keeps its old value before a `:`; no other variable changes |
| StorletDaemonFactory.GetJvmArgs | tests/unit/agent/storlet_daemon_factory/test_daemon_factory.py:113-137 | the Java launch extends CLASSPATH with the daemon's class path (the logback-classic, logback-core, slf4j-api, json_simple, `SBusJavaFacade`, `SCommon` and `SDaemon` jars and `/opt/storlets/`) followed by the storlet path, and LD_LIBRARY_PATH with the storlets directory, and leaves the rest of the environment unchanged |
| StorletDaemonFactory.GetPythonArgs | tests/unit/agent/storlet_daemon_factory/test_daemon_factory.py:139-153 | the Python launch runs the daemon script with five arguments and extends PYTHONPATH with the storlet's directory |
| StorletDaemonFactory.PythonArgsReachDaemon | tests/unit/agent/storlet_daemon_factory/test_daemon_factory.py:139-153 | the daemon's argument parser gives back exactly the name, bus path, log level, pool size and container id the factory passed |
| StorletDaemonFactory.LaunchArgsAgree | tests/unit/agent/storlet_daemon_factory/test_daemon_factory.py:113-153 | the Java launch is `java`, the daemon class, then the same five arguments as the Python launch |
| StorletDaemonFactory.ReadinessExample | tests/unit/agent/storlet_daemon_factory/test_daemon_factory.py:218-255 | a failed ping then a `True: OK` reply is ready after two pings and one read |
| StorletDaemonFactory.GetHandler | tests/unit/agent/storlet_daemon_factory/test_daemon_factory.py:698-737 | exactly the six factory commands resolve, and any other name is refused with the command in the error |
| StorletDaemonFactory.GetHandlerStartDaemon | tests/unit/agent/storlet_daemon_factory/test_daemon_factory.py:698-737 | `SBUS_CMD_START_DAEMON` resolves to start_daemon |
| StorletDaemonFactory.GetHandlerStopDaemon | tests/unit/agent/storlet_daemon_factory/test_daemon_factory.py:698-737 | `SBUS_CMD_STOP_DAEMON` resolves to stop_daemon |
| StorletDaemonFactory.GetHandlerDaemonStatus | tests/unit/agent/storlet_daemon_factory/test_daemon_factory.py:698-737 | `SBUS_CMD_DAEMON_STATUS` resolves to daemon_status |
| StorletDaemonFactory.GetHandlerStopDaemons | tests/unit/agent/storlet_daemon_factory/test_daemon_factory.py:698-737 | `SBUS_CMD_STOP_DAEMONS` resolves to stop_daemons |
| StorletDaemonFactory.GetHandlerHaltPing | tests/unit/agent/storlet_daemon_factory/test_daemon_factory.py:698-737 | `SBUS_CMD_HALT` and `SBUS_CMD_PING` resolve to the factory's own halt and ping |
| StorletDaemonFactory.GetHandlerRejects | tests/unit/agent/storlet_daemon_factory/test_daemon_factory.py:698-737 | `FOO`, an unknown `SBUS_CMD_` name and a non-handler method are refused |
| StorletDaemonFactory.TerminatedLines | tests/unit/agent/storlet_daemon_factory/test_daemon_factory.py:669-683 | one `<name>: terminated` line per stopped daemon, in order |
| StorletDaemonFactory.AggregateNames | tests/unit/agent/storlet_daemon_factory/test_daemon_factory.py:403-452 | an aggregated failure message names every daemon that failed |
| StorletDaemonFactory.DaemonFactory.constructor | tests/unit/agent/storlet_daemon_factory/test_daemon_factory.py:108-111 | a new factory keeps its pipe path and has no daemons |
| StorletDaemonFactory.DaemonFactory.GetProcessStatusByName | tests/unit/agent/storlet_daemon_factory/test_daemon_factory.py:298-310 | an unknown name is not running; a known one is asked by the pid probe; True exactly when the recorded child is alive |
| StorletDaemonFactory.DaemonFactory.WaitForDaemonToInitialize | tests/unit/agent/storlet_daemon_factory/test_daemon_factory.py:218-255 | an unknown name is a KeyError with no ping sent; True after the first answered ping, within the tries; False after all the tries go unanswered; one read per sent ping |
| StorletDaemonFactory.DaemonFactory.SpawnSubprocess | tests/unit/agent/storlet_daemon_factory/test_daemon_factory.py:155-216 | a failed Popen raises and records nothing; otherwise the pid is recorded; success exactly when the child is alive and answers; a terminated child, a probe error and a daemon that never answers each raise their own error |
| StorletDaemonFactory.DaemonFactory.ProcessStartDaemon | tests/unit/agent/storlet_daemon_factory/test_daemon_factory.py:257-296 | an unsupported language raises and changes nothing; the bus path is recorded; a failed status probe is passed on and changes no pid; False exactly when the daemon is already running; True exactly when no daemon ran and the launch for the language spawned a live, ready daemon, whose pid is then recorded |
| StorletDaemonFactory.ProcessStartDaemonExample | tests/unit/agent/storlet_daemon_factory/test_daemon_factory.py:257-281 | a first java start on an empty factory, whose daemon is running and answers the first ping, answers True and records the pid and the bus path |
| StorletDaemonFactory.DaemonFactory.ProcessKill | tests/unit/agent/storlet_daemon_factory/test_daemon_factory.py:351-401 | an unknown name raises without a kill; otherwise the kill is sent, waitpid is called only when it succeeded, success gives that pid and exit code and forgets the daemon, and a failure keeps it and raises |
| StorletDaemonFactory.DaemonFactory.ProcessKillAll | tests/unit/agent/storlet_daemon_factory/test_daemon_factory.py:403-452 | exactly the daemons killed are removed; with try_all every daemon is tried and the error names each one that failed; without it the first failure stops the sweep and is raised; success leaves no daemon |
| StorletDaemonFactory.DaemonFactory.KillSweep | tests/unit/agent/storlet_daemon_factory/test_daemon_factory.py:403-452 | the kill loop's invariant: attempted daemons are distinct and registered, removed exactly when killed, failed lists exactly the ones not killed, and a stop is the error of the last attempt |
| StorletDaemonFactory.DaemonFactory.KillNext | tests/unit/agent/storlet_daemon_factory/test_daemon_factory.py:403-452 | one kill of the sweep succeeds exactly when the daemon is killable, and removes exactly it |
| StorletDaemonFactory.DaemonFactory.ShutdownProcess | tests/unit/agent/storlet_daemon_factory/test_daemon_factory.py:510-563 | halt is sent exactly for a known daemon with a bus path; waitpid only after a successful send; success forgets the daemon, a failure keeps it and raises |
| StorletDaemonFactory.DaemonFactory.ShutdownAllProcesses | tests/unit/agent/storlet_daemon_factory/test_daemon_factory.py:454-508 | exactly the daemons stopped are removed; with try_all every daemon is tried and the error names each failure; without it the first failure is raised; success returns the names stopped and leaves no daemon |
| StorletDaemonFactory.DaemonFactory.ShutdownSweep | tests/unit/agent/storlet_daemon_factory/test_daemon_factory.py:454-508 | the shutdown loop's invariant, the same shape as the kill sweep's, for halting over the bus |
| StorletDaemonFactory.DaemonFactory.ShutdownNext | tests/unit/agent/storlet_daemon_factory/test_daemon_factory.py:454-508 | one shutdown of the sweep succeeds exactly when the daemon is stoppable, and removes exactly it |
| StorletDaemonFactory.DaemonFactory.StartDaemon | tests/unit/agent/storlet_daemon_factory/test_daemon_factory.py:565-611 | an unsupported language fails and changes nothing; `already running` exactly when a live daemon is recorded; `OK` exactly when no daemon ran and a live, ready daemon was spawned, whose pid is then recorded |
| StorletDaemonFactory.DaemonFactory.StopDaemon | tests/unit/agent/storlet_daemon_factory/test_daemon_factory.py:613-638 | success exactly when a known daemon is killed, reporting its pid and exit code and forgetting it; otherwise a failure naming the storlet |
| StorletDaemonFactory.DaemonFactory.DaemonStatus | tests/unit/agent/storlet_daemon_factory/test_daemon_factory.py:640-667 | success exactly when the recorded daemon is alive; otherwise the no-daemon message or the probe's error message |
| StorletDaemonFactory.DaemonFactory.StopDaemons | tests/unit/agent/storlet_daemon_factory/test_daemon_factory.py:685-696 | `OK` with no daemon left exactly when every daemon was killed; otherwise the kill-all error, naming every daemon not killed, each kept |
| StorletDaemonFactory.DaemonFactory.Halt | tests/unit/agent/storlet_daemon_factory/test_daemon_factory.py:669-683 | success exactly when every daemon stops, with one `terminated` line per daemon and none left; otherwise the shutdown-all error, naming every daemon that did not stop |
| StorletGateway.CheckMandatoryParams | tests/unit/swift/storlet_gateway/gateways/docker/test_gateway.py:186-198 | passes exactly when every mandatory key is present; a failure names a missing key |
| StorletGateway.CheckMandatoryExample | tests/unit/swift/storlet_gateway/gateways/docker/test_gateway.py:186-198 | `keyA, keyB` pass and `keyA, KeyD` fail against the test's map |
| StorletGateway.PythonMainRule | tests/unit/swift/storlet_gateway/gateways/docker/test_gateway.py:236-282 | the executable Python main check holds exactly when the name ends in `.py`, its stem has no dot, and the main is `<stem>.<class>` with a class without dots |
| StorletGateway.HasDuplicate | tests/unit/swift/storlet_gateway/gateways/docker/test_gateway.py:306-313 | a list has a duplicate exactly when its elements are not pairwise distinct |
| StorletGateway.CheckLanguageRule | tests/unit/swift/storlet_gateway/gateways/docker/test_gateway.py:200-293 | passes exactly for java with a `-` and a `.` in the name, or for python with a matching main; any other language fails |
| StorletGateway.CheckDependencies | tests/unit/swift/storlet_gateway/gateways/docker/test_gateway.py:295-313 | passes exactly when the storlet is not its own dependency and no dependency is listed twice |
| StorletGateway.ValidateStorletRegistration | tests/unit/swift/storlet_gateway/gateways/docker/test_gateway.py:200-313 | a registration passes exactly when the mandatory keys are present, the lower-cased language's name rule holds and the dependencies are valid; a missing key is named in the error |
| StorletGateway.ModeDigits | tests/unit/swift/storlet_gateway/gateways/docker/test_gateway.py:315-344 | an octal mode is allowed exactly when the owner and group digits include read and the other digit excludes write |
| StorletGateway.ValidateDependencyRegistration | tests/unit/swift/storlet_gateway/gateways/docker/test_gateway.py:315-344 | passes exactly when Dependency-Version is present and any Dependency-Permissions value is octal digits forming an allowed mode; a missing version is reported by name |
| StorletGateway.RequestDependencies | tests/unit/swift/storlet_gateway/gateways/docker/test_gateway.py:37-60 | no dependency option gives no dependencies; otherwise the comma-free parts join back with commas to the option |
| StorletGateway.NewDockerStorletRequest | tests/unit/swift/storlet_gateway/gateways/docker/test_gateway.py:37-116 | the request keeps the id, parameters, metadata, main class and range ends, splits the dependencies, and has a range exactly when both ends are given (0 included) |
| StorletGateway.JavaRegistrationAccepted | tests/unit/swift/storlet_gateway/gateways/docker/test_gateway.py:200-208 | the Java registration with a dependency passes |
| StorletGateway.JavaRegistrationWithoutDependency | tests/unit/swift/storlet_gateway/gateways/docker/test_gateway.py:210-216 | the Java registration without a dependency passes |
| StorletGateway.JavaRegistrationWithoutMain | tests/unit/swift/storlet_gateway/gateways/docker/test_gateway.py:218-224 | a registration without Main fails |
| StorletGateway.JavaRegistrationBadName | tests/unit/swift/storlet_gateway/gateways/docker/test_gateway.py:227-234 | `storlet.jar` is refused as a Java name |
| StorletGateway.StorletPyMain | tests/unit/swift/storlet_gateway/gateways/docker/test_gateway.py:236-244 | `storlet.Storlet` is a valid main for `storlet.py` |
| StorletGateway.PythonRegistrationAccepted | tests/unit/swift/storlet_gateway/gateways/docker/test_gateway.py:236-244 | the Python registration passes |
| StorletGateway.PythonRegistrationBadName | tests/unit/swift/storlet_gateway/gateways/docker/test_gateway.py:246-254 | `storlet.pyfoo` is refused |
| StorletGateway.BadPythonMains | tests/unit/swift/storlet_gateway/gateways/docker/test_gateway.py:256-282 | another module's class, a bare module name and a dotted class path are not valid mains for `storlet.py` |
| StorletGateway.PythonRegistrationBadMain | tests/unit/swift/storlet_gateway/gateways/docker/test_gateway.py:256-282 | the three registrations with those mains fail |
| StorletGateway.UnsupportedLanguageRejected | tests/unit/swift/storlet_gateway/gateways/docker/test_gateway.py:284-293 | language `bar` is refused |
| StorletGateway.SelfDependencyRejected | tests/unit/swift/storlet_gateway/gateways/docker/test_gateway.py:295-303 | a storlet that depends on itself is refused |
| StorletGateway.DuplicateDependencyRejected | tests/unit/swift/storlet_gateway/gateways/docker/test_gateway.py:305-313 | `dep_file,dep_file` is refused |
| StorletGateway.DependencyRegistrationExample | tests/unit/swift/storlet_gateway/gateways/docker/test_gateway.py:315-344 | no permission and `755` pass; `400`, `foo` and `888` fail |
| StorletGateway.SplitTwoDependencies | tests/unit/swift/storlet_gateway/gateways/docker/test_gateway.py:37-50 | the test's option `dep1,dep2` splits into `dep1` and `dep2` |
| StorletGateway.RequestDependenciesExample | tests/unit/swift/storlet_gateway/gateways/docker/test_gateway.py:37-60 | with `dep1,dep2` the request has those two dependencies, and without the option it has none |
| StorletGateway.RequestRangeExample | tests/unit/swift/storlet_gateway/gateways/docker/test_gateway.py:92-116 | no range without range ends, and a range for 0 to 6 |

## Left out

- Logging, the logger set-up (`start_logger`), `usage()` and the change to the `swift` user (`daemon.py:284-327`, `345-351`) are left out: they change no model state.
- The text layer of JSON is left out. `json.dumps` and `json.loads` are a tree datatype with its encoder and decoder.
- `uuid.uuid4()` is left out: the task id is a parameter of `execute`.
- Real file-descriptor I/O (`os.fdopen`, reads and writes) is left out. The child's output is a list of writes; the input is a string read in chunks, and a short read only ever at the end.
- The process-level effects of the child's `sys.exit()` are left out. The child's branch returns `ChildExit`.
- The SBus C library is left out (`SBus.create`, `listen`, `receive`). Each main-loop iteration is a scripted event.
- The reaping loop, the admission wait and the main loop run for as long as a finite script lasts, and report that it ran out. Termination beyond the script is not modelled.
- StorletDaemon.Daemon.Execute: when the daemon's pool is full and the admission script ends, it reports `Stalled`. The source keeps waiting here.
- StorletDaemon.Daemon.MainLoop: it dispatches through `DispatchCommand`, which runs the corrected cancel. The loop over the cancel as written is not modelled; `DispatchCommandAsWritten` states its one-step effect.
- StorletDaemon.Daemon.MainLoop: it reports `StillDraining` or `OutOfEvents` when its scripts end. The source would keep waiting.
- `main`'s argument parsing is modelled only in `ParseMainArgs`, for the pool-size finding. Creating the daemon and running its loop from `main` are covered by the constructor and `MainLoop`.
- The factory's own source (`daemon_factory.py`), `datagram.py` and the gateway are not part of this model. Their behaviour is reconstructed from their unit tests. Anything the tests do not pin down is a modelling choice:
  - the exact error message texts;
  - `NUM_OF_TRIES_PINGING_STARTING_DAEMON` = 10;
  - the separator of aggregated messages;
  - `SupportedLanguage` accepts exactly `java` and `python`, with no lower-casing, while the gateway lower-cases the language it validates;
  - `ShutdownError` reports a daemon with no recorded pid or no recorded pipe path as not found;
  - `ReplyStatus` reads a reply's status as the text before its first `:` (the whole reply when it has none).
- The factory's `ping` handler body, its main loop, its `prms` extraction from datagrams and its `SBus` calls are left out, as are the pipes of the readiness wait (`os.pipe`, `read`, `close`). Each ping attempt is scripted.
- StorletDaemonFactory.DaemonFactory.Halt: it reports a failure response rather than propagating the shutdown exception to the bus loop.
- The gateway's invocation flow (`test_gateway.py:346-417`) is left out: it needs the Docker runtime, the Swift internal client and the object stream.
- StorletDaemon.ParseMainArgs: the pool size is accepted only as plain decimal digits. Python's `int` also takes a sign and surrounding whitespace.
- Datagram.JsonToCmdParams: a missing `params` decodes to no parameters, and a `task_id` that is missing or not a string decodes to the empty id. `datagram.py` is not part of this model, and no test fixes these defaults.
- StorletGateway.ValidateStorletRegistration: the mandatory keys are Language, Interface-Version and Main. `Object-Metadata`, present in every test map, is not required.
- StorletGateway.ValidateDependencyRegistration: the permission rule is "owner and group readable, not writable by others". The tests would also fit a stricter owner-only reading (`perm & 0o600`).
- StorletGateway.ValidateDependencyRegistration: `int(perm, 8)` is accepted only on plain octal digits. Python also takes a sign, surrounding whitespace and a `0o` prefix.
- StorletGateway.RequestDependencies: an empty dependency option gives no dependencies.
- Pids, descriptors and sizes are unbounded integers, as Python's are.
- Concurrency between the daemon and its children is left out. The children run independently and are seen only through the `waitpid` answers.

## Findings

| source | as written | input that shows it | evidently intended | confidence | as-written member | corrected member |
|---|---|---|---|---|---|---|
| Engine/agent/storlet_daemon/daemon.py:226 | `cancel` returns False, which `main_loop` reads as "stop" | `SBUS_CMD_CANCEL` for a task id that is not registered: `BAD` is written, then the daemon's main loop ends | cancel, like execute and ping, keeps the daemon serving (return True) | high (not executed) | StorletDaemon.Daemon.CancelAsWritten | StorletDaemon.Daemon.Cancel |
| Engine/agent/storlet_daemon/daemon.py:219 | `os.kill(pid)` is called without a signal | `SBUS_CMD_CANCEL` for any registered task: `os.kill` takes two arguments, so TypeError is raised, which the `except OSError` does not catch | send a termination signal, for example `os.kill(pid, signal.SIGKILL)`, and report `OK` or `ERROR` | high (not executed) | StorletDaemon.Daemon.CancelAsWritten | StorletDaemon.Daemon.Cancel |
| Engine/agent/storlet_daemon/daemon.py:342 | `pool_size = argv[3]` keeps the command-line string | argv `["s", "/p", "DEBUG", "1", "c"]` with one task running: under Python 2, `1 >= "1"` is False, so a second execute is admitted beyond the pool | `pool_size = int(argv[3])`, so that execute waits while the pool is full | medium (not executed; Python 3 would raise TypeError instead) | StorletDaemon.AdmissionNeverWaitsAsWritten | StorletDaemon.AdmissionWaitsWhenFull |
