/** The storlet daemon: one process per storlet that listens on its bus
    path, forks a child per execute request (at most pool_size at a time),
    keeps the task id -> child pid registry, and waits for its children
    before leaving the main loop. */
module StorletDaemon {
  import opened Wrappers
  import opened Strings
  import opened Command
  import opened Os
  import opened Datagram
  import opened Collections

  const EXIT_SUCCESS: int := 0
  const EXIT_FAILURE: int := 1

  /** Bytes the child copies per read. */
  const CHUNK_SIZE: nat := 16

  /** task_id_to_pid. */
  type Registry = map<string, int>

  /** A Python 2 value, for the pool size the daemon is given. */
  datatype PyValue = PyInt(i: int) | PyStr(s: string)

  /** Python 2's `n >= v` for an int n: ints compare by value, and an int is
      ordered before every str, so it is never >= one. */
  predicate PyAtLeast(n: int, v: PyValue) {
    match v
    case PyInt(i) => n >= i
    case PyStr(_) => false
  }

  /** The pool bound a registry of n children keeps: at most pool_size when
      that is an int (none for a negative one); a str sets no bound. */
  predicate WithinPool(poolSize: PyValue, n: nat) {
    poolSize.PyInt? ==> n <= (if poolSize.i < 0 then 0 else poolSize.i)
  }

  lemma PrefixExtend<T>(s: seq<T>, n: nat)
    requires n < |s|
    ensures s[..n] + [s[n]] == s[..n + 1]
  {
  }

  // ---------------------------------------------------------------------
  // What the operating system answers

  /** One round of _wait_child_process: the waitpid(pid, WNOHANG) answer for
      each pid, and what os.wait() answers should it be called. */
  datatype WaitRound = WaitRound(probe: int -> WaitPidAnswer, waited: WaitAnswer)

  /** What execute and cancel learn from the system: the fresh task id, the
      rounds of the admission wait, fork, close, the input object's bytes
      and whether kill succeeds for a pid. */
  datatype HandlerEnv = HandlerEnv(
    taskId: string,
    admission: seq<WaitRound>,
    fork: ForkAnswer,
    close: int -> CloseAnswer,
    input: string,
    kill: int -> bool)

  /** The data a handler writes to a descriptor. */
  datatype Payload = Text(text: string) | JsonText(json: Json)
  datatype Write = Write(fd: int, data: Payload)

  datatype DaemonError = NotImplemented | AttributeError | TypeError | OsError(errno: Errno)

  /** How a handler ends: it returns the main loop's keep-going flag, raises,
      ends the process (the forked child), or waits for a child longer than
      the system answers given. */
  datatype HandlerOutcome = Returned(keepGoing: bool) | Raised(error: DaemonError) | ChildExit | Stalled

  // ---------------------------------------------------------------------
  // Reaping terminated children

  /** _cleanup_pids drops a task when waitpid reports a pid or a status, or
      fails with ESRCH or ECHILD; any other failure is only logged. */
  predicate ProbeSaysTerminated(a: WaitPidAnswer) {
    match a
    case Status(pid, rc) => pid != 0 || rc != 0
    case WaitPidFailed(e) => e == ESRCH || e == ECHILD
  }

  /** The registry entries whose probe says the child still runs. */
  function Survivors(reg: Registry, probe: int -> WaitPidAnswer): Registry {
    map t | t in reg && !ProbeSaysTerminated(probe(reg[t])) :: reg[t]
  }

  /** _remove_pid: the first task (in dictionary order) mapped to pid is
      dropped; with no such task nothing changes. */
  ghost predicate RemovedPid(before: Registry, pid: int, after: Registry) {
    if exists t :: t in before && before[t] == pid
    then exists t :: t in before && before[t] == pid && after == before - {t}
    else after == before
  }

  /** _wait_child_process: clean up first; when that emptied or shrank the
      registry, stop; otherwise wait for any child and drop it, and forget
      every child when wait says there are none. */
  ghost predicate WaitChildStep(before: Registry, round: WaitRound, after: Registry) {
    var cleaned := Survivors(before, round.probe);
    if cleaned == map[] || |cleaned| < |before| then after == cleaned
    else match round.waited
      case Reaped(pid) => RemovedPid(cleaned, pid, after)
      case WaitFailed(e) => after == if e == ECHILD then map[] else cleaned
  }

  /** The daemon's waiting loops: one _wait_child_process step per round,
      each taken while the registry size is at least bound (Python's
      `len(task_id_to_pid) >= bound`). */
  ghost predicate WaitsWhile(bound: PyValue, before: Registry, rounds: seq<WaitRound>, after: Registry)
    decreases |rounds|
  {
    if rounds == [] then after == before
    else PyAtLeast(|before|, bound) && exists mid :: WaitChildStep(before, rounds[0], mid) && WaitsWhile(bound, mid, rounds[1..], after)
  }

  /** _wait_all_child_processes: one step per round while children remain. */
  ghost predicate Drains(before: Registry, rounds: seq<WaitRound>, after: Registry) {
    WaitsWhile(PyInt(1), before, rounds, after)
  }

  /** The admission wait of execute left the registry `after`: some of the
      rounds were taken while the pool was full, and the wait stopped because
      the pool had room or because the rounds ran out. */
  ghost predicate AdmissionWait(poolSize: PyValue, before: Registry, admission: seq<WaitRound>, after: Registry) {
    exists k :: 0 <= k <= |admission| && WaitsWhile(poolSize, before, admission[..k], after)
                && (k < |admission| ==> !PyAtLeast(|after|, poolSize))
  }

  lemma RemovedPidShrinks(before: Registry, pid: int, after: Registry)
    requires RemovedPid(before, pid, after)
    ensures SubMap(after, before)
    ensures (exists t :: t in before && before[t] == pid) ==> |after| == |before| - 1
    ensures (forall t :: t in before ==> before[t] != pid) ==> after == before
  {
    if exists t :: t in before && before[t] == pid {
      var t :| t in before && before[t] == pid && after == before - {t};
      assert after.Keys == before.Keys - {t};
    }
  }

  /** A wait step never adds or alters an entry. */
  lemma WaitChildStepShrinks(before: Registry, round: WaitRound, after: Registry)
    requires WaitChildStep(before, round, after)
    ensures SubMap(after, before)
  {
    var cleaned := Survivors(before, round.probe);
    if !(cleaned == map[] || |cleaned| < |before|) && round.waited.Reaped? {
      RemovedPidShrinks(cleaned, round.waited.pid, after);
    }
  }

  /** A wait step makes progress when a child has terminated: some probe
      reports one, wait reaps a registered child, or wait says there are no
      children. */
  lemma WaitChildStepProgress(before: Registry, round: WaitRound, after: Registry)
    requires WaitChildStep(before, round, after)
    requires before != map[]
    requires || (exists t :: t in before && ProbeSaysTerminated(round.probe(before[t])))
             || (round.waited.Reaped? && exists t :: t in before && before[t] == round.waited.pid)
             || round.waited == WaitFailed(ECHILD)
    ensures |after| < |before|
  {
    var cleaned := Survivors(before, round.probe);
    SubMapCard(cleaned, before);
    if exists t :: t in before && ProbeSaysTerminated(round.probe(before[t])) {
      var t :| t in before && ProbeSaysTerminated(round.probe(before[t]));
      assert t !in cleaned;
    } else {
      assert cleaned == before;
      if round.waited.Reaped? {
        RemovedPidShrinks(cleaned, round.waited.pid, after);
      }
    }
  }

  lemma {:induction false} WaitsWhileShrinks(bound: PyValue, before: Registry, rounds: seq<WaitRound>, after: Registry)
    requires WaitsWhile(bound, before, rounds, after)
    ensures SubMap(after, before)
    decreases |rounds|
  {
    if rounds != [] {
      var mid :| WaitChildStep(before, rounds[0], mid) && WaitsWhile(bound, mid, rounds[1..], after);
      WaitChildStepShrinks(before, rounds[0], mid);
      WaitsWhileShrinks(bound, mid, rounds[1..], after);
    }
  }

  lemma {:induction false} WaitsWhileAppend(bound: PyValue, a: Registry, rounds: seq<WaitRound>, b: Registry,
                                            round: WaitRound, c: Registry)
    requires WaitsWhile(bound, a, rounds, b) && PyAtLeast(|b|, bound) && WaitChildStep(b, round, c)
    ensures WaitsWhile(bound, a, rounds + [round], c)
    decreases |rounds|
  {
    if rounds == [] {
      assert [round][1..] == [];
      assert WaitsWhile(bound, c, [round][1..], c);
    } else {
      var mid :| WaitChildStep(a, rounds[0], mid) && WaitsWhile(bound, mid, rounds[1..], b);
      WaitsWhileAppend(bound, mid, rounds[1..], b, round, c);
      assert (rounds + [round])[1..] == rounds[1..] + [round];
      assert (rounds + [round])[0] == rounds[0];
    }
  }

  /** An admission wait that starts with room in the pool takes no round. */
  lemma AdmissionWaitWithRoom(poolSize: PyValue, before: Registry, admission: seq<WaitRound>, after: Registry)
    requires AdmissionWait(poolSize, before, admission, after)
    requires !PyAtLeast(|before|, poolSize)
    ensures after == before
  {
    var k :| 0 <= k <= |admission| && WaitsWhile(poolSize, before, admission[..k], after)
             && (k < |admission| ==> !PyAtLeast(|after|, poolSize));
    if k > 0 {
      assert false;
    }
  }

  /** The admission wait never adds or alters an entry. */
  lemma AdmissionWaitShrinks(poolSize: PyValue, before: Registry, admission: seq<WaitRound>, after: Registry)
    requires AdmissionWait(poolSize, before, admission, after)
    ensures SubMap(after, before) && |after| <= |before|
  {
    var k :| 0 <= k <= |admission| && WaitsWhile(poolSize, before, admission[..k], after)
             && (k < |admission| ==> !PyAtLeast(|after|, poolSize));
    WaitsWhileShrinks(poolSize, before, admission[..k], after);
    SubMapCard(after, before);
  }

  /** Registering a task adds at most that one entry. */
  lemma UpdateMinusKeyCard(reg: Registry, t: string, pid: int)
    ensures |reg[t := pid] - {t}| <= |reg| && |reg[t := pid]| <= |reg| + 1
  {
    assert reg[t := pid] - {t} == reg - {t};
    assert SubMap(reg - {t}, reg);
    SubMapCard(reg - {t}, reg);
  }

  // ---------------------------------------------------------------------
  // Closing descriptors

  /** _safe_close_fd swallows EBADF and re-raises every other failure. */
  predicate CloseOk(a: CloseAnswer) {
    a.Closed? || a.errno == EBADF
  }

  function SafeCloseFd(a: CloseAnswer): (r: Outcome<Errno>)
    ensures r.Pass? <==> CloseOk(a)
    ensures r.Fail? ==> a == CloseFailed(r.error) && r.error != EBADF
  {
    if CloseOk(a) then Pass else Fail(a.errno)
  }

  /** The error _safe_close_fds re-raises: that of the first descriptor whose
      close fails with something other than EBADF. */
  function FirstCloseFailure(fds: seq<int>, close: int -> CloseAnswer): Option<Errno> {
    if fds == [] then None
    else if !CloseOk(close(fds[0])) then Some(close(fds[0]).errno)
    else FirstCloseFailure(fds[1..], close)
  }

  lemma {:induction false} FirstCloseFailureMeaning(fds: seq<int>, close: int -> CloseAnswer)
    ensures FirstCloseFailure(fds, close).None? <==> forall i :: 0 <= i < |fds| ==> CloseOk(close(fds[i]))
    ensures FirstCloseFailure(fds, close).Some? ==>
              exists k :: 0 <= k < |fds| && close(fds[k]) == CloseFailed(FirstCloseFailure(fds, close).value)
                                          && FirstCloseFailure(fds, close).value != EBADF
                                          && forall j :: 0 <= j < k ==> CloseOk(close(fds[j]))
  {
    if fds != [] && CloseOk(close(fds[0])) {
      FirstCloseFailureMeaning(fds[1..], close);
      if FirstCloseFailure(fds[1..], close).Some? {
        var k :| 0 <= k < |fds| - 1 && close(fds[1..][k]) == CloseFailed(FirstCloseFailure(fds[1..], close).value)
                 && FirstCloseFailure(fds[1..], close).value != EBADF
                 && forall j :: 0 <= j < k ==> CloseOk(close(fds[1..][j]));
        assert forall j :: 0 <= j < k + 1 ==> CloseOk(close(fds[j])) by {
          forall j | 0 <= j < k + 1 ensures CloseOk(close(fds[j])) {
            if j > 0 { assert fds[j] == fds[1..][j - 1]; }
          }
        }
        assert close(fds[k + 1]) == CloseFailed(FirstCloseFailure(fds, close).value);
      } else {
        forall i | 0 <= i < |fds| ensures CloseOk(close(fds[i])) {
          if i > 0 { assert fds[i] == fds[1..][i - 1]; }
        }
      }
    } else if fds != [] {
      assert close(fds[0]) == CloseFailed(FirstCloseFailure(fds, close).value);
    }
  }

  lemma {:induction false} FirstCloseFailureConcat(a: seq<int>, b: seq<int>, close: int -> CloseAnswer)
    ensures FirstCloseFailure(a + b, close)
         == if FirstCloseFailure(a, close).Some? then FirstCloseFailure(a, close) else FirstCloseFailure(b, close)
  {
    if a != [] {
      assert (a + b)[0] == a[0];
      assert (a + b)[1..] == a[1..] + b;
      FirstCloseFailureConcat(a[1..], b, close);
    } else {
      assert a + b == b;
    }
  }

  /** _safe_close_fds: closes in order and stops at the first re-raised error. */
  method SafeCloseFds(fds: seq<int>, close: int -> CloseAnswer) returns (r: Outcome<Errno>)
    ensures r.Pass? <==> FirstCloseFailure(fds, close).None?
    ensures r.Fail? ==> FirstCloseFailure(fds, close) == Some(r.error)
  {
    var i := 0;
    while i < |fds|
      invariant 0 <= i <= |fds|
      invariant FirstCloseFailure(fds, close) == FirstCloseFailure(fds[i..], close)
    {
      assert fds[i..][1..] == fds[i + 1..];
      var c := SafeCloseFd(close(fds[i]));
      if c.Fail? {
        return Fail(c.error);
      }
      i := i + 1;
    }
    return Pass;
  }

  // ---------------------------------------------------------------------
  // The child's copy loop

  /** The successive results of in_file.read(chunk) on a file holding input:
      full chunks, the remainder, and the empty read that ends the loop. */
  function ChunksOf(input: string, chunk: nat): seq<string>
    requires chunk >= 1
    decreases |input|
  {
    if input == [] then [[]]
    else if |input| <= chunk then [input] + ChunksOf([], chunk)
    else [input[..chunk]] + ChunksOf(input[chunk..], chunk)
  }

  function Flatten(parts: seq<string>): string {
    if parts == [] then [] else parts[0] + Flatten(parts[1..])
  }

  /** The chunks written back concatenate to the input; every chunk but the
      final empty one is non-empty and at most chunk long. */
  lemma {:induction false} ChunksOfMeaning(input: string, chunk: nat)
    requires chunk >= 1
    ensures Flatten(ChunksOf(input, chunk)) == input
    ensures |ChunksOf(input, chunk)| >= 1 && ChunksOf(input, chunk)[|ChunksOf(input, chunk)| - 1] == []
    ensures forall i :: 0 <= i < |ChunksOf(input, chunk)| - 1 ==> 1 <= |ChunksOf(input, chunk)[i]| <= chunk
    decreases |input|
  {
    var cs := ChunksOf(input, chunk);
    if input == [] {
    } else if |input| <= chunk {
      assert ChunksOf([], chunk) == [[]];
      assert cs == [input, []];
      assert Flatten(cs) == input + Flatten([[]]);
    } else {
      ChunksOfMeaning(input[chunk..], chunk);
      assert cs[1..] == ChunksOf(input[chunk..], chunk);
      assert input == input[..chunk] + input[chunk..];
    }
  }

  /** The read/write loop of the child: writes each chunk read, the final
      empty one included, then stops. */
  method CopyInChunks(input: string, chunk: nat) returns (written: seq<string>)
    requires chunk >= 1
    ensures written == ChunksOf(input, chunk)
  {
    written := [];
    var pos := 0;
    while true
      invariant 0 <= pos <= |input|
      invariant written + ChunksOf(input[pos..], chunk) == ChunksOf(input, chunk)
      decreases |input| - pos
    {
      var end := if pos + chunk <= |input| then pos + chunk else |input|;
      var buf := input[pos..end];
      var rest := input[pos..];
      if |rest| > chunk {
        assert rest[..chunk] == buf && rest[chunk..] == input[end..];
      } else if rest != [] {
        assert rest == buf && input[end..] == [];
      }
      assert ChunksOf(rest, chunk) == if buf == [] then [[]] else [buf] + ChunksOf(input[end..], chunk);
      written := written + [buf];
      if buf == [] {
        return;
      }
      pos := end;
    }
  }

  function WritesTo(fd: int, chunks: seq<string>): (ws: seq<Write>)
    ensures |ws| == |chunks|
    ensures forall i :: 0 <= i < |chunks| ==> ws[i] == Write(fd, Text(chunks[i]))
  {
    seq(|chunks|, i requires 0 <= i < |chunks| => Write(fd, Text(chunks[i])))
  }

  /** Every descriptor the parent closes after the fork. */
  function ParentFds(dtg: Datagram): seq<int>
    requires IsExecute(dtg)
  {
    ObjectInFds(dtg) + ObjectMetadataOutFds(dtg) + ObjectOutFds(dtg) + [LoggerOutFd(dtg)]
  }

  /** The parent's closing of the descriptors it handed to the child, in
      order; the first failure is raised. */
  method CloseParentFds(dtg: Datagram, close: int -> CloseAnswer) returns (r: Outcome<Errno>)
    requires IsExecute(dtg)
    ensures r.Pass? <==> FirstCloseFailure(ParentFds(dtg), close).None?
    ensures r.Fail? ==> FirstCloseFailure(ParentFds(dtg), close) == Some(r.error)
  {
    var inFds, outMdFds, outFds, loggerFd := ObjectInFds(dtg), ObjectMetadataOutFds(dtg), ObjectOutFds(dtg), LoggerOutFd(dtg);
    FirstCloseFailureConcat(inFds + outMdFds + outFds, [loggerFd], close);
    FirstCloseFailureConcat(inFds + outMdFds, outFds, close);
    FirstCloseFailureConcat(inFds, outMdFds, close);
    r := SafeCloseFds(inFds, close);
    if r.Fail? {
      return;
    }
    r := SafeCloseFds(outMdFds, close);
    if r.Fail? {
      return;
    }
    r := SafeCloseFds(outFds, close);
    if r.Fail? {
      return;
    }
    r := SafeCloseFd(close(loggerFd));
  }

  /** What the forked child writes: the task id (before the fork), the first
      input's metadata, the log line, and the object data in chunks. */
  function ChildWrites(dtg: Datagram, taskId: string, input: string, chunk: nat): seq<Write>
    requires IsExecute(dtg) && chunk >= 1
  {
    [ Write(TaskIdOutFd(dtg), Text(taskId)),
      Write(ObjectMetadataOutFds(dtg)[0], JsonText(StrMapToJson(ObjectInMetadata(dtg)[0]))),
      Write(LoggerOutFd(dtg), Text("Executed\n")) ]
    + WritesTo(ObjectOutFds(dtg)[0], ChunksOf(input, chunk))
  }

  /** The text written to fd, in order. */
  function TextWrittenTo(ws: seq<Write>, fd: int): string {
    if ws == [] then []
    else (if ws[0].fd == fd && ws[0].data.Text? then ws[0].data.text else []) + TextWrittenTo(ws[1..], fd)
  }

  lemma {:induction false} TextWrittenToAppend(a: seq<Write>, b: seq<Write>, fd: int)
    ensures TextWrittenTo(a + b, fd) == TextWrittenTo(a, fd) + TextWrittenTo(b, fd)
  {
    if a != [] {
      assert (a + b)[1..] == a[1..] + b;
      TextWrittenToAppend(a[1..], b, fd);
    } else {
      assert a + b == b;
    }
  }

  lemma {:induction false} TextWrittenToChunks(fd: int, chunks: seq<string>)
    ensures TextWrittenTo(WritesTo(fd, chunks), fd) == Flatten(chunks)
  {
    if chunks != [] {
      assert WritesTo(fd, chunks)[1..] == WritesTo(fd, chunks[1..]);
      TextWrittenToChunks(fd, chunks[1..]);
    }
  }

  lemma {:induction false} TextWrittenToOthers(ws: seq<Write>, fd: int)
    requires forall i :: 0 <= i < |ws| ==> ws[i].fd != fd
    ensures TextWrittenTo(ws, fd) == []
  {
    if ws != [] {
      TextWrittenToOthers(ws[1..], fd);
    }
  }

  /** The child hands the input object back unchanged on the first output
      descriptor, when that descriptor is distinct from the task id, metadata
      and log descriptors. */
  lemma ChildWritesEcho(dtg: Datagram, taskId: string, input: string, chunk: nat)
    requires IsExecute(dtg) && chunk >= 1
    requires ObjectOutFds(dtg)[0] !in {TaskIdOutFd(dtg), ObjectMetadataOutFds(dtg)[0], LoggerOutFd(dtg)}
    ensures TextWrittenTo(ChildWrites(dtg, taskId, input, chunk), ObjectOutFds(dtg)[0]) == input
  {
    var out := ObjectOutFds(dtg)[0];
    var cs := ChunksOf(input, chunk);
    var head := [ Write(TaskIdOutFd(dtg), Text(taskId)),
                  Write(ObjectMetadataOutFds(dtg)[0], JsonText(StrMapToJson(ObjectInMetadata(dtg)[0]))),
                  Write(LoggerOutFd(dtg), Text("Executed\n")) ];
    assert ChildWrites(dtg, taskId, input, chunk) == head + WritesTo(out, cs);
    TextWrittenToOthers(head, out);
    TextWrittenToAppend(head, WritesTo(out, cs), out);
    TextWrittenToChunks(out, cs);
    ChunksOfMeaning(input, chunk);
  }

  // ---------------------------------------------------------------------
  // Command lookup

  datatype Handler = HaltHandler | ExecuteHandler | DescriptorHandler | PingHandler | CancelHandler

  /** The daemon's methods marked as command handlers. */
  const HANDLERS: map<string, Handler> :=
    map["halt" := HaltHandler, "execute" := ExecuteHandler, "descriptor" := DescriptorHandler,
        "ping" := PingHandler, "cancel" := CancelHandler]

  /** Daemon.get_handler. */
  function GetHandler(command: string): (r: Result<Handler, UnknownCommand>)
    ensures r.Ok? <==> StartsWith(command, SBUS_CMD_PREFIX)
                       && HandlerName(command) in {"halt", "execute", "descriptor", "ping", "cancel"}
    ensures r.Err? ==> UnknownCommandMessage(r.error) == "got unknown command " + command
  {
    ResolveCommand(command, HANDLERS)
  }

  /** Each daemon command resolves to its handler. */
  lemma GetHandlerHalt()
    ensures GetHandler(SBUS_CMD_HALT) == Ok(HaltHandler)
  {
    HaltCommandName();
  }

  lemma GetHandlerCancel()
    ensures GetHandler(SBUS_CMD_CANCEL) == Ok(CancelHandler)
  {
    var name := HandlerName(SBUS_CMD_CANCEL);
    assert SBUS_CMD_CANCEL[..9] == SBUS_CMD_PREFIX && SBUS_CMD_CANCEL[9..] == "CANCEL";
    forall i | 0 <= i < 6 ensures name[i] == "cancel"[i] {
    }
    assert name == "cancel";
  }

  lemma GetHandlerExecute()
    ensures GetHandler(SBUS_CMD_EXECUTE) == Ok(ExecuteHandler)
  {
    var name := HandlerName(SBUS_CMD_EXECUTE);
    assert SBUS_CMD_EXECUTE[..9] == SBUS_CMD_PREFIX && SBUS_CMD_EXECUTE[9..] == "EXECUTE";
    forall i | 0 <= i < 7 ensures name[i] == "execute"[i] {
    }
    assert name == "execute";
  }

  lemma GetHandlerPing()
    ensures GetHandler(SBUS_CMD_PING) == Ok(PingHandler)
  {
    PingCommandName();
  }

  lemma GetHandlerDescriptor()
    ensures GetHandler(SBUS_CMD_DESCRIPTOR) == Ok(DescriptorHandler)
  {
    var name := HandlerName(SBUS_CMD_DESCRIPTOR);
    assert SBUS_CMD_DESCRIPTOR[..9] == SBUS_CMD_PREFIX && SBUS_CMD_DESCRIPTOR[9..] == "DESCRIPTOR";
    forall i | 0 <= i < 10 ensures name[i] == "descriptor"[i] {
    }
    assert name == "descriptor";
  }

  /** A method that is not marked as a handler, a factory command and a name
      without the prefix are all unknown. */
  lemma GetHandlerRejects()
    ensures GetHandler("SBUS_CMD_MAIN_LOOP").Err?
    ensures GetHandler(SBUS_CMD_START_DAEMON).Err?
    ensures GetHandler("HALT").Err?
  {
    // No handler name is as long as these.
    assert |HandlerName("SBUS_CMD_MAIN_LOOP")| == 9;
    assert |HandlerName(SBUS_CMD_START_DAEMON)| == 12;
  }

  /** The bus delivered a datagram. */
  predicate Delivered(listenRc: int, received: Option<Datagram>) {
    listenRc >= 0 && received.Some?
  }

  predicate IsHaltCommand(dtg: Datagram) {
    GetHandler(dtg.command) == Ok(HaltHandler)
  }

  /** One turn of the main loop: listen's return code, what receive gave,
      and the system's answers for the handler it runs. */
  datatype Event = Event(listenRc: int, received: Option<Datagram>, env: HandlerEnv)

  datatype LoopOutcome = ExitCode(code: int) | HandlerEnded(outcome: HandlerOutcome) | OutOfEvents | StillDraining

  /** Why the dispatch loop of main_loop stopped: listen or receive failed, a
      handler answered False, a handler did not return, or the events ran
      out. */
  datatype LoopStop = BusFailed | Halted | Stopped(outcome: HandlerOutcome) | EventsEnded

  // ---------------------------------------------------------------------
  // What the handlers do

  /** The pid registered for a task, with 0 standing for None. */
  function PidOf(reg: Registry, taskId: string): int {
    if taskId in reg then reg[taskId] else 0
  }

  /** cancel as the daemon intends it: 'BAD' for an unknown task, otherwise
      kill the child, forget it and answer 'OK', or answer 'ERROR' when the
      kill fails; the main loop goes on. */
  ghost predicate Cancels(dtg: Datagram, kill: int -> bool, before: Registry, after: Registry,
                          r: HandlerOutcome, writes: seq<Write>)
    requires WellFormed(dtg)
  {
    if !IsService(dtg) then r == Raised(AttributeError) && writes == [] && after == before
    else
      var pid := PidOf(before, dtg.taskId);
      var answer := if pid == 0 then "BAD" else if kill(pid) then "OK" else "ERROR";
      && r == Returned(true) && writes == [Write(ServiceOutFd(dtg), Text(answer))]
      && (if pid != 0 && kill(pid) then RemovedPid(before, pid, after) else after == before)
  }

  /** The registry execute leaves once its admission wait has left
      `waited`: with the pool still full the rounds given ran out and it
      stalls; otherwise a parent registers exactly the new task, and a
      failed fork or the child leave the registry as it is. */
  ghost predicate ExecuteRegistry(poolSize: PyValue, env: HandlerEnv, waited: Registry, after: Registry, r: HandlerOutcome) {
    && (r == Stalled <==> PyAtLeast(|waited|, poolSize))
    && after == if !PyAtLeast(|waited|, poolSize) && env.fork.Forked? && env.fork.pid != 0
                then waited[env.taskId := env.fork.pid] else waited
  }

  /** What an admitted execute returns and writes: the task id first; then
      the parent closes its copies of the descriptors, and the child echoes
      the first input and exits. */
  ghost predicate ExecuteOutput(chunkSize: nat, dtg: Datagram, env: HandlerEnv, r: HandlerOutcome, writes: seq<Write>)
    requires IsExecute(dtg) && chunkSize >= 1
  {
    var taskIdWrite := Write(TaskIdOutFd(dtg), Text(env.taskId));
    match env.fork
    case ForkFailed => r == Raised(OsError(OtherErrno)) && writes == [taskIdWrite]
    case Forked(pid) =>
      if pid != 0 then
        && writes == [taskIdWrite]
        && r == (match FirstCloseFailure(ParentFds(dtg), env.close)
                 case None => Returned(true)
                 case Some(e) => Raised(OsError(e)))
      else r == ChildExit && writes == ChildWrites(dtg, env.taskId, env.input, chunkSize)
  }

  /** A registry the pool bound held for keeps it once execute is done. */
  lemma RegistryKeepsPool(poolSize: PyValue, env: HandlerEnv, before: Registry, waited: Registry, after: Registry, r: HandlerOutcome)
    requires |waited| <= |before| && WithinPool(poolSize, |before|)
    requires ExecuteRegistry(poolSize, env, waited, after, r)
    ensures WithinPool(poolSize, |after|)
  {
    if env.fork.Forked? {
      UpdateMinusKeyCard(waited, env.taskId, env.fork.pid);
    }
  }

  /** execute from the registry `before`: a non-execute datagram has none of
      its descriptors; otherwise the admission wait runs and then the fork. */
  ghost predicate Executes(poolSize: PyValue, chunkSize: nat, dtg: Datagram, env: HandlerEnv,
                           before: Registry, after: Registry, r: HandlerOutcome, writes: seq<Write>)
    requires WellFormed(dtg) && chunkSize >= 1
  {
    if !IsExecute(dtg) then r == Raised(AttributeError) && writes == [] && after == before
    else && (exists waited :: AdmissionWait(poolSize, before, env.admission, waited) && ExecuteRegistry(poolSize, env, waited, after, r))
         && (if r == Stalled then writes == [] else ExecuteOutput(chunkSize, dtg, env, r, writes))
  }

  /** With room in the pool, execute takes no admission round: the parent's
      registry is the old one plus exactly the new task. */
  lemma ExecuteWithRoom(poolSize: PyValue, chunkSize: nat, dtg: Datagram, env: HandlerEnv,
                        before: Registry, after: Registry, r: HandlerOutcome, writes: seq<Write>)
    requires WellFormed(dtg) && IsExecute(dtg) && chunkSize >= 1
    requires Executes(poolSize, chunkSize, dtg, env, before, after, r, writes)
    requires !PyAtLeast(|before|, poolSize)
    ensures r != Stalled && ExecuteOutput(chunkSize, dtg, env, r, writes)
    ensures env.fork.Forked? && env.fork.pid != 0 ==> after == before[env.taskId := env.fork.pid]
    ensures !(env.fork.Forked? && env.fork.pid != 0) ==> after == before
  {
    var waited :| AdmissionWait(poolSize, before, env.admission, waited) && ExecuteRegistry(poolSize, env, waited, after, r);
    AdmissionWaitWithRoom(poolSize, before, env.admission, waited);
  }

  /** execute never adds or alters an entry besides the new task's: every
      other entry it leaves was there before. */
  lemma ExecuteOnlyAddsTask(poolSize: PyValue, chunkSize: nat, dtg: Datagram, env: HandlerEnv,
                            before: Registry, after: Registry, r: HandlerOutcome, writes: seq<Write>)
    requires WellFormed(dtg) && chunkSize >= 1
    requires Executes(poolSize, chunkSize, dtg, env, before, after, r, writes)
    ensures SubMap(after - {env.taskId}, before)
    ensures !(IsExecute(dtg) && env.fork.Forked? && env.fork.pid != 0 && r != Stalled) ==> SubMap(after, before)
  {
    if IsExecute(dtg) {
      var waited :| AdmissionWait(poolSize, before, env.admission, waited) && ExecuteRegistry(poolSize, env, waited, after, r);
      AdmissionWaitShrinks(poolSize, before, env.admission, waited);
    }
  }

  /** execute keeps the pool bound: it registers a child only once the
      registry has fallen below pool_size. */
  lemma ExecuteKeepsPool(poolSize: PyValue, chunkSize: nat, dtg: Datagram, env: HandlerEnv,
                         before: Registry, after: Registry, r: HandlerOutcome, writes: seq<Write>)
    requires WellFormed(dtg) && chunkSize >= 1
    requires Executes(poolSize, chunkSize, dtg, env, before, after, r, writes)
    requires WithinPool(poolSize, |before|)
    ensures WithinPool(poolSize, |after|)
  {
    if IsExecute(dtg) {
      var waited :| AdmissionWait(poolSize, before, env.admission, waited) && ExecuteRegistry(poolSize, env, waited, after, r);
      AdmissionWaitShrinks(poolSize, before, env.admission, waited);
      RegistryKeepsPool(poolSize, env, before, waited, after, r);
    }
  }

  /** A parent that registers its child while the pool was full first
      reaped: the other entries are fewer than before. */
  lemma ExecuteReapsWhenFull(poolSize: PyValue, chunkSize: nat, dtg: Datagram, env: HandlerEnv,
                             before: Registry, after: Registry, r: HandlerOutcome, writes: seq<Write>)
    requires WellFormed(dtg) && IsExecute(dtg) && chunkSize >= 1
    requires Executes(poolSize, chunkSize, dtg, env, before, after, r, writes)
    requires PyAtLeast(|before|, poolSize) && env.fork.Forked? && env.fork.pid != 0 && r != Stalled
    ensures |after - {env.taskId}| < |before|
  {
    var waited :| AdmissionWait(poolSize, before, env.admission, waited) && ExecuteRegistry(poolSize, env, waited, after, r);
    AdmissionWaitShrinks(poolSize, before, env.admission, waited);
    UpdateMinusKeyCard(waited, env.taskId, env.fork.pid);
  }

  /** dispatch_command with cancel as the daemon intends it: what each
      command does to the registry, what it writes and how it ends. */
  ghost predicate Dispatches(poolSize: PyValue, chunkSize: nat, dtg: Datagram, env: HandlerEnv,
                             before: Registry, after: Registry, r: HandlerOutcome, writes: seq<Write>)
    requires WellFormed(dtg) && chunkSize >= 1
  {
    match GetHandler(dtg.command)
    case Err(_) => r == Returned(true) && writes == [] && after == before
    case Ok(HaltHandler) => r == Returned(false) && writes == [] && after == before
    case Ok(DescriptorHandler) => r == Raised(NotImplemented) && writes == [] && after == before
    case Ok(PingHandler) =>
      && after == before
      && (if IsService(dtg) then r == Returned(true) && writes == [Write(ServiceOutFd(dtg), Text("OK"))]
          else r == Raised(AttributeError) && writes == [])
    case Ok(CancelHandler) => Cancels(dtg, env.kill, before, after, r, writes)
    case Ok(ExecuteHandler) => Executes(poolSize, chunkSize, dtg, env, before, after, r, writes)
  }

  /** A trace of main-loop dispatches: the i-th event was delivered and
      dispatched from tables[i] to tables[i + 1], ending as outs[i] after
      writing ws[i]. */
  ghost predicate Traced(poolSize: PyValue, chunkSize: nat, events: seq<Event>,
                         tables: seq<Registry>, ws: seq<seq<Write>>, outs: seq<HandlerOutcome>)
    requires chunkSize >= 1
    requires forall i :: 0 <= i < |events| && events[i].received.Some? ==> WellFormed(events[i].received.value)
  {
    && |tables| == |outs| + 1 && |ws| == |outs| && |outs| <= |events|
    && forall i :: 0 <= i < |outs| ==>
         && Delivered(events[i].listenRc, events[i].received)
         && Dispatches(poolSize, chunkSize, events[i].received.value, events[i].env, tables[i], tables[i + 1], outs[i], ws[i])
  }

  lemma TracedAppend(poolSize: PyValue, chunkSize: nat, events: seq<Event>,
                     tables: seq<Registry>, ws: seq<seq<Write>>, outs: seq<HandlerOutcome>,
                     after: Registry, w: seq<Write>, h: HandlerOutcome)
    requires chunkSize >= 1
    requires forall i :: 0 <= i < |events| && events[i].received.Some? ==> WellFormed(events[i].received.value)
    requires Traced(poolSize, chunkSize, events, tables, ws, outs) && |outs| < |events|
    requires Delivered(events[|outs|].listenRc, events[|outs|].received)
    requires Dispatches(poolSize, chunkSize, events[|outs|].received.value, events[|outs|].env, tables[|outs|], after, h, w)
    ensures Traced(poolSize, chunkSize, events, tables + [after], ws + [w], outs + [h])
    ensures (tables + [after])[|outs| + 1] == after && (tables + [after])[0] == tables[0]
  {
    var tables', ws', outs' := tables + [after], ws + [w], outs + [h];
    forall i | 0 <= i < |outs'|
      ensures && Delivered(events[i].listenRc, events[i].received)
              && Dispatches(poolSize, chunkSize, events[i].received.value, events[i].env, tables'[i], tables'[i + 1], outs'[i], ws'[i])
    {
      if i < |outs| {
        assert tables'[i] == tables[i] && tables'[i + 1] == tables[i + 1] && outs'[i] == outs[i] && ws'[i] == ws[i];
      }
    }
  }

  /** Every dispatch of the trace was a delivered non-halt command whose
      handler answered True, so the loop went on. */
  predicate Continued(events: seq<Event>, outs: seq<HandlerOutcome>) {
    && |outs| <= |events|
    && forall i :: 0 <= i < |outs| ==>
         && Delivered(events[i].listenRc, events[i].received) && !IsHaltCommand(events[i].received.value)
         && outs[i] == Returned(true)
  }

  lemma ContinuedAppend(events: seq<Event>, outs: seq<HandlerOutcome>, h: HandlerOutcome)
    requires Continued(events, outs) && |outs| < |events|
    requires Delivered(events[|outs|].listenRc, events[|outs|].received)
    requires h == Returned(true) <==> !IsHaltCommand(events[|outs|].received.value) && h.Returned?
    ensures h == Returned(true) ==> Continued(events, outs + [h])
    ensures (outs + [h])[..|outs|] == outs
  {
  }

  /** Where and why the dispatch loop stopped, after using the first `used`
      events: every dispatch before the last event continued the loop, and
      the last event was not received, was a halt, or raised; or the events
      ran out with every one of them dispatched and answered True. */
  predicate EndsAt(stop: LoopStop, events: seq<Event>, used: nat, outs: seq<HandlerOutcome>)
    requires forall i :: 0 <= i < |events| && events[i].received.Some? ==> WellFormed(events[i].received.value)
  {
    && used <= |events|
    && |outs| == (if stop == BusFailed then used - 1 else used)
    && (stop != EventsEnded ==> used >= 1 && Continued(events, outs[..used - 1]))
    && (stop == BusFailed <==> used >= 1 && !Delivered(events[used - 1].listenRc, events[used - 1].received))
    && (stop == Halted <==>
          used >= 1 && Delivered(events[used - 1].listenRc, events[used - 1].received)
          && IsHaltCommand(events[used - 1].received.value))
    && (stop == Halted ==> outs[used - 1] == Returned(false))
    && (stop.Stopped? ==> used >= 1 && !stop.outcome.Returned? && stop.outcome == outs[used - 1])
    && (stop == EventsEnded ==> used == |events| && Continued(events, outs))
  }

  /** The writes of several dispatches, in the order they ran. */
  function ConcatWrites(ws: seq<seq<Write>>): seq<Write>
    decreases |ws|
  {
    if ws == [] then [] else ConcatWrites(ws[..|ws| - 1]) + ws[|ws| - 1]
  }

  lemma ConcatWritesAppend(ws: seq<seq<Write>>, w: seq<Write>)
    ensures ConcatWrites(ws + [w]) == ConcatWrites(ws) + w
  {
    assert (ws + [w])[..|ws|] == ws;
  }

  // ---------------------------------------------------------------------
  // The daemon object

  class Daemon {
    const storletName: string
    const sbusPath: string
    /** pool_size as the daemon is handed it. */
    const poolSize: PyValue
    const chunkSize: nat
    var taskIdToPid: Registry

    /** The pool bound: never more registered children than an int
        pool_size. */
    predicate Valid()
      reads this
    {
      chunkSize >= 1 && WithinPool(poolSize, |taskIdToPid|)
    }

    constructor (storletName: string, sbusPath: string, poolSize: PyValue)
      ensures this.storletName == storletName && this.sbusPath == sbusPath && this.poolSize == poolSize
      ensures chunkSize == CHUNK_SIZE && taskIdToPid == map[]
      ensures Valid()
    {
      this.storletName := storletName;
      this.sbusPath := sbusPath;
      this.poolSize := poolSize;
      this.chunkSize := CHUNK_SIZE;
      this.taskIdToPid := map[];
    }

    /** _cleanup_pids: two passes, collecting the terminated tasks and then
        popping them. */
    method CleanupPids(probe: int -> WaitPidAnswer)
      modifies this
      ensures taskIdToPid == Survivors(old(taskIdToPid), probe)
    {
      var terminated: seq<string> := [];
      var pending := taskIdToPid.Keys;
      ghost var seen: set<string> := {};
      while pending != {}
        invariant pending + seen == taskIdToPid.Keys && pending !! seen
        invariant taskIdToPid == old(taskIdToPid)
        invariant forall t :: t in terminated ==> t in seen
        invariant forall t :: t in seen ==> (t in terminated <==> ProbeSaysTerminated(probe(taskIdToPid[t])))
        decreases pending
      {
        var taskId :| taskId in pending;
        match probe(taskIdToPid[taskId]) {
          case Status(pid, rc) =>
            if pid != 0 || rc != 0 {
              terminated := terminated + [taskId];
            }
          case WaitPidFailed(e) =>
            if e == ESRCH {
              terminated := terminated + [taskId];
            }
            if e == ECHILD {
              terminated := terminated + [taskId];
            }
        }
        pending := pending - {taskId};
        seen := seen + {taskId};
      }
      ghost var reg0 := taskIdToPid;
      var i := 0;
      while i < |terminated|
        invariant 0 <= i <= |terminated|
        invariant taskIdToPid == map t | t in reg0 && t !in terminated[..i] :: reg0[t]
      {
        PrefixExtend(terminated, i);
        taskIdToPid := taskIdToPid - {terminated[i]};
        i := i + 1;
      }
      assert terminated[..i] == terminated;
    }

    /** _remove_pid. */
    method RemovePid(pid: int)
      modifies this
      ensures RemovedPid(old(taskIdToPid), pid, taskIdToPid)
    {
      var pending := taskIdToPid.Keys;
      while pending != {}
        invariant pending <= taskIdToPid.Keys
        invariant taskIdToPid == old(taskIdToPid)
        invariant forall t :: t in taskIdToPid && t !in pending ==> taskIdToPid[t] != pid
        decreases pending
      {
        var taskId :| taskId in pending;
        if taskIdToPid[taskId] == pid {
          taskIdToPid := taskIdToPid - {taskId};
          return;
        }
        pending := pending - {taskId};
      }
    }

    /** _wait_child_process. */
    method WaitChildProcess(round: WaitRound)
      modifies this
      ensures WaitChildStep(old(taskIdToPid), round, taskIdToPid)
      ensures SubMap(taskIdToPid, old(taskIdToPid))
    {
      var prevNum := |taskIdToPid|;
      CleanupPids(round.probe);
      if taskIdToPid == map[] || |taskIdToPid| < prevNum {
        return;
      }
      match round.waited {
        case Reaped(pid) => RemovePid(pid);
        case WaitFailed(e) =>
          if e == ECHILD {
            taskIdToPid := map[];
          }
      }
      WaitChildStepShrinks(old(taskIdToPid), round, taskIdToPid);
    }

    /** _wait_all_child_processes: waits round by round until no child is
        registered, or until the rounds given run out. */
    method WaitAllChildProcesses(rounds: seq<WaitRound>) returns (used: nat)
      modifies this
      ensures used <= |rounds|
      ensures Drains(old(taskIdToPid), rounds[..used], taskIdToPid)
      ensures taskIdToPid == map[] || used == |rounds|
      ensures SubMap(taskIdToPid, old(taskIdToPid))
    {
      used := 0;
      while |taskIdToPid| != 0
        invariant used <= |rounds|
        invariant Drains(old(taskIdToPid), rounds[..used], taskIdToPid)
        decreases |rounds| - used
      {
        if used == |rounds| {
          break;
        }
        ghost var before := taskIdToPid;
        WaitChildProcess(rounds[used]);
        WaitsWhileAppend(PyInt(1), old(taskIdToPid), rounds[..used], before, rounds[used], taskIdToPid);
        PrefixExtend(rounds, used);
        used := used + 1;
      }
      WaitsWhileShrinks(PyInt(1), old(taskIdToPid), rounds[..used], taskIdToPid);
    }

    /** halt: ends the main loop. */
    function Halt(dtg: Datagram): (r: HandlerOutcome)
      ensures r == Returned(false)
    {
      Returned(false)
    }

    /** descriptor: not implemented. */
    function Descriptor(dtg: Datagram): (r: HandlerOutcome)
      ensures r == Raised(NotImplemented)
    {
      Raised(NotImplemented)
    }

    /** ping: answers 'OK' on the service descriptor and keeps the loop going;
        only a service datagram has that descriptor. */
    method Ping(dtg: Datagram) returns (r: HandlerOutcome, writes: seq<Write>)
      requires WellFormed(dtg)
      ensures IsService(dtg) ==> r == Returned(true) && writes == [Write(ServiceOutFd(dtg), Text("OK"))]
      ensures !IsService(dtg) ==> r == Raised(AttributeError) && writes == []
    {
      if !IsService(dtg) {
        return Raised(AttributeError), [];
      }
      var outFd := ServiceOutFd(dtg);
      return Returned(true), [Write(outFd, Text("OK"))];
    }

    /** cancel as the daemon intends it (see Cancels). */
    method Cancel(dtg: Datagram, kill: int -> bool) returns (r: HandlerOutcome, writes: seq<Write>)
      requires WellFormed(dtg)
      modifies this
      ensures Cancels(dtg, kill, old(taskIdToPid), taskIdToPid, r, writes)
      ensures SubMap(taskIdToPid, old(taskIdToPid))
    {
      if !IsService(dtg) {
        return Raised(AttributeError), [];
      }
      var outFd := ServiceOutFd(dtg);
      var pid := PidOf(taskIdToPid, dtg.taskId);
      if pid == 0 {
        writes := [Write(outFd, Text("BAD"))];
      } else if kill(pid) {
        RemovePid(pid);
        RemovedPidShrinks(old(taskIdToPid), pid, taskIdToPid);
        writes := [Write(outFd, Text("OK"))];
      } else {
        writes := [Write(outFd, Text("ERROR"))];
      }
      return Returned(true), writes;
    }

    /** cancel as written: os.kill is called with the pid alone, which raises
        TypeError (not the OSError it catches) for every registered task, and
        an unknown task answers 'BAD' but returns False, ending the main loop. */
    method CancelAsWritten(dtg: Datagram) returns (r: HandlerOutcome, writes: seq<Write>)
      requires WellFormed(dtg)
      ensures !IsService(dtg) ==> r == Raised(AttributeError) && writes == []
      ensures IsService(dtg) && PidOf(taskIdToPid, dtg.taskId) == 0 ==>
                r == Returned(false) && writes == [Write(ServiceOutFd(dtg), Text("BAD"))]
      ensures IsService(dtg) && PidOf(taskIdToPid, dtg.taskId) != 0 ==> r == Raised(TypeError) && writes == []
    {
      if !IsService(dtg) {
        return Raised(AttributeError), [];
      }
      var outFd := ServiceOutFd(dtg);
      var pid := PidOf(taskIdToPid, dtg.taskId);
      if pid == 0 {
        return Returned(false), [Write(outFd, Text("BAD"))];
      }
      return Raised(TypeError), [];
    }

    /** The admission wait of execute: while the pool is full, one
        _wait_child_process per round given; admitted is false when the
        rounds ran out first. */
    method WaitForSlot(admission: seq<WaitRound>) returns (admitted: bool, used: nat)
      requires Valid()
      modifies this
      ensures Valid()
      ensures used <= |admission| && WaitsWhile(poolSize, old(taskIdToPid), admission[..used], taskIdToPid)
      ensures admitted <==> !PyAtLeast(|taskIdToPid|, poolSize)
      ensures !admitted ==> used == |admission|
      ensures AdmissionWait(poolSize, old(taskIdToPid), admission, taskIdToPid)
      ensures !PyAtLeast(|old(taskIdToPid)|, poolSize) ==> used == 0 && taskIdToPid == old(taskIdToPid)
    {
      used := 0;
      while PyAtLeast(|taskIdToPid|, poolSize)
        invariant used <= |admission| && Valid()
        invariant WaitsWhile(poolSize, old(taskIdToPid), admission[..used], taskIdToPid)
        invariant used == 0 ==> taskIdToPid == old(taskIdToPid)
        invariant used > 0 ==> PyAtLeast(|old(taskIdToPid)|, poolSize)
        decreases |admission| - used
      {
        if used == |admission| {
          return false, used;
        }
        ghost var before := taskIdToPid;
        WaitChildProcess(admission[used]);
        SubMapCard(taskIdToPid, before);
        WaitsWhileAppend(poolSize, old(taskIdToPid), admission[..used], before, admission[used], taskIdToPid);
        PrefixExtend(admission, used);
        used := used + 1;
      }
      return true, used;
    }

    /** execute once a pool slot is free: hand out the task id and fork; the
        parent registers the child and closes its copies of the descriptors,
        the child echoes the first input's metadata and data and exits. */
    method ForkTask(dtg: Datagram, env: HandlerEnv) returns (r: HandlerOutcome, writes: seq<Write>)
      requires WellFormed(dtg) && IsExecute(dtg) && Valid() && !PyAtLeast(|taskIdToPid|, poolSize)
      modifies this
      ensures Valid()
      ensures ExecuteRegistry(poolSize, env, old(taskIdToPid), taskIdToPid, r)
      ensures ExecuteOutput(chunkSize, dtg, env, r, writes)
      ensures r.Returned? ==> r.keepGoing
    {
      writes := [Write(TaskIdOutFd(dtg), Text(env.taskId))];
      var inMd := ObjectInMetadata(dtg);
      var outMdFds := ObjectMetadataOutFds(dtg);
      var outFds := ObjectOutFds(dtg);
      var loggerFd := LoggerOutFd(dtg);
      match env.fork {
        case ForkFailed =>
          r := Raised(OsError(OtherErrno));
        case Forked(pid) =>
          if pid != 0 {
            taskIdToPid := taskIdToPid[env.taskId := pid];
            var c := CloseParentFds(dtg, env.close);
            r := if c.Fail? then Raised(OsError(c.error)) else Returned(true);
          } else {
            writes := writes + [Write(outMdFds[0], JsonText(StrMapToJson(inMd[0])))];
            writes := writes + [Write(loggerFd, Text("Executed\n"))];
            var chunks := CopyInChunks(env.input, chunkSize);
            writes := writes + WritesTo(outFds[0], chunks);
            r := ChildExit;
          }
      }
    }

    /** execute: wait for a free pool slot, then fork the task. */
    method Execute(dtg: Datagram, env: HandlerEnv) returns (r: HandlerOutcome, writes: seq<Write>)
      requires WellFormed(dtg) && Valid()
      modifies this
      ensures Valid()
      ensures Executes(poolSize, chunkSize, dtg, env, old(taskIdToPid), taskIdToPid, r, writes)
      ensures r.Returned? ==> r.keepGoing
      ensures IsExecute(dtg) && !PyAtLeast(|old(taskIdToPid)|, poolSize) ==>
                && r != Stalled
                && taskIdToPid == if env.fork.Forked? && env.fork.pid != 0
                                  then old(taskIdToPid)[env.taskId := env.fork.pid] else old(taskIdToPid)
    {
      if !IsExecute(dtg) {
        return Raised(AttributeError), [];
      }
      var admitted, _ := WaitForSlot(env.admission);
      ghost var waited := taskIdToPid;
      if !admitted {
        r, writes := Stalled, [];
        assert ExecuteRegistry(poolSize, env, waited, taskIdToPid, r);
        return;
      }
      r, writes := ForkTask(dtg, env);
    }

    /** dispatch_command, with cancel as the daemon intends it: an unknown
        command is logged and the loop goes on; anything else runs its
        handler, and only halt ends the loop. */
    method DispatchCommand(dtg: Datagram, env: HandlerEnv) returns (r: HandlerOutcome, writes: seq<Write>)
      requires WellFormed(dtg) && Valid()
      modifies this
      ensures Valid()
      ensures r == Returned(false) <==> IsHaltCommand(dtg)
      ensures GetHandler(dtg.command).Err? ==> r == Returned(true) && writes == [] && taskIdToPid == old(taskIdToPid)
      ensures IsHaltCommand(dtg) ==> writes == [] && taskIdToPid == old(taskIdToPid)
      ensures Dispatches(poolSize, chunkSize, dtg, env, old(taskIdToPid), taskIdToPid, r, writes)
    {
      match GetHandler(dtg.command) {
        case Err(_) =>
          return Returned(true), [];
        case Ok(h) =>
          match h {
            case HaltHandler =>
              r := Halt(dtg);
              writes := [];
            case ExecuteHandler =>
              r, writes := Execute(dtg, env);
            case DescriptorHandler =>
              r := Descriptor(dtg);
              writes := [];
            case PingHandler =>
              r, writes := Ping(dtg);
            case CancelHandler =>
              r, writes := Cancel(dtg, env.kill);
              SubMapCard(taskIdToPid, old(taskIdToPid));
          }
      }
    }

    /** dispatch_command as written, running cancel as written: besides
        halt, a cancel for a task that is not registered ends the loop. */
    method DispatchCommandAsWritten(dtg: Datagram, env: HandlerEnv) returns (r: HandlerOutcome, writes: seq<Write>)
      requires WellFormed(dtg) && Valid()
      modifies this
      ensures Valid()
      ensures r == Returned(false) <==>
                || IsHaltCommand(dtg)
                || (GetHandler(dtg.command) == Ok(CancelHandler) && IsService(dtg) && PidOf(old(taskIdToPid), dtg.taskId) == 0)
      ensures GetHandler(dtg.command) == Ok(CancelHandler) ==> taskIdToPid == old(taskIdToPid)
      ensures GetHandler(dtg.command) == Ok(CancelHandler) && IsService(dtg) && PidOf(old(taskIdToPid), dtg.taskId) != 0 ==>
                r == Raised(TypeError) && writes == []
    {
      if GetHandler(dtg.command) == Ok(CancelHandler) {
        r, writes := CancelAsWritten(dtg);
      } else {
        r, writes := DispatchCommand(dtg, env);
      }
    }

    /** One turn of the while loop of main_loop, appended to its trace:
        listen and receive, then dispatch what was received. `stop` is where
        the loop ends at this event, if it does. */
    method ServeEvent(e: Event, ghost events: seq<Event>, ghost tables: seq<Registry>,
                      ghost ws: seq<seq<Write>>, ghost outs: seq<HandlerOutcome>)
      returns (stop: Option<LoopStop>, w: seq<Write>,
               ghost tables': seq<Registry>, ghost ws': seq<seq<Write>>, ghost outs': seq<HandlerOutcome>)
      requires Valid()
      requires forall i :: 0 <= i < |events| && events[i].received.Some? ==> WellFormed(events[i].received.value)
      requires Traced(poolSize, chunkSize, events, tables, ws, outs) && Continued(events, outs)
      requires |outs| < |events| && e == events[|outs|] && tables[|outs|] == taskIdToPid
      modifies this
      ensures Valid()
      ensures Traced(poolSize, chunkSize, events, tables', ws', outs')
      ensures tables'[0] == tables[0] && tables'[|outs'|] == taskIdToPid && ConcatWrites(ws') == ConcatWrites(ws) + w
      ensures stop.None? ==> outs' == outs + [Returned(true)] && Continued(events, outs')
      ensures stop.Some? ==> stop.value != EventsEnded && EndsAt(stop.value, events, |outs| + 1, outs')
    {
      if e.listenRc < 0 || e.received.None? {
        tables', ws', outs' := tables, ws, outs;
        assert outs[..|outs|] == outs;
        return Some(BusFailed), [], tables', ws', outs';
      }
      var h;
      h, w := DispatchCommand(e.received.value, e.env);
      TracedAppend(poolSize, chunkSize, events, tables, ws, outs, taskIdToPid, w, h);
      ContinuedAppend(events, outs, h);
      ConcatWritesAppend(ws, w);
      tables', ws', outs' := tables + [taskIdToPid], ws + [w], outs + [h];
      if h == Returned(false) {
        stop := Some(Halted);
      } else if h != Returned(true) {
        stop := Some(Stopped(h));
      } else {
        stop := None;
      }
    }

    /** The while loop of main_loop: listen, receive and dispatch until a
        handler answers False. The ghost results trace the dispatches: the
        registry before and after each one, what each wrote and how each
        ended. */
    method DispatchLoop(events: seq<Event>)
      returns (stop: LoopStop, used: nat, writes: seq<Write>,
               ghost tables: seq<Registry>, ghost ws: seq<seq<Write>>, ghost outs: seq<HandlerOutcome>)
      requires Valid()
      requires forall i :: 0 <= i < |events| && events[i].received.Some? ==> WellFormed(events[i].received.value)
      modifies this
      ensures Valid()
      ensures used <= |events|
      ensures Traced(poolSize, chunkSize, events, tables, ws, outs)
      ensures tables[0] == old(taskIdToPid) && tables[|outs|] == taskIdToPid && writes == ConcatWrites(ws)
      ensures EndsAt(stop, events, used, outs)
    {
      writes := [];
      used := 0;
      tables, ws, outs := [taskIdToPid], [], [];
      while true
        invariant used <= |events| && Valid()
        invariant Traced(poolSize, chunkSize, events, tables, ws, outs) && |outs| == used
        invariant tables[0] == old(taskIdToPid) && tables[used] == taskIdToPid && writes == ConcatWrites(ws)
        invariant Continued(events, outs)
        decreases |events| - used
      {
        if used == |events| {
          return EventsEnded, used, writes, tables, ws, outs;
        }
        var next, w;
        next, w, tables, ws, outs := ServeEvent(events[used], events, tables, ws, outs);
        used := used + 1;
        writes := writes + w;
        if next.Some? {
          return next.value, used, writes, tables, ws, outs;
        }
      }
    }

    /** main_loop: exits with failure when the bus cannot be created, listened
        on or read; otherwise dispatches until a handler returns False, then
        waits for every child and exits with success. The ghost results are
        the trace of the dispatch loop. */
    method MainLoop(createFd: int, events: seq<Event>, drain: seq<WaitRound>)
      returns (r: LoopOutcome, used: nat, writes: seq<Write>,
               ghost tables: seq<Registry>, ghost ws: seq<seq<Write>>, ghost outs: seq<HandlerOutcome>)
      requires Valid()
      requires forall i :: 0 <= i < |events| && events[i].received.Some? ==> WellFormed(events[i].received.value)
      modifies this
      ensures Valid()
      ensures used <= |events|
      ensures createFd < 0 ==> r == ExitCode(EXIT_FAILURE) && used == 0 && taskIdToPid == old(taskIdToPid)
      ensures r.ExitCode? ==> r.code == EXIT_SUCCESS || r.code == EXIT_FAILURE
      ensures r == ExitCode(EXIT_FAILURE) && createFd >= 0 ==>
                used >= 1 && !Delivered(events[used - 1].listenRc, events[used - 1].received)
      ensures createFd >= 0 && used >= 1 && !Delivered(events[used - 1].listenRc, events[used - 1].received) ==>
                r == ExitCode(EXIT_FAILURE)
      ensures r == ExitCode(EXIT_SUCCESS) ==> taskIdToPid == map[]
      ensures r == StillDraining ==> taskIdToPid != map[]
      ensures r == ExitCode(EXIT_SUCCESS) || r == StillDraining ==>
                && used >= 1 && Delivered(events[used - 1].listenRc, events[used - 1].received)
                && IsHaltCommand(events[used - 1].received.value)
      ensures used >= 1 && Delivered(events[used - 1].listenRc, events[used - 1].received)
              && IsHaltCommand(events[used - 1].received.value) ==>
                r == ExitCode(EXIT_SUCCESS) || r == StillDraining
      ensures r.HandlerEnded? ==> used >= 1 && Delivered(events[used - 1].listenRc, events[used - 1].received) && !r.outcome.Returned?
      ensures r == OutOfEvents ==> used == |events| && Continued(events, outs)
      // The trace: every delivered event was dispatched from the registry
      // the previous one left, and the writes are theirs in order.
      ensures Traced(poolSize, chunkSize, events, tables, ws, outs) && tables[0] == old(taskIdToPid)
      ensures writes == ConcatWrites(ws)
      ensures |outs| == if r == ExitCode(EXIT_FAILURE) && createFd >= 0 then used - 1 else used
      ensures createFd >= 0 && r != OutOfEvents ==> used >= 1 && Continued(events, outs[..used - 1])
      ensures r.HandlerEnded? ==> r.outcome == outs[|outs| - 1]
      ensures r == ExitCode(EXIT_SUCCESS) || r == StillDraining ==>
                && outs[|outs| - 1] == Returned(false)
                && exists n :: 0 <= n <= |drain| && Drains(tables[|outs|], drain[..n], taskIdToPid)
                               && (taskIdToPid == map[] || n == |drain|)
      ensures !(r == ExitCode(EXIT_SUCCESS) || r == StillDraining) ==> taskIdToPid == tables[|outs|]
    {
      if createFd < 0 {
        return ExitCode(EXIT_FAILURE), 0, [], [taskIdToPid], [], [];
      }
      var stop;
      stop, used, writes, tables, ws, outs := DispatchLoop(events);
      match stop {
        case BusFailed =>
          r := ExitCode(EXIT_FAILURE);
        case Stopped(h) =>
          r := HandlerEnded(h);
        case EventsEnded =>
          r := OutOfEvents;
        case Halted =>
          ghost var halted := taskIdToPid;
          var n := WaitAllChildProcesses(drain);
          SubMapCard(taskIdToPid, halted);
          r := if taskIdToPid == map[] then ExitCode(EXIT_SUCCESS) else StillDraining;
      }
    }
  }

  // ---------------------------------------------------------------------
  // Command line

  /** The pool size as main passes it: argv[3] itself, a str. */
  function PoolSizeAsWritten(argv: seq<string>): (v: PyValue)
    requires |argv| == 5
    ensures v.PyStr? && v.s == argv[3]
  {
    PyStr(argv[3])
  }

  datatype DaemonArgs = DaemonArgs(storletName: string, sbusPath: string, logLevel: string, poolSize: int, containerId: string)

  datatype MainError = Usage | BadPoolSize

  /** main's argument handling, with the pool size converted to an integer:
      exactly five arguments, the fourth one decimal digits. */
  function ParseMainArgs(argv: seq<string>): (r: Result<DaemonArgs, MainError>)
    ensures r == Err(Usage) <==> |argv| != 5
    ensures r == Err(BadPoolSize) <==> |argv| == 5 && ParseDigits(argv[3], 10).None?
    ensures r.Ok? ==> && r.value.storletName == argv[0] && r.value.sbusPath == argv[1]
                      && r.value.logLevel == argv[2] && r.value.containerId == argv[4]
                      && Some(r.value.poolSize) == ParseDigits(argv[3], 10)
  {
    if |argv| != 5 then Err(Usage)
    else match ParseDigits(argv[3], 10)
      case None => Err(BadPoolSize)
      case Some(n) => Ok(DaemonArgs(argv[0], argv[1], argv[2], n, argv[4]))
  }

  /** With the str pool size main passes, the admission test
      `len(task_id_to_pid) >= pool_size` never holds: execute takes no
      admission round, and a parent registers one more child however many
      already run, beyond the number argv[3] names. */
  lemma AdmissionNeverWaitsAsWritten(argv: seq<string>, chunkSize: nat, dtg: Datagram, env: HandlerEnv,
                                     before: Registry, after: Registry, r: HandlerOutcome, writes: seq<Write>)
    requires |argv| == 5 && WellFormed(dtg) && IsExecute(dtg) && chunkSize >= 1
    requires Executes(PoolSizeAsWritten(argv), chunkSize, dtg, env, before, after, r, writes)
    requires env.fork.Forked? && env.fork.pid != 0 && env.taskId !in before
    ensures r != Stalled && after == before[env.taskId := env.fork.pid] && |after| == |before| + 1
    ensures ParseMainArgs(argv).Ok? && |before| >= ParseMainArgs(argv).value.poolSize ==>
              |after| > ParseMainArgs(argv).value.poolSize
  {
    ExecuteWithRoom(PoolSizeAsWritten(argv), chunkSize, dtg, env, before, after, r, writes);
  }

  /** With the pool size converted as ParseMainArgs does, execute keeps the
      registry within pool_size, and when the pool is full a parent
      registers its child only after some earlier child was reaped. */
  lemma AdmissionWaitsWhenFull(argv: seq<string>, chunkSize: nat, dtg: Datagram, env: HandlerEnv,
                               before: Registry, after: Registry, r: HandlerOutcome, writes: seq<Write>)
    requires ParseMainArgs(argv).Ok? && WellFormed(dtg) && chunkSize >= 1
    requires |before| <= ParseMainArgs(argv).value.poolSize
    requires Executes(PyInt(ParseMainArgs(argv).value.poolSize), chunkSize, dtg, env, before, after, r, writes)
    ensures |after| <= ParseMainArgs(argv).value.poolSize
    ensures IsExecute(dtg) && env.fork.Forked? && env.fork.pid != 0 && r != Stalled
            && |before| >= ParseMainArgs(argv).value.poolSize ==>
              |after - {env.taskId}| < |before|
  {
    var poolSize := PyInt(ParseMainArgs(argv).value.poolSize);
    ExecuteKeepsPool(poolSize, chunkSize, dtg, env, before, after, r, writes);
    if IsExecute(dtg) && env.fork.Forked? && env.fork.pid != 0 && r != Stalled && PyAtLeast(|before|, poolSize) {
      ExecuteReapsWhenFull(poolSize, chunkSize, dtg, env, before, after, r, writes);
    }
  }
}
