/** Bus command names and the prefix-based handler lookup shared by the
    storlet daemon and the daemon factory (their `get_handler`). */
module Command {
  import opened Wrappers
  import opened Strings

  /** SBUS_CMD_PREFIX: every bus command name starts with it. */
  const SBUS_CMD_PREFIX: string := "SBUS_CMD_"

  const SBUS_CMD_HALT: string := "SBUS_CMD_HALT"
  const SBUS_CMD_EXECUTE: string := "SBUS_CMD_EXECUTE"
  const SBUS_CMD_START_DAEMON: string := "SBUS_CMD_START_DAEMON"
  const SBUS_CMD_STOP_DAEMON: string := "SBUS_CMD_STOP_DAEMON"
  const SBUS_CMD_DAEMON_STATUS: string := "SBUS_CMD_DAEMON_STATUS"
  const SBUS_CMD_STOP_DAEMONS: string := "SBUS_CMD_STOP_DAEMONS"
  const SBUS_CMD_PING: string := "SBUS_CMD_PING"
  const SBUS_CMD_DESCRIPTOR: string := "SBUS_CMD_DESCRIPTOR"
  const SBUS_CMD_CANCEL: string := "SBUS_CMD_CANCEL"

  /** The ValueError raised by get_handler. */
  datatype UnknownCommand = UnknownCommand(command: string)

  function UnknownCommandMessage(e: UnknownCommand): string {
    "got unknown command " + e.command
  }

  /** The name get_handler looks the command up under: the text after the
      prefix, lower-cased. */
  function HandlerName(command: string): string
    requires StartsWith(command, SBUS_CMD_PREFIX)
  {
    Lower(command[|SBUS_CMD_PREFIX|..])
  }

  /** get_handler: a command resolves only when it carries the prefix and its
      lower-cased rest names a method marked as a command handler; `handlers`
      holds exactly the marked methods, so a missing prefix, an unknown name
      and an unmarked method all raise the same error. */
  function ResolveCommand<H>(command: string, handlers: map<string, H>): (r: Result<H, UnknownCommand>)
    ensures r.Ok? <==> StartsWith(command, SBUS_CMD_PREFIX) && HandlerName(command) in handlers
    ensures r.Ok? ==> r.value == handlers[HandlerName(command)]
    ensures r.Err? ==> r.error == UnknownCommand(command)
  {
    if !StartsWith(command, SBUS_CMD_PREFIX) then Err(UnknownCommand(command))
    else if HandlerName(command) !in handlers then Err(UnknownCommand(command))
    else Ok(handlers[HandlerName(command)])
  }

  /** The command for a handler name spelled in upper case after the prefix
      resolves to that handler. */
  lemma ResolveHandlerCommand<H>(name: string, handlers: map<string, H>)
    requires name in handlers
    requires forall i :: 0 <= i < |name| ==> !('A' <= name[i] <= 'Z')
    ensures ResolveCommand(SBUS_CMD_PREFIX + Upper(name), handlers) == Ok(handlers[name])
  {
    var command := SBUS_CMD_PREFIX + Upper(name);
    assert command[..|SBUS_CMD_PREFIX|] == SBUS_CMD_PREFIX;
    assert command[|SBUS_CMD_PREFIX|..] == Upper(name);
    LowerUpper(name);
  }

  /** Commands that differ only in the case of their suffix resolve alike. */
  lemma ResolveIgnoresSuffixCase<H>(c1: string, c2: string, handlers: map<string, H>)
    requires StartsWith(c1, SBUS_CMD_PREFIX) && StartsWith(c2, SBUS_CMD_PREFIX)
    requires |c1| == |c2|
    requires forall i :: |SBUS_CMD_PREFIX| <= i < |c1| ==> LowerChar(c1[i]) == LowerChar(c2[i])
    ensures ResolveCommand(c1, handlers).Ok? == ResolveCommand(c2, handlers).Ok?
    ensures ResolveCommand(c1, handlers).Ok? ==> ResolveCommand(c1, handlers).value == ResolveCommand(c2, handlers).value
  {
    var n := |SBUS_CMD_PREFIX|;
    assert forall i :: 0 <= i < |c1| - n ==> c1[n..][i] == c1[n + i] && c2[n..][i] == c2[n + i];
    assert HandlerName(c1) == HandlerName(c2);
  }

  // Commands both the daemon and the factory answer.

  lemma HaltCommandName()
    ensures StartsWith(SBUS_CMD_HALT, SBUS_CMD_PREFIX) && HandlerName(SBUS_CMD_HALT) == "halt"
  {
    assert SBUS_CMD_HALT[..9] == SBUS_CMD_PREFIX && SBUS_CMD_HALT[9..] == "HALT";
    forall i | 0 <= i < 4 ensures HandlerName(SBUS_CMD_HALT)[i] == "halt"[i] {
    }
  }

  lemma PingCommandName()
    ensures StartsWith(SBUS_CMD_PING, SBUS_CMD_PREFIX) && HandlerName(SBUS_CMD_PING) == "ping"
  {
    assert SBUS_CMD_PING[..9] == SBUS_CMD_PREFIX && SBUS_CMD_PING[9..] == "PING";
    forall i | 0 <= i < 4 ensures HandlerName(SBUS_CMD_PING)[i] == "ping"[i] {
    }
  }
}
