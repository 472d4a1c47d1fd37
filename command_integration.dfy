/** How a component drives the command executor: a message asks to execute,
    undo or redo, and the outcome comes back as a status output whose text
    the component keeps as its last result. */
module CommandIntegration {
  import opened Wrappers
  import opened Commands

  datatype CommandMsg = Execute(command: AppCommand) | Undo | Redo

  datatype CommandOutput =
    | CommandExecuted(description: string)
    | UndoPerformed(description: string)
    | RedoPerformed(description: string)
    | CommandFailed(error: string)

  /** The history after handling a message, and the output reported for it;
      an execution is described before it runs. */
  function Handle(msg: CommandMsg, h: History<AppCommand>): (History<AppCommand>, Option<CommandOutput>) {
    match msg
    case Execute(c) =>
      var description := Description(c);
      (ExecuteApp(h, c),
       match ExecuteResult(c)
       case Ok(_) => Some(CommandExecuted(description))
       case Err(e) => Some(CommandFailed(e)))
    case Undo =>
      var (h', r) := UndoApp(h);
      (h', match r case Ok(d) => Some(UndoPerformed(d)) case Err(e) => Some(CommandFailed(e)))
    case Redo =>
      var (h', r) := RedoApp(h);
      (h', match r case Ok(d) => Some(RedoPerformed(d)) case Err(e) => Some(CommandFailed(e)))
  }

  /** Every message gets an output; success and failure of the executor map
      onto the matching output, carrying its description or its error. */
  lemma HandleReports(msg: CommandMsg, h: History<AppCommand>)
    ensures Handle(msg, h).1.Some?
    ensures msg.Execute? ==> Handle(msg, h).1 == Some(CommandExecuted(Description(msg.command)))
    ensures msg.Undo? ==> match UndoApp(h).1
      case Ok(d) => Handle(msg, h).1 == Some(UndoPerformed(d))
      case Err(e) => Handle(msg, h).1 == Some(CommandFailed(e))
    ensures msg.Redo? ==> match RedoApp(h).1
      case Ok(d) => Handle(msg, h).1 == Some(RedoPerformed(d))
      case Err(e) => Handle(msg, h).1 == Some(CommandFailed(e))
  {
  }

  /** The text a component keeps for an output: the description on success,
      the error behind "Error: " on failure. */
  function ResultText(out: CommandOutput): (t: string)
    ensures out.CommandFailed? ==> t == "Error: " + out.error
    ensures !out.CommandFailed? ==> t == out.description
  {
    match out
    case CommandExecuted(d) => d
    case UndoPerformed(d) => d
    case RedoPerformed(d) => d
    case CommandFailed(e) => "Error: " + e
  }

  /** Executing a notification-center toggle, a volume setting and a
      workspace switch from an empty history leaves two commands to undo,
      and undoing then succeeds and reports the workspace switch. */
  lemma TileScenario()
    ensures var h := ExecuteApp(ExecuteApp(ExecuteApp(Empty, ToggleNotificationCenter), SetVolume(0.75)), SwitchWorkspace(3));
      && h.undo == [SetVolume(0.75), SwitchWorkspace(3)]
      && UndoApp(h).1 == Ok("Undid: " + Description(SwitchWorkspace(3)))
  {
    var h := ExecuteApp(ExecuteApp(ExecuteApp(Empty, ToggleNotificationCenter), SetVolume(0.75)), SwitchWorkspace(3));
    assert ExecuteApp(Empty, ToggleNotificationCenter) == Empty;
    assert ExecuteApp(Empty, SetVolume(0.75)) == History([SetVolume(0.75)], []);
    assert h == History([SetVolume(0.75), SwitchWorkspace(3)], []);
    assert h.undo[|h.undo| - 1] == SwitchWorkspace(3);

  }

  /** Executing a volume setting and undoing it through a component leaves
      a result text each time. */
  lemma ComponentScenario()
    ensures Handle(Execute(SetVolume(0.8)), Empty).1.Some?
    ensures Handle(Undo, Handle(Execute(SetVolume(0.8)), Empty).0).1 == Some(UndoPerformed("Undid: " + Description(SetVolume(0.8))))
  {
    assert Handle(Execute(SetVolume(0.8)), Empty).0.undo == [SetVolume(0.8)];
  }

  /** `handle_command_message` against a live executor. */
  method HandleCommandMessage(msg: CommandMsg, executor: GlobalCommandExecutor) returns (out: Option<CommandOutput>)
    requires executor.manager.maxHistorySize == GlobalHistorySize
    modifies executor.manager
    ensures executor.manager.Snapshot() == Handle(msg, old(executor.manager.Snapshot())).0
    ensures out == Handle(msg, old(executor.manager.Snapshot())).1
  {
    match msg
    case Execute(command) =>
      var description := Description(command);
      var r := executor.Execute(command);
      out := match r case Ok(_) => Some(CommandExecuted(description)) case Err(e) => Some(CommandFailed(e));
    case Undo =>
      var r := executor.Undo();
      out := match r case Ok(d) => Some(UndoPerformed(d)) case Err(e) => Some(CommandFailed(e));
    case Redo =>
      var r := executor.Redo();
      out := match r case Ok(d) => Some(RedoPerformed(d)) case Err(e) => Some(CommandFailed(e));
  }

  class ComponentWithCommands {
    const commandExecutor: GlobalCommandExecutor
    var lastCommandResult: Option<string>

    constructor ()
      ensures fresh(commandExecutor) && fresh(commandExecutor.manager)
      ensures commandExecutor.manager.Snapshot() == Empty
      ensures commandExecutor.manager.maxHistorySize == GlobalHistorySize
      ensures lastCommandResult == None
    {
      commandExecutor := new GlobalCommandExecutor();
      lastCommandResult := None;
    }

    /** Handles one command message and records the text of its output. */
    method ProcessCommand(msg: CommandMsg)
      requires commandExecutor.manager.maxHistorySize == GlobalHistorySize
      modifies this`lastCommandResult, commandExecutor.manager
      ensures commandExecutor.manager.Snapshot() == Handle(msg, old(commandExecutor.manager.Snapshot())).0
      ensures lastCommandResult == Some(ResultText(Handle(msg, old(commandExecutor.manager.Snapshot())).1.value))
    {
      HandleReports(msg, commandExecutor.manager.Snapshot());
      var output := HandleCommandMessage(msg, commandExecutor);
      match output
      case Some(out) =>
        match out {
          case CommandExecuted(desc) => lastCommandResult := Some(desc);
          case UndoPerformed(desc) => lastCommandResult := Some(desc);
          case RedoPerformed(desc) => lastCommandResult := Some(desc);
          case CommandFailed(error) => lastCommandResult := Some("Error: " + error);
        }
    }
  }
}
