/** Bounded undo and redo: a command manager holding two stacks of executed
    commands, and the shell's own commands, of which only a workspace switch
    and the volume and brightness settings can be undone. */
module Commands {
  import opened Wrappers
  import opened RustText

  // ---------------------------------------------------------------------
  // The shell's commands
  // ---------------------------------------------------------------------

  datatype AppCommand =
    | ToggleNotificationCenter
    | DismissNotification(id: nat)
    | ToggleWifiMenu
    | SwitchWorkspace(workspace: nat)
    | SetVolume(volume: real)
    | SetBrightness(brightness: real)
    | ToggleMediaPlayback

  /** Executing any of the shell's commands succeeds; the effect itself is
      only logged. */
  function ExecuteResult(c: AppCommand): (r: Result<(), string>)
    ensures r.Ok?
  {
    Ok(())
  }

  /** Whether the command is kept for undoing. */
  predicate CanUndo(c: AppCommand) {
    c.SwitchWorkspace? || c.SetVolume? || c.SetBrightness?
  }

  /** Undoing succeeds for a workspace switch and a volume or brightness
      setting, and fails with a fixed message for the rest. */
  function UndoResult(c: AppCommand): Result<(), string> {
    match c
    case SwitchWorkspace(_) => Ok(())
    case SetVolume(_) => Ok(())
    case SetBrightness(_) => Ok(())
    case _ => Err("this command cannot be undone")
  }

  /** A command is kept for undoing exactly when undoing it succeeds. */
  lemma UndoableIffUndoSucceeds(c: AppCommand)
    ensures CanUndo(c) <==> UndoResult(c).Ok?
    ensures !CanUndo(c) ==> UndoResult(c) == Err("this command cannot be undone")
  {
  }

  /** The human-readable description; a level is shown as a whole percentage. */
  function Description(c: AppCommand): (d: string)
    ensures |d| > 0
  {
    match c
    case ToggleNotificationCenter => "toggle notification center"
    case DismissNotification(id) => "dismiss notification " + NatToString(id)
    case ToggleWifiMenu => "toggle wifi menu"
    case SwitchWorkspace(ws) => "switch to workspace " + NatToString(ws)
    case SetVolume(vol) => "set volume to " + FormatNoDecimals(vol * 100.0) + "%"
    case SetBrightness(br) => "set brightness to " + FormatNoDecimals(br * 100.0) + "%"
    case ToggleMediaPlayback => "toggle media playback"
  }

  /** The descriptions the module's own examples expect. */
  lemma DescriptionExamples()
    ensures Description(SetVolume(0.75)) == "set volume to 75%"
    ensures Description(SwitchWorkspace(3)) == "switch to workspace 3"
  {
    FormatNoDecimalsWhole(75);
    assert 0.75 * 100.0 == 75 as real;
  }

  // ---------------------------------------------------------------------
  // The manager's two stacks
  // ---------------------------------------------------------------------

  /** The undo and redo stacks; the top of each is its last element. */
  datatype History<C> = History(undo: seq<C>, redo: seq<C>)

  const Empty: History<AppCommand> := History([], [])

  /** After executing `c` with the given outcome: an undoable success clears
      the redo stack and pushes `c`, dropping the oldest entry when the undo
      stack grows past `max`; anything else leaves both stacks alone. */
  function ExecuteSpec<C>(h: History<C>, max: nat, c: C, outcome: Result<(), string>, undoable: bool): History<C> {
    if outcome.Ok? && undoable then
      var pushed := h.undo + [c];
      History(if |pushed| > max then pushed[1..] else pushed, [])
    else h
  }

  /** Undoing the top command, given what undoing it reports. */
  function UndoSpec<C>(h: History<C>, undo: C -> Result<(), string>, describe: C -> string): (History<C>, Result<string, string>) {
    if h.undo == [] then (h, Err("Nothing to undo"))
    else
      var c := h.undo[|h.undo| - 1];
      match undo(c)
      case Ok(_) => (History(h.undo[..|h.undo| - 1], h.redo + [c]), Ok("Undid: " + describe(c)))
      case Err(e) => (h, Err(e))
  }

  /** Redoing the top undone command, given what executing it again reports. */
  function RedoSpec<C>(h: History<C>, execute: C -> Result<(), string>, describe: C -> string): (History<C>, Result<string, string>) {
    if h.redo == [] then (h, Err("Nothing to redo"))
    else
      var c := h.redo[|h.redo| - 1];
      match execute(c)
      case Ok(_) => (History(h.undo + [c], h.redo[..|h.redo| - 1]), Ok("Redid: " + describe(c)))
      case Err(e) => (h, Err(e))
  }

  /** The two stacks together hold at most `max` commands. */
  predicate Bounded<C>(h: History<C>, max: nat) {
    |h.undo| + |h.redo| <= max
  }

  /** Executing, undoing and redoing all keep the history within its bound. */
  lemma OperationsKeepBound<C>(h: History<C>, max: nat, c: C, outcome: Result<(), string>, undoable: bool,
                               undo: C -> Result<(), string>, execute: C -> Result<(), string>, describe: C -> string)
    requires Bounded(h, max)
    ensures Bounded(ExecuteSpec(h, max, c, outcome, undoable), max)
    ensures Bounded(UndoSpec(h, undo, describe).0, max)
    ensures Bounded(RedoSpec(h, execute, describe).0, max)
  {
  }

  /** An undoable success ends on top of the undo stack with nothing to redo;
      the commands below it are the newest `max - 1` of the old stack. */
  lemma ExecutePushes<C>(h: History<C>, max: nat, c: C)
    requires max > 0 && |h.undo| <= max
    ensures var r := ExecuteSpec(h, max, c, Ok(()), true);
      && r.redo == [] && |r.undo| > 0 && r.undo[|r.undo| - 1] == c
      && |r.undo| == (if |h.undo| < max then |h.undo| + 1 else max)
      && r.undo[..|r.undo| - 1] == h.undo[|h.undo| + 1 - |r.undo|..]
  {
  }

  /** A failed or non-undoable execution changes neither stack. */
  lemma ExecuteOtherwiseUnchanged<C>(h: History<C>, max: nat, c: C, outcome: Result<(), string>, undoable: bool)
    requires !(outcome.Ok? && undoable)
    ensures ExecuteSpec(h, max, c, outcome, undoable) == h
  {
  }

  /** Undoing and then redoing, both successfully, restores the history, and
      redoing then undoing does too. */
  lemma UndoRedoRoundTrip<C>(h: History<C>, undo: C -> Result<(), string>, execute: C -> Result<(), string>, describe: C -> string)
    ensures h.undo != [] && undo(h.undo[|h.undo| - 1]).Ok? && execute(h.undo[|h.undo| - 1]).Ok?
      ==> RedoSpec(UndoSpec(h, undo, describe).0, execute, describe).0 == h
    ensures h.redo != [] && execute(h.redo[|h.redo| - 1]).Ok? && undo(h.redo[|h.redo| - 1]).Ok?
      ==> UndoSpec(RedoSpec(h, execute, describe).0, undo, describe).0 == h
  {
    if h.undo != [] {
      assert h.undo[..|h.undo| - 1] + [h.undo[|h.undo| - 1]] == h.undo;
    }
    if h.redo != [] {
      assert h.redo[..|h.redo| - 1] + [h.redo[|h.redo| - 1]] == h.redo;
    }
  }

  /** Undo and redo fail on an empty stack, and a failure leaves both stacks
      as they were. */
  lemma UndoRedoFailuresUnchanged<C>(h: History<C>, undo: C -> Result<(), string>, execute: C -> Result<(), string>, describe: C -> string)
    ensures h.undo == [] ==> UndoSpec(h, undo, describe).1 == Err("Nothing to undo")
    ensures h.redo == [] ==> RedoSpec(h, execute, describe).1 == Err("Nothing to redo")
    ensures UndoSpec(h, undo, describe).1.Err? ==> UndoSpec(h, undo, describe).0 == h
    ensures RedoSpec(h, execute, describe).1.Err? ==> RedoSpec(h, execute, describe).0 == h
  {
  }

  class CommandManager<C> {
    var undoStack: seq<C>
    var redoStack: seq<C>
    const maxHistorySize: nat

    function Snapshot(): History<C>
      reads this
    {
      History(undoStack, redoStack)
    }

    constructor (maxHistorySize: nat)
      ensures undoStack == [] && redoStack == []
      ensures this.maxHistorySize == maxHistorySize
    {
      undoStack := [];
      redoStack := [];
      this.maxHistorySize := maxHistorySize;
    }

    /** Records a command whose execution reported `outcome`; the outcome is
        returned as is. */
    method ExecuteCommand(command: C, outcome: Result<(), string>, undoable: bool) returns (r: Result<(), string>)
      modifies this
      ensures r == outcome
      ensures Snapshot() == ExecuteSpec(old(Snapshot()), maxHistorySize, command, outcome, undoable)
    {
      if outcome.Ok? && undoable {
        redoStack := [];
        undoStack := undoStack + [command];
        if |undoStack| > maxHistorySize {
          undoStack := undoStack[1..];
        }
      }
      r := outcome;
    }

    method Undo(undo: C -> Result<(), string>, describe: C -> string) returns (r: Result<string, string>)
      modifies this
      ensures Snapshot() == UndoSpec(old(Snapshot()), undo, describe).0
      ensures r == UndoSpec(old(Snapshot()), undo, describe).1
    {
      if undoStack != [] {
        var command := undoStack[|undoStack| - 1];
        undoStack := undoStack[..|undoStack| - 1];
        var description := describe(command);
        match undo(command)
        case Ok(_) =>
          redoStack := redoStack + [command];
          r := Ok("Undid: " + description);
        case Err(e) =>
          undoStack := undoStack + [command];
          r := Err(e);
      } else {
        r := Err("Nothing to undo");
      }
    }

    method Redo(execute: C -> Result<(), string>, describe: C -> string) returns (r: Result<string, string>)
      modifies this
      ensures Snapshot() == RedoSpec(old(Snapshot()), execute, describe).0
      ensures r == RedoSpec(old(Snapshot()), execute, describe).1
    {
      if redoStack != [] {
        var command := redoStack[|redoStack| - 1];
        redoStack := redoStack[..|redoStack| - 1];
        var description := describe(command);
        match execute(command)
        case Ok(_) =>
          undoStack := undoStack + [command];
          r := Ok("Redid: " + description);
        case Err(e) =>
          redoStack := redoStack + [command];
          r := Err(e);
      } else {
        r := Err("Nothing to redo");
      }
    }

    method CanUndo() returns (b: bool)
      ensures b <==> undoStack != []
    {
      b := |undoStack| > 0;
    }

    method CanRedo() returns (b: bool)
      ensures b <==> redoStack != []
    {
      b := |redoStack| > 0;
    }

    /** The description of the command an undo would take. */
    method NextUndoDescription(describe: C -> string) returns (d: Option<string>)
      ensures d.Some? <==> undoStack != []
      ensures d.Some? ==> d.value == describe(undoStack[|undoStack| - 1])
    {
      d := if undoStack == [] then None else Some(describe(undoStack[|undoStack| - 1]));
    }

    /** The description of the command a redo would take. */
    method NextRedoDescription(describe: C -> string) returns (d: Option<string>)
      ensures d.Some? <==> redoStack != []
      ensures d.Some? ==> d.value == describe(redoStack[|redoStack| - 1])
    {
      d := if redoStack == [] then None else Some(describe(redoStack[|redoStack| - 1]));
    }

    /** Forgets every command, so that neither undo nor redo is possible. */
    method ClearHistory()
      modifies this
      ensures undoStack == [] && redoStack == []
    {
      undoStack := [];
      redoStack := [];
    }
  }

  // ---------------------------------------------------------------------
  // The application-wide executor
  // ---------------------------------------------------------------------

  /** The executor keeps the last 50 commands. */
  const GlobalHistorySize: nat := 50

  /** The history after the executor runs one of the shell's commands. */
  function ExecuteApp(h: History<AppCommand>, c: AppCommand): History<AppCommand> {
    ExecuteSpec(h, GlobalHistorySize, c, ExecuteResult(c), CanUndo(c))
  }

  function UndoApp(h: History<AppCommand>): (History<AppCommand>, Result<string, string>) {
    UndoSpec(h, UndoResult, Description)
  }

  function RedoApp(h: History<AppCommand>): (History<AppCommand>, Result<string, string>) {
    RedoSpec(h, ExecuteResult, Description)
  }

  /** Every command kept on the executor's undo stack is undoable, so undo
      through the executor never fails once something has been executed. */
  ghost predicate AllUndoable(h: History<AppCommand>) {
    forall c :: c in h.undo + h.redo ==> CanUndo(c)
  }

  lemma ExecutorKeepsUndoable(h: History<AppCommand>, c: AppCommand)
    requires AllUndoable(h)
    ensures AllUndoable(ExecuteApp(h, c))
    ensures AllUndoable(UndoApp(h).0)
    ensures AllUndoable(RedoApp(h).0)
  {
    var e := ExecuteApp(h, c);
    if CanUndo(c) {
      var pushed := h.undo + [c];
      forall x | x in e.undo + e.redo ensures CanUndo(x) {
        assert x in pushed;
      }
    }
    if h.undo != [] {
      var u := UndoApp(h).0;
      forall x | x in u.undo + u.redo ensures CanUndo(x) {
        assert x in h.undo + h.redo;
      }
    }
    if h.redo != [] {
      var r := RedoApp(h).0;
      forall x | x in r.undo + r.redo ensures CanUndo(x) {
        assert x in h.undo + h.redo;
      }
    }
  }

  /** With only undoable commands recorded, undo succeeds exactly when the
      undo stack is non-empty. */
  lemma UndoSucceedsIffNonEmpty(h: History<AppCommand>)
    requires AllUndoable(h)
    ensures UndoApp(h).1.Ok? <==> h.undo != []
  {
    if h.undo != [] {
      assert h.undo[|h.undo| - 1] in h.undo + h.redo;
    }
  }

  class GlobalCommandExecutor {
    const manager: CommandManager<AppCommand>

    constructor ()
      ensures fresh(manager)
      ensures manager.Snapshot() == Empty && manager.maxHistorySize == GlobalHistorySize
    {
      manager := new CommandManager(GlobalHistorySize);
    }

    method Execute(command: AppCommand) returns (r: Result<(), string>)
      modifies manager
      ensures manager.Snapshot() == ExecuteSpec(old(manager.Snapshot()), manager.maxHistorySize, command, ExecuteResult(command), CanUndo(command))
      ensures r == ExecuteResult(command)
    {
      r := manager.ExecuteCommand(command, ExecuteResult(command), CanUndo(command));
    }

    method Undo() returns (r: Result<string, string>)
      modifies manager
      ensures manager.Snapshot() == UndoSpec(old(manager.Snapshot()), UndoResult, Description).0
      ensures r == UndoSpec(old(manager.Snapshot()), UndoResult, Description).1
    {
      r := manager.Undo(UndoResult, Description);
    }

    method Redo() returns (r: Result<string, string>)
      modifies manager
      ensures manager.Snapshot() == RedoSpec(old(manager.Snapshot()), ExecuteResult, Description).0
      ensures r == RedoSpec(old(manager.Snapshot()), ExecuteResult, Description).1
    {
      r := manager.Redo(ExecuteResult, Description);
    }

    method ClearHistory()
      modifies manager
      ensures manager.undoStack == [] && manager.redoStack == []
    {
      manager.ClearHistory();
    }
  }
}
