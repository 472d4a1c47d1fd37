/** The Hyprland compositor service: the active workspace, the focused
    window, and a table of known workspaces, kept up to date from the lines
    Hyprland writes to its event socket, each of the form `TYPE>>DATA`. */
module Hyprland {
  import opened Wrappers
  import opened RustText

  /** A workspace as Hyprland describes it; `id` is an `i32`. */
  datatype Workspace = Workspace(id: int, name: string, monitor: string, windows: nat, hasFullscreen: bool, lastWindow: string, lastWindowTitle: string)

  /** The part of the service's state that events change. */
  datatype HyprState = HyprState(
    activeWorkspaceId: int,
    activeWorkspaceName: string,
    focusedWindowTitle: string,
    focusedWindowClass: string,
    workspaces: map<int, Workspace>)

  /** Side requests a line can make. */
  datatype Request = RefreshWorkspaces

  /** The state after one event line, and whether the line asks for the
      workspace table to be fetched again. */
  function ApplyLine(s: HyprState, line: string): (HyprState, bool) {
    match SplitOnce(line, ">>")
    case None => (s, false)
    case Some((eventType, data)) =>
      if eventType == "workspace" then
        match ParseI32(data)
        case Some(id) =>
          (s.(activeWorkspaceId := id,
              activeWorkspaceName := if id in s.workspaces then s.workspaces[id].name else s.activeWorkspaceName), false)
        case None => (s, false)
      else if eventType == "activewindow" then
        match SplitOnce(data, ",")
        case Some((windowClass, title)) => (s.(focusedWindowClass := windowClass, focusedWindowTitle := title), false)
        case None => (s, false)
      else if eventType == "createworkspace" then (s, true)
      else if eventType == "destroyworkspace" then
        match ParseI32(data)
        case Some(id) => (s.(workspaces := s.workspaces - {id}), false)
        case None => (s, false)
      else (s, false)
  }

  /** The state after the lines in order, and how many refreshes they ask for. */
  function ApplyLines(s: HyprState, lines: seq<string>): (HyprState, nat)
    decreases |lines|
  {
    if lines == [] then (s, 0)
    else
      var init := lines[..|lines| - 1];
      var before := ApplyLines(s, init);
      var step := ApplyLine(before.0, lines[|lines| - 1]);
      (step.0, before.1 + if step.1 then 1 else 0)
  }

  /** One more line applies on top of the lines before it. */
  lemma ApplyLinesStep(s: HyprState, lines: seq<string>, i: nat)
    requires i < |lines|
    ensures var before := ApplyLines(s, lines[..i]);
      var step := ApplyLine(before.0, lines[i]);
      ApplyLines(s, lines[..i + 1]) == (step.0, before.1 + if step.1 then 1 else 0)
  {
    assert lines[..i + 1][..i] == lines[..i];
  }

  /** Lines apply one after another: a split of the lines applies in two goes. */
  lemma {:induction false} ApplyLinesAppend(s: HyprState, a: seq<string>, b: seq<string>)
    ensures ApplyLines(s, a + b).0 == ApplyLines(ApplyLines(s, a).0, b).0
    ensures ApplyLines(s, a + b).1 == ApplyLines(s, a).1 + ApplyLines(ApplyLines(s, a).0, b).1
    decreases |b|
  {
    if b == [] {
      assert a + b == a;
    } else {
      var ab := a + b;
      assert ab[..|ab| - 1] == a + b[..|b| - 1];
      assert ab[|ab| - 1] == b[|b| - 1];
      ApplyLinesAppend(s, a, b[..|b| - 1]);
    }
  }

  /** A line without `>>`, or with an event type the service does not
      handle, changes nothing. */
  lemma IgnoredLines(s: HyprState, line: string)
    ensures SplitOnce(line, ">>").None? ==> ApplyLine(s, line) == (s, false)
    ensures SplitOnce(line, ">>").Some? &&
      SplitOnce(line, ">>").value.0 !in {"workspace", "activewindow", "createworkspace", "destroyworkspace"}
      ==> ApplyLine(s, line) == (s, false)
  {
  }

  /** An event line `TYPE>>DATA` splits at its first `>>`, so a data part
      may itself contain `>>`. */
  lemma EventLineSplits(eventType: string, data: string)
    requires '>' !in eventType
    ensures SplitOnce(eventType + ">>" + data, ">>") == Some((eventType, data))
  {
    SplitOnceAfterPrefix(eventType, ">>", data);
  }

  /** `workspace>>N` makes N the active workspace and takes its name from
      the table when it is there; anything but an `i32` changes nothing. */
  lemma WorkspaceEvent(s: HyprState, line: string, data: string)
    requires SplitOnce(line, ">>") == Some(("workspace", data))
    ensures var r := ApplyLine(s, line);
      match ParseI32(data)
      case Some(id) =>
        r == (s.(activeWorkspaceId := id,
                 activeWorkspaceName := if id in s.workspaces then s.workspaces[id].name else s.activeWorkspaceName), false)
      case None => r == (s, false)
  {
  }

  /** `activewindow>>CLASS,TITLE` splits the data at its first comma, so the
      title may hold commas; data without a comma changes nothing. */
  lemma ActiveWindowEvent(s: HyprState, line: string, data: string)
    requires SplitOnce(line, ">>") == Some(("activewindow", data))
    ensures Contains(data, ",") ==> exists windowClass, title ::
      && data == windowClass + "," + title && ',' !in windowClass
      && ApplyLine(s, line) == (s.(focusedWindowClass := windowClass, focusedWindowTitle := title), false)
    ensures !Contains(data, ",") ==> ApplyLine(s, line) == (s, false)
  {
    match SplitOnce(data, ",")
    case None =>
    case Some((windowClass, title)) =>
      forall j | 0 <= j < |windowClass| ensures windowClass[j] != ',' {
        assert !MatchesAt(data, ",", j);
        assert data[j] == windowClass[j];
      }
  }

  /** `createworkspace>>...` asks for the table to be fetched and changes
      nothing itself; `destroyworkspace>>N` removes exactly the entry for N. */
  lemma WorkspaceTableEvents(s: HyprState, line: string, eventType: string, data: string)
    requires SplitOnce(line, ">>") == Some((eventType, data))
    ensures eventType == "createworkspace" ==> ApplyLine(s, line) == (s, true)
    ensures eventType == "destroyworkspace" && ParseI32(data).Some? ==>
      var r := ApplyLine(s, line).0;
      && r.workspaces.Keys == s.workspaces.Keys - {ParseI32(data).value}
      && (forall k :: k in r.workspaces ==> r.workspaces[k] == s.workspaces[k])
      && r.(workspaces := s.workspaces) == s
  {
  }

  /** Later lines win: whatever came before, a valid `workspace>>N` line
      last in a chunk leaves N as the active workspace. */
  lemma LastWorkspaceLineWins(s: HyprState, lines: seq<string>, data: string)
    requires lines != [] && SplitOnce(lines[|lines| - 1], ">>") == Some(("workspace", data))
    requires ParseI32(data).Some?
    ensures ApplyLines(s, lines).0.activeWorkspaceId == ParseI32(data).value
  {
    WorkspaceEvent(ApplyLines(s, lines[..|lines| - 1]).0, lines[|lines| - 1], data);
  }

  /** `w` is in the list and no later entry carries its id. */
  predicate LastWithId(list: seq<Workspace>, w: Workspace) {
    exists k :: 0 <= k < |list| && list[k] == w && forall j :: k < j < |list| ==> list[j].id != w.id
  }

  /** The table built from a list of workspaces, a later entry replacing an
      earlier one with the same id, as repeated `HashMap::insert` does. */
  function WorkspaceMap(list: seq<Workspace>): (m: map<int, Workspace>)
    ensures forall id :: id in m <==> exists k :: 0 <= k < |list| && list[k].id == id
    ensures forall id :: id in m ==> m[id].id == id
    ensures forall id :: id in m ==> LastWithId(list, m[id])
  {
    if list == [] then map[]
    else
      var m := WorkspaceMap(list[..|list| - 1]);
      WorkspaceMapStep(list, m);
      m[list[|list| - 1].id := list[|list| - 1]]
  }

  /** Inserting the last workspace into the table of the others gives the
      table of the whole list. */
  lemma WorkspaceMapStep(list: seq<Workspace>, m: map<int, Workspace>)
    requires list != []
    requires var init := list[..|list| - 1];
      && (forall id :: id in m <==> exists k :: 0 <= k < |init| && init[k].id == id)
      && (forall id :: id in m ==> m[id].id == id)
      && (forall id :: id in m ==> LastWithId(init, m[id]))
    ensures var r := m[list[|list| - 1].id := list[|list| - 1]];
      && (forall id :: id in r <==> exists k :: 0 <= k < |list| && list[k].id == id)
      && (forall id :: id in r ==> r[id].id == id)
      && (forall id :: id in r ==> LastWithId(list, r[id]))
  {
    var w := list[|list| - 1];
    var init := list[..|list| - 1];
    var r := m[w.id := w];
    forall id | id in r ensures (exists k :: 0 <= k < |list| && list[k].id == id) && LastWithId(list, r[id]) {
      if id == w.id {
        assert list[|list| - 1].id == id;
        assert list[|list| - 1] == r[id];
      } else {
        var k :| 0 <= k < |init| && init[k] == m[id] && forall j :: k < j < |init| ==> init[j].id != id;
        assert list[k] == init[k];
        forall j | k < j < |list| ensures list[j].id != id {
          if j < |init| {
            assert list[j] == init[j];
          }
        }
      }
    }
    forall id | exists k :: 0 <= k < |list| && list[k].id == id ensures id in r {
      var k :| 0 <= k < |list| && list[k].id == id;
      if k < |init| {
        assert init[k].id == id;
      }
    }
  }

  /** The command that asks Hyprland to switch workspace; its argument reads
      back as the id. */
  function SwitchCommand(id: int): (c: string)
    requires I32_MIN <= id <= I32_MAX
    ensures StartsWith(c, "dispatch workspace ")
    ensures ParseI32(c[|"dispatch workspace "|..]) == Some(id)
  {
    ParseI32RoundTrip(id);
    var c := "dispatch workspace " + IntToString(id);
    assert c[|"dispatch workspace "|..] == IntToString(id);
    c
  }

  class HyprlandService {
    var available: bool
    var activeWorkspaceId: int
    var activeWorkspaceName: string
    var focusedWindowTitle: string
    var focusedWindowClass: string
    var workspaces: map<int, Workspace>

    function Snapshot(): HyprState
      reads this
    {
      HyprState(activeWorkspaceId, activeWorkspaceName, focusedWindowTitle, focusedWindowClass, workspaces)
    }

    /** The service is available iff Hyprland's instance signature is set;
        everything else starts empty. */
    constructor (signature: Option<string>)
      ensures available == signature.Some?
      ensures Snapshot() == HyprState(0, [], [], [], map[])
    {
      available := signature.Some?;
      activeWorkspaceId := 0;
      activeWorkspaceName := [];
      focusedWindowTitle := [];
      focusedWindowClass := [];
      workspaces := map[];
    }

    /** Handles one chunk read from the event socket, line by line; returns
        how many workspace refreshes it asks for. */
    method HandleEvent(event: string) returns (refreshes: nat)
      modifies this`activeWorkspaceId, this`activeWorkspaceName, this`focusedWindowTitle,
        this`focusedWindowClass, this`workspaces
      ensures Snapshot() == ApplyLines(old(Snapshot()), Lines(event)).0
      ensures refreshes == ApplyLines(old(Snapshot()), Lines(event)).1
    {
      refreshes := HandleLines(Lines(event));
    }

    /** Handles the lines of one chunk in order. */
    method HandleLines(lines: seq<string>) returns (refreshes: nat)
      modifies this`activeWorkspaceId, this`activeWorkspaceName, this`focusedWindowTitle,
        this`focusedWindowClass, this`workspaces
      ensures Snapshot() == ApplyLines(old(Snapshot()), lines).0
      ensures refreshes == ApplyLines(old(Snapshot()), lines).1
    {
      ghost var start := Snapshot();
      refreshes := 0;
      var i := 0;
      while i < |lines|
        invariant 0 <= i <= |lines|
        invariant Snapshot() == ApplyLines(start, lines[..i]).0
        invariant refreshes == ApplyLines(start, lines[..i]).1
      {
        ApplyLinesStep(start, lines, i);
        var refresh := HandleLine(lines[i]);
        if refresh {
          refreshes := refreshes + 1;
        }
        i := i + 1;
      }
      assert lines[..|lines|] == lines;
    }

    /** Handles one event line; returns whether it asks for a refresh of the
        workspace table. */
    method HandleLine(line: string) returns (refresh: bool)
      modifies this`activeWorkspaceId, this`activeWorkspaceName, this`focusedWindowTitle,
        this`focusedWindowClass, this`workspaces
      ensures Snapshot() == ApplyLine(old(Snapshot()), line).0
      ensures refresh == ApplyLine(old(Snapshot()), line).1
    {
      refresh := false;
      var parts := SplitOnce(line, ">>");
      if parts.None? {
        return;
      }
      var eventType, data := parts.value.0, parts.value.1;
      if eventType == "workspace" {
        var parsed := ParseI32(data);
        if parsed.Some? {
          var id := parsed.value;
          activeWorkspaceId := id;
          if id in workspaces {
            activeWorkspaceName := workspaces[id].name;
          }
        }
      } else if eventType == "activewindow" {
        var window := SplitOnce(data, ",");
        if window.Some? {
          focusedWindowClass := window.value.0;
          focusedWindowTitle := window.value.1;
        }
      } else if eventType == "createworkspace" {
        refresh := true;
      } else if eventType == "destroyworkspace" {
        var parsed := ParseI32(data);
        if parsed.Some? {
          workspaces := workspaces - {parsed.value};
        }
      }
    }

    /** A fetched workspace list replaces the whole table; a failed fetch
        leaves it as it was. */
    method ReplaceWorkspaces(fetched: Option<seq<Workspace>>)
      modifies this`workspaces
      ensures fetched.Some? ==> workspaces == WorkspaceMap(fetched.value)
      ensures fetched.None? ==> workspaces == old(workspaces)
    {
      if fetched.Some? {
        var list := fetched.value;
        var m: map<int, Workspace> := map[];
        var i := 0;
        while i < |list|
          invariant 0 <= i <= |list|
          invariant m == WorkspaceMap(list[..i])
        {
          assert list[..i + 1][..i] == list[..i];
          m := m[list[i].id := list[i]];
          i := i + 1;
        }
        assert list[..|list|] == list;
        workspaces := m;
      }
    }

    method IsWorkspaceActive(id: int) returns (b: bool)
      ensures b <==> id == activeWorkspaceId
    {
      b := activeWorkspaceId == id;
    }

    method HasFocusedWindow() returns (b: bool)
      ensures b <==> focusedWindowTitle != []
    {
      b := |focusedWindowTitle| > 0;
    }

    method WorkspaceById(id: int) returns (w: Option<Workspace>)
      ensures w.Some? <==> id in workspaces
      ensures w.Some? ==> w.value == workspaces[id]
    {
      w := if id in workspaces then Some(workspaces[id]) else None;
    }
  }
}
