/** The application store: its state, the actions dispatched to it, and the
    reducer that is the only writer of that state. Every case returns a new
    state; the window cases rebuild the window list by mapping over it. */
module NeuralContext {
  import opened Wrappers
  import opened Types

  /** The colour theme; the source stores it untyped. */
  datatype Theme = Theme(id: string, color: string, caption: string, kind: string)

  datatype NeuralState = NeuralState(
    user: Option<User>,
    neonTheme: Theme,
    activeNode: NeuralNode,
    nodes: seq<NeuralNode>,
    logs: seq<string>,
    centralBrainDNA: string,
    isPaletteOpen: bool,
    windows: seq<WindowConfig>,
    activeWindowId: Option<string>)

  /** `Partial<WindowConfig>`: a field is overwritten exactly when it is present. */
  datatype WindowPatch = WindowPatch(
    id: Option<string>,
    title: Option<string>,
    isOpen: Option<bool>,
    isMaximized: Option<bool>,
    zIndex: Option<int>,
    x: Option<int>,
    y: Option<int>,
    width: Option<int>,
    height: Option<int>,
    icon: Option<string>)

  const EmptyWindowPatch := WindowPatch(None, None, None, None, None, None, None, None, None, None)

  /** `Partial<NeuralNode>`. */
  datatype NodePatch = NodePatch(
    id: Option<string>,
    name: Option<string>,
    parentId: Option<string>,
    dna: Option<string>,
    model: Option<AIModel>,
    files: Option<seq<FileMetadata>>,
    history: Option<seq<ChatMessage>>,
    status: Option<NodeStatus>)

  const EmptyNodePatch := NodePatch(None, None, None, None, None, None, None, None)

  /** The dispatched actions. `AddLog` carries the clock reading the reducer
      formats into the entry; `Unrecognised` stands for any other action type. */
  datatype Action =
    | SetTheme(theme: Theme)
    | AddLog(message: string, time: string)
    | UpdateActiveNode(nodePatch: NodePatch)
    | SetDna(dna: string)
    | ToggleWindow(id: string, open: Option<bool>)
    | UpdateWindow(id: string, patch: WindowPatch)
    | FocusWindow(id: string)
    | SetPalette(paletteOpen: bool)
    | SetUser(user: Option<User>)
    | Unrecognised(tag: string)

  /** The entry ADD_LOG appends: the time in brackets, then the message. */
  function LogEntry(message: string, time: string): string {
    "[" + time + "] " + message
  }

  /** `logs.slice(-50)`: the last fifty entries, or all of them when fewer. */
  function LastFifty(logs: seq<string>): (r: seq<string>)
    ensures |r| <= 50
    ensures |r| == if |logs| < 50 then |logs| else 50
  {
    if |logs| <= 50 then logs else logs[|logs| - 50..]
  }

  /** The entries kept are the newest ones, in their order: a suffix of the log. */
  lemma LastFiftySuffix(logs: seq<string>)
    ensures LastFifty(logs) == logs[|logs| - |LastFifty(logs)|..]
    ensures forall k :: 0 <= k < |LastFifty(logs)| ==> LastFifty(logs)[k] == logs[|logs| - |LastFifty(logs)| + k]
  {
  }

  /** v is w with exactly the fields present in p replaced by p's values. */
  predicate Overwrites(v: WindowConfig, w: WindowConfig, p: WindowPatch) {
    && (if p.id.Some? then v.id == p.id.value else v.id == w.id)
    && (if p.title.Some? then v.title == p.title.value else v.title == w.title)
    && (if p.isOpen.Some? then v.isOpen == p.isOpen.value else v.isOpen == w.isOpen)
    && (if p.isMaximized.Some? then v.isMaximized == p.isMaximized.value else v.isMaximized == w.isMaximized)
    && (if p.zIndex.Some? then v.zIndex == p.zIndex.value else v.zIndex == w.zIndex)
    && (if p.x.Some? then v.x == p.x.value else v.x == w.x)
    && (if p.y.Some? then v.y == p.y.value else v.y == w.y)
    && (if p.width.Some? then v.width == p.width.value else v.width == w.width)
    && (if p.height.Some? then v.height == p.height.value else v.height == w.height)
    && (if p.icon.Some? then v.icon == p.icon.value else v.icon == w.icon)
  }

  /** `{...w, ...patch}`: the present fields of the patch win, an empty
      patch changes nothing. */
  function MergeWindow(w: WindowConfig, p: WindowPatch): (r: WindowConfig)
    ensures Overwrites(r, w, p)
    ensures p == EmptyWindowPatch ==> r == w
  {
    WindowConfig(
      p.id.GetOr(w.id), p.title.GetOr(w.title), p.isOpen.GetOr(w.isOpen),
      p.isMaximized.GetOr(w.isMaximized), p.zIndex.GetOr(w.zIndex), p.x.GetOr(w.x),
      p.y.GetOr(w.y), p.width.GetOr(w.width), p.height.GetOr(w.height), p.icon.GetOr(w.icon))
  }

  /** `v` is `n` with every field the patch carries overwritten by the
      patch's value and every other field kept. */
  predicate NodeOverwrites(v: NeuralNode, n: NeuralNode, p: NodePatch) {
    (if p.id.Some? then v.id == p.id.value else v.id == n.id) &&
    (if p.name.Some? then v.name == p.name.value else v.name == n.name) &&
    (if p.parentId.Some? then v.parentId == p.parentId else v.parentId == n.parentId) &&
    (if p.dna.Some? then v.dna == p.dna.value else v.dna == n.dna) &&
    (if p.model.Some? then v.model == p.model.value else v.model == n.model) &&
    (if p.files.Some? then v.files == p.files.value else v.files == n.files) &&
    (if p.history.Some? then v.history == p.history.value else v.history == n.history) &&
    (if p.status.Some? then v.status == p.status.value else v.status == n.status)
  }

  /** `{...node, ...patch}`. */
  function MergeNode(n: NeuralNode, p: NodePatch): (r: NeuralNode)
    ensures NodeOverwrites(r, n, p)
    ensures p == EmptyNodePatch ==> r == n
  {
    NeuralNode(
      p.id.GetOr(n.id), p.name.GetOr(n.name),
      if p.parentId.Some? then p.parentId else n.parentId,
      p.dna.GetOr(n.dna), p.model.GetOr(n.model), p.files.GetOr(n.files),
      p.history.GetOr(n.history), p.status.GetOr(n.status))
  }

  /** `windows.map(w => w.id === id ? f(w) : w)`. */
  function MapMatching(ws: seq<WindowConfig>, id: string, f: WindowConfig -> WindowConfig): (r: seq<WindowConfig>)
    ensures |r| == |ws|
    ensures forall i :: 0 <= i < |ws| ==> r[i] == if ws[i].id == id then f(ws[i]) else ws[i]
  {
    seq(|ws|, i requires 0 <= i < |ws| => if ws[i].id == id then f(ws[i]) else ws[i])
  }

  /** `Math.max(...windows.map(w => w.zIndex), 10)`: the largest zIndex, but
      never below 10, and equal to 10 or to some window's zIndex. */
  function MaxZ(ws: seq<WindowConfig>): (r: int)
    ensures r >= 10
    ensures forall i :: 0 <= i < |ws| ==> ws[i].zIndex <= r
    ensures r == 10 || exists i :: 0 <= i < |ws| && ws[i].zIndex == r
  {
    if ws == [] then 10
    else
      var rest := MaxZ(ws[1..]);
      assert forall i :: 1 <= i < |ws| ==> ws[i] == ws[1..][i - 1];
      if ws[0].zIndex > rest then ws[0].zIndex else rest
  }

  function Reduce(s: NeuralState, a: Action): (r: NeuralState)
    ensures |r.windows| == |s.windows|
    ensures !(a.ToggleWindow? || a.UpdateWindow? || a.FocusWindow?) ==> r.windows == s.windows
    ensures !(a.ToggleWindow? || a.FocusWindow?) ==> r.activeWindowId == s.activeWindowId
    ensures !a.AddLog? ==> r.logs == s.logs
    ensures !a.UpdateActiveNode? ==> r.activeNode == s.activeNode
  {
    match a
    case SetTheme(t) => s.(neonTheme := t)
    case AddLog(m, time) => s.(logs := LastFifty(s.logs) + [LogEntry(m, time)])
    case UpdateActiveNode(p) => s.(activeNode := MergeNode(s.activeNode, p))
    case SetDna(d) => s.(centralBrainDNA := d)
    case ToggleWindow(id, open) =>
      s.(windows := MapMatching(s.windows, id, (w: WindowConfig) => w.(isOpen := open.GetOr(!w.isOpen))),
         activeWindowId := Some(id))
    case UpdateWindow(id, p) =>
      s.(windows := MapMatching(s.windows, id, (w: WindowConfig) => MergeWindow(w, p)))
    case FocusWindow(id) =>
      var z := MaxZ(s.windows) + 1;
      s.(activeWindowId := Some(id),
         windows := MapMatching(s.windows, id, (w: WindowConfig) => w.(zIndex := z)))
    case SetPalette(o) => s.(isPaletteOpen := o)
    case SetUser(u) => s.(user := u)
    case Unrecognised(_) => s
  }

  /** Several actions dispatched one after the other, first to last: the
      window list keeps its length, and the log, the windows and the active
      node change only if some action addresses them. */
  function ReduceAll(s: NeuralState, actions: seq<Action>): (r: NeuralState)
    ensures |r.windows| == |s.windows|
    ensures (forall k :: 0 <= k < |actions| ==> !actions[k].AddLog?) ==> r.logs == s.logs
    ensures (forall k :: 0 <= k < |actions| ==> !actions[k].UpdateActiveNode?) ==> r.activeNode == s.activeNode
    ensures (forall k :: 0 <= k < |actions| ==> !(actions[k].ToggleWindow? || actions[k].UpdateWindow? || actions[k].FocusWindow?))
      ==> r.windows == s.windows
    decreases |actions|
  {
    if actions == [] then s else ReduceAll(Reduce(s, actions[0]), actions[1..])
  }

  /** Entries appended one ADD_LOG at a time. */
  function AppendEntries(logs: seq<string>, entries: seq<string>): seq<string>
    decreases |entries|
  {
    if entries == [] then logs else AppendEntries(LastFifty(logs) + [entries[0]], entries[1..])
  }

  /** Appending keeps at most 51 entries: the log grows by one per entry
      until it reaches 51 and then stays there. */
  lemma {:induction false} AppendEntriesLength(logs: seq<string>, entries: seq<string>)
    ensures |AppendEntries(logs, entries)| ==
      if entries == [] then |logs| else if |logs| + |entries| < 51 then |logs| + |entries| else 51
    decreases |entries|
  {
    if entries != [] {
      var next := LastFifty(logs) + [entries[0]];
      AppendEntriesLength(next, entries[1..]);
    }
  }

  lemma SuffixOfSuffix<T>(s: seq<T>, i: nat, j: nat)
    requires i + j <= |s|
    ensures s[i..][j..] == s[i + j..]
  {
  }

  /** A suffix of a suffix is a suffix. */
  lemma SuffixOfSuffixEnd<T>(all: seq<T>, mid: seq<T>, r: seq<T>, off: nat)
    requires off <= |all| && mid == all[off..]
    requires |r| <= |mid| && r == mid[|mid| - |r|..]
    ensures |r| <= |all| && r == all[|all| - |r|..]
  {
    SuffixOfSuffix(all, off, |mid| - |r|);
  }

  /** What one ADD_LOG keeps, followed by the entries still to come, is
      the end of everything logged. */
  lemma AppendStepTail(logs: seq<string>, entries: seq<string>)
    requires entries != []
    ensures |LastFifty(logs)| <= |logs|
    ensures LastFifty(logs) + [entries[0]] + entries[1..] == (logs + entries)[|logs| - |LastFifty(logs)|..]
  {
    var kept := LastFifty(logs);
    assert [entries[0]] + entries[1..] == entries;
    assert kept + [entries[0]] + entries[1..] == kept + entries;
  }

  /** The log after appending ends everything logged so far. */
  lemma {:induction false} AppendEntriesTail(logs: seq<string>, entries: seq<string>)
    ensures |AppendEntries(logs, entries)| <= |logs| + |entries|
    ensures AppendEntries(logs, entries) == (logs + entries)[|logs| + |entries| - |AppendEntries(logs, entries)|..]
    decreases |entries|
  {
    if entries != [] {
      var kept := LastFifty(logs);
      var next := kept + [entries[0]];
      var rest := entries[1..];
      var all := logs + entries;
      var r := AppendEntries(next, rest);
      assert r == AppendEntries(logs, entries);
      AppendEntriesTail(next, rest);
      AppendStepTail(logs, entries);
      SuffixOfSuffixEnd(all, next + rest, r, |logs| - |kept|);
    }
  }

  /** After appending, the log is the newest part of everything logged:
      a suffix of the old entries followed by the new ones, of length
      the total or 51, whichever is smaller. */
  lemma AppendEntriesSuffix(logs: seq<string>, entries: seq<string>)
    ensures var r := AppendEntries(logs, entries);
      |r| <= |logs| + |entries| &&
      r == (logs + entries)[|logs| + |entries| - |r|..] &&
      (entries == [] ==> r == logs) &&
      (entries != [] ==> |r| == if |logs| + |entries| < 51 then |logs| + |entries| else 51)
  {
    AppendEntriesLength(logs, entries);
    AppendEntriesTail(logs, entries);
  }

  /** When no more than 51 entries are appended, they are the newest entries. */
  lemma AppendEntriesNewest(logs: seq<string>, entries: seq<string>)
    requires |entries| <= 51
    ensures var r := AppendEntries(logs, entries);
      |entries| <= |r| && r[|r| - |entries|..] == entries
  {
    AppendEntriesSuffix(logs, entries);
    var r := AppendEntries(logs, entries);
    var all := logs + entries;
    assert r[|r| - |entries|..] == all[|all| - |entries|..];
    assert all[|all| - |entries|..] == entries;
  }

  /** The entries of several messages logged at one clock reading. */
  function Entries(messages: seq<string>, time: string): (r: seq<string>)
    ensures |r| == |messages|
    ensures forall k :: 0 <= k < |r| ==> r[k] == LogEntry(messages[k], time)
  {
    seq(|messages|, k requires 0 <= k < |messages| => LogEntry(messages[k], time))
  }

  /** Appending two batches is appending their concatenation. */
  lemma {:induction false} AppendEntriesConcat(logs: seq<string>, a: seq<string>, b: seq<string>)
    ensures AppendEntries(AppendEntries(logs, a), b) == AppendEntries(logs, a + b)
    decreases |a|
  {
    if a == [] {
      assert a + b == b;
    } else {
      assert (a + b)[0] == a[0];
      assert (a + b)[1..] == a[1..] + b;
      AppendEntriesConcat(LastFifty(logs) + [a[0]], a[1..], b);
    }
  }

  /** Logging the messages one after the other, and then more. */
  lemma LogMore(logs: seq<string>, logged: seq<string>, more: seq<string>, time: string)
    ensures AppendEntries(AppendEntries(logs, Entries(logged, time)), Entries(more, time)) ==
      AppendEntries(logs, Entries(logged + more, time))
  {
    AppendEntriesConcat(logs, Entries(logged, time), Entries(more, time));
    assert Entries(logged, time) + Entries(more, time) == Entries(logged + more, time);
  }

  /** One ADD_LOG action per message, all with the same clock reading. */
  function LogActions(messages: seq<string>, time: string): (r: seq<Action>)
    ensures |r| == |messages|
    ensures forall k :: 0 <= k < |r| ==> r[k] == AddLog(messages[k], time)
  {
    seq(|messages|, k requires 0 <= k < |messages| => AddLog(messages[k], time))
  }

  /** Dispatching one ADD_LOG per message appends their entries and
      changes nothing else. */
  lemma {:induction false} LogLines(s: NeuralState, messages: seq<string>, time: string)
    ensures ReduceAll(s, LogActions(messages, time)) == s.(logs := AppendEntries(s.logs, Entries(messages, time)))
    decreases |messages|
  {
    if messages != [] {
      var acts := LogActions(messages, time);
      assert acts[1..] == LogActions(messages[1..], time);
      LogLines(Reduce(s, acts[0]), messages[1..], time);
      var es := Entries(messages, time);
      assert es[1..] == Entries(messages[1..], time);
    }
  }

  /** The first window with the given id (`windows.find(w => w.id === id)`). */
  function FindWindow(ws: seq<WindowConfig>, id: string): (r: Option<WindowConfig>)
    ensures r.None? <==> forall i :: 0 <= i < |ws| ==> ws[i].id != id
    ensures r.Some? ==> r.value in ws && r.value.id == id
    ensures r.Some? ==> exists i :: 0 <= i < |ws| && ws[i] == r.value && forall j :: 0 <= j < i ==> ws[j].id != id
  {
    if ws == [] then None
    else if ws[0].id == id then
      assert ws[0] == ws[0];
      Some(ws[0])
    else
      var r := FindWindow(ws[1..], id);
      if r.Some? then
        ghost var i :| 0 <= i < |ws[1..]| && ws[1..][i] == r.value && forall j :: 0 <= j < i ==> ws[1..][j].id != id;
        assert ws[i + 1] == r.value && forall j :: 0 <= j < i + 1 ==> ws[j].id != id;
        r
      else r
  }

  predicate HasWindow(ws: seq<WindowConfig>, id: string) {
    exists i :: 0 <= i < |ws| && ws[i].id == id
  }

  // ---------------------------------------------------------------- focus

  /** FOCUS_WINDOW lifts the target to one above the larger of 10 and every
      zIndex: it is then at least 11 and strictly above every other window,
      nothing else in any record changes, and the target becomes active. */
  lemma FocusRaisesTarget(s: NeuralState, id: string)
    ensures var r := Reduce(s, FocusWindow(id));
      r.activeWindowId == Some(id) &&
      (forall i :: 0 <= i < |s.windows| && s.windows[i].id == id ==>
        r.windows[i].zIndex >= 11 &&
        r.windows[i] == s.windows[i].(zIndex := r.windows[i].zIndex) &&
        (forall j :: 0 <= j < |s.windows| ==> s.windows[j].zIndex < r.windows[i].zIndex) &&
        (forall j :: 0 <= j < |s.windows| && s.windows[j].id != id ==>
          r.windows[j].zIndex < r.windows[i].zIndex)) &&
      (forall j :: 0 <= j < |s.windows| && s.windows[j].id != id ==> r.windows[j] == s.windows[j])
  {
  }

  /** Two windows focused one after the other: the later one ends strictly on
      top of the earlier one, whatever their zIndex values were. */
  lemma LaterFocusWins(s: NeuralState, first: string, second: string, i: nat, j: nat)
    requires i < |s.windows| && j < |s.windows|
    requires s.windows[i].id == first && s.windows[j].id == second && first != second
    ensures var r := Reduce(Reduce(s, FocusWindow(first)), FocusWindow(second));
      r.windows[j].zIndex > r.windows[i].zIndex && r.activeWindowId == Some(second)
  {
    var mid := Reduce(s, FocusWindow(first));
    assert mid.windows[i].zIndex <= MaxZ(mid.windows);
  }

  // ---------------------------------------------------------- unknown ids

  /** An id that names no window leaves the list unchanged under TOGGLE,
      UPDATE and FOCUS; TOGGLE and FOCUS still make it the active id. */
  lemma UnknownIdLeavesWindows(s: NeuralState, id: string, open: Option<bool>, p: WindowPatch)
    requires !HasWindow(s.windows, id)
    ensures Reduce(s, ToggleWindow(id, open)).windows == s.windows
    ensures Reduce(s, ToggleWindow(id, open)).activeWindowId == Some(id)
    ensures Reduce(s, FocusWindow(id)).windows == s.windows
    ensures Reduce(s, FocusWindow(id)).activeWindowId == Some(id)
    ensures Reduce(s, UpdateWindow(id, p)) == s
  {
    assert Reduce(s, ToggleWindow(id, open)).windows == s.windows;
    assert Reduce(s, FocusWindow(id)).windows == s.windows;
    assert Reduce(s, UpdateWindow(id, p)).windows == s.windows;
  }

  // --------------------------------------------------------------- toggle

  /** With an explicit `open`, TOGGLE sets isOpen to it; the target becomes
      active even when it is being closed. */
  lemma ToggleExplicitSets(s: NeuralState, id: string, open: bool)
    ensures var r := Reduce(s, ToggleWindow(id, Some(open)));
      r.activeWindowId == Some(id) &&
      forall i :: 0 <= i < |s.windows| ==>
        r.windows[i] == if s.windows[i].id == id then s.windows[i].(isOpen := open) else s.windows[i]
  {
  }

  /** Closing (or opening) twice is the same as doing it once. */
  lemma ToggleExplicitIdempotent(s: NeuralState, id: string, open: bool)
    ensures var once := Reduce(s, ToggleWindow(id, Some(open)));
      Reduce(once, ToggleWindow(id, Some(open))) == once
  {
    var once := Reduce(s, ToggleWindow(id, Some(open)));
    var twice := Reduce(once, ToggleWindow(id, Some(open)));
    assert twice.windows == once.windows;
  }

  /** Without `open`, TOGGLE flips isOpen, so two toggles restore the list. */
  lemma ToggleTwiceRestores(s: NeuralState, id: string)
    ensures var r := Reduce(Reduce(s, ToggleWindow(id, None)), ToggleWindow(id, None));
      r.windows == s.windows && r.activeWindowId == Some(id)
  {
    var once := Reduce(s, ToggleWindow(id, None));
    var twice := Reduce(once, ToggleWindow(id, None));
    assert forall i :: 0 <= i < |s.windows| ==> once.windows[i].id == s.windows[i].id;
    assert twice.windows == s.windows;
  }

  // --------------------------------------------------------------- update

  /** UPDATE overwrites exactly the present fields of every matching record
      and no others: no clamping, other records untouched, active id kept. */
  lemma UpdateMergesPatch(s: NeuralState, id: string, p: WindowPatch)
    ensures var r := Reduce(s, UpdateWindow(id, p));
      && r.activeWindowId == s.activeWindowId
      && |r.windows| == |s.windows|
      && forall i :: 0 <= i < |s.windows| ==>
           if s.windows[i].id != id then r.windows[i] == s.windows[i]
           else Overwrites(r.windows[i], s.windows[i], p)
  {
  }

  /** The reducer does not clamp: a width patch of any value, however small,
      is stored as given. */
  lemma UpdateDoesNotClamp(s: NeuralState, i: nat, width: int)
    requires i < |s.windows|
    ensures Reduce(s, UpdateWindow(s.windows[i].id, EmptyWindowPatch.(width := Some(width)))).windows[i].width == width
  {
  }

  /** Maximizing then restoring with no other update in between leaves the
      geometry exactly as it was, and the window not maximized. */
  lemma MaximizeRestoreRoundTrip(s: NeuralState, id: string)
    ensures var r := Reduce(
        Reduce(s, UpdateWindow(id, EmptyWindowPatch.(isMaximized := Some(true)))),
        UpdateWindow(id, EmptyWindowPatch.(isMaximized := Some(false))));
      r.activeWindowId == s.activeWindowId &&
      forall i :: 0 <= i < |s.windows| ==>
        r.windows[i] == if s.windows[i].id == id then s.windows[i].(isMaximized := false) else s.windows[i]
  {
    var mid := Reduce(s, UpdateWindow(id, EmptyWindowPatch.(isMaximized := Some(true))));
    assert forall i :: 0 <= i < |s.windows| ==> mid.windows[i].id == s.windows[i].id;
  }

  /** TOGGLE and FOCUS, and UPDATE with a patch that leaves `id` alone, keep
      the number of windows and the order of their ids. */
  lemma WindowActionsKeepIds(s: NeuralState, a: Action)
    requires a.UpdateWindow? ==> a.patch.id.None?
    ensures var r := Reduce(s, a);
      |r.windows| == |s.windows| &&
      forall i :: 0 <= i < |s.windows| ==> r.windows[i].id == s.windows[i].id
  {
  }

  /** An UPDATE patch that carries an `id` renames the matching window. */
  lemma UpdateCanRename(s: NeuralState, i: nat, newId: string)
    requires i < |s.windows|
    ensures Reduce(s, UpdateWindow(s.windows[i].id, EmptyWindowPatch.(id := Some(newId)))).windows[i].id == newId
  {
  }

  // ---------------------------------------------------- logs, node, other

  /** ADD_LOG keeps the last fifty earlier entries and appends the new one. */
  lemma AddLogBounded(s: NeuralState, message: string, time: string)
    ensures var r := Reduce(s, AddLog(message, time));
      |r.logs| <= 51 &&
      r.logs[|r.logs| - 1] == LogEntry(message, time) &&
      r.logs[..|r.logs| - 1] == s.logs[|s.logs| - (|r.logs| - 1)..] &&
      (|s.logs| <= 50 ==> r.logs == s.logs + [LogEntry(message, time)])
  {
    var r := Reduce(s, AddLog(message, time));
    assert r.logs[..|r.logs| - 1] == LastFifty(s.logs);
  }

  /** UPDATE_ACTIVE_NODE changes only the active node, and in it only the
      fields the patch carries. */
  lemma UpdateActiveNodeOnlyNode(s: NeuralState, p: NodePatch)
    ensures var r := Reduce(s, UpdateActiveNode(p));
      r == s.(activeNode := r.activeNode) &&
      NodeOverwrites(r.activeNode, s.activeNode, p)
  {
  }

  /** An action type the reducer does not know returns the state itself. */
  lemma UnrecognisedIsIdentity(s: NeuralState, tag: string)
    ensures Reduce(s, Unrecognised(tag)) == s
  {
  }

  // -------------------------------------------------------- initial state

  const InitialWindows: seq<WindowConfig> := [
    WindowConfig("vault", "CONSTRUCTION_VAULT", true, false, 5, 40, 40, 340, 600, "folder"),
    WindowConfig("chat", "TAKEOFF_ORACLE", true, false, 10, 400, 40, 680, 740, "message"),
    WindowConfig("oracle", "DISCIPLINE_CONTROL", true, false, 5, 1100, 40, 340, 500, "cpu"),
    WindowConfig("live", "ACOUSTIC_COORD", false, false, 5, 1100, 560, 340, 220, "radio"),
    WindowConfig("terminal", "FRANKLIN_OS_LOGS", false, false, 5, 40, 660, 340, 250, "terminal")
  ]

  const InitialNode := NeuralNode(
    "bid_root", "PROJECT_MASTER", None,
    "// FRANKLIN_ORCHESTRATION_V3\n// INITIALIZING_CSI_MAPPING...",
    MASTER_FRANKLIN, [], [], IDLE)

  /** The state at start-up; the stored user and the clock reading come in. */
  function InitialState(storedUser: Option<User>, time: string): NeuralState {
    NeuralState(
      storedUser,
      Theme("bid-yellow", "#facc15", "SAFETY_GOLD", "neon"),
      InitialNode,
      [],
      [LogEntry("FRANKLIN OS: KERNEL_INITIALIZED // BID-ZONE ONLINE", time)],
      "// FRANKLIN_OS_IDLE // READY_FOR_TAKEOFF",
      false,
      InitialWindows,
      Some("chat"))
  }

  /** Five windows with distinct ids, chat active; chat starts at zIndex 10
      and the other four (not distinct) at 5; live and terminal start closed. */
  lemma InitialWindowsShape(storedUser: Option<User>, time: string)
    ensures var s := InitialState(storedUser, time);
      |s.windows| == 5 &&
      (forall i, j :: 0 <= i < j < 5 ==> s.windows[i].id != s.windows[j].id) &&
      s.activeWindowId == Some("chat") &&
      FindWindow(s.windows, "chat").Some? && FindWindow(s.windows, "chat").value.zIndex == 10 &&
      (forall i :: 0 <= i < 5 && s.windows[i].id != "chat" ==> s.windows[i].zIndex == 5) &&
      (forall i :: 0 <= i < 5 ==> (!s.windows[i].isOpen <==> s.windows[i].id in {"live", "terminal"})) &&
      (forall i :: 0 <= i < 5 ==> !s.windows[i].isMaximized) &&
      MaxZ(s.windows) == 10
  {
    InitialIdsDistinct();
    InitialChatFound();
    InitialMaxZ();
  }

  lemma InitialIdsDistinct()
    ensures forall i, j :: 0 <= i < j < 5 ==> InitialWindows[i].id != InitialWindows[j].id
  {
    var ws := InitialWindows;
    forall i, j | 0 <= i < j < 5
      ensures ws[i].id != ws[j].id
    {
      assert ws[i].id[0] != ws[j].id[0];
    }
  }

  lemma InitialChatFound()
    ensures FindWindow(InitialWindows, "chat") == Some(InitialWindows[1])
  {
    var ws := InitialWindows;
    assert ws[0].id[0] != 'c';
    assert ws[1..][0] == ws[1];
  }

  lemma InitialMaxZ()
    ensures MaxZ(InitialWindows) == 10
  {
    var ws := InitialWindows;
    assert ws[1..][1..][1..][1..][1..] == [];
  }
}
