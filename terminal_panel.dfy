/** The terminal panel's command prompt: the typed command, a newest-first
    history of at most fifty entries, a cursor into that history (-1 when
    not browsing) and the draft saved when browsing starts. Each key press
    is one sequential step; the log lines above the prompt are coloured by
    a substring rule. */
module TerminalPanel {
  import opened Wrappers
  import opened Strings

  datatype Key = Enter | ArrowUp | ArrowDown | OtherKey

  const HistoryLimit := 50

  /** The four state fields of the prompt, as one value. */
  datatype Prompt = Prompt(command: string, history: seq<string>, historyIndex: int, tempCommand: string)

  /** The cursor is -1 or points into the history, which never exceeds its limit. */
  predicate ValidPrompt(p: Prompt) {
    -1 <= p.historyIndex < |p.history| && |p.history| <= HistoryLimit
  }

  /** `[command, ...history].slice(0, 50)`. */
  function PushHistory(command: string, history: seq<string>): (r: seq<string>)
    ensures |r| == if |history| < HistoryLimit then |history| + 1 else HistoryLimit
    ensures r[0] == command
    ensures forall k :: 0 < k < |r| ==> r[k] == history[k - 1]
  {
    var all := [command] + history;
    if |all| <= HistoryLimit then all else all[..HistoryLimit]
  }

  /** The state after one key press, as `handleKeyDown` leaves it. */
  function AfterKey(p: Prompt, key: Key): (r: Prompt)
    requires ValidPrompt(p)
    ensures key != Enter ==> r.history == p.history
    ensures key == Enter ==> r == p || (r.command == "" && r.historyIndex == -1 && |r.history| > 0 && r.history[0] == p.command)
  {
    match key
    case Enter =>
      if Trim(p.command) == "" then p
      else Prompt("", PushHistory(p.command, p.history), -1, "")
    case ArrowUp =>
      if |p.history| == 0 then p
      else
        var newIndex := if p.historyIndex + 1 < |p.history| - 1 then p.historyIndex + 1 else |p.history| - 1;
        var temp := if p.historyIndex == -1 then p.command else p.tempCommand;
        Prompt(p.history[newIndex], p.history, newIndex, temp)
    case ArrowDown =>
      var newIndex := p.historyIndex - 1;
      if newIndex <= -1 then p.(historyIndex := -1, command := p.tempCommand)
      else p.(historyIndex := newIndex, command := p.history[newIndex])
    case OtherKey => p
  }

  /** The command handed to `onCommand` by that key press, if any. */
  function Submitted(p: Prompt, key: Key): Option<string> {
    if key == Enter && Trim(p.command) != "" then Some(p.command) else None
  }

  /** Every key press keeps the cursor in range and the history bounded. */
  lemma KeyKeepsValid(p: Prompt, key: Key)
    requires ValidPrompt(p)
    ensures ValidPrompt(AfterKey(p, key))
  {
  }

  /** Enter on a blank command changes nothing and sends nothing. */
  lemma EnterBlankIgnored(p: Prompt)
    requires ValidPrompt(p) && IsBlank(p.command)
    ensures AfterKey(p, Enter) == p && Submitted(p, Enter).None?
  {
    TrimEmptyIffBlank(p.command);
  }

  /** Enter on a non-blank command sends it untrimmed, puts it first in the
      history ahead of the older entries (at most fifty kept), stops
      browsing, forgets the draft and clears the prompt. */
  lemma EnterRecordsCommand(p: Prompt)
    requires ValidPrompt(p) && !IsBlank(p.command)
    ensures var q := AfterKey(p, Enter);
      Submitted(p, Enter) == Some(p.command) &&
      q.history[0] == p.command && |q.history| <= HistoryLimit &&
      q.history[1..] == p.history[..|q.history| - 1] &&
      q.historyIndex == -1 && q.tempCommand == "" && q.command == ""
  {
    TrimEmptyIffBlank(p.command);
    var q := AfterKey(p, Enter);
    assert q.history == PushHistory(p.command, p.history);
  }

  /** ArrowUp with an empty history does nothing; otherwise it moves one
      entry older (stopping at the oldest), shows that entry, and saves the
      typed draft only when browsing starts. */
  lemma ArrowUpBrowses(p: Prompt)
    requires ValidPrompt(p)
    ensures |p.history| == 0 ==> AfterKey(p, ArrowUp) == p
    ensures |p.history| > 0 ==>
      var q := AfterKey(p, ArrowUp);
      q.historyIndex == (if p.historyIndex + 1 < |p.history| then p.historyIndex + 1 else |p.history| - 1) &&
      q.command == p.history[q.historyIndex] && q.history == p.history &&
      q.tempCommand == (if p.historyIndex == -1 then p.command else p.tempCommand)
  {
  }

  /** ArrowDown moves one entry newer; stepping past the newest ends
      browsing and brings the saved draft back. */
  lemma ArrowDownBrowses(p: Prompt)
    requires ValidPrompt(p)
    ensures var q := AfterKey(p, ArrowDown);
      q.history == p.history && q.tempCommand == p.tempCommand &&
      (p.historyIndex <= 0 ==> q.historyIndex == -1 && q.command == p.tempCommand) &&
      (p.historyIndex > 0 ==> q.historyIndex == p.historyIndex - 1 && q.command == p.history[p.historyIndex - 1])
  {
  }

  /** Up then Down from the resting prompt gives back exactly the draft
      that was being typed. */
  lemma UpThenDownRestoresDraft(p: Prompt)
    requires ValidPrompt(p) && p.historyIndex == -1 && |p.history| > 0
    ensures var q := AfterKey(AfterKey(p, ArrowUp), ArrowDown);
      q.command == p.command && q.historyIndex == -1 && q.history == p.history
  {
    KeyKeepsValid(p, ArrowUp);
  }

  /** ArrowDown at the resting prompt does not keep what was typed: it
      shows the saved draft instead (empty after an Enter). */
  lemma DownAtRestShowsDraft(p: Prompt)
    requires ValidPrompt(p) && p.historyIndex == -1
    ensures AfterKey(p, ArrowDown) == p.(command := p.tempCommand)
  {
  }

  /** The prompt component. */
  class Terminal {
    var command: string
    var history: seq<string>
    var historyIndex: int
    var tempCommand: string

    ghost predicate Valid()
      reads this
    {
      ValidPrompt(State())
    }

    function State(): Prompt
      reads this
    {
      Prompt(command, history, historyIndex, tempCommand)
    }

    constructor ()
      ensures Valid() && State() == Prompt("", [], -1, "")
    {
      command := "";
      history := [];
      historyIndex := -1;
      tempCommand := "";
    }

    /** The input's change handler: the typed text replaces the command. */
    method Type(text: string)
      requires Valid()
      modifies this`command
      ensures Valid() && State() == old(State()).(command := text)
    {
      command := text;
    }

    /** `handleKeyDown`, one field assignment at a time. */
    method HandleKeyDown(key: Key) returns (sent: Option<string>)
      requires Valid()
      modifies this
      ensures Valid()
      ensures State() == AfterKey(old(State()), key)
      ensures sent == Submitted(old(State()), key)
    {
      KeyKeepsValid(State(), key);
      sent := None;
      if key == Enter {
        if Trim(command) == "" {
          return;
        }
        var newHistory := [command] + history;
        if |newHistory| > HistoryLimit {
          newHistory := newHistory[..HistoryLimit];
        }
        history := newHistory;
        historyIndex := -1;
        tempCommand := "";
        sent := Some(command);
        command := "";
      } else if key == ArrowUp {
        if |history| == 0 {
          return;
        }
        var newIndex := if historyIndex + 1 < |history| - 1 then historyIndex + 1 else |history| - 1;
        if historyIndex == -1 {
          tempCommand := command;
        }
        historyIndex := newIndex;
        command := history[newIndex];
      } else if key == ArrowDown {
        var newIndex := historyIndex - 1;
        if newIndex <= -1 {
          historyIndex := -1;
          command := tempCommand;
        } else {
          historyIndex := newIndex;
          command := history[newIndex];
        }
      }
    }
  }

  /** The prompt values of a short session: `ls` sent, then the draft
      `dr`, ArrowUp to the sent command and ArrowDown back to the draft. */
  lemma SessionSend()
    ensures Submitted(Prompt("ls", [], -1, ""), Enter) == Some("ls")
    ensures AfterKey(Prompt("ls", [], -1, ""), Enter) == Prompt("", ["ls"], -1, "")
  {
    assert !IsBlank("ls") by { assert "ls"[0] == 'l' && !IsSpace('l'); }
    TrimEmptyIffBlank("ls");
    assert PushHistory("ls", []) == ["ls"];
  }

  lemma SessionBrowse()
    ensures AfterKey(Prompt("dr", ["ls"], -1, ""), ArrowUp) == Prompt("ls", ["ls"], 0, "dr")
    ensures AfterKey(Prompt("ls", ["ls"], 0, "dr"), ArrowDown) == Prompt("dr", ["ls"], -1, "dr")
  {
  }

  /** The same session on the component: one command, then a draft,
      browsing up to the command and back down to the draft. */
  method BrowsingSession() returns (sent: Option<string>, browsed: string, restored: string)
    ensures sent == Some("ls") && browsed == "ls" && restored == "dr"
  {
    var t := new Terminal();
    SessionSend();
    SessionBrowse();
    t.Type("ls");
    sent := t.HandleKeyDown(Enter);
    assert t.history == ["ls"];
    t.Type("dr");
    var none := t.HandleKeyDown(ArrowUp);
    browsed := t.command;
    none := t.HandleKeyDown(ArrowDown);
    restored := t.command;
  }

  datatype LineKind = InputLine | ErrorLine | SuccessLine | PlainLine

  /** How a log line is coloured: an echoed input wins over an error,
      which wins over a success. */
  function Classify(log: string): (k: LineKind)
    ensures k == InputLine <==> Contains(log, "> ")
    ensures k == ErrorLine <==> !Contains(log, "> ") && (Contains(log, "ERR") || Contains(log, "INTERRUPT"))
    ensures k == SuccessLine <==>
      !Contains(log, "> ") && !Contains(log, "ERR") && !Contains(log, "INTERRUPT") &&
      (Contains(log, "COMPLETE") || Contains(log, "SYNC"))
  {
    if Contains(log, "> ") then InputLine
    else if Contains(log, "ERR") || Contains(log, "INTERRUPT") then ErrorLine
    else if Contains(log, "COMPLETE") || Contains(log, "SYNC") then SuccessLine
    else PlainLine
  }

  /** A line holding t somewhere keeps holding it with text before it. */
  lemma {:induction false} ContainsAfterPrefix(a: string, b: string, t: string)
    requires Contains(b, t)
    ensures Contains(a + b, t)
    decreases |a|
  {
    if a == [] {
      assert a + b == b;
    } else {
      assert (a + b)[1..] == a[1..] + b;
      ContainsAfterPrefix(a[1..], b, t);
    }
  }

  /** The reducer's log entries look like `[time] message`; one whose
      message is an echoed `> command` is always coloured as input,
      whatever else it says. */
  lemma EchoedCommandIsInput(time: string, cmd: string)
    ensures Classify("[" + time + "] " + "> " + cmd) == InputLine
  {
    var line := "[" + time + "] " + "> " + cmd;
    assert StartsWith("> " + cmd, "> ");
    assert line == ("[" + time + "] ") + ("> " + cmd);
    ContainsAfterPrefix("[" + time + "] ", "> " + cmd, "> ");
  }

  /** `i.toString().padStart(3, '0')`: the line number in front of each log line. */
  function LineNumber(i: nat): (r: string)
    ensures i < 1000 ==> |r| == 3
    ensures |r| >= 3 && EndsWith(r, NatToString(i))
  {
    NatToStringShort(i);
    PadStart(NatToString(i), 3, '0')
  }
}
