// The `history` command (src/commands/history.rs): it drops its own entry
// from the command history, then either lists the remaining commands with
// their indices, keeping that list as a snapshot, or copies the command at a
// given index of the snapshot into the command line.
module History {
  import opened Base
  import opened TextInput
  import opened AppStates
  import Markup
  import Logging

  /**
   * The process-wide snapshot behind `LAST_COMMANDS`: the list the last
   * `history` without arguments showed. An index always refers to it, not
   * to the current history.
   */
  class Snapshot {
    var commands: seq<string>

    /** The empty snapshot the program starts with. */
    constructor ()
      ensures commands == []
    {
      commands := [];
    }
  }

  const NO_PREVIOUS: string := "No previous commands."
  const LISTING_HEADER: string := "Below is shown your command history:\n"
  const INDEX_NOT_INTEGER: string := "The provided index isn't a valid integer."
  const INDEX_UNKNOWN: string := "No commands associated with the given index."

  /** The line listing `command` under index `i`. */
  function EntryLine(i: nat, command: string): string
  {
    "<acc " + NatToString(i) + ">: " + Markup.Esc(command) + "\n"
  }

  /** The listing lines of `commands`, numbered from 0, before trimming. */
  function ListingLines(commands: seq<string>): (r: string)
    ensures commands == [] <==> r == []
  {
    if commands == [] then ""
    else ListingLines(commands[..|commands| - 1]) + EntryLine(|commands| - 1, commands[|commands| - 1])
  }

  /** What `history` without arguments logs for the remaining `commands`. */
  function HistoryMessage(commands: seq<string>): string
  {
    if commands == [] then NO_PREVIOUS else LISTING_HEADER + Trim(ListingLines(commands))
  }

  /**
   * The state, the snapshot and the result after `history args`. The front
   * entry of the history is dropped first; this assumes the command runner
   * has pushed this very command there, so the list must not be empty (on an
   * empty list the program panics, which is not modelled).
   */
  function HistoryExecuted(m: AppModel, snapshot: seq<string>, args: seq<string>)
    : (AppModel, seq<string>, Result<(), string>)
    requires m.lastCommands != []
  {
    var rest := m.lastCommands[1..];
    var m1 := m.(lastCommands := rest);
    if args == [] then
      (m1.(logMessages := Logging.Logged(m1.logMessages, Logging.Info(HistoryMessage(rest)))), rest, Ok(()))
    else
      match ParseInt(args[0], USize)
      case None => (m1, snapshot, Err(INDEX_NOT_INTEGER))
      case Some(num) =>
        if num < |snapshot| then (m1.(commandInput := WithValue(snapshot[num])), snapshot, Ok(()))
        else (m1, snapshot, Err(INDEX_UNKNOWN))
  }

  /**
   * The front entry of the history (assuming the runner has pushed this
   * command there) is always dropped. Without arguments the
   * snapshot becomes the remaining list and one info line is logged; with an
   * index, the snapshot is kept, a valid index copies its entry into the
   * command line, and anything else is an error that changes nothing more.
   */
  lemma HistoryOutcome(m: AppModel, snapshot: seq<string>, args: seq<string>)
    requires m.lastCommands != []
    ensures var (n, snap, r) := HistoryExecuted(m, snapshot, args);
      && n.lastCommands == m.lastCommands[1..]
      && (args == [] ==>
            r.Ok? && snap == m.lastCommands[1..]
            && n == m.(lastCommands := snap, logMessages := n.logMessages)
            && n.logMessages == Logging.Logged(m.logMessages, Logging.Info(HistoryMessage(snap))))
      && (args != [] ==> snap == snapshot)
      && (args != [] && ParseInt(args[0], USize).None? ==> r == Err(INDEX_NOT_INTEGER))
      && (args != [] && ParseInt(args[0], USize).Some? && ParseInt(args[0], USize).value >= |snapshot| ==>
            r == Err(INDEX_UNKNOWN))
      && (r.Err? ==> n == m.(lastCommands := m.lastCommands[1..]))
      && (args != [] && r.Ok? ==>
            ParseInt(args[0], USize).value < |snapshot|
            && n == m.(lastCommands := m.lastCommands[1..], commandInput := WithValue(snapshot[ParseInt(args[0], USize).value])))
  {
  }

  /**
   * Showing the history and then, as the next command, picking index `i`
   * puts the command that was listed under `i` into the command line, even
   * though the history itself has changed in between.
   */
  lemma ShowThenPick(m: AppModel, snapshot: seq<string>, pick: string, i: nat)
    requires i + 1 < |m.lastCommands| < USIZE_MODULUS
    ensures var (n1, snap, _) := HistoryExecuted(m, snapshot, []);
      var n2 := n1.(lastCommands := [pick] + n1.lastCommands);
      var (n3, _, r) := HistoryExecuted(n2, snap, [IntToString(i)]);
      r.Ok? && n3.commandInput == WithValue(m.lastCommands[i + 1])
  {
    var shown := HistoryExecuted(m, snapshot, []);
    var snap := shown.1;
    assert snap == m.lastCommands[1..] && snap[i] == m.lastCommands[i + 1];
    ParseIntToString(i, USize);
    var n2 := shown.0.(lastCommands := [pick] + shown.0.lastCommands);
    assert HistoryExecuted(n2, snap, [IntToString(i)]).2.Ok?;
  }

  /** The listing of a prefix of the commands is a prefix of the whole listing. */
  lemma {:induction false} ListingLinesPrefix(commands: seq<string>, j: nat)
    requires j <= |commands|
    ensures StartsWith(ListingLines(commands), ListingLines(commands[..j]))
    decreases |commands|
  {
    if j < |commands| {
      var init := commands[..|commands| - 1];
      ListingLinesPrefix(init, j);
      assert init[..j] == commands[..j];
    } else {
      assert commands[..j] == commands;
    }
  }

  /**
   * The command at index `i` appears in the listing on its own line, after
   * the lines of the commands before it, numbered `i`.
   */
  lemma ListingShowsIndex(commands: seq<string>, i: nat)
    requires i < |commands|
    ensures var at := |ListingLines(commands[..i])|;
      var line := EntryLine(i, commands[i]);
      at + |line| <= |ListingLines(commands)| && ListingLines(commands)[at..at + |line|] == line
  {
    ListingLinesPrefix(commands, i + 1);
    assert commands[..i + 1][..i] == commands[..i];
    var whole := ListingLines(commands);
    var upTo := ListingLines(commands[..i + 1]);
    assert upTo == ListingLines(commands[..i]) + EntryLine(i, commands[i]);
    assert whole[..|upTo|] == upTo;
  }

  /** `execute_history`; `snapshot` is the process-wide `LAST_COMMANDS`. */
  method ExecuteHistory(state: AppState, snapshot: Snapshot, args: seq<string>) returns (r: Result<(), string>)
    requires state.lastCommands != []
    modifies state, snapshot
    ensures (state.Model(), snapshot.commands, r) == HistoryExecuted(old(state.Model()), old(snapshot.commands), args)
  {
    state.lastCommands := state.lastCommands[1..];
    if |args| == 0 {
      snapshot.commands := state.lastCommands;
      var locked := snapshot.commands;
      if |locked| == 0 {
        state.LogInfo(NO_PREVIOUS);
      } else {
        var res := "";
        var i := 0;
        while i < |locked|
          invariant 0 <= i <= |locked|
          invariant res == ListingLines(locked[..i])
        {
          assert locked[..i + 1][..i] == locked[..i];
          res := res + EntryLine(i, locked[i]);
          i := i + 1;
        }
        assert locked[..i] == locked;
        state.LogInfo(LISTING_HEADER + Trim(res));
      }
      return Ok(());
    }
    var index := args[0];
    var parsed := ParseInt(index, USize);
    if parsed.None? {
      return Err(INDEX_NOT_INTEGER);
    }
    var num := parsed.value;
    if num >= |snapshot.commands| {
      return Err(INDEX_UNKNOWN);
    }
    state.commandInput := WithValue(snapshot.commands[num]);
    return Ok(());
  }
}
