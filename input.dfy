// The command line of src/components/input.rs: running the typed command,
// running the last one again, and the keys and clicks the input reacts to.
//
// The table `get_commands_map()` the command names are looked up in is not
// part of this model: it is the parameter `commands`, from a name to the
// command. What a command's closure does to the state is the parameter
// `execute`, and the editing `tui_input` does on the other keys is `edit`.
module Input {
  import opened Base
  import opened TextInput
  import opened TerminalEvents
  import opened Focuses
  import opened AppStates
  import Commands
  import Logging

  /** The decimal form of each count, as `usize::to_string` writes it. */
  function Decimals(xs: seq<nat>): (r: seq<string>)
    ensures |r| == |xs| && forall i :: 0 <= i < |xs| ==> r[i] == NatToString(xs[i])
  {
    if xs == [] then [] else [NatToString(xs[0])] + Decimals(xs[1..])
  }

  /** The words joined as `enumerate_strings` joins them: all but the last with ", ", then " or " and the last. */
  function OrJoined(words: seq<string>): string
    requires words != []
  {
    if |words| == 1 then words[0]
    else Join(words[..|words| - 1], ", ") + " or " + words[|words| - 1]
  }

  /** `enumerate_strings`; the empty list fails its assertion, so callers pass at least one count. */
  function EnumerateStrings(elements: seq<nat>): string
    requires elements != []
  {
    OrJoined(Decimals(elements))
  }

  /** The same listing read from the front: "a", "a or b", "a, " followed by the listing of the rest. */
  function Listing(words: seq<string>): string
    requires words != []
    decreases |words|
  {
    if |words| == 1 then words[0]
    else if |words| == 2 then words[0] + " or " + words[1]
    else words[0] + ", " + Listing(words[1..])
  }

  /** Joining a list with a first element is that element, the separator, then the rest joined. */
  lemma {:induction false} JoinCons(first: string, rest: seq<string>, sep: string)
    requires rest != []
    ensures Join([first] + rest, sep) == first + sep + Join(rest, sep)
    decreases |rest|
  {
    var all := [first] + rest;
    if |rest| > 1 {
      var init := rest[..|rest| - 1];
      assert all[..|all| - 1] == [first] + init;
      JoinCons(first, init, sep);
      assert Join(all, sep) == Join([first] + init, sep) + sep + rest[|rest| - 1];
      assert Join(rest, sep) == Join(init, sep) + sep + rest[|rest| - 1];
    } else {
      assert all[..|all| - 1] == [first];
    }
  }

  /** `enumerate_strings` lists the counts as read from the front: "0", "0 or 1", "0, 1 or 2". */
  lemma {:induction false} OrJoinedIsListing(words: seq<string>)
    requires words != []
    ensures OrJoined(words) == Listing(words)
    decreases |words|
  {
    if |words| > 2 {
      var rest := words[1..];
      OrJoinedIsListing(rest);
      var init := words[..|words| - 1];
      assert init == [words[0]] + rest[..|rest| - 1];
      JoinCons(words[0], rest[..|rest| - 1], ", ");
      assert rest[|rest| - 1] == words[|words| - 1];
    }
  }

  /** The example of the source: [0, 1, 2] gives "0, 1 or 2". */
  lemma EnumerateExample()
    ensures EnumerateStrings([0, 1, 2]) == "0, 1 or 2"
  {
    var words := Decimals([0, 1, 2]);
    assert words == ["0", "1", "2"];
    OrJoinedIsListing(words);
  }

  // ------------------------------------------------------------ messages

  /** The echo of the input logged before a known command. */
  function Echo(input: string): string
  {
    "<command \\> " + input + ">"
  }

  function NotFound(name: string): string
  {
    "Command not found: <bgred,white " + name + ">. Use <command help> for an overview of available commands."
  }

  function ArgCountError(c: Commands.Command, got: nat): string
    requires c.acceptedArgCount != []
  {
    "<bg:black,fg:white " + c.name + "> expects " + EnumerateStrings(c.acceptedArgCount) + " arguments but got "
    + NatToString(got) + ". Use <bg:black,fg:white help " + c.name + "> for more details on the usage of this command."
  }

  // --------------------------------------------------------- run_command

  /** Every command of the table accepts some argument count, so its usage error can be written. */
  predicate WellFormedTable(commands: map<string, Commands.Command>)
  {
    forall name :: name in commands ==> commands[name].acceptedArgCount != []
  }

  /** The input names a command of the table and has a number of arguments it accepts. */
  predicate Runs(input: string, commands: map<string, Commands.Command>)
  {
    var words := SplitWhitespace(input);
    words != [] && words[0] in commands && |words| - 1 in commands[words[0]].acceptedArgCount
  }

  function Log(m: AppModel, message: string): AppModel
  {
    m.(logMessages := Logging.Logged(m.logMessages, message))
  }

  /** The state after `run_command(input)`. */
  function CommandRun(m: AppModel, input: string, commands: map<string, Commands.Command>,
                      execute: (Commands.Command, seq<string>, AppModel) -> (AppModel, Result<(), string>)): AppModel
    requires WellFormedTable(commands)
  {
    WordsRun(m.(lastCommand := input), input, SplitWhitespace(input), commands, execute)
  }

  /** What `run_command` does once the input is recorded and split into `words`. */
  function WordsRun(m0: AppModel, input: string, words: seq<string>, commands: map<string, Commands.Command>,
                    execute: (Commands.Command, seq<string>, AppModel) -> (AppModel, Result<(), string>)): AppModel
    requires WellFormedTable(commands)
  {
    if words == [] then m0
    else if words[0] !in commands then Log(m0, Logging.Error(NotFound(words[0])))
    else
      var c := commands[words[0]];
      var m1 := Log(m0, Echo(input));
      if |words| - 1 !in c.acceptedArgCount then Log(m1, Logging.Error(ArgCountError(c, |words| - 1)))
      else
        var (m2, res) := execute(c, words[1..], m1);
        if res.Err? then Log(m2, Logging.Error(res.error)) else m2
  }

  /** An unknown command name is recorded as the last command and logs exactly one error; nothing runs. */
  lemma UnknownCommandLogsError(m: AppModel, input: string, commands: map<string, Commands.Command>,
                                execute: (Commands.Command, seq<string>, AppModel) -> (AppModel, Result<(), string>))
    requires WellFormedTable(commands)
    requires SplitWhitespace(input) != [] && SplitWhitespace(input)[0] !in commands
    requires |m.logMessages| < Logging.LOG_MESSAGE_LIMIT
    ensures CommandRun(m, input, commands, execute)
      == m.(lastCommand := input, logMessages := m.logMessages + [Logging.Error(NotFound(SplitWhitespace(input)[0]))])
  {
  }

  /**
   * A known command given an argument count it does not accept is recorded,
   * echoed and followed by exactly one error; the command does not run.
   */
  lemma RefusedArgCountLogsEchoAndError(m: AppModel, input: string, commands: map<string, Commands.Command>,
                                        execute: (Commands.Command, seq<string>, AppModel) -> (AppModel, Result<(), string>))
    requires WellFormedTable(commands)
    requires SplitWhitespace(input) != [] && SplitWhitespace(input)[0] in commands && !Runs(input, commands)
    requires |m.logMessages| + 1 < Logging.LOG_MESSAGE_LIMIT
    ensures var words := SplitWhitespace(input);
      CommandRun(m, input, commands, execute)
        == m.(lastCommand := input,
              logMessages := m.logMessages + [Echo(input), Logging.Error(ArgCountError(commands[words[0]], |words| - 1))])
  {
    RefusedWordsLogged(m.(lastCommand := input), input, SplitWhitespace(input), commands, execute);
  }

  lemma RefusedWordsLogged(m0: AppModel, input: string, words: seq<string>, commands: map<string, Commands.Command>,
                           execute: (Commands.Command, seq<string>, AppModel) -> (AppModel, Result<(), string>))
    requires WellFormedTable(commands)
    requires words != [] && words[0] in commands && |words| - 1 !in commands[words[0]].acceptedArgCount
    requires |m0.logMessages| + 1 < Logging.LOG_MESSAGE_LIMIT
    ensures WordsRun(m0, input, words, commands, execute)
      == m0.(logMessages := m0.logMessages + [Echo(input), Logging.Error(ArgCountError(commands[words[0]], |words| - 1))])
  {
  }

  /** An input of whitespace only is recorded and does nothing more. */
  lemma BlankInputOnlyRecorded(m: AppModel, input: string, commands: map<string, Commands.Command>,
                               execute: (Commands.Command, seq<string>, AppModel) -> (AppModel, Result<(), string>))
    requires WellFormedTable(commands)
    requires forall i :: 0 <= i < |input| ==> IsWhitespace(input[i])
    ensures CommandRun(m, input, commands, execute) == m.(lastCommand := input)
  {
    assert SplitWhitespace(input) == [];
  }

  /**
   * A command that runs gets the words after its name, on the state with
   * the input recorded and echoed; its error, if any, is logged after what
   * it did.
   */
  lemma RunExecutes(m: AppModel, input: string, commands: map<string, Commands.Command>,
                    execute: (Commands.Command, seq<string>, AppModel) -> (AppModel, Result<(), string>))
    requires WellFormedTable(commands) && Runs(input, commands)
    ensures var words := SplitWhitespace(input);
      var out := execute(commands[words[0]], words[1..], Log(m.(lastCommand := input), Echo(input)));
      CommandRun(m, input, commands, execute) == (if out.1.Ok? then out.0 else Log(out.0, Logging.Error(out.1.error)))
  {
    var words := SplitWhitespace(input);
    var m0 := m.(lastCommand := input);
    assert CommandRun(m, input, commands, execute) == WordsRun(m0, input, words, commands, execute);
  }

  /** `Input::run_command`. */
  method RunCommand(st: AppState, input: string, commands: map<string, Commands.Command>,
                    execute: (Commands.Command, seq<string>, AppModel) -> (AppModel, Result<(), string>))
    requires WellFormedTable(commands)
    modifies st, st.renderSettings
    ensures st.Model() == CommandRun(old(st.Model()), input, commands, execute)
  {
    st.lastCommand := input;
    var args := SplitWhitespace(input);
    RunWords(st, input, args, commands, execute);
  }

  /** The body of `run_command` after the input has been recorded and split. */
  method RunWords(st: AppState, input: string, words: seq<string>, commands: map<string, Commands.Command>,
                  execute: (Commands.Command, seq<string>, AppModel) -> (AppModel, Result<(), string>))
    requires WellFormedTable(commands)
    modifies st, st.renderSettings
    ensures st.Model() == WordsRun(old(st.Model()), input, words, commands, execute)
  {
    if |words| == 0 {
      return;
    }
    var commandName := words[0];
    if commandName in commands {
      RunKnown(st, input, commands[commandName], words[1..], execute);
    } else {
      st.LogError(NotFound(commandName));
    }
  }

  /** A known command: the echo, the argument-count check, then its closure and its error if any. */
  method RunKnown(st: AppState, input: string, command: Commands.Command, args: seq<string>,
                  execute: (Commands.Command, seq<string>, AppModel) -> (AppModel, Result<(), string>))
    requires command.acceptedArgCount != []
    modifies st, st.renderSettings
    ensures var m1 := Log(old(st.Model()), Echo(input));
      st.Model() == if |args| !in command.acceptedArgCount then Log(m1, Logging.Error(ArgCountError(command, |args|)))
        else var (m2, res) := execute(command, args, m1); if res.Err? then Log(m2, Logging.Error(res.error)) else m2
  {
    st.LogRaw(Echo(input));
    if |args| !in command.acceptedArgCount {
      st.LogError(ArgCountError(command, |args|));
      return;
    }
    var (m2, res) := execute(command, args, st.Model());
    st.Assign(m2);
    if res.Err? {
      st.LogError(res.error);
    }
  }

  /** `run_current_command`: the field is reset, then its old text is run. */
  method RunCurrentCommand(st: AppState, commands: map<string, Commands.Command>,
                           execute: (Commands.Command, seq<string>, AppModel) -> (AppModel, Result<(), string>))
    requires WellFormedTable(commands)
    modifies st, st.renderSettings
    ensures st.Model() == CommandRun(old(st.Model()).(commandInput := EMPTY_INPUT), old(st.commandInput.value), commands, execute)
  {
    var input := st.commandInput.value;
    st.commandInput := EMPTY_INPUT;
    RunCommand(st, input, commands, execute);
  }

  /** `run_last_command`. */
  method RunLastCommand(st: AppState, commands: map<string, Commands.Command>,
                        execute: (Commands.Command, seq<string>, AppModel) -> (AppModel, Result<(), string>))
    requires WellFormedTable(commands)
    modifies st, st.renderSettings
    ensures st.Model() == CommandRun(old(st.Model()), old(st.lastCommand), commands, execute)
  {
    RunCommand(st, st.lastCommand, commands, execute);
  }

  // -------------------------------------------------------------- events

  /** The state after `Input::handle_event(key)`. */
  function KeyHandled(m: AppModel, key: KeyEvent, commands: map<string, Commands.Command>,
                      execute: (Commands.Command, seq<string>, AppModel) -> (AppModel, Result<(), string>),
                      edit: (InputField, KeyEvent) -> InputField): AppModel
    requires WellFormedTable(commands)
  {
    if key.code == Enter then CommandRun(m.(commandInput := EMPTY_INPUT), m.commandInput.value, commands, execute)
    else if key.code == Char('r') && key.modifiers == Control then CommandRun(m, m.lastCommand, commands, execute)
    else m.(commandInput := edit(m.commandInput, key))
  }

  /**
   * Enter empties the field and runs what it held; a blank field only
   * becomes the last command. Ctrl+R with a blank last command changes
   * nothing. Any other key only edits the field.
   */
  lemma KeyHandledMeaning(m: AppModel, key: KeyEvent, commands: map<string, Commands.Command>,
                          execute: (Commands.Command, seq<string>, AppModel) -> (AppModel, Result<(), string>),
                          edit: (InputField, KeyEvent) -> InputField)
    requires WellFormedTable(commands)
    ensures var r := KeyHandled(m, key, commands, execute, edit);
      && (key.code == Enter && (forall i :: 0 <= i < |m.commandInput.value| ==> IsWhitespace(m.commandInput.value[i])) ==>
            r == m.(commandInput := EMPTY_INPUT, lastCommand := m.commandInput.value))
      && (key.code == Char('r') && key.modifiers == Control && (forall i :: 0 <= i < |m.lastCommand| ==> IsWhitespace(m.lastCommand[i])) ==>
            r == m)
      && (key.code != Enter && !(key.code == Char('r') && key.modifiers == Control) ==>
            r == m.(commandInput := r.commandInput) && r.commandInput == edit(m.commandInput, key))
  {
    if key.code == Enter && (forall i :: 0 <= i < |m.commandInput.value| ==> IsWhitespace(m.commandInput.value[i])) {
      BlankInputOnlyRecorded(m.(commandInput := EMPTY_INPUT), m.commandInput.value, commands, execute);
    }
    if key.code == Char('r') && key.modifiers == Control && (forall i :: 0 <= i < |m.lastCommand| ==> IsWhitespace(m.lastCommand[i])) {
      BlankInputOnlyRecorded(m, m.lastCommand, commands, execute);
    }
  }

  /** `Input::handle_event`. */
  method HandleKey(st: AppState, key: KeyEvent, commands: map<string, Commands.Command>,
                   execute: (Commands.Command, seq<string>, AppModel) -> (AppModel, Result<(), string>),
                   edit: (InputField, KeyEvent) -> InputField)
    requires WellFormedTable(commands)
    modifies st, st.renderSettings
    ensures st.Model() == KeyHandled(old(st.Model()), key, commands, execute, edit)
  {
    if key.code == Enter {
      RunCurrentCommand(st, commands, execute);
    } else if key.code == Char('r') && key.modifiers == Control {
      RunLastCommand(st, commands, execute);
    } else {
      st.commandInput := edit(st.commandInput, key);
    }
  }

  /** `Input::handle_mouse_event`: a click on the input focuses it. */
  method HandleMouse(st: AppState, e: MouseEvent)
    modifies st
    ensures st.Model() == old(st.Model()).(focused := Input)
  {
    st.focused := Input;
  }
}
