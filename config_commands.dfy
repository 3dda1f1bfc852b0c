// The commands that configure the newer state: `chunk_size`
// (src/commands/chunk_size.rs), which bounds the lines rendered per chunk,
// and `click_mode` (src/commands/click_mode.rs), which assigns a click
// action to a mouse button. Both answer a `Result` whose error the command
// line logs.
module ConfigCommands {
  import opened Base
  import opened ClickModes
  import opened AppStates
  import Logging

  // ----------------------------------------------------------- chunk_size

  const MIN_LIMIT: int := 1
  const MAX_LIMIT: int := 10000

  const LIMIT_ERROR: string :=
    "Invalid limit provided. Make sure to enter a valid integer between 1 and 10000."

  /** The limit as shown, 0 standing for no limit. */
  function LimitShown(limit: Option<int>): int
  {
    if limit.Some? then limit.value else 0
  }

  /** What `chunk_size` without arguments logs. */
  function LimitMessage(limit: Option<int>): string
  {
    Logging.Info("Current render chunk size limit (0 = No limit): <acc " + IntToString(LimitShown(limit)) + ">")
  }

  /** What `chunk_size` logs once the limit `v` is set. */
  function LimitSetMessage(v: int): string
  {
    Logging.Success("Successfully set chunk size limit to <acc " + IntToString(v) + ">.")
  }

  /** The state and the result after `chunk_size args`. */
  function ChunkSizeExecuted(m: AppModel, args: seq<string>): (AppModel, Result<(), string>)
  {
    if args == [] then
      (m.(logMessages := Logging.Logged(m.logMessages, LimitMessage(m.settings.chunkSizeLimit))), Ok(()))
    else if Lower(args[0]) == "reset" then
      (m.(settings := m.settings.(chunkSizeLimit := None)), Ok(()))
    else
      match ParseInt(args[0], I32)
      case Some(v) =>
        if MIN_LIMIT <= v < MAX_LIMIT then
          (m.(settings := m.settings.(chunkSizeLimit := Some(v)), logMessages := Logging.Logged(m.logMessages, LimitSetMessage(v))),
           Ok(()))
        else (m, Err(LIMIT_ERROR))
      case None => (m, Err(LIMIT_ERROR))
  }

  /**
   * No argument only logs the limit; "reset" in any case removes the limit;
   * anything refused is the range error and changes nothing.
   */
  lemma ChunkSizeOutcome(m: AppModel, args: seq<string>)
    ensures var (n, r) := ChunkSizeExecuted(m, args);
      && (args == [] ==> r.Ok? && n.settings == m.settings)
      && (args != [] && Lower(args[0]) == "reset" ==> r.Ok? && n == m.(settings := m.settings.(chunkSizeLimit := None)))
      && (r.Err? ==> n == m && r.error == LIMIT_ERROR)
  {
  }

  /** `chunk_size` changes the chunk size limit and the log and nothing else. */
  lemma ChunkSizeChangesOnlyLimit(m: AppModel, args: seq<string>)
    ensures var n := ChunkSizeExecuted(m, args).0;
      n == m.(settings := m.settings.(chunkSizeLimit := n.settings.chunkSizeLimit), logMessages := n.logMessages)
  {
    if args == [] {
      assert ChunkSizeExecuted(m, args).0 == m.(logMessages := Logging.Logged(m.logMessages, LimitMessage(m.settings.chunkSizeLimit)));
    } else if Lower(args[0]) == "reset" {
      assert ChunkSizeExecuted(m, args).0 == m.(settings := m.settings.(chunkSizeLimit := None));
    } else {
      var p := ParseInt(args[0], I32);
      if p.Some? && MIN_LIMIT <= p.value < MAX_LIMIT {
        var s := m.settings.(chunkSizeLimit := p);
        assert ChunkSizeExecuted(m, args).0 == m.(settings := s, logMessages := Logging.Logged(m.logMessages, LimitSetMessage(p.value)));
      } else {
        assert ChunkSizeExecuted(m, args).0 == m;
      }
    }
  }

  /**
   * Any other first argument is accepted exactly when it is an integer in
   * [1, 10000) (10000 itself is refused), and then it becomes the limit.
   */
  lemma ChunkSizeAccepts(m: AppModel, args: seq<string>)
    requires args != [] && Lower(args[0]) != "reset"
    ensures var (n, r) := ChunkSizeExecuted(m, args);
      && (r.Ok? <==> ParseInt(args[0], I32).Some? && MIN_LIMIT <= ParseInt(args[0], I32).value < MAX_LIMIT)
      && (r.Ok? ==> n.settings.chunkSizeLimit == ParseInt(args[0], I32))
  {
    var p := ParseInt(args[0], I32);
    if p.Some? && MIN_LIMIT <= p.value < MAX_LIMIT {
      assert ChunkSizeExecuted(m, args).0.settings.chunkSizeLimit == p;
    } else {
      assert ChunkSizeExecuted(m, args) == (m, Err(LIMIT_ERROR));
    }
  }

  /** The decimal form of a number is never the word "reset", in any case. */
  lemma NumberIsNotReset(v: int)
    ensures Lower(IntToString(v)) != "reset"
  {
    var s := IntToString(v);
    if v >= 0 {
      assert Lower(s)[0] == s[0] && IsDigit(s[0]);
    } else {
      assert s[0] == '-' && Lower(s)[0] == '-';
    }
  }

  /** Each limit in range is set by its decimal form, 10000 is refused, and "RESET" removes the limit again. */
  lemma ChunkSizeSetThenReset(m: AppModel, v: int)
    requires MIN_LIMIT <= v < MAX_LIMIT
    ensures ChunkSizeExecuted(m, [IntToString(v)]).0.settings.chunkSizeLimit == Some(v)
    ensures ChunkSizeExecuted(m, [IntToString(MAX_LIMIT)]).1.Err?
    ensures ChunkSizeExecuted(ChunkSizeExecuted(m, [IntToString(v)]).0, ["RESET"]).0.settings ==
      m.settings.(chunkSizeLimit := None)
  {
    ParseIntToString(v, I32);
    NumberIsNotReset(v);
    ParseIntToString(MAX_LIMIT, I32);
    NumberIsNotReset(MAX_LIMIT);
    assert Lower("RESET") == "reset";
  }

  /** `execute_chunk_size`. */
  method ExecuteChunkSize(state: AppState, args: seq<string>) returns (r: Result<(), string>)
    modifies state, state.renderSettings
    ensures (state.Model(), r) == ChunkSizeExecuted(old(state.Model()), args)
  {
    if |args| == 0 {
      var shown := LimitShown(state.renderSettings.chunkSizeLimit);
      state.LogInfo("Current render chunk size limit (0 = No limit): <acc " + IntToString(shown) + ">");
      return Ok(());
    }
    if Lower(args[0]) == "reset" {
      state.renderSettings.chunkSizeLimit := None;
      return Ok(());
    }
    var parsed := ParseInt(args[0], I32);
    if parsed.Some? {
      var newVal := parsed.value;
      if MIN_LIMIT <= newVal < MAX_LIMIT {
        state.renderSettings.chunkSizeLimit := Some(newVal);
        state.LogSuccess("Successfully set chunk size limit to <acc " + IntToString(newVal) + ">.");
        return Ok(());
      }
    }
    return Err(LIMIT_ERROR);
  }

  // ----------------------------------------------------------- click_mode

  const ACTION_ERROR: string := "The given action was not recognized"
  const BUTTON_ERROR: string := "The given button identifier could not be interpreted"

  /** The configuration as `click_mode` lists it, with every action available. */
  function ClickConfigShown(c: ClickConfig): string
  {
    "Current click configuration:\nLeft: <acc " + Name(c.left) + ">\nMiddle: <acc " + Name(c.middle) +
    ">\nRight: <acc " + Name(c.right) + ">\nAvailable click actions:\n" +
    Logging.AccList(seq(|AllModes()|, i requires 0 <= i < |AllModes()| => Name(AllModes()[i])))
  }

  /** The configuration with the slot of `button` set to `action`, if `button` names one. */
  function ButtonSet(c: ClickConfig, button: string, action: ClickMode): Option<ClickConfig>
  {
    if button == "left" then Some(c.(left := action))
    else if button == "middle" then Some(c.(middle := action))
    else if button == "right" then Some(c.(right := action))
    else None
  }

  /**
   * The state and the result after `click_mode args`. The second argument
   * is read before anything else, so the command takes no argument or at
   * least two.
   */
  function ClickModeExecuted(m: AppModel, args: seq<string>): (AppModel, Result<(), string>)
    requires |args| != 1
  {
    if args == [] then (m.(logMessages := Logging.Logged(m.logMessages, ClickConfigShown(m.clickConfig))), Ok(()))
    else
      var button := Lower(args[0]);
      match From(args[1])
      case None => (m, Err(ACTION_ERROR))
      case Some(action) =>
        match ButtonSet(m.clickConfig, button, action)
        case None => (m, Err(BUTTON_ERROR))
        case Some(c) =>
          (m.(clickConfig := c, logMessages := Logging.Logged(m.logMessages,
               Logging.Success("Successfully configured <acc " + button + "> click to trigger <acc " + Name(action) + ">"))),
           Ok(()))
  }

  /**
   * An unknown action is refused whatever the button, and an unknown button
   * is refused next; a refusal changes nothing. A success changes exactly
   * the slot of the button, to the action, and logs one message; nothing
   * but the configuration and the log ever changes.
   */
  lemma ClickModeOutcome(m: AppModel, args: seq<string>)
    requires |args| != 1
    ensures var (n, r) := ClickModeExecuted(m, args);
      && n.(clickConfig := m.clickConfig, logMessages := m.logMessages) == m
      && (args == [] ==> r.Ok? && n.clickConfig == m.clickConfig)
      && (args != [] && From(args[1]).None? ==> n == m && r == Err(ACTION_ERROR))
      && (args != [] && From(args[1]).Some? && ButtonSet(m.clickConfig, Lower(args[0]), From(args[1]).value).None? ==>
            n == m && r == Err(BUTTON_ERROR))
      && (args != [] && r.Ok? ==>
            var a := From(args[1]).value;
            var b := Lower(args[0]);
            && (b == "left" ==> n.clickConfig == m.clickConfig.(left := a))
            && (b == "middle" ==> n.clickConfig == m.clickConfig.(middle := a))
            && (b == "right" ==> n.clickConfig == m.clickConfig.(right := a))
            && (b == "left" || b == "middle" || b == "right")
            && n.logMessages == Logging.Logged(m.logMessages, n.logMessages[|n.logMessages| - 1]))
  {
  }

  /** A button named in any case, with a key of the mode table as the action, sets that slot to that mode. */
  lemma {:induction false} ClickModeSetsSlot(m: AppModel, button: string, k: nat)
    requires k < |FROM_TABLE|
    ensures Lower(button) == "left" ==>
      ClickModeExecuted(m, [button, FROM_TABLE[k].0]).0.clickConfig == m.clickConfig.(left := FROM_TABLE[k].1)
    ensures Lower(button) == "middle" ==>
      ClickModeExecuted(m, [button, FROM_TABLE[k].0]).0.clickConfig == m.clickConfig.(middle := FROM_TABLE[k].1)
    ensures Lower(button) == "right" ==>
      ClickModeExecuted(m, [button, FROM_TABLE[k].0]).0.clickConfig == m.clickConfig.(right := FROM_TABLE[k].1)
  {
    var mode := FROM_TABLE[k].1;
    var args := [button, FROM_TABLE[k].0];
    FromKeys(k);
    assert From(args[1]) == Some(mode);
    var c := ButtonSet(m.clickConfig, Lower(button), mode);
    if c.Some? {
      assert ClickModeExecuted(m, args).0.clickConfig == c.value;
    }
  }

  /** `execute_click_mode`. */
  method ExecuteClickMode(state: AppState, args: seq<string>) returns (r: Result<(), string>)
    requires |args| != 1
    modifies state
    ensures (state.Model(), r) == ClickModeExecuted(old(state.Model()), args)
  {
    if |args| == 0 {
      state.LogRaw(ClickConfigShown(state.clickConfig));
      return Ok(());
    }
    ghost var m := state.Model();
    var buttonStr := Lower(args[0]);
    var action := From(args[1]);
    if action.None? {
      assert ClickModeExecuted(m, args) == (m, Err(ACTION_ERROR));
      return Err(ACTION_ERROR);
    }
    var a := action.value;
    var slot := ButtonSet(state.clickConfig, buttonStr, a);
    if slot.None? {
      assert ClickModeExecuted(m, args) == (m, Err(BUTTON_ERROR));
      return Err(BUTTON_ERROR);
    }
    var c := slot.value;
    state.clickConfig := c;
    state.LogSuccess("Successfully configured <acc " + buttonStr + "> click to trigger <acc " + Name(a) + ">");
    return Ok(());
  }
}
