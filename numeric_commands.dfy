// The numeric commands built on `command_increment`: `smoothness` and
// `move_dist` (src/commands/smoothness.rs, src/commands/move_dist.rs) on the
// newer state, `prec` and `max_iter` (src/commands/prec.rs,
// src/commands/max_iter.rs) on the older one.
module NumericCommands {
  import opened Base
  import opened AppStates
  import opened LegacyAppStates
  import opened CommandIncrement
  import Bounds
  import Logging

  const MIN_SMOOTHNESS: int := 1
  const MAX_SMOOTHNESS: int := 100
  const MIN_MOVE_DIST: int := 1
  const MAX_MOVE_DIST: int := 100

  /** The bounds of the four commands. */
  lemma CommandBounds()
    ensures MIN_SMOOTHNESS == 1 && MAX_SMOOTHNESS == 100
    ensures MIN_MOVE_DIST == 1 && MAX_MOVE_DIST == 100
    ensures Bounds.MIN_DECIMAL_PREC == 8 && Bounds.MAX_DECIMAL_PREC == 10000
    ensures Bounds.MIN_MAX_ITER == 8 && Bounds.MAX_MAX_ITER == 10000
  {
  }

  /**
   * The older revisions use a `command_increment` that answers an `Option`:
   * a value, or nothing when the arguments are refused.
   */
  function AsOption(r: Result<int, string>): (o: Option<int>)
    ensures o.Some? <==> r.Ok?
    ensures o.Some? ==> o.value == r.value
  {
    if r.Ok? then Some(r.value) else None
  }

  /** The message `command_increment` logs for no argument. */
  function CurrentValueMessage(current: int): string
  {
    Logging.Info("The value is currently set to <acc " + IntToString(current) + ">")
  }

  /** The message `command_increment` logs for an accepted value. */
  function NewValueMessage(v: int): string
  {
    Logging.Success("Value successfully set to <acc " + IntToString(v) + ">.")
  }

  // ----------------------------------------------------------- smoothness

  /** The state and the result after `smoothness args`. */
  function SmoothnessExecuted(m: AppModel, args: seq<string>): (AppModel, Result<(), string>)
  {
    var inc := Incremented(m.settings.smoothness, args, MIN_SMOOTHNESS, MAX_SMOOTHNESS, I32);
    var logged := m.(logMessages := LoggedIf(m.logMessages, inc.1));
    if inc.0.Err? then (logged, Err(inc.0.error))
    else (logged.(settings := logged.settings.(smoothness := inc.0.value), redrawCanvas := true, repaintCanvas := true), Ok(()))
  }

  /**
   * A refused argument list changes nothing at all; an accepted one sets the
   * smoothness, inside [1, 100] when an argument was given, requests a redraw
   * and logs one success line. With no argument the smoothness is shown, set
   * to itself, and the redraw is still requested.
   */
  lemma {:induction false} SmoothnessOutcome(m: AppModel, args: seq<string>)
    ensures var (n, r) := SmoothnessExecuted(m, args);
      && (r.Err? ==> n == m)
      && (r.Ok? ==> n == m.(settings := m.settings.(smoothness := n.settings.smoothness),
                            redrawCanvas := true, repaintCanvas := true, logMessages := n.logMessages))
      && (r.Ok? && args != [] ==>
            MIN_SMOOTHNESS <= n.settings.smoothness <= MAX_SMOOTHNESS &&
            n.logMessages == Logging.Logged(m.logMessages, NewValueMessage(n.settings.smoothness)))
      && (args == [] ==>
            r.Ok? && n.settings == m.settings &&
            n.logMessages == Logging.Logged(m.logMessages, CurrentValueMessage(m.settings.smoothness)))
  {
    if args != [] {
      IncrementedLogs(m.settings.smoothness, args, MIN_SMOOTHNESS, MAX_SMOOTHNESS, I32);
    }
  }

  /** Giving a value in range sets exactly that value. */
  lemma SmoothnessSetsValue(m: AppModel, v: int)
    requires MIN_SMOOTHNESS <= v <= MAX_SMOOTHNESS
    ensures SmoothnessExecuted(m, [IntToString(v)]).1 == Ok(())
    ensures SmoothnessExecuted(m, [IntToString(v)]).0.settings.smoothness == v
  {
    IncrementedRoundTrip(m.settings.smoothness, v, MIN_SMOOTHNESS, MAX_SMOOTHNESS, I32);
  }

  /** `smoothness + d` then `smoothness - d` gives the smoothness back while it stays in range. */
  lemma SmoothnessStepsUndo(m: AppModel, d: int)
    requires MIN_SMOOTHNESS <= m.settings.smoothness <= MAX_SMOOTHNESS
    requires MIN_SMOOTHNESS <= m.settings.smoothness + d <= MAX_SMOOTHNESS
    ensures var up := SmoothnessExecuted(m, ["+", IntToString(d)]);
      && up.1 == Ok(())
      && SmoothnessExecuted(up.0, ["-", IntToString(d)]).1 == Ok(())
      && SmoothnessExecuted(up.0, ["-", IntToString(d)]).0.settings == m.settings
  {
    IncrementedUndo(m.settings.smoothness, d, MIN_SMOOTHNESS, MAX_SMOOTHNESS, I32);
  }

  /** `execute_smoothness`: `command_increment` on the smoothness, the value stored, a redraw requested. */
  method ExecuteSmoothness(state: AppState, args: seq<string>) returns (r: Result<(), string>)
    modifies state, state.renderSettings
    ensures (state.Model(), r) == SmoothnessExecuted(old(state.Model()), args)
  {
    var val := CommandIncrement.CommandIncrement(state, state.renderSettings.smoothness, args, MIN_SMOOTHNESS, MAX_SMOOTHNESS, I32);
    if val.Err? {
      return Err(val.error);
    }
    state.renderSettings.smoothness := val.value;
    state.RequestRedraw();
    return Ok(());
  }

  // ------------------------------------------------------------ move_dist

  /** The state after `move_dist args`. */
  function MoveDistExecuted(m: AppModel, args: seq<string>): AppModel
  {
    var inc := Incremented(m.moveDist, args, MIN_MOVE_DIST, MAX_MOVE_DIST, I32);
    var logged := m.(logMessages := LoggedIf(m.logMessages, inc.1));
    match AsOption(inc.0)
    case None => logged
    case Some(v) => logged.(moveDist := v)
  }

  /**
   * `move_dist` never requests a redraw and touches only the move distance
   * and the log; a refused argument list changes nothing, an accepted one
   * sets a distance in [1, 100].
   */
  lemma {:induction false} MoveDistOutcome(m: AppModel, args: seq<string>)
    ensures var n := MoveDistExecuted(m, args);
      var r := Incremented(m.moveDist, args, MIN_MOVE_DIST, MAX_MOVE_DIST, I32).0;
      && n == m.(moveDist := n.moveDist, logMessages := n.logMessages)
      && n.redrawCanvas == m.redrawCanvas && n.repaintCanvas == m.repaintCanvas
      && (r.Err? ==> n == m)
      && (r.Ok? ==> n.moveDist == r.value)
      && (r.Ok? && args != [] ==> MIN_MOVE_DIST <= n.moveDist <= MAX_MOVE_DIST)
      && (args == [] ==>
            n.moveDist == m.moveDist &&
            n.logMessages == Logging.Logged(m.logMessages, CurrentValueMessage(m.moveDist)))
  {
  }

  /** Giving a distance in range sets exactly that distance. */
  lemma MoveDistSetsValue(m: AppModel, v: int)
    requires MIN_MOVE_DIST <= v <= MAX_MOVE_DIST
    ensures MoveDistExecuted(m, [IntToString(v)]).moveDist == v
  {
    IncrementedRoundTrip(m.moveDist, v, MIN_MOVE_DIST, MAX_MOVE_DIST, I32);
  }

  /** `move_dist + d` then `move_dist - d` gives the distance back while it stays in range. */
  lemma MoveDistStepsUndo(m: AppModel, d: int)
    requires MIN_MOVE_DIST <= m.moveDist <= MAX_MOVE_DIST
    requires MIN_MOVE_DIST <= m.moveDist + d <= MAX_MOVE_DIST
    ensures MoveDistExecuted(MoveDistExecuted(m, ["+", IntToString(d)]), ["-", IntToString(d)]).moveDist == m.moveDist
  {
    IncrementedUndo(m.moveDist, d, MIN_MOVE_DIST, MAX_MOVE_DIST, I32);
  }

  /** `execute_move_dist`: the distance is stored when `command_increment` accepts it. */
  method ExecuteMoveDist(state: AppState, args: seq<string>)
    modifies state
    ensures state.Model() == MoveDistExecuted(old(state.Model()), args)
  {
    var val := CommandIncrement.CommandIncrement(state, state.moveDist, args, MIN_MOVE_DIST, MAX_MOVE_DIST, I32);
    if val.Ok? {
      state.moveDist := val.value;
    }
  }

  // ------------------------------------------------------ the older state

  /** The log of the older state after the message `command_increment` chose, if any. */
  function LegacyLogged(m: LegacyAppModel, message: Option<string>): LegacyAppModel
  {
    m.(logMessages := LoggedIf(m.logMessages, message))
  }

  /**
   * `command_increment` on the older state: the value it accepts, if any,
   * and its message logged.
   */
  method LegacyCommandIncrement(state: LegacyAppState, current: int, args: seq<string>, lo: int, hi: int, k: IntKind)
    returns (r: Option<int>)
    modifies state
    ensures r == AsOption(Incremented(current, args, lo, hi, k).0)
    ensures state.Model() == LegacyLogged(old(state.Model()), Incremented(current, args, lo, hi, k).1)
  {
    if |args| == 0 {
      assert Incremented(current, args, lo, hi, k) == (Ok(current), Some(CurrentValueMessage(current)));
      state.LogInfo("The value is currently set to <acc " + IntToString(current) + ">");
      return Some(current);
    }
    var candidate := ParseCandidate(current, args, k);
    if candidate.Err? {
      assert Incremented(current, args, lo, hi, k) == (candidate, None);
      return None;
    }
    var newVal := candidate.value;
    if newVal < lo || newVal > hi {
      assert Incremented(current, args, lo, hi, k) == (Err(RangeError(lo, hi)), None);
      return None;
    }
    assert Incremented(current, args, lo, hi, k) == (Ok(newVal), Some(NewValueMessage(newVal)));
    state.LogSuccess("Value successfully set to <acc " + IntToString(newVal) + ">.");
    return Some(newVal);
  }

  // ----------------------------------------------------------------- prec

  /** The older state after `prec args`: an unsigned 32-bit value in [8, 10000]. */
  function PrecExecuted(m: LegacyAppModel, args: seq<string>): LegacyAppModel
  {
    var inc := Incremented(m.settings.prec, args, Bounds.MIN_DECIMAL_PREC, Bounds.MAX_DECIMAL_PREC, U32);
    var logged := LegacyLogged(m, inc.1);
    match AsOption(inc.0)
    case None => logged
    case Some(v) => logged.(settings := logged.settings.(prec := v), redrawCanvas := true)
  }

  /**
   * An accepted value sets the precision and the redraw flag and nothing
   * else (the position and the cell size keep their values); a refused one
   * changes nothing.
   */
  lemma {:induction false} PrecOutcome(m: LegacyAppModel, args: seq<string>)
    ensures var n := PrecExecuted(m, args);
      var r := Incremented(m.settings.prec, args, Bounds.MIN_DECIMAL_PREC, Bounds.MAX_DECIMAL_PREC, U32).0;
      && (r.Err? ==> n == m)
      && (r.Ok? ==> n == m.(settings := m.settings.(prec := r.value), redrawCanvas := true, logMessages := n.logMessages))
      && (r.Ok? && args != [] ==> Bounds.MIN_DECIMAL_PREC <= n.settings.prec <= Bounds.MAX_DECIMAL_PREC)
      && n.settings.pos == m.settings.pos && n.settings.cellSize == m.settings.cellSize
  {
  }

  /** Giving a precision in range sets exactly that precision. */
  lemma PrecSetsValue(m: LegacyAppModel, v: int)
    requires Bounds.MIN_DECIMAL_PREC <= v <= Bounds.MAX_DECIMAL_PREC
    ensures PrecExecuted(m, [IntToString(v)]).settings.prec == v
    ensures PrecExecuted(m, [IntToString(v)]).redrawCanvas
  {
    IncrementedRoundTrip(m.settings.prec, v, Bounds.MIN_DECIMAL_PREC, Bounds.MAX_DECIMAL_PREC, U32);
  }

  /** `execute_prec`: the precision is written as given, without re-precisioning the position or the cell size. */
  method ExecutePrec(state: LegacyAppState, args: seq<string>)
    modifies state, state.renderSettings
    ensures state.Model() == PrecExecuted(old(state.Model()), args)
  {
    var val := LegacyCommandIncrement(state, state.renderSettings.prec, args, Bounds.MIN_DECIMAL_PREC, Bounds.MAX_DECIMAL_PREC, U32);
    if val.Some? {
      state.renderSettings.prec := val.value;
      state.redrawCanvas := true;
    }
  }

  // ------------------------------------------------------------- max_iter

  /** The older state after `max_iter args`: a signed 32-bit value in [8, 10000]. */
  function MaxIterExecuted(m: LegacyAppModel, args: seq<string>): LegacyAppModel
  {
    var inc := Incremented(m.settings.maxIter, args, Bounds.MIN_MAX_ITER, Bounds.MAX_MAX_ITER, I32);
    var logged := LegacyLogged(m, inc.1);
    match AsOption(inc.0)
    case None => logged
    case Some(v) => logged.(settings := logged.settings.(maxIter := v), redrawCanvas := true)
  }

  /** An accepted value sets the iteration limit, inside [8, 10000] when given, and the redraw flag; a refused one changes nothing. */
  lemma {:induction false} MaxIterOutcome(m: LegacyAppModel, args: seq<string>)
    ensures var n := MaxIterExecuted(m, args);
      var r := Incremented(m.settings.maxIter, args, Bounds.MIN_MAX_ITER, Bounds.MAX_MAX_ITER, I32).0;
      && (r.Err? ==> n == m)
      && (r.Ok? ==> n == m.(settings := m.settings.(maxIter := r.value), redrawCanvas := true, logMessages := n.logMessages))
      && (r.Ok? && args != [] ==> Bounds.MIN_MAX_ITER <= n.settings.maxIter <= Bounds.MAX_MAX_ITER)
  {
  }

  /** `max_iter + d` then `max_iter - d` gives the limit back while it stays in range. */
  lemma MaxIterStepsUndo(m: LegacyAppModel, d: int)
    requires Bounds.MIN_MAX_ITER <= m.settings.maxIter <= Bounds.MAX_MAX_ITER
    requires Bounds.MIN_MAX_ITER <= m.settings.maxIter + d <= Bounds.MAX_MAX_ITER
    ensures MaxIterExecuted(MaxIterExecuted(m, ["+", IntToString(d)]), ["-", IntToString(d)]).settings == m.settings
  {
    IncrementedUndo(m.settings.maxIter, d, Bounds.MIN_MAX_ITER, Bounds.MAX_MAX_ITER, I32);
  }

  /** `execute_max_iter`: the iteration limit is stored when `command_increment` accepts it. */
  method ExecuteMaxIter(state: LegacyAppState, args: seq<string>)
    modifies state, state.renderSettings
    ensures state.Model() == MaxIterExecuted(old(state.Model()), args)
  {
    var val := LegacyCommandIncrement(state, state.renderSettings.maxIter, args, Bounds.MIN_MAX_ITER, Bounds.MAX_MAX_ITER, I32);
    if val.Some? {
      state.renderSettings.maxIter := val.value;
      state.redrawCanvas := true;
    }
  }
}
