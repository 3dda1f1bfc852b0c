// The commands of the older application that change how the canvas is
// viewed: `zoom_factor` (src/commands/zoom_factor.rs), `color`
// (src/commands/color.rs) and `frac` (src/commands/frac.rs). They act on the
// older state, whose log wraps error messages in `<red ...>`.
module ViewCommands {
  import opened Base
  import opened LegacyAppStates
  import opened LegacyRender
  import Palettes
  import Fractals
  import Logging

  const MIN_SCALING_FACTOR: int := 1
  const MAX_SCALING_FACTOR: int := 500
  const ZOOM_RANGE_ERROR: string := "Please, provide a value between 1 and 500."
  const ZOOM_PARSE_ERROR: string := "Please, provide a valid integer."

  /** The older state with `message` logged. */
  function Log(m: LegacyAppModel, message: string): LegacyAppModel
  {
    m.(logMessages := Logging.Logged(m.logMessages, message))
  }

  // ---------------------------------------------------------- zoom_factor

  function ScalingShown(v: int): string
  {
    Logging.InfoTitled("Current Scaling Factor", "The scaling factor is set to <acc " + IntToString(v) + "%>")
  }

  function ScalingSet(v: int): string
  {
    Logging.Success("Scaling factor successfully set to <acc " + IntToString(v) + "%>")
  }

  /** The older state after `zoom_factor args`. */
  function ZoomFactorExecuted(m: LegacyAppModel, args: seq<string>): LegacyAppModel
  {
    if args == [] then Log(m, ScalingShown(m.scalingFactor))
    else
      match ParseInt(args[0], I32)
      case None => Log(m, Logging.LegacyError(ZOOM_PARSE_ERROR))
      case Some(v) =>
        if v < MIN_SCALING_FACTOR || v > MAX_SCALING_FACTOR then Log(m, Logging.LegacyError(ZOOM_RANGE_ERROR))
        else Log(m.(scalingFactor := v), ScalingSet(v))
  }

  /**
   * Every call logs exactly one message and changes nothing but the scaling
   * factor; the factor changes exactly when the first argument is an integer
   * in [1, 500], and then becomes it. No argument shows the factor, a
   * non-integer and an out-of-range integer each log their error.
   */
  lemma ZoomFactorOutcome(m: LegacyAppModel, args: seq<string>)
    ensures var n := ZoomFactorExecuted(m, args);
      var accepted := args != [] && ParseInt(args[0], I32).Some? &&
        MIN_SCALING_FACTOR <= ParseInt(args[0], I32).value <= MAX_SCALING_FACTOR;
      && n.(logMessages := m.logMessages, scalingFactor := m.scalingFactor) == m
      && n.logMessages == Logging.Logged(m.logMessages, n.logMessages[|n.logMessages| - 1])
      && (accepted ==> n.scalingFactor == ParseInt(args[0], I32).value)
      && (!accepted ==> n.scalingFactor == m.scalingFactor)
      && (args == [] ==> n == Log(m, ScalingShown(m.scalingFactor)))
      && (args != [] && ParseInt(args[0], I32).None? ==> n == Log(m, Logging.LegacyError(ZOOM_PARSE_ERROR)))
      && (args != [] && ParseInt(args[0], I32).Some? && !accepted ==> n == Log(m, Logging.LegacyError(ZOOM_RANGE_ERROR)))
  {
  }

  /** Giving a factor in [1, 500] sets it; and a factor that allows zooming keeps allowing it. */
  lemma ZoomFactorSetsValue(m: LegacyAppModel, v: int, args: seq<string>)
    requires MIN_SCALING_FACTOR <= v <= MAX_SCALING_FACTOR
    ensures ZoomFactorExecuted(m, [IntToString(v)]).scalingFactor == v
    ensures m.scalingFactor > -100 ==> ZoomFactorExecuted(m, args).scalingFactor > -100
  {
    ParseIntToString(v, I32);
  }

  /** `execute_zoom_factor`. */
  method ExecuteZoomFactor(state: LegacyAppState, args: seq<string>)
    modifies state
    ensures state.Model() == ZoomFactorExecuted(old(state.Model()), args)
  {
    if |args| == 0 {
      state.LogInfoTitle("Current Scaling Factor", "The scaling factor is set to <acc " + IntToString(state.scalingFactor) + "%>");
      return;
    }
    var parsed := ParseInt(args[0], I32);
    if parsed.Some? {
      var newValue := parsed.value;
      if newValue < MIN_SCALING_FACTOR || newValue > MAX_SCALING_FACTOR {
        state.LogError(ZOOM_RANGE_ERROR);
        return;
      }
      state.scalingFactor := newValue;
      state.LogSuccess("Scaling factor successfully set to <acc " + IntToString(newValue) + "%>");
    } else {
      state.LogError(ZOOM_PARSE_ERROR);
    }
  }

  // ---------------------------------------------------------------- color

  /** The names of the palettes, in table order. */
  function PaletteNames(): (r: seq<string>)
    ensures |r| == |Palettes.COLORS|
  {
    seq(|Palettes.COLORS|, i requires 0 <= i < |Palettes.COLORS| => Palettes.COLORS[i].name)
  }

  function PalettesShown(current: nat): string
    requires current < |Palettes.COLORS|
  {
    "Current colors: <acc " + Palettes.COLORS[current].name + ">\nAvailable colors: " + Logging.AccList(PaletteNames())
  }

  /**
   * The older state after `color args`; showing the palettes reads the
   * selected one, so the selection must be a palette then.
   */
  function ColorExecuted(m: LegacyAppModel, args: seq<string>): LegacyAppModel
    requires args == [] ==> m.paletteIndex < |Palettes.COLORS|
  {
    if args == [] then Log(m, PalettesShown(m.paletteIndex))
    else
      match Palettes.GetPaletteIndexByName(args[0])
      case None => Log(m, Logging.LegacyError("Could not find palette: <red " + args[0] + ">"))
      case Some(pal) =>
        Log(m.(paletteIndex := pal), Logging.Success("Selected color scheme: <acc " + Palettes.COLORS[pal].name + ">")).(redrawCanvas := true)
  }

  /**
   * `color` logs one message and changes at most the palette and the redraw
   * flag. A name that matches a palette (ignoring case) selects the first
   * such palette and requests a redraw; any other name only logs an error.
   * The selection always stays a palette of the table.
   */
  lemma ColorOutcome(m: LegacyAppModel, args: seq<string>)
    requires args == [] ==> m.paletteIndex < |Palettes.COLORS|
    ensures var n := ColorExecuted(m, args);
      && n.(logMessages := m.logMessages, paletteIndex := m.paletteIndex, redrawCanvas := m.redrawCanvas) == m
      && n.logMessages == Logging.Logged(m.logMessages, n.logMessages[|n.logMessages| - 1])
      && (m.paletteIndex < |Palettes.COLORS| ==> n.paletteIndex < |Palettes.COLORS|)
      && (args == [] ==> n.paletteIndex == m.paletteIndex && n.redrawCanvas == m.redrawCanvas)
      && (args != [] && Palettes.GetPaletteIndexByName(args[0]).None? ==>
            n == Log(m, Logging.LegacyError("Could not find palette: <red " + args[0] + ">")))
      && (args != [] && Palettes.GetPaletteIndexByName(args[0]).Some? ==>
            n.redrawCanvas && n.paletteIndex < |Palettes.COLORS| &&
            Lower(Palettes.COLORS[n.paletteIndex].name) == Lower(args[0]))
  {
  }

  /** Each palette is selected by its own name. */
  lemma ColorSelectsByName(m: LegacyAppModel, k: nat)
    requires k < |Palettes.COLORS|
    ensures ColorExecuted(m, [Palettes.COLORS[k].name]).paletteIndex == k
    ensures ColorExecuted(m, [Palettes.COLORS[k].name]).redrawCanvas
  {
    Palettes.GetPaletteIndexByOwnName(k);
  }

  /** `execute_color`. */
  method ExecuteColor(state: LegacyAppState, args: seq<string>)
    requires args == [] ==> state.paletteIndex < |Palettes.COLORS|
    modifies state
    ensures state.Model() == ColorExecuted(old(state.Model()), args)
  {
    if |args| == 0 {
      var current := state.GetPalette();
      state.LogRaw("Current colors: <acc " + current.name + ">\nAvailable colors: " + Logging.AccList(PaletteNames()));
      return;
    }
    var palette := Palettes.GetPaletteIndexByName(args[0]);
    match palette {
      case None =>
        state.LogError("Could not find palette: <red " + args[0] + ">");
      case Some(pal) =>
        state.paletteIndex := pal;
        state.LogSuccess("Selected color scheme: <acc " + Palettes.COLORS[pal].name + ">");
        state.redrawCanvas := true;
    }
  }

  // ----------------------------------------------------------------- frac

  /** The names of the fractals, in table order. */
  function FractalNames(): (r: seq<string>)
    ensures |r| == |Fractals.FRACTALS|
  {
    seq(|Fractals.FRACTALS|, i requires 0 <= i < |Fractals.FRACTALS| => Fractals.FRACTALS[i].name)
  }

  function FractalsShown(current: nat): string
    requires current < |Fractals.FRACTALS|
  {
    "Current fractal: <acc " + Fractals.FRACTALS[current].name + ">\nAvailable fractals: " + Logging.AccList(FractalNames())
  }

  const INFO_WITHOUT_NAME: string := "Expected the a fractal name after <command info>"

  function NotInfoError(first: string): string
  {
    "Expected the first of the two arguments to be <command info>, but got <command " + first + ">"
  }

  /** The argument that names the fractal: the second after `info`, the first otherwise. */
  function FracName(args: seq<string>): string
    requires args != []
    requires args[0] == "info" ==> |args| == 2
  {
    if args[0] == "info" then args[1] else args[0]
  }

  /**
   * The older state after `frac args`. Showing the fractals reads the
   * selected one, so the selection must be a fractal then.
   */
  function FracExecuted(m: LegacyAppModel, args: seq<string>): LegacyAppModel
    requires args == [] ==> m.settings.fracIndex < |Fractals.FRACTALS|
  {
    if args == [] then Log(m, FractalsShown(m.settings.fracIndex))
    else if args[0] == "info" && |args| != 2 then Log(m, Logging.LegacyError(INFO_WITHOUT_NAME))
    else if args[0] != "info" && |args| == 2 then Log(m, Logging.LegacyError(NotInfoError(args[0])))
    else
      var name := FracName(args);
      match GetFracIndexByName(name)
      case None => Log(m, Logging.LegacyError("Could not find fractal with name: <command " + name + ">"))
      case Some(i) =>
        if args[0] == "info" then Log(m, Logging.InfoTitled(Fractals.FRACTALS[i].name, Fractals.FRACTALS[i].details))
        else Log(m.(settings := m.settings.(fracIndex := i)), Logging.Success("Successfully selected fractal: <acc " + name + ">."))
  }

  /** The fractal `frac args` selects: one name that is not `info` and matches a fractal. */
  function FracSelection(args: seq<string>): Option<nat>
  {
    if args != [] && args[0] != "info" && |args| != 2 then GetFracIndexByName(args[0]) else None
  }

  /**
   * `frac` logs one message and changes at most the selected fractal, and
   * requests no redraw. Only a selection (a name, not `info`) that matches a
   * fractal changes it; `info`, the usage errors and an unknown name leave
   * the settings alone.
   */
  lemma FracOutcome(m: LegacyAppModel, args: seq<string>)
    requires args == [] ==> m.settings.fracIndex < |Fractals.FRACTALS|
    ensures var n := FracExecuted(m, args);
      var sel := FracSelection(args);
      && n.settings == (if sel.Some? then m.settings.(fracIndex := sel.value) else m.settings)
      && n == m.(settings := n.settings, logMessages := n.logMessages)
      && n.logMessages != [] && n.logMessages == Logging.Logged(m.logMessages, n.logMessages[|n.logMessages| - 1])
  {
    if args == [] {
      LogOnce(m, FractalsShown(m.settings.fracIndex));
    } else if (args[0] == "info") != (|args| == 2) {
      FracUsageErrors(m, args);
      LogOnce(m, Logging.LegacyError(INFO_WITHOUT_NAME));
      LogOnce(m, Logging.LegacyError(NotInfoError(args[0])));
    } else {
      FracLookupOutcome(m, args);
    }
  }

  /** Logging a message changes only the log, whose newest entry it becomes. */
  lemma LogOnce(m: LegacyAppModel, msg: string)
    ensures var n := Log(m, msg);
      && n == m.(logMessages := n.logMessages)
      && n.logMessages != [] && n.logMessages[|n.logMessages| - 1] == msg
      && n.logMessages == Logging.Logged(m.logMessages, msg)
  {
  }

  /** The name lookup of `frac`, once the arguments have the right shape. */
  lemma FracLookupOutcome(m: LegacyAppModel, args: seq<string>)
    requires args != [] && (args[0] == "info" <==> |args| == 2)
    ensures var n := FracExecuted(m, args);
      var sel := FracSelection(args);
      && n.settings == (if sel.Some? then m.settings.(fracIndex := sel.value) else m.settings)
      && n == m.(settings := n.settings, logMessages := n.logMessages)
      && n.logMessages != [] && n.logMessages == Logging.Logged(m.logMessages, n.logMessages[|n.logMessages| - 1])
  {
    var n := FracExecuted(m, args);
    var name := FracName(args);
    match GetFracIndexByName(name)
    case None =>
      assert FracSelection(args).None?;
      assert n == Log(m, Logging.LegacyError("Could not find fractal with name: <command " + name + ">"));
    case Some(i) =>
      if args[0] != "info" {
        assert FracSelection(args) == Some(i);
        assert n == Log(m.(settings := m.settings.(fracIndex := i)), Logging.Success("Successfully selected fractal: <acc " + name + ">."));
      } else {
        assert FracSelection(args).None?;
        assert n == Log(m, Logging.InfoTitled(Fractals.FRACTALS[i].name, Fractals.FRACTALS[i].details));
      }
  }

  /** The fractal selected is the first one with that name, in any case. */
  lemma FracSelectionMatches(args: seq<string>)
    ensures var sel := FracSelection(args);
      sel.Some? ==> sel.value < |Fractals.FRACTALS| && Lower(Fractals.FRACTALS[sel.value].name) == Lower(args[0])
  {
  }

  /** `info` needs exactly one name after it, and a name alone takes nothing after it. */
  lemma FracUsageErrors(m: LegacyAppModel, args: seq<string>)
    requires args != []
    ensures args[0] == "info" && |args| != 2 ==> FracExecuted(m, args) == Log(m, Logging.LegacyError(INFO_WITHOUT_NAME))
    ensures |args| == 2 && args[0] != "info" ==> FracExecuted(m, args) == Log(m, Logging.LegacyError(NotInfoError(args[0])))
  {
  }

  /** Each fractal is selected by its own name in any case, and `info` on it shows its details. */
  lemma {:induction false} FracSelectsByName(m: LegacyAppModel, k: nat, query: string)
    requires k < |Fractals.FRACTALS| && Lower(query) == Lower(Fractals.FRACTALS[k].name) && query != "info"
    ensures FracExecuted(m, [query]).settings.fracIndex == k
    ensures FracExecuted(m, ["info", query]) ==
      Log(m, Logging.InfoTitled(Fractals.FRACTALS[k].name, Fractals.FRACTALS[k].details))
  {
    FracNameFound(k, query);
  }

  /** The lookup finds each fractal by its own name, in any case. */
  lemma FracNameFound(k: nat, query: string)
    requires k < |Fractals.FRACTALS| && Lower(query) == Lower(Fractals.FRACTALS[k].name)
    ensures GetFracIndexByName(query) == Some(k)
  {
    var q := Lower(query);
    assert q[0] == ['m', 'b', 'j'][k];
    forall j | 0 <= j < k ensures Lower(Fractals.FRACTALS[j].name) != q {
      assert Lower(Fractals.FRACTALS[j].name)[0] != q[0];
    }
  }

  /** `execute_frac`. */
  method ExecuteFrac(state: LegacyAppState, args: seq<string>)
    requires args == [] ==> state.renderSettings.fracIndex < |Fractals.FRACTALS|
    modifies state, state.renderSettings
    ensures state.Model() == FracExecuted(old(state.Model()), args)
  {
    if |args| == 0 {
      var current := Fractals.FRACTALS[state.renderSettings.fracIndex].name;
      state.LogRaw("Current fractal: <acc " + current + ">\nAvailable fractals: " + Logging.AccList(FractalNames()));
      return;
    }
    var info := args[0] == "info";
    if info && |args| != 2 {
      state.LogError(INFO_WITHOUT_NAME);
      return;
    }
    if !info && |args| == 2 {
      state.LogError(NotInfoError(args[0]));
      return;
    }
    var fracName := args[if info then 1 else 0];
    var fracI := GetFracIndexByName(fracName);
    match fracI {
      case None =>
        state.LogError("Could not find fractal with name: <command " + fracName + ">");
      case Some(i) =>
        if info {
          state.LogInfoTitle(Fractals.FRACTALS[i].name, Fractals.FRACTALS[i].details);
        } else {
          state.renderSettings.fracIndex := i;
          state.LogSuccess("Successfully selected fractal: <acc " + fracName + ">.");
        }
    }
  }
}
