# rsfrac in Dafny

rsfrac is a terminal fractal explorer: the canvas shows a Mandelbrot, Julia
or Burning Ship set as coloured terminal cells, the keyboard and the mouse
move and zoom the view and change its settings, a command line runs commands
(`prec`, `max_iter`, `zoom_factor`, `color`, `frac`, `load`, `history`,
`capture_fit`, ...), a log panel shows styled messages, and a screenshot job
renders a large picture in passes.

This project models the logic of the program and proves properties of it:

- the escape-time evaluators and the fractal table, the divergence matrix
  of a render and the statistics gathered from it, and the colour of a
  divergence value (palettes, smooth blending, void fills);
- the viewport arithmetic: the mapping between terminal cells and points of
  the complex plane, panning and zooming (and zooming about a point);
- the bounded settings (precision, iteration limit, HSL settings, colour
  offset) with their wrap-around counters;
- the command table, argument validation of every modelled command,
  `command_increment`, `history`, `load` and the application of a saved
  state file field by field;
- the log (its bounded length and message formats), markup escaping, the
  footer layout, the focus and the routing of key, mouse and paste events
  to the components;
- the screenshot job's passes and progression.

The repository holds two revisions of the application state: the older
`App` / `AppState` of `src/app` (modules `LegacyApp`, `LegacyAppStates`,
`LegacyRender`, `LegacyCanvas`, `ViewCommands`) and the newer `AppState` /
`RenderSettings` of `src/app_state` and `src/frac_logic` (modules
`AppStates`, `FracLogic`, `CanvasKeys`, `CanvasMouse`, `Apps`, `AppEvents`
and the commands that act on them). Each is modelled on its own terms, and
lemmas relate the two where they agree.

Objects the program updates in place are classes whose methods are proved
against specification functions on a value of the whole state (`Model()`);
floating-point numbers are exact reals; Rust's truncating integer division,
`i32` saturation and wrap-around are written out in `Base`.

Files: `base.dfy` (shared vocabulary), `vec2.dfy`, `bounds.dfy`,
`escape_time.dfy`, `mandelbrot.dfy`, `julia.dfy`, `burning_ship.dfy`,
`fractals.dfy`, `palettes.dfy`, `colors.dfy`, `void_fills.dfy`,
`hsl_settings.dfy`, `increment_wrap.dfy`, `selectable_variables.dfy`,
`click_modes.dfy`, `zooming.dfy`, `render_settings.dfy`, `stats.dfy`,
`diverg_matrix.dfy`, `logging.dfy`, `markup.dfy`, `focus.dfy`,
`footer.dfy`, `terminal_events.dfy`, `text_input.dfy`, `app_state.dfy`,
`app.dfy`, `app_events.dfy`, `canvas_controls.dfy`, `canvas_keys.dfy`,
`canvas_mouse.dfy`, `input.dfy`, `commands.dfy`, `command_increment.dfy`,
`numeric_commands.dfy`, `config_commands.dfy`, `view_commands.dfy`,
`capture_fit.dfy`, `history.dfy`, `paths.dfy`, `load.dfy`,
`state_loading.dfy`, `screenshot.dfy`, and the older revision in
`legacy_app.dfy`, `legacy_app_state.dfy`, `legacy_render_settings.dfy`
and `legacy_canvas.dfy`.

## Model

| member | source | states |
|---|---|---|
| `IncrementWrap.DecrementWrapped` | src/helpers/increment_wrap.rs:1-3 | an in-range counter steps down by one and wraps from 0 to `w - 1`, staying in `[0, w)`, with Rust's truncating `%` |
| `IncrementWrap.IncrementWrapped` | src/helpers/increment_wrap.rs:4-6 | an in-range counter steps up by one and wraps from `w - 1` to 0, staying in `[0, w)` |
| `IncrementWrap.DecrementWrap` | src/helpers/increment_wrap.rs:1-3 | `decrement_wrap` stores the wrapped predecessor; in range it is `num - 1`, or `w - 1` at 0 |
| `IncrementWrap.IncrementWrap` | src/helpers/increment_wrap.rs:4-6 | `increment_wrap` stores the wrapped successor; in range it is `num + 1`, or 0 at `w - 1` |
| `IncrementWrap.WrapInverses` | src/helpers/increment_wrap.rs:1-6 | incrementing then decrementing, and the other way round, restores an in-range counter |
| `IncrementWrap.IncrementedTimesIsModular` | src/helpers/increment_wrap.rs:4-6 | `k` increments advance an in-range counter by `k` modulo `w` |
| `IncrementWrap.FullCycleRestores` | src/helpers/increment_wrap.rs:4-6 | `w` increments bring an in-range counter back to its start |
| `VoidFills.AllVoidFills` | src/helpers/void_fills.rs:4-19 | `void_fills()` has the eight variants, pairwise distinct |
| `VoidFills.IndexOf` | src/helpers/void_fills.rs:17-19 | every variant has a position in `void_fills()` that holds it |
| `VoidFills.EveryVariantOnce` | src/helpers/void_fills.rs:4-19 | each variant occurs exactly once in `void_fills()` |
| `VoidFills.EndsOfTheList` | src/helpers/void_fills.rs:5-13 | index 0 (the default fill) is Transparent and index 7 is ColorScheme |
| `VoidFills.IndexOfIsInverse` | src/helpers/void_fills.rs:17-19 | the position of the variant at index `i` is `i` |
| `SelectableVariables.AllSelectable` | src/components/canvas/selectable_variables.rs:4-11 | `selectable_variables()` lists the five variants, pairwise distinct |
| `SelectableVariables.Ordinal` | src/components/canvas/selectable_variables.rs:24-26 | each variant sits at its declaration position |
| `SelectableVariables.EqIndexIsPosition` | src/components/canvas/selectable_variables.rs:13-22 | `var == i` holds exactly when `i` is the index of `var` in `selectable_variables()` (both directions) |
| `HslSettings.DefaultIsOffAndInRange` | src/app_state/hsl_settings.rs:1-22 | the default settings have HSL off, saturation 64, lum 48, hue offset 69, smoothness 5, all below `MAX_HSL_VALUE` |
| `Vec2s.New` | src/helpers/vec2.rs:12-15 | `Vec2::new` stores both components as given |
| `Vec2s.Convert` | src/helpers/vec2.rs:17-23 | `convert` maps each component through the conversion on its own |
| `Vec2s.EqualityIsComponentwise` | src/helpers/vec2.rs:5-9 | the derived equality holds exactly when both components are equal |
| `Vec2s.ConvertIntegersToReals` | src/helpers/vec2.rs:30-35 | converting (1, 2) to reals gives (1.0, 2.0) |
| `AppStats.PointCount` | src/app_state/stats.rs:18-21 | the point count is non-negative for a non-negative canvas and 0 when either side is 0 |
| `AppStats.ZoomAfterResetIsOne` | src/app_state/stats.rs:22-25 | right after a cell-size reset the zoom is 1 |
| `AppStats.ZoomScalesInversely` | src/app_state/stats.rs:22-25 | dividing the cell size by `f` multiplies the zoom by `f` |
| `Focuses.FooterText` | src/app_state/mod.rs:182-188 | the hints shown are those of the focused component: the log panel's, the canvas's or the input's |
| `Focuses.FooterIdentifiesFocus` | src/app_state/helpers.rs:115-121 | different focused components show different hints, with either canvas list |
| `Footer.RenderText` | src/components/footer.rs:23-47 | the text and line count equal the recursive layout `Laid`; the text starts with " Actions:"; for hints without line breaks the count is one more than the breaks, at most one per hint, and the text without breaks is " Actions:" followed by every hint after a space |
| `Footer.LaidLineCount` | src/components/footer.rs:29-44 | the line count is 1 plus the number of line breaks, between 1 and 1 + the number of hints |
| `Footer.LaidUnbroken` | src/components/footer.rs:24-44 | with the breaks taken out, the text is " Actions:" and each hint in order after one space |
| `Footer.PlaceUnbroken` | src/components/footer.rs:34-43 | one pass adds a space and the hint to the text without breaks, whether or not it breaks the line |
| `Footer.LaidStartsWithActions` | src/components/footer.rs:24-44 | the text always starts with " Actions:" |
| `Footer.BreakBeforeIffOverflow` | src/components/footer.rs:34-38 | a line break goes before a hint exactly when the current line plus the hint is longer than the width |
| `Footer.NoSegments` | src/components/footer.rs:24-29 | with no hints the result is " Actions:" on one line of length 9 |
| `EscapeTime.ExitIndex` | src/fractals/mandelbrot.rs:21-30 | the loop counter never goes below its start nor above the limit, and when it stops below the limit the current term lies outside the escape radius |
| `EscapeTime.BeforeExitContinues` | src/fractals/mandelbrot.rs:21-30 | every index the loop passes over satisfies the loop condition |
| `EscapeTime.ExitIndexSkips` | src/fractals/mandelbrot.rs:21-30 | a loop that continued from `k` up to `m` stops where a loop started at `m` stops |
| `EscapeTime.EscapeValueMeaning` | src/fractals/mandelbrot.rs:21-36 | the value is -1 exactly when the counter reached the limit; otherwise it is the first index below the limit whose term lies outside the radius, every earlier term lying inside |
| `EscapeTime.EscapedStaysEscaped` | src/fractals/mandelbrot.rs:21-36 | raising the limit does not change a value that had already escaped |
| `EscapeTime.BoundedNeverDecreases` | src/fractals/mandelbrot.rs:21-36 | raising the limit turns a -1 into -1 or into a count at least the old limit |
| `Mandelbrot.Get` | src/fractals/mandelbrot.rs:13-37 | `get` returns the escape value of `z₀ = 0`, `zₙ₊₁ = zₙ² + p` with radius 2 and limit `max_diverg` |
| `Mandelbrot.MandelbrotValue` | src/fractals/mandelbrot.rs:13-37 | with a positive limit the value is -1 or the first index, at least 1, whose term has modulus at least 2 |
| `Mandelbrot.FarPointEscapesAtOnce` | src/fractals/mandelbrot.rs:21-30 | a point at distance at least 2 from the origin gets the value 1 |
| `Mandelbrot.FirstTerm` | src/fractals/mandelbrot.rs:17-28 | the first step of the orbit lands on `p` |
| `Mandelbrot.OriginIsBounded` | src/fractals/mandelbrot.rs:21-34 | the origin always gets -1 |
| `Mandelbrot.RaisingLimitKeepsEscape` | src/fractals/mandelbrot.rs:13-37 | raising `max_diverg` keeps an escaped value |
| `Julia.GetJulia` | src/fractals/julia.rs:12-33 | `get_julia` returns the escape value of `z₀ = p`, `zₙ₊₁ = zₙ² + c` with radius 4 and limit `max_iter` |
| `Julia.JuliaValue` | src/fractals/julia.rs:12-33 | -1 exactly when the counter reached the limit, otherwise an index below the limit whose term lies outside radius 4 |
| `Julia.ZeroIffOutsideRadius` | src/fractals/julia.rs:16-21 | with a positive limit the value is 0 exactly when `|p| >= 4` |
| `Julia.RaisingLimitKeepsEscape` | src/fractals/julia.rs:12-33 | raising `max_iter` keeps an escaped value |
| `BurningShip.GetBurningShip` | src/fractals/burning_ship.rs:12-45 | `get_burning_ship` returns the escape value of `z₀ = 0`, `zₙ₊₁ = (|Re zₙ| + i|Im zₙ|)² - p` with radius 4 |
| `BurningShip.FirstStepIsNegated` | src/fractals/burning_ship.rs:13-14 | the first step lands on `-p`, at the same distance from the origin as `p` |
| `BurningShip.StepFoldsSquaresAdds` | src/fractals/burning_ship.rs:27-35 | each step squares the term with both parts made non-negative and adds `-p` |
| `BurningShip.ShipValue` | src/fractals/burning_ship.rs:12-45 | with a positive limit the value is -1 or the first escaping index, at least 1 |
| `BurningShip.RaisingLimitKeepsEscape` | src/fractals/burning_ship.rs:12-45 | raising `max_iter` keeps an escaped value |
| `Fractals.GetFracIndexByName` | src/fractals/mod.rs:32-37 | the index found is the first fractal whose lower-cased name starts with the lower-cased query; `None` exactly when no name does |
| `Fractals.FractalsTable` | src/fractals/mod.rs:39 | the table holds Mandelbrot, Burning Ship and Julia in that order, with their names and default positions |
| `Fractals.GetFracIndexByOwnName` | src/fractals/mod.rs:32-37 | every fractal is found under its own name in any letter case |
| `Fractals.PrefixLookups` | src/fractals/mod.rs:32-37 | "ju" finds Julia, the empty query finds the first fractal, "x" finds none |
| `Fractals.EvaluateMeaning` | src/fractals/mod.rs:17-22 | for every fractal the value is -1 or a count below the limit at which the orbit has left the escape radius |
| `Fractals.Get` | src/fractals/mod.rs:13-22 | calling a fractal's closure returns the escape value of its recurrence |
| `Logging.Logged` | src/logging.rs:67-75 | `log_raw` ends the log with the new message; below the limit it appends, at the limit of 500 it drops the oldest entry, so a log within the limit stays within it |
| `Logging.LoggedAllIsSuffix` | src/logging.rs:67-75 | after any number of messages the log is the last `min(old + new, 500)` entries of the old log followed by the messages |
| `Logging.LoggedAllKeepsNewest` | src/logging.rs:67-75 | the log ends with the latest messages in the order logged, preceded by the newest entries of the old log |
| `Logging.LoggedOverflowDropsOldest` | src/logging.rs:69-72 | with a full log one message removes exactly the oldest entry and keeps the order of the rest |
| `Logging.LoggedUnbounded` | src/app/logging.rs:11-15 | the older `log_raw` appends with no limit: the old log followed by the message |
| `Logging.FirstLineBreak` | src/logging.rs:90-105 | the first line break of an entry is the one that closes its header |
| `Logging.HeaderDeterminesParts` | src/logging.rs:90-105 | an entry determines its title and message when the title holds no line break |
| `Logging.KindsAreDistinct` | src/logging.rs:90-105 | success, information and error entries are told apart by their header tag |
| `Logging.InitialMessages` | src/logging.rs:46-65 | three messages open the log, the first naming the version right after its greeting |
| `Markup.ReplaceChar` | src/helpers/markup.rs:35-37 | replacing a character that does not occur leaves the text unchanged |
| `Markup.EscapeChar` | src/helpers/markup.rs:33-39 | each `\`, `<` and `>` becomes two characters, every other character one |
| `Markup.EscIsPerCharacter` | src/helpers/markup.rs:33-39 | the three passes of `esc` together escape each `\`, `<` and `>` by a backslash and leave every other character |
| `Markup.EscLength` | src/helpers/markup.rs:33-39 | `esc` adds exactly one character per `\`, `<` or `>` |
| `Markup.EscIdentity` | src/helpers/markup.rs:33-39 | text without `\`, `<` or `>` is returned unchanged |
| `Markup.UnescapeEsc` | src/helpers/markup.rs:33-39 | removing the escaping backslashes from `esc(s)` gives back `s` |
| `Markup.EscWellEscaped` | src/helpers/markup.rs:33-39 | `esc(s)` is made of escape pairs and single ordinary characters |
| `Markup.EscBracketsPreceded` | src/helpers/markup.rs:33-39 | every `<` or `>` in `esc(s)` comes right after a backslash, so it never opens or closes a tag |
| `Markup.GeneratorsAgree` | src/helpers/markup.rs:41-77 | both generators accept exactly the ten tags and give each the same foreground and background |
| `Zooming.ZoomInverses` | src/app_state/helpers.rs:147-154 | zooming in then out, or out then in, by the same factor restores the cell size |
| `Zooming.ZoomMonotone` | src/helpers/zoom_direction.rs:3-9 | with a factor above 1, zooming in makes a positive cell smaller ("diving" in) and zooming out larger |
| `Zooming.PivotStaysFixed` | src/app_state/helpers.rs:140-146 | the position `zoom_at` computes keeps the complex coordinate of the pivot |
| `Zooming.PivotAtOriginKeepsPos` | src/app_state/helpers.rs:140-146 | zooming at the canvas origin leaves the position unchanged |
| `Palettes.AsUsize` | src/colors.rs:7 | `i as usize` keeps a non-negative `i32` and wraps a negative one to `i + 2^64` |
| `Palettes.PaletteColor` | src/colors.rs:5-8 | the colour is one of the palette's, and for a non-negative index the one at `i mod len`; `palette_color_at` of src/colors/mod.rs:20-22 indexes the same way and is modelled by this function |
| `Palettes.PaletteColorPeriodic` | src/colors.rs:5-8 | adding the palette length to a non-negative index gives the same colour |
| `Palettes.PaletteColorNegative` | src/colors.rs:5-8 | when the length divides 2^64, a negative index picks the colour at its Euclidean remainder |
| `Palettes.ColorsTable` | src/colors.rs:25-282 | there are 12 palettes, each with 16 RGB colours and a name, the names starting with pairwise distinct letters |
| `Palettes.PaletteWellFormed` | src/colors.rs:25-282 | each built-in palette has 16 RGB colours and a non-empty name |
| `Palettes.BuiltinPaletteColor` | src/colors.rs:5-8 | for the built-in palettes the colour of any `i32` index is `colors[i mod 16]` |
| `Palettes.GetPaletteIndexByName` | src/colors.rs:10-15 | the index found is the first palette whose name equals the query ignoring case; `None` exactly when none does |
| `Palettes.GetPaletteIndexByOwnName` | src/colors.rs:10-15 | every palette is found under its own name |
| `Colors.ToU8` | src/colors/mod.rs:34 | the `f32 as u8` cast truncates toward zero: for values in [0, 256) the byte is the floor |
| `Colors.InterpolateByte` | src/colors/mod.rs:31-35 | the blend is the first byte at 0, the second at 1, and the common value when both are equal |
| `Colors.InterpolateByteBetween` | src/colors/mod.rs:31-35 | for `p` in [0, 1] the blend lies between the two bytes |
| `Colors.InterpolateByteExamples` | src/colors/mod.rs:62-68 | (10, 20, 0.5) and (20, 10, 0.5) blend to 15, (10, 20, 0.1) to 11, (20, 10, 0.1) to 19 |
| `Colors.Interpolate` | src/colors/mod.rs:36-46 | two RGB colours blend channel by channel to an RGB colour, the first at 0, the second at 1 |
| `Colors.InterpolateExamples` | src/colors/mod.rs:70-80 | the two colour blends of the tests give (15, 15, 50) and (11, 19, 90) |
| `Colors.Ceil` | src/colors/mod.rs:12 | `ceil` is the least integer at or above the value |
| `Colors.FractionOf` | src/colors/mod.rs:16 | `d % 1.0` is the fractional part with the sign of `d`, in [0, 1) or (-1, 0] |
| `Colors.PaletteColor` | src/colors/mod.rs:9-18 | for every `i32` value and offset, whose sum wraps as in an optimised build, the colour of a value is always RGB, for every smoothing; a smoothing of 0 (whose `f32` division gives an infinity or NaN) paints every value black |
| `Colors.PaletteColorWhole` | src/colors/mod.rs:9-18 | when the wrapped `i32` sum `offset + i` is a multiple of the smoothing, the colour is exactly the palette colour at the quotient |
| `Colors.PaletteColorSumWraps` | src/colors/mod.rs:10 | the `i32` sum of offset and value wraps: value 1 at the largest offset is coloured as value 0 at the smallest |
| `Colors.PaletteColorBetween` | src/colors/mod.rs:9-18 | for a non-negative wrapped sum `offset + i`, each channel lies between those of the colours at the floor and the ceiling |
| `Colors.GetPaletteIndexByName` | src/colors/mod.rs:24-29 | the index found is the first palette whose lower-cased name starts with the lower-cased query; `None` exactly when none does |
| `Colors.GetPaletteIndexByOwnName` | src/colors/mod.rs:24-29 | every palette is found under its own name, since no name starts with another's |
| `Colors.MountainByName` | src/colors/mod.rs:52-60 | "MouNtAIn" finds "Mountain", whose first colour is (15, 20, 25), by the prefix lookup and by the exact lookup of the earlier revision (the test at src/colors.rs:284-292) |
| `ClickModes.AllModes` | src/app_state/click_modes.rs:15-25 | `all()` has seven pairwise distinct modes |
| `ClickModes.PositionInAll` | src/app_state/click_modes.rs:15-25 | every mode has a position in `all()` |
| `ClickModes.AllModesListsEachOnce` | src/app_state/click_modes.rs:15-25 | `all()` lists each of the seven modes exactly once |
| `ClickModes.RemoveUnderscores` | src/app_state/click_modes.rs:38 | the result has no underscore and is no longer than the input |
| `ClickModes.From` | src/app_state/click_modes.rs:27-40 | a mode is found exactly when some key starts with the lower-cased input without underscores, and it is the mode of the first such key |
| `ClickModes.FromNormalised` | src/app_state/click_modes.rs:27-40 | an input resolves to the mode of the first key it prefixes |
| `ClickModes.FromKeys` | src/app_state/click_modes.rs:28-36 | each key resolves to its own mode |
| `ClickModes.FromUnderscored` | src/app_state/click_modes.rs:38 | "zoom_out" resolves to ZoomOut |
| `ClickModes.FromPrefix` | src/app_state/click_modes.rs:38 | the prefix "ZOOM" resolves to the first key it prefixes, ZoomIn |
| `TextInput.WithValue` | src/commands/history.rs:41 | the field given a text holds exactly that text with the cursor inside it (at its end) |
| `TextInput.InsertChar` | src/app/events.rs:74-82 | inserting a character puts it at the cursor, keeps the text before and after it, grows the text by one and moves the cursor past it |
| `TextInput.InsertAll` | src/app/events.rs:74-82 | inserting a string character by character keeps the cursor inside the text |
| `TextInput.InsertAllIsSplice` | src/app/events.rs:74-82 | inserting a string character by character is the same as splicing the whole string in at the cursor, with the cursor after it |
| `TerminalEvents.ContainsMeaning` | src/app/events.rs:40-50 | a rectangle contains a cell exactly when the cell lies in its area (for areas `u16` can address; `right`/`bottom` saturate) |
| `Commands.CommandList` | src/commands/mod.rs:43-66 | the command list holds twenty commands with pairwise different names |
| `Commands.Lookup` | src/commands/mod.rs:68-74 | the lookup finds a command exactly when some command goes by the lower-cased name (as its name or an alias), and then it is the first such command of the list |
| `Commands.LookupAt` | src/commands/mod.rs:68-74 | when the `k`-th command is the first that goes by the lower-cased name, the lookup returns it |
| `Commands.LookupHelp` | src/commands/mod.rs:82-83 | "help" and "hElP" both find the help command: the lookup ignores case |
| `Commands.LookupCaptureFit` | src/commands/mod.rs:89 | the alias "cpf" finds capture_fit |
| `Commands.LookupH` | src/commands/mod.rs:84 | with the aliases the test expects, "h" finds help |
| `Commands.LookupQ` | src/commands/mod.rs:85 | with the aliases the test expects, "Q" finds quit |
| `Commands.LookupMi` | src/commands/mod.rs:86 | with the aliases the test expects, "mi" finds max_iter |
| `Commands.LookupCp` | src/commands/mod.rs:87 | with the aliases the test expects, "cP" finds capture |
| `Commands.LookupC` | src/commands/mod.rs:88 | with the aliases the test expects, "c" finds clear, ahead of commands whose names merely start with "c" |
| `Commands.LookupUnknown` | src/commands/mod.rs:91 | "blabla" finds no command |
| `Commands.DeclaredAliasMissing` | src/commands/mod.rs:84 | with the command constants as declared in this revision, "h" finds no command, so that test line does not hold for them |
| `Input.Decimals` | src/components/input.rs:20 | each count becomes its decimal text, one for one and in order |
| `Input.JoinCons` | src/components/input.rs:26 | joining a list that starts with one element is that element, the separator and the rest joined |
| `Input.OrJoinedIsListing` | src/components/input.rs:18-27 | `enumerate_strings`'s "all but the last joined with ", ", then " or " and the last" is the listing read from the front ("a", "a or b", "a, " and the rest) |
| `Input.EnumerateExample` | src/components/input.rs:18-27 | the counts [0, 1, 2] are written "0, 1 or 2" |
| `Input.UnknownCommandLogsError` | src/components/input.rs:52-93 | an input whose first word names no command is recorded as the last command and logs exactly one "Command not found" error naming that word; nothing else changes |
| `Input.RefusedArgCountLogsEchoAndError` | src/components/input.rs:52-79 | a known command with an argument count it does not accept is recorded, echoed, and followed by exactly one usage error listing the accepted counts; the command does not run |
| `Input.RefusedWordsLogged` | src/components/input.rs:62-79 | once the input is recorded and split, a refused argument count logs the echo and the usage error and nothing else |
| `Input.BlankInputOnlyRecorded` | src/components/input.rs:52-59 | an input of whitespace only is recorded as the last command and does nothing more |
| `Input.RunExecutes` | src/components/input.rs:63-83 | a command that runs receives the words after its name, on the state with the input recorded and echoed; an error it returns is logged after its changes |
| `Input.RunCommand` | src/components/input.rs:52-94 | `run_command` leaves the state `CommandRun` describes |
| `Input.RunWords` | src/components/input.rs:56-93 | the part of `run_command` after the split leaves the state `WordsRun` describes |
| `Input.RunKnown` | src/components/input.rs:64-83 | a known command is echoed, then either refused with the usage error or executed, with its error logged |
| `Input.RunCurrentCommand` | src/components/input.rs:45-50 | the field is emptied and its old text is run as a command |
| `Input.RunLastCommand` | src/components/input.rs:41-43 | the last command is run again |
| `Input.KeyHandledMeaning` | src/components/input.rs:95-105 | Enter empties the field and runs its text (a blank text only becomes the last command); Ctrl+R with a blank last command changes nothing; any other key only edits the field |
| `Input.HandleKey` | src/components/input.rs:95-105 | `handle_event` leaves the state `KeyHandled` describes |
| `Input.HandleMouse` | src/components/input.rs:37-39 | a click on the input focuses it and changes nothing else |
| `FracLogic.DefaultSettings` | src/frac_logic/render_settings.rs:62-85 | the defaults: precision 64, 128 iterations, palette 4, bailout 2, smoothness 7, no chunk limit, GPU off, the first fractal at (-0.5, 0), offset 0, the Transparent void fill, HSL off |
| `FracLogic.WithDecimalPrec` | src/frac_logic/render_settings_methods.rs:49-55 | only the precision changes; it lands in [8, 10000], equals the request inside the bounds and the nearer bound outside |
| `FracLogic.WithMaxIterIncremented` | src/frac_logic/render_settings_methods.rs:56-60 | only the iteration limit changes, and it lands in [8, 10000] |
| `FracLogic.MaxIterIncrementIsClampedSum` | src/frac_logic/render_settings_methods.rs:57-60 | the saturating `i32` add never shows: the new limit is the exact sum clamped to [8, 10000] |
| `FracLogic.WithColorOffsetIncremented` | src/frac_logic/render_settings_methods.rs:35-38 | only the colour offset changes, and an in-range offset stays in [0, len(palette) * smoothness) |
| `FracLogic.WithColorOffsetDecremented` | src/frac_logic/render_settings_methods.rs:39-42 | only the colour offset changes, and an in-range offset stays in range |
| `FracLogic.ColorOffsetWidthIsSixteenTimesSmoothness` | src/frac_logic/render_settings_methods.rs:36-40 | with 16-colour palettes the offset wraps at `16 * smoothness` |
| `FracLogic.ColorOffsetSteps` | src/frac_logic/render_settings_methods.rs:35-42 | incrementing and decrementing an in-range offset undo each other, and an increment is `+1` modulo `16 * smoothness` |
| `FracLogic.WithCpuDefaults` | src/frac_logic/render_settings_methods.rs:43-47 | `cpu_defaults` sets precision 32 and 64 iterations and nothing else |
| `FracLogic.WithFractalSelected` | src/frac_logic/render_settings_methods.rs:66-81 | the index is always set; an error is returned exactly when GPU mode was on and the shader failed, and then GPU mode is off and the message quotes the shader error |
| `FracLogic.SelectFractalWithoutGpu` | src/frac_logic/render_settings_methods.rs:70-81 | with GPU mode off selecting never fails and changes only the index |
| `FracLogic.GetPalette` | src/frac_logic/render_settings_methods.rs:93-96 | the palette returned is one of the built-in palettes, non-empty and all RGB |
| `FracLogic.VoidColors` | src/frac_logic/render_settings_methods.rs:105-123 | for any `i32` offset, void points are Reset, black or white for those fills, take the colour of 0 for ColorScheme, and red noise is a red below 255 |
| `FracLogic.PaletteColoring` | src/frac_logic/render_settings_methods.rs:124-132 | for any `i32` offset and value, with HSL off a non-void value takes the palette colour of the value with the offset and smoothness |
| `FracLogic.ResetOnlyWhenTransparent` | src/frac_logic/render_settings_methods.rs:100-145 | for any `i32` offset and value, the default terminal colour appears exactly for void points with the Transparent fill |
| `FracLogic.ColorSchemeVoidIsFirstColour` | src/frac_logic/render_settings_methods.rs:112-131 | with offset 0 and HSL off, the ColorScheme fill paints void points in the palette's first colour |
| `FracLogic.CoordToC` | src/frac_logic/fractal_logic.rs:21-25 | `coord_to_c` is `coord_to_c_with_cell_size` with the configured cell size |
| `FracLogic.CoordToCIsAffine` | src/frac_logic/fractal_logic.rs:13-19 | the canvas origin maps to the position, and a canvas step moves by one cell size |
| `FracLogic.CoordToCInjective` | src/frac_logic/fractal_logic.rs:13-19 | with a positive cell size distinct canvas points map to distinct complex numbers |
| `FracLogic.WithPosReset` | src/frac_logic/fractal_logic.rs:27-30 | `reset_pos` sets the position to the selected fractal's default and nothing else |
| `FracLogic.RatatuiSteps` | src/frac_logic/fractal_logic.rs:42-49 | one terminal column right is one canvas step right; one row down is two canvas steps down |
| `FracLogic.RatatuiFitsI32` | src/frac_logic/fractal_logic.rs:43-48 | for `u16` terminal cells and an `i32` canvas size the conversion stays within `i32` |
| `FracLogic.WithCellSizeReset` | src/frac_logic/fractal_logic.rs:51-59 | `reset_cell_size` sets the cell size to 5 / canvas width and nothing else |
| `FracLogic.ResetPlaneWidthIsFive` | src/frac_logic/fractal_logic.rs:51-64 | after a reset the canvas is 5 wide on the real axis (the doc comment says 4) |
| `FracLogic.RenderSettings.constructor` | src/frac_logic/render_settings.rs:62-85 | a new object holds the default settings |
| `FracLogic.RenderSettings.IncrementColorOffset` | src/frac_logic/render_settings_methods.rs:35-38 | the object's new values are `WithColorOffsetIncremented` of the old ones |
| `FracLogic.RenderSettings.DecrementColorOffset` | src/frac_logic/render_settings_methods.rs:39-42 | the object's new values are `WithColorOffsetDecremented` of the old ones |
| `FracLogic.RenderSettings.CpuDefaults` | src/frac_logic/render_settings_methods.rs:43-47 | the object's new values are `WithCpuDefaults` of the old ones |
| `FracLogic.RenderSettings.SetDecimalPrec` | src/frac_logic/render_settings_methods.rs:49-55 | the object's new values are `WithDecimalPrec` of the old ones |
| `FracLogic.RenderSettings.IncrementMaxIter` | src/frac_logic/render_settings_methods.rs:56-60 | the object's new values are `WithMaxIterIncremented` of the old ones |
| `FracLogic.RenderSettings.SetMaxIter` | src/frac_logic/render_settings_methods.rs:62-64 | only the iteration limit changes, to the value given |
| `FracLogic.RenderSettings.SelectFractal` | src/frac_logic/render_settings_methods.rs:70-81 | the new values and the result are those of `WithFractalSelected` |
| `FracLogic.RenderSettings.ResetPos` | src/frac_logic/fractal_logic.rs:27-30 | the object's new values are `WithPosReset` of the old ones |
| `FracLogic.RenderSettings.ResetCellSize` | src/frac_logic/fractal_logic.rs:51-54 | the object's new values are `WithCellSizeReset` of the old ones |
| `AppStates.DefaultAppState` | src/app_state/default_app_state.rs:10-40 | the default state moves by 4 and scales by 8, asks for a redraw and a repaint, has no history, focuses the canvas and selects PaletteOffset (index 0), which is visible with HSL off |
| `AppStates.HiddenMeaning` | src/app_state/helpers.rs:40-54 | with HSL off exactly the four HSL variables (indices 1 to 4) are hidden; with HSL on exactly the palette offset (index 0) is |
| `AppStates.NextIndex` | src/app_state/helpers.rs:34-39 | the next index is one more, wrapping from 4 to 0 |
| `AppStates.VisibleFromMeaning` | src/app_state/helpers.rs:55-70 | the fix-up loop ends on a visible variable within four steps, stays on a visible one, and otherwise ends `StepsToVisible` places further on |
| `AppStates.StepsPassHidden` | src/app_state/helpers.rs:58-69 | every index the loop passes before stopping is hidden |
| `AppStates.NextIndexTowardsVisible` | src/app_state/helpers.rs:58-69 | one step of the loop keeps its destination and brings it one step closer |
| `AppStates.NextCanvVarWithoutHsl` | src/app_state/helpers.rs:71-75 | with HSL off `next_canv_var` always lands on the palette offset |
| `AppStates.ZoomFactorBounds` | src/app_state/helpers.rs:148 | a scaling factor above -100 gives a positive zoom factor, above 0 one greater than 1 |
| `AppStates.ZoomInThenOutRestores` | src/app_state/helpers.rs:147-154 | zooming in then out with the same scaling factor restores the state, and the reverse |
| `AppStates.ZoomAtKeepsPivot` | src/app_state/helpers.rs:140-146 | `zoom_at` keeps the complex coordinate of the pointed cell, zooms like `zoom`, changes only the cell size and position, and at the canvas origin is `zoom` |
| `AppStates.CommandAt` | src/app_state/helpers.rs:87-96 | the history entry at the index, or the empty string for a negative or too large index |
| `AppStates.AppState.constructor` | src/app_state/default_app_state.rs:10-40 | a new state holds the default values, with the selected variable found as the position of PaletteOffset |
| `AppStates.AppState.Assign` | src/app_state/mod.rs:22-39 | every field, render settings included, takes the given value |
| `AppStates.AppState.CpuDefaults` | src/app_state/helpers.rs:98-103 | moves by 8, scales by 20 and applies the render settings' CPU defaults; nothing else changes |
| `AppStates.AppState.RequestRepaint` | src/app_state/helpers.rs:105-108 | only the repaint flag is set |
| `AppStates.AppState.RequestRedraw` | src/app_state/helpers.rs:109-113 | the redraw and repaint flags are set and nothing else changes |
| `AppStates.AppState.FooterText` | src/app_state/helpers.rs:114-121 | the hints of the focused component |
| `AppStates.AppState.IncrementMaxIter` | src/app_state/helpers.rs:122-126 | the bounded increment of the render settings followed by a redraw request, nothing else |
| `AppStates.AppState.IncrementDecimalPrec` | src/app_state/helpers.rs:127-132 | the precision becomes the saturating `u32` sum, clamped to its bounds, with a redraw request |
| `AppStates.AppState.SetDecimalPrec` | src/app_state/helpers.rs:134-139 | the clamped precision, with a redraw request |
| `AppStates.AppState.ZoomAt` | src/app_state/helpers.rs:140-146 | the new state is `ZoomedAt` of the old one, and the pointed cell keeps its complex coordinate |
| `AppStates.AppState.Zoom` | src/app_state/helpers.rs:147-154 | the cell size is divided (in) or multiplied (out) by `1 + scaling_factor / 100`, nothing else changes |
| `AppStates.AppState.NextCanvVarUnchecked` | src/app_state/helpers.rs:34-39 | only the selection changes, to the next index |
| `AppStates.AppState.PreventCanvasVarHidden` | src/app_state/helpers.rs:55-70 | only the selection changes, to `VisibleFrom` of the old one, and afterwards it is not hidden |
| `AppStates.AppState.NextCanvVar` | src/app_state/helpers.rs:71-75 | only the selection changes, to the first visible variable after the current one |
| `AppStates.AppState.GetCommand` | src/app_state/helpers.rs:87-96 | the history entry at the index, or the empty string outside the history |
| `AppStates.AppState.LogRaw` | src/logging.rs:67-75 | only the log changes, to `Logged` of the old log and the message |
| `AppStates.AppState.LogSuccess` | src/logging.rs:77-80 | logs a success entry titled "Success", nothing else changes |
| `AppStates.AppState.LogInfo` | src/logging.rs:81-84 | logs an information entry titled "Info", nothing else changes |
| `AppStates.AppState.LogError` | src/logging.rs:85-88 | logs an error entry titled "Error", nothing else changes |
| `AppStates.AppState.LogSuccessTitle` | src/logging.rs:90-97 | logs the `bggreen` header with the title and then the message |
| `AppStates.AppState.LogInfoTitle` | src/logging.rs:98-101 | logs the `bgacc` header with the title and then the message |
| `AppStates.AppState.LogErrorTitle` | src/logging.rs:102-105 | logs the `bgred` header with the title and then the message |
| `AppStates.AppState.InitialMessage` | src/logging.rs:46-65 | logs the three opening messages in order, nothing else changes |
| `AppStates.AppState.HandleRes` | src/app_state/mod.rs:81-86 | the outcome of `select_fractal` handed to `handle_res` (here and at src/app_state/state_loading.rs:30 and src/components/canvas/keyboard_handling.rs:111); assuming `handle_res` logs a failure as an error, an `Ok` changes nothing and an `Err` logs its message |
| `History.Snapshot.constructor` | src/commands/history.rs:10 | the process-wide snapshot of listed commands starts empty |
| `History.ListingLines` | src/commands/history.rs:19-22 | the listing is empty exactly when there are no commands |
| `History.HistoryOutcome` | src/commands/history.rs:6-44 | assuming the command runner has pushed this very command onto the history, its front entry is always dropped; without arguments the snapshot becomes the remaining list and one info line ("No previous commands." or the listing) is logged; with an index the snapshot is kept, a non-integer index and an index past the snapshot give their two errors and change nothing more, and a valid index puts the snapshot's entry into the command line |
| `History.ShowThenPick` | src/commands/history.rs:6-44 | assuming the command runner has pushed each of the two commands onto the history, listing the history and then picking index `i` puts the command listed under `i` into the command line, although the history has changed in between |
| `History.ListingLinesPrefix` | src/commands/history.rs:19-22 | the listing of the first commands is a prefix of the whole listing |
| `History.ListingShowsIndex` | src/commands/history.rs:20-22 | the command at index `i` appears in the listing on its own line numbered `i`, right after the lines of the commands before it |
| `History.ExecuteHistory` | src/commands/history.rs:6-44 | assuming the command runner has pushed this very command onto the history, `execute_history` leaves the state, the snapshot and the result `HistoryExecuted` describes; its loop builds exactly the numbered listing |
| `CommandIncrement.Incremented` | src/commands/command_increment.rs:6-59 | without arguments the current value is returned unchecked and shown; any value accepted from arguments lies in `[min, max]`; a message is logged exactly when the result is a value |
| `CommandIncrement.IncrementedCases` | src/commands/command_increment.rs:25-55 | one argument is parsed as the new value, two are `+`/`-` and an increment applied with saturation (other operators refused once the increment parses), more arguments keep the current value; each parse failure has its own error, and the survivor is accepted only in range |
| `CommandIncrement.IncrementedLogs` | src/commands/command_increment.rs:53-58 | with arguments, an accepted value logs exactly one success line naming it and an error logs nothing |
| `CommandIncrement.IncrementedRoundTrip` | src/commands/command_increment.rs:27-32 | passing back the decimal text of an in-range value sets exactly that value |
| `CommandIncrement.IncrementedUndo` | src/commands/command_increment.rs:33-51 | `+ d` then `- d` restores the value while both values stay in range and fit the integer type |
| `CommandIncrement.CommandIncrement` | src/commands/command_increment.rs:6-59 | `command_increment` returns `Incremented`'s result and logs its message, changing nothing else |
| `CommandIncrement.SetFromArgs` | src/commands/command_increment.rs:25-58 | the part with arguments: candidate, range check, success line |
| `CommandIncrement.ParseCandidate` | src/commands/command_increment.rs:25-51 | the parsing and operator step yields `Candidate`'s value or error |
| `NumericCommands.CommandBounds` | src/commands/smoothness.rs:4-5 | the bounds of the numeric commands: smoothness and move distance in [1, 100], precision and iteration limit in [8, 10000] (src/commands/move_dist.rs:4-5, src/commands/prec.rs:4-5, src/commands/max_iter.rs:2-3) |
| `NumericCommands.AsOption` | src/commands/move_dist.rs:8 | the older callers' `if let Some(val)` sees a value exactly when `command_increment` accepted one, and the same value |
| `NumericCommands.SmoothnessOutcome` | src/commands/smoothness.rs:7-19 | a refused argument list changes nothing; an accepted one sets the smoothness (in [1, 100] when given), requests a redraw and repaint and logs one success line; no argument shows the value and keeps it |
| `NumericCommands.SmoothnessSetsValue` | src/commands/smoothness.rs:7-19 | giving an in-range smoothness sets exactly it |
| `NumericCommands.SmoothnessStepsUndo` | src/commands/smoothness.rs:7-19 | `+ d` then `- d` gives the settings back while the smoothness stays in range |
| `NumericCommands.ExecuteSmoothness` | src/commands/smoothness.rs:7-19 | `execute_smoothness` leaves the state and result `SmoothnessExecuted` describes |
| `NumericCommands.MoveDistOutcome` | src/commands/move_dist.rs:7-12 | assuming the Option form of `command_increment` logs no error: `move_dist` touches only the distance and the log and requests no redraw; a refused list changes nothing; an accepted value (in [1, 100] when given) is stored |
| `NumericCommands.MoveDistSetsValue` | src/commands/move_dist.rs:7-12 | giving an in-range distance sets exactly it |
| `NumericCommands.MoveDistStepsUndo` | src/commands/move_dist.rs:7-12 | `+ d` then `- d` gives the distance back while it stays in range |
| `NumericCommands.ExecuteMoveDist` | src/commands/move_dist.rs:7-12 | `execute_move_dist` leaves the state `MoveDistExecuted` describes |
| `NumericCommands.LegacyCommandIncrement` | src/commands/move_dist.rs:8 | assuming the Option form this call (and those at src/commands/prec.rs:8 and src/commands/max_iter.rs:6) uses behaves as the Result form of src/commands/command_increment.rs:6-59 with every `Err` turned into `None` unlogged, `command_increment` on the older state returns the accepted value as an option and logs its message, changing nothing else |
| `NumericCommands.PrecOutcome` | src/commands/prec.rs:7-18 | assuming the Option form of `command_increment` logs no error: an accepted precision (an unsigned 32-bit value in [8, 10000] when given) is stored with the redraw flag and nothing else, the position and cell size keeping their values; a refused one changes nothing |
| `NumericCommands.PrecSetsValue` | src/commands/prec.rs:7-18 | giving an in-range precision sets exactly it and requests a redraw |
| `NumericCommands.ExecutePrec` | src/commands/prec.rs:7-18 | `execute_prec` leaves the state `PrecExecuted` describes |
| `NumericCommands.MaxIterOutcome` | src/commands/max_iter.rs:5-16 | assuming the Option form of `command_increment` logs no error: an accepted iteration limit (in [8, 10000] when given) is stored with the redraw flag and nothing else; a refused one changes nothing |
| `NumericCommands.MaxIterStepsUndo` | src/commands/max_iter.rs:5-16 | `+ d` then `- d` gives the settings back while the limit stays in range |
| `NumericCommands.ExecuteMaxIter` | src/commands/max_iter.rs:5-16 | `execute_max_iter` leaves the state `MaxIterExecuted` describes |
| `ConfigCommands.ChunkSizeOutcome` | src/commands/chunk_size.rs:7-35 | no argument only logs the limit (0 standing for none); "reset" in any case removes the limit; every refusal is the one range error and changes nothing |
| `ConfigCommands.ChunkSizeChangesOnlyLimit` | src/commands/chunk_size.rs:7-35 | `chunk_size` changes the chunk size limit and the log and nothing else |
| `ConfigCommands.ChunkSizeAccepts` | src/commands/chunk_size.rs:21-34 | any other argument is accepted exactly when it parses as an `i32` in [1, 10000) (10000 itself refused), and then becomes the limit |
| `ConfigCommands.NumberIsNotReset` | src/commands/chunk_size.rs:16-21 | the decimal form of a number is never "reset" in any case, so the reset branch never hides a number |
| `ConfigCommands.ChunkSizeSetThenReset` | src/commands/chunk_size.rs:16-34 | every limit in range is set by its decimal form, 10000 is refused, and "RESET" afterwards removes the limit again |
| `ConfigCommands.ExecuteChunkSize` | src/commands/chunk_size.rs:7-35 | `execute_chunk_size` leaves the state and result `ChunkSizeExecuted` describes |
| `ConfigCommands.ClickModeOutcome` | src/commands/click_mode.rs:7-32 | only the click configuration and the log change; no argument lists the configuration; an unknown action is refused before the button is looked at, then an unknown button; a refusal changes nothing; a success sets exactly the named button's slot to the action and logs one line |
| `ConfigCommands.ClickModeSetsSlot` | src/commands/click_mode.rs:19-29 | a button named in any case, with any key of the mode table as the action, gets that mode in its slot |
| `ConfigCommands.ExecuteClickMode` | src/commands/click_mode.rs:7-32 | `execute_click_mode` leaves the state and result `ClickModeExecuted` describes |
| `ViewCommands.ZoomFactorOutcome` | src/commands/zoom_factor.rs:3-26 | every call logs exactly one message and changes nothing but the scaling factor; it changes exactly when the first argument is an `i32` in [1, 500] and then becomes it; no argument shows the factor, a non-integer and an out-of-range integer each log their own error |
| `ViewCommands.ZoomFactorSetsValue` | src/commands/zoom_factor.rs:13-22 | a factor in [1, 500] given as its decimal text is set; a factor above -100 (so that zooming is defined) stays above -100 whatever the arguments |
| `ViewCommands.ExecuteZoomFactor` | src/commands/zoom_factor.rs:3-26 | `execute_zoom_factor` leaves the state `ZoomFactorExecuted` describes |
| `ViewCommands.PaletteNames` | src/commands/color.rs:10-14 | one name per palette of the table |
| `ViewCommands.ColorOutcome` | src/commands/color.rs:5-28 | one message is logged and at most the palette and the redraw flag change; a name matching a palette (ignoring case) selects the first such palette and requests a redraw, any other name only logs the error; the selection stays a palette of the table |
| `ViewCommands.ColorSelectsByName` | src/commands/color.rs:19-26 | each palette is selected by its own name, with a redraw |
| `ViewCommands.ExecuteColor` | src/commands/color.rs:5-28 | `execute_color` leaves the state `ColorExecuted` describes |
| `ViewCommands.FractalNames` | src/commands/frac.rs:10-14 | one name per fractal of the table |
| `ViewCommands.FracOutcome` | src/commands/frac.rs:5-52 | one message is logged and at most the selected fractal changes, with no redraw; only a name (not `info`) that matches a fractal changes it; `info`, the usage errors and an unknown name leave the settings alone |
| `ViewCommands.LogOnce` | src/commands/frac.rs:5-52 | logging one message changes only the log, whose newest entry it is |
| `ViewCommands.FracLookupOutcome` | src/commands/frac.rs:34-51 | once the arguments have the right shape, the lookup selects, shows info, or logs "Could not find fractal" |
| `ViewCommands.FracSelectionMatches` | src/commands/frac.rs:34-47 | the fractal selected has the given name, ignoring case |
| `ViewCommands.FracUsageErrors` | src/commands/frac.rs:19-32 | `info` needs exactly one name after it, and a plain name takes nothing after it; each misuse logs its own error |
| `ViewCommands.FracSelectsByName` | src/commands/frac.rs:34-51 | each fractal is selected by its own name in any case, and `info` with that name shows its name and details |
| `ViewCommands.FracNameFound` | src/commands/frac.rs:35 | the name lookup finds each fractal by its own name in any case |
| `ViewCommands.ExecuteFrac` | src/commands/frac.rs:5-52 | `execute_frac` leaves the state `FracExecuted` describes |
| `CaptureFit.Truncate` | src/commands/capture_fit.rs:5-6 | the float-to-integer cast rounds toward zero: the result is within one below a non-negative value and within one above a negative one |
| `CaptureFit.ScaledCast` | src/commands/capture_fit.rs:4-12 | the scaled side always fits an `i32`, the cast saturating and a zero canvas side giving the infinity or NaN cases |
| `CaptureFit.CaptureFitOutcome` | src/commands/capture_fit.rs:14-59 | without a size the capture is 1920 wide with the derived height; one or three arguments end in the file name, passed on last; a first argument that prefixes neither dimension and a size that is not an `i32` each give their error; otherwise the named side is the size and the other is derived |
| `CaptureFit.DimensionChoice` | src/commands/capture_fit.rs:30-33 | the first argument picks height exactly when, lowercased, it prefixes "height" (so "" and "h" do), and width when it prefixes "width" only; "wide" picks neither |
| `CaptureFit.DerivedSideKeepsRatio` | src/commands/capture_fit.rs:4-12 | on a canvas with positive sides the derived side is the exact aspect-ratio value rounded down, within one pixel |
| `CaptureFit.SquareCanvas` | src/commands/capture_fit.rs:4-17 | on a square canvas the derived side equals the given one, and the default capture is 1920 by 1920 |
| `CaptureFit.DimensionNames` | src/commands/capture_fit.rs:30-33 | "width" names the width and "Height" the height |
| `CaptureFit.WidthRoundTrip` | src/commands/capture_fit.rs:35-45 | asking for a width by its decimal text captures exactly that width with the derived height |
| `CaptureFit.HeightRoundTrip` | src/commands/capture_fit.rs:22-58 | asking for a height by its decimal text, with a file name, captures exactly that height, the derived width, under that name |
| `CaptureFit.ExecuteCaptureFit` | src/commands/capture_fit.rs:14-58 | the argument handling of `execute_capture_fit` yields the arguments for `capture` (or the error) that `CaptureFitArgs` describes |
| `Paths.StrLeTotal` | src/commands/load.rs:72 | the character order of path components is total |
| `Paths.StrLeAntisymmetric` | src/commands/load.rs:72 | two components ordered both ways are equal |
| `Paths.StrLeTransitive` | src/commands/load.rs:72 | the character order of components is transitive |
| `Paths.PathLeTotal` | src/commands/load.rs:72 | the component-wise order `sort_unstable` sorts paths by is total |
| `Paths.PathLeAntisymmetric` | src/commands/load.rs:72 | two paths ordered both ways are equal |
| `Paths.PathLeTransitive` | src/commands/load.rs:72 | the order of paths is transitive |
| `Paths.Insert` | src/commands/load.rs:72 | inserting a path adds exactly that path to the list |
| `Paths.SortPaths` | src/commands/load.rs:72 | sorting keeps exactly the same paths, with their multiplicities |
| `Paths.InsertSorted` | src/commands/load.rs:72 | inserting into a sorted list keeps it sorted |
| `Paths.SortPathsSorted` | src/commands/load.rs:72 | the sorted list is sorted and a permutation of the input |
| `Paths.SortPathsOfSorted` | src/commands/load.rs:72 | the sorted permutation is unique: a sorted list sorts to itself |
| `Load.ScannedSound` | src/commands/load.rs:30-54 | every path the scan of a directory's entries keeps is a file ending in ".rsf" below that directory, no deeper than the depth limit allows, and the count of searched directories is never negative |
| `Load.FoundSound` | src/commands/load.rs:18-55 | `find_state_files` finds only state files below the directory it searches, within the depth limit |
| `Load.CompleteSearch` | src/commands/load.rs:18-55 | when every directory is readable and within ten levels, the search finds every state file of the tree, in listing order, and counts every directory |
| `Load.FindStateFiles` | src/commands/load.rs:18-55 | the recursive search with its accumulating loop yields `Found`'s files and count, or the "Cannot list directory" error |
| `Load.LoadMemory.constructor` | src/commands/load.rs:58-59 | both statics start empty: no detected file, position 0 |
| `Load.Displays` | src/commands/load.rs:82 | each path is shown by its `to_string_lossy` text, one for one |
| `Load.DetectionOutcome` | src/commands/load.rs:68-89 | without arguments the cycle position goes back to 0 whatever happens; a failed search keeps the list and returns its error; a successful one replaces the list with the sorted permutation of what it found, all state files under ".", and logs one info line |
| `Load.SortedFound` | src/commands/load.rs:71-72 | the list kept after a search is sorted, holds the same paths, and each lies under the working directory |
| `Load.ResolvedCases` | src/commands/load.rs:93-116 | "cycle" with an empty list is the "No state file" error and keeps the position; with a list it opens the file at the position and advances it modulo the length; an index inside the list picks that file; any other argument is the path itself |
| `Load.CycleStep` | src/commands/load.rs:95-116 | one `load cycle` from a position in the list opens that file and moves to the next position, from the last back to 0 |
| `Load.CyclePosition` | src/commands/load.rs:105-107 | after `k` runs of `load cycle` the position is `k` places further, wrapping around |
| `Load.CycleVisitsInOrder` | src/commands/load.rs:95-116 | repeating `load cycle` opens the detected files in order, wrapping around |
| `Load.LoadKeepsPosition` | src/commands/load.rs:57-133 | every run of `load` keeps the cycle position 0 or inside the list |
| `Load.DetectedListing` | src/commands/load.rs:80-84 | the loop builds the numbered listing of the detected files |
| `Load.Detect` | src/commands/load.rs:68-89 | `execute_load` without arguments leaves the state and statics `LoadExecuted` describes |
| `Load.ExecuteLoad` | src/commands/load.rs:57-133 | `execute_load` leaves the state, the statics and the result `LoadExecuted` describes |
| `Load.LoadFile` | src/commands/load.rs:118-132 | the file is opened, read, parsed and applied, each failure giving its own error and changing nothing |
| `StateLoading.VoidFillPosition` | src/app_state/mod.rs:150-155 | every void fill has a position in `void_fills()`, its own index, so the void fill block never fails on a parsed variant |
| `StateLoading.Finished` | src/app_state/mod.rs:160-169 | after the blocks a redraw is requested and exactly one entry is logged: the success line naming the file, or the failure line with the file and the error; nothing else changes |
| `StateLoading.AbsentFieldsChangeNothing` | src/app_state/mod.rs:78-158 | a file holding none of the fields leaves the state as it was and succeeds |
| `StateLoading.ApplyAllSplit` | src/app_state/mod.rs:78-158 | applying two runs of blocks is applying the first, then the second unless the first failed |
| `StateLoading.StopsAtFirstError` | src/app_state/mod.rs:78-158 | when block `k` is the first to fail, the result is the state the blocks before it made and block `k`'s error; the blocks after it are never applied |
| `StateLoading.ErrorsHaveAFailingBlock` | src/app_state/mod.rs:78-158 | every error comes from some block, and the state is what the blocks before it made |
| `StateLoading.PresentValuesOverwrite` | src/app_state/mod.rs:95-147 | a present palette offset, smoothness, bailout or iteration limit is copied as it is and nothing else changes |
| `StateLoading.PresentHslModeOverwrites` | src/app_state/state_loading.rs:102-110 | a present HSL mode or HSL smoothness is copied into the HSL settings and nothing else changes |
| `StateLoading.PresentHslColourOverwrites` | src/app_state/state_loading.rs:112-122 | a present HSL saturation, luminosity or hue offset is copied into the HSL settings and nothing else changes |
| `StateLoading.UnknownFractalFailsFirst` | src/app_state/mod.rs:80-84 | an unknown fractal name fails the loading before anything else is applied: the state only gets the redraw and the failure line |
| `StateLoading.UnknownFractalFailsFirstVersioned` | src/app_state/state_loading.rs:24-28 | the newer `apply` too leaves the settings alone on an unknown fractal name and ends the log with the failure line |
| `StateLoading.FirstBlockFails` | src/app_state/mod.rs:78-158 | a failing first block is the result of the whole closure, on the unchanged state |
| `StateLoading.VersionWarningIffMismatch` | src/app_state/state_loading.rs:14-20 | the newer `apply` logs the version warning first exactly when the file's version is missing or differs from the program's, then one outcome line |
| `StateLoading.FinishedAppendsOne` | src/app_state/mod.rs:160-169 | without a shader error, loading adds exactly one entry to a log with room |
| `StateLoading.ApplyAllKeepsLog` | src/app_state/mod.rs:78-158 | without a shader error no block writes to the log |
| `StateLoading.FieldKeepsLog` | src/app_state/mod.rs:80-87 | one block without a shader error leaves the log alone |
| `StateLoading.Snapshot` | src/helpers/saved_state.rs:21-35 | a snapshot writes no version, smoothness, bailout or HSL field |
| `StateLoading.ApplyAllCons` | src/app_state/mod.rs:78-158 | a block that succeeds is followed by the remaining blocks on its state |
| `StateLoading.ApplyAllStep` | src/app_state/mod.rs:78-158 | a block at position `i` that succeeds hands its state on to the blocks after it |
| `StateLoading.SnapshotNames` | src/app_state/mod.rs:80-93 | on a snapshot the fractal and palette names are found again, restoring both indices |
| `StateLoading.SnapshotPrecision` | src/app_state/mod.rs:95-102 | on a snapshot the offset is restored and the precision set through `set_decimal_prec` |
| `StateLoading.SnapshotPosition` | src/app_state/mod.rs:104-114 | on a snapshot the absent smoothness is skipped and the position is restored |
| `StateLoading.SnapshotConstants` | src/app_state/mod.rs:116-133 | on a snapshot both constants are restored and the absent bailout is skipped |
| `StateLoading.SnapshotLast` | src/app_state/mod.rs:135-157 | on a snapshot the cell size, iteration limit and void fill are restored and the closure succeeds |
| `StateLoading.SaveThenLoadRestores` | src/helpers/saved_state.rs:21-35 | a file written from settings loads without an error (src/app_state/mod.rs:78-158) and restores the fractal, palette, offset, position, both constants, cell size, iteration limit and void fill, and the precision when it lies in [8, 10000]; smoothness, bailout, HSL settings and the log stay as they were |
| `StateLoading.ApplyFieldTo` | src/app_state/state_loading.rs:22-122 | one block on the application state does what `ApplyField` describes |
| `StateLoading.ApplyCopiedTo` | src/app_state/mod.rs:95-147 | the copying blocks do what `ApplyField` describes |
| `StateLoading.ApplyPrecisionTo` | src/app_state/mod.rs:100-102 | the precision block sets the clamped precision and requests a redraw |
| `StateLoading.ApplyFracTo` | src/app_state/mod.rs:80-87 | the fractal block looks the name up, selects the fractal and handles the outcome, or stops with "Invalid fractal name in state file." |
| `StateLoading.ApplyPaletteTo` | src/app_state/mod.rs:90-93 | the palette block looks the name up, or stops with "Invalid color palette name in state file." |
| `StateLoading.ApplyVoidFillTo` | src/app_state/mod.rs:150-155 | the void fill block stores the variant's position |
| `StateLoading.ApplyWidthTo` | src/app_state/mod.rs:136-142 | the width block parses the plane width and sets the cell size for it, or stops with "Invalid canvas width: " and the parser's error |
| `StateLoading.ApplyComplexTo` | src/app_state/mod.rs:110-128 | the position and constant blocks parse their complex value, or stop with their own prefix and the parser's error |
| `StateLoading.ApplyNumberTo` | src/app_state/mod.rs:95-147 | a present offset, smoothness, bailout or iteration limit is copied into the render settings |
| `StateLoading.ApplyHslTo` | src/app_state/state_loading.rs:102-122 | a present HSL value is copied into the HSL settings |
| `StateLoading.ApplyFieldsTo` | src/app_state/mod.rs:78-158 | the closure applies the blocks in order and returns at the first error, as `ApplyAll` describes |
| `StateLoading.FinishLoading` | src/app_state/mod.rs:160-169 | the end of `apply` leaves the state `Finished` describes |
| `StateLoading.Apply` | src/app_state/mod.rs:77-170 | `apply` of this revision leaves the state `Loaded` describes |
| `StateLoading.ApplyVersioned` | src/app_state/state_loading.rs:13-137 | `apply` of the newer revision leaves the state `LoadedVersioned` describes |
| `DivergMatrices.Range` | src/app/render_canvas.rs:57-60 | the range `lo..hi` holds `hi - lo` consecutive integers from `lo`, none when `hi <= lo` |
| `DivergMatrices.AxisShape` | src/app/render_canvas.rs:50-60 | an axis of length `n` has `n` coordinates (none when `n <= 0`), the `i`-th being `i - n / 2` with Rust's truncating division |
| `DivergMatrices.DivergMatrix` | src/app/render_canvas.rs:48-72 | the matrix has one row per canvas line and one entry per column, and entry `[r][c]` is the fractal's value at canvas point `(c - x / 2, r - y / 2)` |
| `DivergMatrices.RowCells` | src/app/render_canvas.rs:92-93 | a row is visited left to right, entry `i` at column `i` |
| `DivergMatrices.CellsAreEntries` | src/app/render_canvas.rs:90-93 | the visited cells are exactly the matrix entries, each at its own row and column |
| `DivergMatrices.CountNonVoidBounds` | src/app/render_canvas.rs:100-101 | the non-void count is at most the number of cells; it is 0 exactly when every value is -1 and all of them exactly when none is |
| `DivergMatrices.HighestIsMaximum` | src/app/render_canvas.rs:104-106 | the highest divergence is at least 0 and every value, and is one of the values when it is not 0 |
| `DivergMatrices.ScanStep` | src/app/render_canvas.rs:95-106 | visiting one more cell appends its position to its colour's bucket and takes it into the count, the sum and the maximum |
| `DivergMatrices.RowCellsGrow` | src/app/render_canvas.rs:92 | the visited part of a row grows one cell at a time |
| `DivergMatrices.CellsOfPrefix` | src/app/render_canvas.rs:90 | the visited rows grow one whole row at a time |
| `DivergMatrices.BucketsHoldTheirCells` | src/app/render_canvas.rs:95-99 | a position is in the bucket of a colour exactly when some visited cell at that position has that colour |
| `DivergMatrices.EachCellInOneBucket` | src/app/render_canvas.rs:95-99 | every matrix entry is in the bucket of its own colour and in no other |
| `Screenshots.PassEnd` | src/app/parallel_jobs.rs:26 | a pass ends at the height or 64 lines further, whichever comes first, and never beyond either |
| `Screenshots.AsWrittenEndsTooEarly` | src/app/parallel_jobs.rs:26-36 | with the test as written, the job for a picture 65 lines high ends after its first pass, with only 64 lines computed, where the corrected test would go on |
| `Screenshots.FinalPassEndsAtHeight` | src/app/parallel_jobs.rs:26-34 | with the corrected test, the saving pass is exactly the one whose end is the height; the as-written test differs only when the end is one line short |
| `Screenshots.PassAdvances` | src/app/parallel_jobs.rs:26-58 | a pass that does not save moves the current line forward by exactly 64 and stays below the height |
| `Screenshots.PassesLeft` | src/app/parallel_jobs.rs:25-64 | from any current line the job saves after at least one and at most `(height - line) / 64 + 1` calls, and one call is left exactly when the next pass saves |
| `Screenshots.Progress` | src/app/parallel_jobs.rs:59-62 | the reported progression is a percentage in [0, 100], and 100 exactly when the current line is the height |
| `Screenshots.Screenshot.constructor` | src/app/parallel_jobs.rs:16-22 | a new job has the given size, line 0 and no lines computed |
| `Screenshots.Screenshot.Run` | src/app/parallel_jobs.rs:25-64 | the lines of the pass are appended; the saving pass logs the size and file name as a success and returns true; any other pass moves to the end of the pass, logs the progression and returns false; the current line stays within the picture |
| `LegacyApp.TerminalToCanvasAtInnerOne` | src/app/fractal_logic.rs:42-50 | with the canvas block's inner origin at (1, 1), the older terminal-to-canvas conversion agrees with the render-settings one |
| `LegacyApp.TerminalToCanvasShift` | src/app/fractal_logic.rs:42-50 | moving the canvas block and the cursor together leaves the canvas column unchanged; one terminal row down is two canvas rows down |
| `LegacyApp.LegacyValueColour` | src/app/render_canvas.rs:20-47 | for noise draws in `0..255`, a value other than -1 takes the palette colour of value plus offset, whatever the void fill; that colour is in the palette, and is the entry at (value + offset) mod length for a non-negative sum |
| `LegacyApp.LegacyVoidColours` | src/app/render_canvas.rs:25-43 | for noise draws in `0..255`, a void point is `Reset` exactly under the transparent fill, black and white under those fills, and the palette colour of offset - 1 under the colour-scheme fill |
| `LegacyApp.RenderStatsMeaning` | src/app/render_canvas.rs:78-110 | after a render the highest value is at least 0, bounds every value and is one of them unless 0; the average times the number of non-void points is their sum; the render time is the elapsed time |
| `LegacyApp.FractalEntriesInRange` | src/app/render_canvas.rs:48-72 | every entry of a fractal's divergence matrix is -1 or an iteration count below the limit |
| `LegacyApp.App.constructor` | src/app/stats.rs:10-18 | a fresh application has nothing rendered, fresh statistics, an empty log and a pending redraw |
| `LegacyApp.App.Zoom` | src/app/fractal_logic.rs:90-98 | the cell size is divided by 1.2 when zooming in and multiplied by 1.2 when zooming out; nothing else changes |
| `LegacyApp.App.ZoomAt` | src/app/fractal_logic.rs:71-77 | zooming at a canvas point scales the cell size and moves the position so that the point still shows the same complex number |
| `LegacyApp.App.GetPalette` | src/app/app_state.rs:156-158 | the palette is the one at the selected index, and it is well formed |
| `LegacyApp.App.RenderCanvas` | src/app/render_canvas.rs:74-119 | for noise draws in `0..255`, after a render, each colour's bucket holds exactly the points of that colour in visiting order; the statistics are those of the matrix; the redraw flag is cleared and nothing else changes |
| `LegacyApp.App.VisitRows` | src/app/render_canvas.rs:90-108 | the loop over the rows leaves the buckets and statistics of the whole matrix, and counts its non-void points |
| `LegacyApp.App.VisitRow` | src/app/render_canvas.rs:92-107 | one row extends the buckets, the non-void count, the sum and the highest value from the cells before it to the cells up to the end of the row |
| `LegacyApp.App.LogRaw` | src/app/logging.rs:11-15 | the message is appended to the log, which this revision never trims |
| `LegacyApp.App.LogSuccessTitle` | src/app/logging.rs:17-19 | appends a green title line followed by the message |
| `LegacyApp.App.LogSuccess` | src/app/logging.rs:20-22 | appends the message under the title "Success" |
| `LegacyApp.App.LogInfoTitle` | src/app/logging.rs:23-25 | appends an accent-coloured title line followed by the message |
| `LegacyApp.App.LogInfo` | src/app/logging.rs:26-28 | appends the message under the title "Info" |
| `LegacyApp.App.LogErrorTitle` | src/app/logging.rs:33-39 | appends a red title line followed by the message wrapped in red |
| `LegacyApp.App.LogError` | src/app/logging.rs:30-32 | appends the red message under the title "Error" |
| `LegacyApp.App.InitialMessage` | src/app/logging.rs:42-50 | appends the three opening messages, in order: the greeting with the version, the slow-rendering hint and the navigation hint |
| `LegacyAppStates.MaxIterIncrementedBounds` | src/app/app_state.rs:72-76 | the iteration limit lands in [MIN_MAX_ITER, MAX_MAX_ITER]: an in-bounds sum is kept exactly, a sum outside the bounds becomes the nearer bound, and nothing else changes |
| `LegacyAppStates.DecimalPrecIncrementedBounds` | src/app/app_state.rs:79-93 | the precision lands in [MIN_DECIMAL_PREC, MAX_DECIMAL_PREC]: an in-bounds sum is kept exactly, a sum outside the bounds becomes the nearer bound, and nothing else changes |
| `LegacyAppStates.IncrementsAgreeWithNewer` | src/app/app_state.rs:72-93 | the older and the newer revision bound the iteration limit and the precision to the same values |
| `LegacyAppStates.LegacyZoomInverses` | src/app/app_state.rs:101-108 | zooming in then out, or out then in, with the same scaling factor restores the state |
| `LegacyAppStates.LegacyZoomAtKeepsPivot` | src/app/app_state.rs:94-108 | zooming at a point keeps that point's complex coordinate, scales the cell size as `zoom` does, and at the origin is `zoom` |
| `LegacyAppStates.AsWrittenInitialMessages` | src/app/app_state.rs:147-155 | the opening messages of this revision as written: three of them, the greeting carrying the mis-encoded name |
| `LegacyAppStates.AsWrittenGreetingIsMojibake` | src/app/app_state.rs:149 | the as-written greeting differs from the other revisions' in the author's name, where the two UTF-8 bytes of 'é' appear as two characters; the other two messages agree |
| `LegacyAppStates.CorrectedGreetingNamesAuthor` | src/app/logging.rs:44 | the corrected greeting names the author 'Léopold', as the other revisions do |
| `LegacyAppStates.LegacyAppState.constructor` | src/app/app_state.rs:40-60 | the default state: scaling factor 20, move distance 8, the first palette, an empty log, a redraw pending and the default render settings |
| `LegacyAppStates.LegacyAppState.FooterText` | src/app/app_state.rs:64-70 | the footer shows the hints of the focused component: canvas, log panel or command input |
| `LegacyAppStates.LegacyAppState.IncrementMaxIter` | src/app/app_state.rs:72-76 | the iteration limit becomes the bounded sum and a redraw is requested; nothing else changes |
| `LegacyAppStates.LegacyAppState.IncrementDecimalPrec` | src/app/app_state.rs:79-93 | the precision becomes the bounded sum and a redraw is requested; no exact value changes |
| `LegacyAppStates.LegacyAppState.ZoomAt` | src/app/app_state.rs:94-100 | zooming at a point keeps that point's complex coordinate and leaves everything but the cell size and position unchanged |
| `LegacyAppStates.LegacyAppState.Zoom` | src/app/app_state.rs:101-108 | the cell size is divided (in) or multiplied (out) by 1 + scaling factor / 100; nothing else changes |
| `LegacyAppStates.LegacyAppState.LogRaw` | src/app/app_state.rs:109-116 | the message is appended and the oldest one dropped once there are more than 500 |
| `LegacyAppStates.LegacyAppState.LogSuccessTitle` | src/app/app_state.rs:118-124 | appends a green title line followed by the message, to the capped log |
| `LegacyAppStates.LegacyAppState.LogSuccess` | src/app/app_state.rs:125-127 | appends the message under the title "Success" |
| `LegacyAppStates.LegacyAppState.LogInfoTitle` | src/app/app_state.rs:128-130 | appends an accent-coloured title line followed by the message |
| `LegacyAppStates.LegacyAppState.LogInfo` | src/app/app_state.rs:131-133 | appends the message under the title "Info" |
| `LegacyAppStates.LegacyAppState.LogErrorTitle` | src/app/app_state.rs:138-144 | appends a red title line followed by the message wrapped in red |
| `LegacyAppStates.LegacyAppState.LogError` | src/app/app_state.rs:135-137 | appends the red message under the title "Error" |
| `LegacyAppStates.LegacyAppState.InitialMessage` | src/app/app_state.rs:147-155 | appends the three opening messages in order to the capped log, with the author's name spelled correctly |
| `LegacyAppStates.LegacyAppState.GetPalette` | src/app/app_state.rs:156-158 | the selected palette is one of the colour table's, and it is well formed |
| `LegacyRender.DefaultLegacySettings` | src/app/render_settings.rs:7-30 | the default settings have precision 32, iteration limit 32 and the first fractal, the Mandelbrot set, at its default position -0.5 |
| `LegacyRender.PointCount` | src/app/render_settings.rs:34-36 | an empty canvas has no points; a non-empty one has at least as many points as its width and as its height |
| `LegacyRender.ResetCellSizeGivesWidthFour` | src/app/render_settings.rs:69-80 | after a cell-size reset the zoom is 1 and the canvas spans 4 on the real axis |
| `LegacyRender.GetFracIndexByName` | src/app/render_settings.rs:51-55 | the answer is the first fractal whose name equals the query ignoring case, and there is none exactly when no name matches |
| `LegacyRender.ExactLookups` | src/app/render_settings.rs:51-55 | each fractal is found by its own name in any case, and a bare prefix finds nothing |
| `LegacyRender.RatatuiAgreesWithNewer` | src/app/render_settings.rs:62-68 | the older and the newer revision convert a terminal cell to the same canvas point |
| `LegacyRender.LegacyRenderSettings.constructor` | src/app/render_settings.rs:19-30 | a fresh settings object holds the default settings |
| `LegacyRender.LegacyRenderSettings.ResetPos` | src/app/render_settings.rs:39-47 | the position becomes the selected fractal's default one; nothing else changes |
| `LegacyRender.LegacyRenderSettings.ResetCellSize` | src/app/render_settings.rs:70-77 | the cell size becomes 4 divided by the canvas width; nothing else changes |
| `LegacyCanvas.LegacyActionOf` | src/components/canvas.rs:105-231 | the earlier key map never toggles the side panel, the HSL mode or the selected variable, and never steps a variable other than the palette offset |
| `LegacyCanvas.LegacyKeysAgree` | src/components/canvas.rs:105-231 | the earlier and the later key handling leave the same state for every key except `+`, `-`, `b`, `n` and `t` |
| `LegacyCanvas.LegacyOffsetKeysAgree` | src/components/canvas.rs:208-218 | `+` and `-` act the same in both revisions when the palette offset is the selected variable |
| `LegacyCanvas.LegacyUnboundKeys` | src/components/canvas.rs:229 | `b`, `n` and `t` change nothing in the earlier revision |
| `LegacyCanvas.LegacyOffsetKeysUndo` | src/components/canvas.rs:208-218 | with the offset in range, `+` then `-` restores the settings and leaves only a repaint request |
| `LegacyCanvas.LegacyHandleKeyCode` | src/components/canvas.rs:105-231 | the state after a key is the earlier key map's result for it |
| `LegacyCanvas.LegacyClicksAgree` | src/components/canvas.rs:49-103 | the two revisions agree on every click but Info; on Info the earlier one logs the point and its freshly computed divergence and asks for a redraw, without touching the settings |
| `LegacyCanvas.LegacyHandleMouseEvent` | src/components/canvas.rs:49-103 | a click focuses the canvas; a button press performs its configured action and asks for a redraw, and any other mouse event changes nothing else |
| `CanvasControls.MovedMeaning` | src/components/canvas/keyboard_handling.rs:19-68 | a movement key shifts the position by cell size times move distance along its axis, changes nothing else but the redraw flags, and the opposite key brings it back |
| `CanvasControls.ZoomKeysUndo` | src/components/canvas/keyboard_handling.rs:70-90 | `d` then `s`, or `s` then `d`, restores everything but the redraw flags |
| `CanvasControls.BoundedKeysUndo` | src/components/canvas/keyboard_handling.rs:92-100 | `i` then `u` restores a precision, and `o` then `y` an iteration limit, that stay in bounds on the way up; both always stay within their bounds |
| `CanvasControls.ResetKeyedMeaning` | src/components/canvas/keyboard_handling.rs:102-106 | after `r` the view spans 5 on the real axis and sits at the fractal's default position, only the cell size, position and redraw flags change, and a second `r` changes nothing |
| `CanvasControls.FracKeyedCycles` | src/components/canvas/keyboard_handling.rs:108-113 | `f` moves to the next of the three fractals, wrapping after the last, changes nothing else when no error is reported, and three presses bring the first one back |
| `CanvasControls.PaletteKeyedCycles` | src/components/canvas/keyboard_handling.rs:115-119 | `c` keeps the palette index within the table and steps it by one, wrapping after the last |
| `CanvasControls.NextVoidFill` | src/components/canvas/keyboard_handling.rs:186-192 | the next void fill is the index plus one modulo the eight fills, the same as `increment_wrap`, and stays in range |
| `CanvasControls.VoidFillKeyedCycles` | src/components/canvas/keyboard_handling.rs:186-192 | `v` keeps the void fill in range, and eight presses bring it back |
| `CanvasControls.OffsetStepsUndo` | src/components/canvas/keyboard_handling.rs:122-174 | `+` then `-` on an in-range colour offset cannot overflow, keeps the offset in range and brings it back |
| `CanvasControls.HslStepsUndo` | src/components/canvas/keyboard_handling.rs:128-171 | `+` then `-` on an in-range HSL number cannot overflow, keeps it below the maximum and brings it back |
| `CanvasControls.VarStepsUndo` | src/components/canvas/keyboard_handling.rs:122-174 | `+` then `-` on any selectable variable of in-range settings cannot overflow, keeps the settings in range and restores them |
| `CanvasControls.SelectedKeysUndo` | src/components/canvas/keyboard_handling.rs:122-174 | `+` then `-` on the selected variable restores the state but for a repaint request |
| `CanvasControls.SelectedKeyedTouchesOnlySelected` | src/components/canvas/keyboard_handling.rs:122-174 | `+` or `-` with the palette offset selected leaves the HSL settings alone, and with an HSL number selected leaves the offset alone |
| `CanvasControls.HslModeKeyedVisible` | src/components/canvas/keyboard_handling.rs:176-182 | `n` flips HSL mode and leaves a visible variable selected; twice from the default selection restores it |
| `CanvasControls.NextVarKeyedMeaning` | src/components/canvas/keyboard_handling.rs:184 | `t` selects a visible variable; with HSL mode on it walks through the four HSL variables in turn, and with it off it selects the palette offset |
| `CanvasControls.MoveKey` | src/components/canvas/keyboard_handling.rs:19-68 | a movement key leaves the state its specification gives |
| `CanvasControls.ZoomKey` | src/components/canvas/keyboard_handling.rs:70-90 | `s` or `d` leaves the zoomed state with a redraw requested |
| `CanvasControls.PrecKey` | src/components/canvas/keyboard_handling.rs:92-100 | `u` or `i` leaves the bounded precision with a redraw requested |
| `CanvasControls.ResetKey` | src/components/canvas/keyboard_handling.rs:102-106 | `r` leaves the reset view |
| `CanvasControls.FracKey` | src/components/canvas/keyboard_handling.rs:108-113 | `f` leaves the next fractal selected, its failure logged |
| `CanvasControls.PaletteKey` | src/components/canvas/keyboard_handling.rs:115-119 | `c` leaves the next palette with a repaint requested |
| `CanvasControls.VoidFillKey` | src/components/canvas/keyboard_handling.rs:186-192 | `v` leaves the next void fill with a repaint requested |
| `CanvasControls.HslModeKey` | src/components/canvas/keyboard_handling.rs:176-182 | `n` leaves HSL mode flipped and a visible variable selected |
| `CanvasControls.SelectedKey` | src/components/canvas/keyboard_handling.rs:122-174 | `+` or `-` leaves the selected variable stepped with a repaint requested |
| `CanvasControls.StepVar` | src/components/canvas/keyboard_handling.rs:123-147 | the selected variable, and only it, is stepped up or down within its range |
| `CanvasControls.StepHsl` | src/components/canvas/keyboard_handling.rs:128-146 | an HSL number is wrapped up or down and stays below the maximum when it started there |
| `CanvasControls.ClickedMeaning` | src/components/canvas/mouse_handling.rs:27-61 | Move centres the view on the clicked point, the constants take its value, the zooms keep it under the cursor and the bailout becomes its modulus; each changes only its own setting |
| `CanvasControls.BailOutIsModulus` | src/components/canvas/mouse_handling.rs:52-59 | with a true modulus, a bailout click stores a non-negative bound whose square is the point's squared norm |
| `CanvasControls.ApplyClick` | src/components/canvas/mouse_handling.rs:27-61 | a click action other than Info leaves the state its specification gives |
| `CanvasKeys.KeyHandledFrame` | src/components/canvas/keyboard_handling.rs:15-199 | every key but `b` leaves the side panel, the divergence matrix and the component areas alone, and an unmapped key changes nothing at all |
| `CanvasKeys.MovementKeysUndo` | src/components/canvas/keyboard_handling.rs:19-68 | the arrows and `h`, `j`, `k`, `l` are the same keys, and each movement is undone by its opposite |
| `CanvasKeys.ZoomAndPanelKeysUndo` | src/components/canvas/keyboard_handling.rs:70-90 | `d` then `s` returns to the same view, and `b` twice restores the side panel |
| `CanvasKeys.PlusMinusUndo` | src/components/canvas/keyboard_handling.rs:122-174 | `+` then `-` restores the selected variable when every steppable value is in range |
| `CanvasKeys.HandleKeyCode` | src/components/canvas/keyboard_handling.rs:15-199 | the application after a canvas key is the key map's result for it |
| `CanvasKeys.ApplyAction` | src/components/canvas/keyboard_handling.rs:15-199 | each key arm other than the side panel toggle leaves the logic state its specification gives |
| `CanvasMouse.ActionOfEvent` | src/components/canvas/mouse_handling.rs:21-26 | a button press selects the left button's action, or the right one's for the right and middle buttons; any other event selects none |
| `CanvasMouse.DivergAt` | src/components/canvas/mouse_handling.rs:65-77 | a cell has a value exactly when it is past the first row and column and inside the matrix, two matrix rows per terminal row, and the value is the matrix entry there |
| `CanvasMouse.MouseHandledFocuses` | src/components/canvas/mouse_handling.rs:11-26 | any mouse event on the canvas focuses it, one that is not a button press does nothing else, and only the logic state changes |
| `CanvasMouse.InfoClickOnlyLogs` | src/components/canvas/mouse_handling.rs:62-88 | an Info click never asks for a redraw nor changes the settings; it logs one "Click Info" message when the matrix has a value under the cell and nothing otherwise |
| `CanvasMouse.InfoClickAppends` | src/components/canvas/mouse_handling.rs:79-87 | an Info click on a value appends one message, headed "Click Info", to a log with room |
| `CanvasMouse.OtherClickRedraws` | src/components/canvas/mouse_handling.rs:27-61 | every click action but Info asks for a redraw and logs nothing |
| `CanvasMouse.HandleMouseEvent` | src/components/canvas/mouse_handling.rs:11-90 | the application after a mouse event on the canvas is the one its specification gives |
| `Apps.SidepanelToggledMeaning` | src/app/mod.rs:35-41 | toggling flips the flag and requests a redraw; hiding the panel moves the focus to the canvas, showing it keeps the focus, and nothing else changes |
| `Apps.SidepanelToggledTwice` | src/app/mod.rs:35-41 | toggling twice restores the flag and keeps the focus on the canvas if it was there |
| `Apps.GlobalKeys` | src/app/events.rs:53-72 | Ctrl+C quits and is caught; Tab is caught and moves the focus on, and three Tabs bring it back; any other key is not caught and changes nothing |
| `Apps.ComponentAt` | src/app/events.rs:40-50 | the canvas wins where it contains the position, then the log panel, then the input, and there is none where no area contains it |
| `Apps.Pasted` | src/app/events.rs:74-82 | the pasted characters in order, each line feed turned into a space, and no line feed left |
| `Apps.App.constructor` | src/app/mod.rs:21-32 | a fresh application has the default logic state, the side panel shown, no matrix and empty areas |
| `Apps.App.ToggleSidepanel` | src/app/mod.rs:35-41 | the application after a toggle is the one its specification gives |
| `Apps.App.HandleEvent` | src/app/events.rs:53-72 | the state after a global key, and whether it was caught, are those its specification gives |
| `Apps.App.GetComponentAtPos` | src/app/events.rs:40-50 | the component at a position is the one the routing function gives |
| `Apps.App.HandlePaste` | src/app/events.rs:74-82 | the pasted text, line feeds turned into spaces, lands in the command line at the cursor as a whole; nothing else changes |
| `AppEvents.KeyDispatchedMeaning` | src/app/events.rs:14-20 | a key sent to the log panel changes nothing the model holds, and one sent to the command line leaves the side panel, the matrix and the areas alone |
| `AppEvents.CanvasKeyKeepsCommandLine` | src/app/events.rs:14-20 | a key sent to the canvas keeps the focus there and leaves the command line and the last command alone |
| `AppEvents.ActionKeepsCommandLine` | src/components/canvas/keyboard_handling.rs:15-199 | no canvas key arm touches the focus, the command line or the last command |
| `AppEvents.DispatchEvent` | src/app/events.rs:14-20 | the application after a key is the focused component's result for it |
| `AppEvents.MouseRoutedMeaning` | src/app/events.rs:22-37 | only button presses are handled; one on no component changes nothing, one on a component focuses it, and a press outside the canvas changes nothing but the focus |
| `AppEvents.HandleMouseEvent` | src/app/events.rs:22-37 | the application after a mouse event is the one its routing specification gives |

## Left out

- The GPU renderer (wgpu) and the shader build: the outcome of building the shader is the parameter `shaderError`.
- Drawing to the terminal: `Widget::render` of every component, the log panel's widget (src/components/log_panel.rs) and the layout that computes the component areas (the areas are part of the modelled state, not computed).
- The event loop, the worker threads and Rayon's parallel iteration: the divergence matrix is computed as a sequential map over the cells.
- Mutex locking in `load` and `history` (it fails only on a poisoned lock) and the log panel's scroll state; the log panel's own keys only scroll it, so they are modelled as changing nothing.
- File-system and network I/O, the image encoding of screenshots and `print_logs`: directory listings are the parameter of `load`, the files written are not modelled.
- Randomness and the clock: the noise of the void fill is the parameter `noise`, the time stamp and the elapsed render time are the parameters `timestamp` and `elapsed`.
- Floating-point arithmetic: `rug::Float`, `rug::Complex` and `f32` are exact reals, so precision, rounding and `f32` conversions (in `capture_fit` and in the colour blending) are not modelled; the HSL colour formula is the parameter `hslColor`, and `|z|` as computed for the bailout is the parameter `modulus`.
- The parsers of the libraries: parsing a `rug` float or complex number and `serde` deserialisation are parameters; `i32`/`u32` parsing is written out.
- `set_width`, `get_diverg_lines`, `execute_capture`, `src/colors/palettes.rs`, the Mandelbrot descriptor file, `pos::POS` and `log_warn` are not part of this model: the cell width for a plane width is the parameter `cellForWidth`, the screenshot lines are the parameter `lines`, the warning format is the parameter `warn`, and the palettes come from the table of src/colors.rs.
- The command table built by `get_commands_map` is the parameter `commands` of the command line, required to be well formed (every command accepts at least one argument count, so its usage error can be written; the model does not require that each command is found under its own name); the help texts and descriptions of the commands are left out.
- `tui_input`'s editing of keys other than the ones the command line handles itself is the parameter `edit`.
- Integer widths the model does not track: the `i32` product in the screenshot percentage, `current_line + 64` in the screenshot job and the `u16` line count of the footer are unbounded integers; the footer counts characters where `str::len` counts bytes.
- Prioritised log messages are not modelled; `set_decimal_prec` does not re-round the position and the cell size to the new precision.
- NumericCommands.LegacyCommandIncrement: the older commands (src/commands/move_dist.rs:8, src/commands/prec.rs:8, src/commands/max_iter.rs:6) call a `command_increment` that returns an Option. That form is not in the source files; the only `command_increment` there (src/commands/command_increment.rs:6-59) returns a Result. The model assumes the Option form accepts exactly what the Result form accepts, logs the same message, and turns every `Err` into `None` without logging it. NumericCommands.MoveDistOutcome, NumericCommands.PrecOutcome and NumericCommands.MaxIterOutcome rest on that assumption; their "a refused one changes nothing" is the assumption, not something the source shows.
- The tests in src/commands/mod.rs expect aliases (`h`, `Q`, `mi`, `cP`, `c`) that five command constants of this revision do not declare; the command table is modelled as the constants declare it.
- `render_canvas`'s average divergence when no point diverged is 0/0, NaN, in the program; the model keeps the sum 0 and divides only by a positive count.
- ConfigCommands.ExecuteClickMode: requires an argument count other than one; the command line only calls it with zero or two arguments (its accepted counts), and one argument would make the program index past the end.
- ConfigCommands.ClickModeExecuted: requires an argument count other than one, as ExecuteClickMode.
- ConfigCommands.ClickModeOutcome: requires an argument count other than one, as ExecuteClickMode.
- AppStates.AppState.Zoom: requires a scaling factor above -100, where the program's zoom factor would be zero or negative and the cell size infinite or of the wrong sign; the `zoom_factor` command keeps the factor within [1, 500].
- AppStates.AppState.ZoomAt: requires a scaling factor above -100, as AppStates.AppState.Zoom.
- LegacyAppStates.LegacyAppState.Zoom: requires a scaling factor above -100, as AppStates.AppState.Zoom.
- LegacyAppStates.LegacyAppState.ZoomAt: requires a scaling factor above -100, as AppStates.AppState.Zoom.
- CanvasControls.ZoomKey: requires a scaling factor above -100, as AppStates.AppState.Zoom; the zoom clicks (CanvasControls.ApplyClick) and the canvas keys (CanvasKeys.HandleKeyCode) require the same through `ClickReady` and `ActionReady`.
- CanvasControls.ResetKey: requires a canvas width other than zero, where the program's float division would give an infinite cell size, and a fractal index within the table, which every setter keeps.
- LegacyRender.LegacyRenderSettings.ResetCellSize: requires a canvas width other than zero, as CanvasControls.ResetKey.
- FracLogic.WithCellSizeReset: requires a canvas width other than zero, where the float division gives an infinite cell size, as CanvasControls.ResetKey.
- FracLogic.ResetPlaneWidthIsFive: requires a canvas width other than zero, as FracLogic.WithCellSizeReset.
- FracLogic.RenderSettings.ResetCellSize: requires a canvas width other than zero, as FracLogic.WithCellSizeReset.
- LegacyCanvas.LegacyHandleKeyCode: requires `LegacyKeyReady`: the `ActionReady` conditions of CanvasKeys.HandleKeyCode (a scaling factor above -100, a canvas width other than zero) and, for `+` and `-`, the `OffsetStepReady` conditions of CanvasControls.StepVar (a smoothness other than 0 and `i32` sums); the panics and overflows outside them are not modelled.
- LegacyCanvas.LegacyOffsetKeysAgree: requires `LegacyKeyReady`, so it covers only the `+`/`-` steps within the `OffsetStepReady` conditions, as LegacyCanvas.LegacyHandleKeyCode.
- CanvasControls.StepVar: requires that the sum its wrap-around computes stays within `i32`, where the program would overflow, and, for the palette offset, a smoothness other than 0 (through `OffsetStepReady`), where `increment_wrap`/`decrement_wrap` divide by `16 * smoothness` and the program panics on `% 0`; a state file can set smoothness 0 (src/app_state/state_loading.rs:49-50), so that panic is not modelled.
- Colors.PaletteColor: the `i32` sum `offset + i` (src/colors/mod.rs:10) wraps, as in an optimised build; a debug build panics on that overflow instead, which is not modelled. An offset read from a state file is not range-checked (src/app_state/state_loading.rs:39-41, src/app_state/mod.rs:95-97), so the sum can overflow. The `f32` conversion of the sum is exact in the model.
- IncrementWrap.IncrementWrap: requires that `num + 1` stays within `i32`; the program would panic (debug) or wrap (optimised), which is not modelled, as CanvasControls.StepVar.
- IncrementWrap.DecrementWrap: requires that `num + wrap_around - 1` stays within `i32`; the overflow is not modelled, as CanvasControls.StepVar.
- FracLogic.RenderSettings.IncrementColorOffset: requires a smoothness other than 0; at 0 the program panics on `% 0` in `increment_wrap`, which the model does not capture (a state file can set smoothness 0 without a range check). It also requires that `16 * smoothness` (src/frac_logic/render_settings_methods.rs:36) and `offset + 1` (src/helpers/increment_wrap.rs:5) stay within `i32`. A state file can set any offset and smoothness (src/app_state/state_loading.rs:39-41, src/app_state/mod.rs:95-97), and then these sums panic in a debug build and wrap in an optimised one; neither outcome is modelled.
- FracLogic.RenderSettings.DecrementColorOffset: requires a smoothness other than 0; at 0 the program panics on `% 0` in `decrement_wrap`, which the model does not capture, as FracLogic.RenderSettings.IncrementColorOffset. It also requires that `16 * smoothness` (src/frac_logic/render_settings_methods.rs:40) and `offset + 16 * smoothness - 1` (src/helpers/increment_wrap.rs:2) stay within `i32`; the overflow a state file can cause is not modelled, as for FracLogic.RenderSettings.IncrementColorOffset.
- FracLogic.WithColorOffsetIncremented and FracLogic.WithColorOffsetDecremented: require a wrap width `16 * smoothness` other than 0, as FracLogic.RenderSettings.IncrementColorOffset, and compute the width and the wrap-around sums without `i32` overflow, which the program does not guarantee (see FracLogic.RenderSettings.IncrementColorOffset); the canvas `+`/`-` keys (CanvasControls.SelectedKey, CanvasKeys.HandleKeyCode) inherit the same requirement.
- CanvasControls.StepHsl: requires that the sum its wrap-around computes stays within `i32`, as CanvasControls.StepVar.
- AppStates.AppState.HandleRes: the body of `handle_res` is not part of this model; the model assumes it logs an `Err` with `log_error` and does nothing on `Ok`. Its callers (src/app_state/mod.rs:86, src/app_state/state_loading.rs:30, src/components/canvas/keyboard_handling.rs:111, src/components/canvas.rs:199) hand it the outcome of `select_fractal`, so the fractal block of a state file (StateLoading.SelectFractalTo) and the `f` key (CanvasControls.FracKey) rest on that assumption.
- Base.Lower: case folding is ASCII only; it folds only `A`-`Z`, where `str::to_lowercase` folds every Unicode letter, so the lookups of commands (`get_command_by_name`), click modes, palettes and fractals and the `chunk_size`, `capture_fit` and `click_mode` arguments treat non-ASCII capitals (such as the Kelvin sign, which the program folds to `k`) as other characters. Whitespace is not affected: `Base.IsWhitespace` is the full Unicode White_Space set that `split_whitespace` and `trim` use.
- AppStats.PointCount: the `i32` product `canvas_size.x * canvas_size.y` is unbounded in the model; a canvas whose point count exceeds `i32` would overflow in the program.
- LegacyRender.PointCount: the `i32` product is unbounded, as AppStats.PointCount.
- LegacyRender.GetZoom: requires a cell size other than 0; the older default cell size is 0, where the program's division by a zero `rug::Float` gives an infinite zoom, which the model does not capture (AppStats.GetZoom likewise).
- History.HistoryExecuted: requires a non-empty history. `execute_history` removes the front entry with `remove(0)` (src/commands/history.rs:8), which panics on an empty list; the panic is not modelled. The model assumes that the command runner has pushed this very command onto `last_commands` before it runs. The code that would do so is not part of this model: in this revision the list starts empty (src/app_state/default_app_state.rs:17), and the command line stores only `last_command` (src/components/input.rs:53).
- History.HistoryOutcome: rests on the same assumption as History.HistoryExecuted. It requires a non-empty history and does not model the `remove(0)` panic on an empty one.
- History.ExecuteHistory: rests on the same assumption as History.HistoryExecuted. It requires a non-empty history and does not model the `remove(0)` panic on an empty one.
- ViewCommands.FracLookupOutcome: requires the argument shapes `frac` accepts; the usage errors for the other shapes are stated by ViewCommands.FracUsageErrors.

## Findings

| source | as written | input that shows it | evidently intended | confidence | as-written member | corrected member |
|---|---|---|---|---|---|---|
| src/app/parallel_jobs.rs:34 | the job ends once the pass end reaches `size.y - 1`, the index of the last line, although a pass stops before its end line | a picture 65 lines high: the first pass computes lines 0 to 63 and ends the job; building the picture then reads row 64 of a 64-row matrix and panics (index out of bounds) instead of saving | end the job once the pass end reaches `size.y`, after every line is computed | medium, not executed | Screenshots.AsWrittenEndsTooEarly | Screenshots.FinalPassEndsAtHeight |
| src/app/app_state.rs:149 | the greeting of the older `initial_message` names the author with the bytes of "é" read as Latin-1, "LÃ©opold" | any version string: the first log entry | "Léopold", as the newer greeting in src/app/logging.rs:44 writes it | high, not executed | LegacyAppStates.AsWrittenGreetingIsMojibake | LegacyAppStates.CorrectedGreetingNamesAuthor |
