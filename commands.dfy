// The command table of src/commands/mod.rs and `get_command_by_name`. A
// command is kept as the parts the lookup and the command line read: its
// name, its aliases and the argument counts it accepts (the closure and the
// descriptions are left out).
module Commands {
  import opened Base

  datatype Command = Command(name: string, aliases: seq<string>, acceptedArgCount: seq<nat>)

  /**
   * The command constants as the command files declare them. Twelve of them
   * (capture, clear, click_mode, color, frac, help, max_iter, move_dist,
   * prec, quit, version, zoom_factor) are written without an `aliases`
   * field, as in a revision before aliases existed; here they have none.
   * The lookup test expects five of these (help, quit, clear, capture,
   * max_iter) to have one.
   */
  const HELP_AS_DECLARED: Command := Command("help", [], [0, 1])
  const QUIT_AS_DECLARED: Command := Command("quit", [], [0])
  const CLEAR_AS_DECLARED: Command := Command("clear", [], [0])
  const VERSION: Command := Command("version", [], [0])
  const SAVE: Command := Command("save", [], [0, 1])
  const LOAD: Command := Command("load", ["l"], [0, 1])
  const CAPTURE_AS_DECLARED: Command := Command("capture", [], [0])
  const CAPTURE_FIT: Command := Command("capture_fit", ["cpf"], [0, 1, 2, 3])
  const CAPTURE_HQ: Command := Command("capture_hq", ["chq"], [0])
  const CAPTURE_FORMAT: Command := Command("capture_format", ["cf"], [0, 1])
  const GPU: Command := Command("gpu", [], [0])
  /** `pos::POS` is not part of this model; `execute_pos` reads no argument or two. */
  const POS: Command := Command("pos", [], [0, 2])
  const PREC: Command := Command("prec", [], [0, 1, 2])
  const MAX_ITER_AS_DECLARED: Command := Command("max_iter", [], [0, 1, 2])
  const COLOR: Command := Command("color", [], [0, 1])
  const SMOOTHNESS: Command := Command("smoothness", ["sm"], [0, 1, 2])
  const FRAC: Command := Command("frac", [], [0, 1, 2])
  const ZOOM_FACTOR: Command := Command("zoom_factor", [], [0, 1])
  const MOVE_DIST: Command := Command("move_dist", [], [0, 1, 2])
  const CLICK_MODE: Command := Command("click_mode", [], [0, 2])

  /** `get_commands_list()`: the twenty commands, in the order the lookup tries them. */
  const COMMANDS: seq<Command> := [
    HELP_AS_DECLARED, QUIT_AS_DECLARED, CLEAR_AS_DECLARED, VERSION, SAVE, LOAD, CAPTURE_AS_DECLARED,
    CAPTURE_FIT, CAPTURE_HQ, CAPTURE_FORMAT, GPU, POS, PREC, MAX_ITER_AS_DECLARED, COLOR, SMOOTHNESS,
    FRAC, ZOOM_FACTOR, MOVE_DIST, CLICK_MODE]

  /**
   * The five commands with the aliases the lookup test of src/commands/mod.rs
   * expects them to have ("h", "q", "c", "cp", "mi").
   */
  const HELP: Command := HELP_AS_DECLARED.(aliases := ["h"])
  const QUIT: Command := QUIT_AS_DECLARED.(aliases := ["q"])
  const CLEAR: Command := CLEAR_AS_DECLARED.(aliases := ["c"])
  const CAPTURE: Command := CAPTURE_AS_DECLARED.(aliases := ["cp"])
  const MAX_ITER: Command := MAX_ITER_AS_DECLARED.(aliases := ["mi"])

  /** The command list of the revision the lookup test was written for. */
  const TESTED_COMMANDS: seq<Command> := [
    HELP, QUIT, CLEAR, VERSION, SAVE, LOAD, CAPTURE, CAPTURE_FIT, CAPTURE_HQ, CAPTURE_FORMAT, GPU, POS,
    PREC, MAX_ITER, COLOR, SMOOTHNESS, FRAC, ZOOM_FACTOR, MOVE_DIST, CLICK_MODE]

  /** The list holds twenty commands, with twenty different names. */
  lemma CommandList()
    ensures |COMMANDS| == 20
    ensures forall i, j :: 0 <= i < j < |COMMANDS| ==> COMMANDS[i].name != COMMANDS[j].name
  {
  }

  /** The command goes by `name`: it is its name or one of its aliases. */
  predicate Answers(c: Command, name: string)
  {
    c.name == name || name in c.aliases
  }

  /** The first command of `table` that goes by the lower-cased `name`. */
  function Lookup(table: seq<Command>, name: string): (r: Option<Command>)
    ensures r.Some? <==> exists i :: 0 <= i < |table| && Answers(table[i], Lower(name))
    ensures r.Some? ==> exists i :: 0 <= i < |table| && table[i] == r.value && Answers(r.value, Lower(name))
                                    && (forall j :: 0 <= j < i ==> !Answers(table[j], Lower(name)))
  {
    var q := Lower(name);
    match FindFirst(table, (c: Command) => Answers(c, q))
    case None => None
    case Some(i) => Some(table[i])
  }

  /** `get_command_by_name`. */
  function GetCommandByName(name: string): Option<Command>
  {
    Lookup(COMMANDS, name)
  }

  /** The lookup over the command list with the aliases the test expects. */
  function GetTestedCommandByName(name: string): Option<Command>
  {
    Lookup(TESTED_COMMANDS, name)
  }


  /** The table lookup of `name` when the `k`-th command is the first that goes by it. */
  lemma LookupAt(table: seq<Command>, name: string, k: nat)
    requires k < |table| && Answers(table[k], Lower(name))
    requires forall j :: 0 <= j < k ==> !Answers(table[j], Lower(name))
    ensures Lookup(table, name) == Some(table[k])
  {
  }

  /** The test lookups of "help" and "hElP": the name in any case. */
  lemma LookupHelp()
    ensures GetCommandByName("help") == Some(HELP_AS_DECLARED)
    ensures GetCommandByName("hElP") == Some(HELP_AS_DECLARED)
  {
    assert Lower("hElP") == "help";
    LookupAt(COMMANDS, "hElP", 0);
    LookupAt(COMMANDS, "help", 0);
  }

  /** The test lookup of "cpf", the alias of capture_fit. */
  lemma LookupCaptureFit()
    ensures GetCommandByName("cpf") == Some(CAPTURE_FIT)
  {
    assert Lower("cpf") == "cpf";
    LookupAt(COMMANDS, "cpf", 7);
  }

  /** The test lookup of "h", the alias of help. */
  lemma LookupH()
    ensures GetTestedCommandByName("h") == Some(HELP)
  {
    assert Lower("h") == "h";
    LookupAt(TESTED_COMMANDS, "h", 0);
  }

  /** The test lookup of "Q", the alias of quit, in upper case. */
  lemma LookupQ()
    ensures GetTestedCommandByName("Q") == Some(QUIT)
  {
    assert Lower("Q") == "q";
    LookupAt(TESTED_COMMANDS, "Q", 1);
  }

  /** The test lookup of "c": the alias of clear, before capture's and color's names. */
  lemma LookupC()
    ensures GetTestedCommandByName("c") == Some(CLEAR)
  {
    assert Lower("c") == "c";
    LookupAt(TESTED_COMMANDS, "c", 2);
  }

  /** The test lookup of "cP", the alias of capture. */
  lemma LookupCp()
    ensures GetTestedCommandByName("cP") == Some(CAPTURE)
  {
    assert Lower("cP") == "cp";
    LookupAt(TESTED_COMMANDS, "cP", 6);
  }

  /** The test lookup of "mi", the alias of max_iter. */
  lemma LookupMi()
    ensures GetTestedCommandByName("mi") == Some(MAX_ITER)
  {
    assert Lower("mi") == "mi";
    LookupAt(TESTED_COMMANDS, "mi", 13);
  }

  /** A name no command goes by, "blabla", finds nothing. */
  lemma LookupUnknown()
    ensures GetCommandByName("blabla").None?
  {
    assert Lower("blabla") == "blabla";
    forall i | 0 <= i < |COMMANDS| ensures !Answers(COMMANDS[i], "blabla") {
      assert |COMMANDS[i].name| != 6 && forall a :: a in COMMANDS[i].aliases ==> |a| < 6;
    }
  }

  /** With the constants as declared, the alias "h" the test expects finds no command. */
  lemma DeclaredAliasMissing()
    ensures GetCommandByName("h").None?
  {
    assert Lower("h") == "h";
    forall i | 0 <= i < |COMMANDS| ensures !Answers(COMMANDS[i], "h") {
      assert |COMMANDS[i].name| > 1;
    }
  }
}
