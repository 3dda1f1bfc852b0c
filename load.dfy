// The `load` command (src/commands/load.rs). Without arguments it searches
// the working directory, at most ten levels deep, for state files (names
// ending in ".rsf"), keeps the sorted list and logs it; with an argument it
// loads a file: "cycle" takes the files of the list in turn, an index picks
// one, and anything else is a path. The list and the cycle position are
// process-wide statics, modelled as the fields of a `LoadMemory`.
module Load {
  import opened Base
  import opened Paths
  import opened AppStates
  import History
  import StateLoading
  import Markup
  import Logging

  const SAVE_EXTENSION: string := ".rsf"
  const MAX_SEARCH_DEPTH: int := 10

  const NO_DETECTION: string :=
    "No state file has been found in your current working directory, " +
    "or the detection has not been performed yet. " +
    "To detect state files, run <command load> with no arugments."

  // ------------------------------------------------------ the file system

  /** A directory entry as `read_dir` yields it; `Other` is a link, an unreadable entry or any other kind. */
  datatype Node = File(name: string) | Dir(name: string, listing: Listing) | Other

  /** What listing a directory gives: its entries, or the reason it cannot be listed. */
  datatype Listing = Listed(entries: seq<Node>) | ListError(reason: string)

  function CannotList(path: Path, reason: string): string
  {
    "Cannot list directory: " + Display(path) + ": " + reason
  }

  /** `find_state_files(path, depth)` on the directory `path`, whose listing is `listing`. */
  function Found(path: Path, listing: Listing, depth: int): Result<(seq<Path>, int), string>
    decreases listing
  {
    match listing
    case ListError(reason) => Err(CannotList(path, reason))
    case Listed(entries) => Ok(Scanned(path, entries, depth))
  }

  /**
   * The files found and the directories searched among `entries` of the
   * directory `path`, in order: a state file is kept, a directory is
   * searched while `depth` is below the limit, and one that cannot be listed
   * is skipped without being counted.
   */
  function Scanned(path: Path, entries: seq<Node>, depth: int): (seq<Path>, int)
    decreases entries
  {
    if entries == [] then ([], 0)
    else
      var (files, searched) := Scanned(path, entries[..|entries| - 1], depth);
      match entries[|entries| - 1]
      case File(name) =>
        if EndsWith(name, SAVE_EXTENSION) then (files + [path + [name]], searched) else (files, searched)
      case Dir(name, listing) =>
        if depth < MAX_SEARCH_DEPTH then
          match Found(path + [name], listing, depth + 1)
          case Ok((sub, n)) => (files + sub, searched + n + 1)
          case Err(_) => (files, searched)
        else (files, searched)
      case Other => (files, searched)
  }

  /** A path found below `path` at search depth `depth`: a state file at most the remaining levels down. */
  predicate FoundUnder(path: Path, p: Path, depth: int)
  {
    |path| < |p| && p[..|path|] == path && EndsWith(p[|p| - 1], SAVE_EXTENSION)
    && (depth <= MAX_SEARCH_DEPTH ==> |p| <= |path| + 1 + MAX_SEARCH_DEPTH - depth)
  }

  /**
   * Every path found is a file ending in ".rsf" below the searched
   * directory, no deeper than the limit allows, and the count of searched
   * directories is never negative.
   */
  lemma {:induction false} ScannedSound(path: Path, entries: seq<Node>, depth: int)
    ensures var (files, n) := Scanned(path, entries, depth);
      n >= 0 && forall p :: p in files ==> FoundUnder(path, p, depth)
    decreases entries
  {
    if entries != [] {
      var init := entries[..|entries| - 1];
      ScannedSound(path, init, depth);
      var last := entries[|entries| - 1];
      if last.Dir? && depth < MAX_SEARCH_DEPTH {
        FoundSound(path + [last.name], last.listing, depth + 1);
        var r := Found(path + [last.name], last.listing, depth + 1);
        if r.Ok? {
          forall p | p in r.value.0
            ensures FoundUnder(path, p, depth)
          {
            assert FoundUnder(path + [last.name], p, depth + 1);
            assert p[..|path|] == (path + [last.name])[..|path|];
          }
        }
      }
    }
  }

  /** `find_state_files` finds only state files below the directory searched. */
  lemma {:induction false} FoundSound(path: Path, listing: Listing, depth: int)
    ensures var r := Found(path, listing, depth);
      r.Ok? ==> r.value.1 >= 0 && forall p :: p in r.value.0 ==> FoundUnder(path, p, depth)
    decreases listing
  {
    if listing.Listed? {
      ScannedSound(path, listing.entries, depth);
    }
  }

  // --------------------------------------------------- the complete search

  /** Every directory below can be listed and lies within the depth limit. */
  predicate Complete(entries: seq<Node>, depth: int)
    decreases entries
  {
    forall k :: 0 <= k < |entries| && entries[k].Dir? ==>
      depth < MAX_SEARCH_DEPTH && entries[k].listing.Listed? && Complete(entries[k].listing.entries, depth + 1)
  }

  /** All the state files of the tree, in listing order, with no depth limit. */
  function AllStateFiles(path: Path, entries: seq<Node>): seq<Path>
    decreases entries
  {
    if entries == [] then []
    else
      var here := AllStateFiles(path, entries[..|entries| - 1]);
      match entries[|entries| - 1]
      case File(name) => if EndsWith(name, SAVE_EXTENSION) then here + [path + [name]] else here
      case Dir(name, listing) =>
        if listing.Listed? then here + AllStateFiles(path + [name], listing.entries) else here
      case Other => here
  }

  /** The number of directories in the tree. */
  function TreeDirs(entries: seq<Node>): nat
    decreases entries
  {
    if entries == [] then 0
    else
      var here := TreeDirs(entries[..|entries| - 1]);
      match entries[|entries| - 1]
      case Dir(_, listing) => here + 1 + (if listing.Listed? then TreeDirs(listing.entries) else 0)
      case _ => here
  }

  /**
   * When every directory is readable and within the limit, the search finds
   * every state file of the tree and counts every directory in it.
   */
  lemma {:induction false} CompleteSearch(path: Path, entries: seq<Node>, depth: int)
    requires Complete(entries, depth)
    ensures Scanned(path, entries, depth) == (AllStateFiles(path, entries), TreeDirs(entries))
    decreases entries
  {
    if entries != [] {
      var init := entries[..|entries| - 1];
      assert Complete(init, depth) by {
        forall k | 0 <= k < |init| && init[k].Dir?
          ensures depth < MAX_SEARCH_DEPTH && init[k].listing.Listed? && Complete(init[k].listing.entries, depth + 1)
        {
          assert init[k] == entries[k];
        }
      }
      CompleteSearch(path, init, depth);
      var last := entries[|entries| - 1];
      if last.Dir? {
        assert depth < MAX_SEARCH_DEPTH && last.listing.Listed? && Complete(last.listing.entries, depth + 1);
        CompleteSearch(path + [last.name], last.listing.entries, depth + 1);
      }
    }
  }

  /** `find_state_files`, recursively, accumulating in a loop over the entries. */
  method FindStateFiles(path: Path, listing: Listing, depth: int) returns (r: Result<(seq<Path>, int), string>)
    ensures r == Found(path, listing, depth)
    decreases listing
  {
    if listing.ListError? {
      return Err(CannotList(path, listing.reason));
    }
    var entries := listing.entries;
    var results: seq<Path> := [];
    var searched := 0;
    var i := 0;
    while i < |entries|
      invariant 0 <= i <= |entries|
      invariant (results, searched) == Scanned(path, entries[..i], depth)
    {
      assert entries[..i + 1][..i] == entries[..i];
      match entries[i] {
        case File(name) =>
          if EndsWith(name, SAVE_EXTENSION) {
            results := results + [path + [name]];
          }
        case Dir(name, sub) =>
          if depth < MAX_SEARCH_DEPTH {
            var found := FindStateFiles(path + [name], sub, depth + 1);
            if found.Ok? {
              searched := searched + found.value.1 + 1;
              results := results + found.value.0;
            }
          }
        case Other =>
      }
      i := i + 1;
    }
    assert entries[..i] == entries;
    return Ok((results, searched));
  }

  // ------------------------------------------------------------ the command

  /** The process-wide statics `DETECTED_FILES` and `CURRENT_STATE_FILE_INDEX`. */
  class LoadMemory {
    var detected: seq<Path>
    var index: nat

    /** Both statics as the program starts: no file and index 0. */
    constructor ()
      ensures detected == [] && index == 0
    {
      detected := [];
      index := 0;
    }
  }

  /** What opening and reading a file gives. */
  datatype FileOutcome = CannotOpen(openError: string) | CannotRead(readError: string) | Contents(text: string)

  /**
   * What `load` relies on outside this model: the working directory's tree,
   * the file system, the TOML parser behind `SavedState::from_str`, and what
   * `apply` needs (the crate version, the warning entry, the parsers).
   */
  datatype LoadIo = LoadIo(
    cwd: Listing,
    files: string -> FileOutcome,
    parse: string -> Result<StateLoading.SavedState, string>,
    version: string,
    warn: string -> string,
    env: StateLoading.LoadEnv)

  function Displays(ps: seq<Path>): (r: seq<string>)
    ensures |r| == |ps| && forall i :: 0 <= i < |ps| ==> r[i] == Display(ps[i])
  {
    seq(|ps|, i requires 0 <= i < |ps| => Display(ps[i]))
  }

  /** The message `load` logs after a search of `searched` directories that found `files`. */
  function DetectionMessage(files: seq<Path>, searched: int): string
  {
    if files == [] then "Looked into <acc " + IntToString(searched) + "> directories, but no state file was found."
    else "Looked into <acc " + IntToString(searched) + "> directories, the following state files have been detected:\n" +
         Trim(History.ListingLines(Displays(files)))
  }

  /** The file an argument names: an index into the list if it is one, else the argument itself. */
  function Picked(detected: seq<Path>, name: string): string
  {
    match ParseInt(name, USize)
    case Some(num) => if num < |detected| then Display(detected[num]) else name
    case None => name
  }

  /** The file `load arg` opens, and the cycle position after it. */
  function Resolved(detected: seq<Path>, index: nat, arg: string): (Result<string, string>, nat)
  {
    if arg == "cycle" then
      if detected == [] then (Err(NO_DETECTION), index)
      else (Ok(Picked(detected, IntToString(index))), Next(detected, index))
    else (Ok(Picked(detected, arg)), index)
  }

  /** The cycle position after `index`, wrapping at the end of the list. */
  function Next(detected: seq<Path>, index: nat): nat
  {
    if detected == [] then index else (index + 1) % |detected|
  }

  /** The state, the two statics and the result after `load args`. */
  function LoadExecuted(m: AppModel, detected: seq<Path>, index: nat, args: seq<string>, io: LoadIo)
    : (AppModel, seq<Path>, nat, Result<(), string>)
  {
    if args == [] then
      match Found(["."], io.cwd, 0)
      case Err(e) => (m, detected, 0, Err(e))
      case Ok((files, searched)) =>
        var sorted := SortPaths(files);
        (m.(logMessages := Logging.Logged(m.logMessages, Logging.Info(DetectionMessage(sorted, searched)))),
         sorted, 0, Ok(()))
    else
      var (target, next) := Resolved(detected, index, args[0]);
      match target
      case Err(e) => (m, detected, next, Err(e))
      case Ok(filename) =>
        var (m1, r) := FileLoaded(m, filename, io);
        (m1, detected, next, r)
  }

  /** Reading, parsing and applying the state file `filename`. */
  function FileLoaded(m: AppModel, filename: string, io: LoadIo): (AppModel, Result<(), string>)
  {
    match io.files(filename)
    case CannotOpen(e) => (m, Err("Could not open file <command " + Markup.Esc(filename) + ">: " + Markup.Esc(e)))
    case CannotRead(e) => (m, Err("The file cannot be read: " + Markup.Esc(e)))
    case Contents(text) =>
      match io.parse(text)
      case Err(e) => (m, Err(e))
      case Ok(saved) => (StateLoading.LoadedVersioned(m, saved, filename, io.version, io.warn, io.env), Ok(()))
  }

  /**
   * Without arguments the cycle position goes back to 0 whatever happens; a
   * successful search replaces the list with its sorted result and logs one
   * info line, and a failed one keeps the list and returns the error.
   */
  lemma DetectionOutcome(m: AppModel, detected: seq<Path>, index: nat, io: LoadIo)
    ensures var (n, d, i, r) := LoadExecuted(m, detected, index, [], io);
      && i == 0
      && (Found(["."], io.cwd, 0).Err? ==> n == m && d == detected && r == Err(Found(["."], io.cwd, 0).error))
      && (Found(["."], io.cwd, 0).Ok? ==>
            var (files, searched) := Found(["."], io.cwd, 0).value;
            && r.Ok? && d == SortPaths(files) && Sorted(d) && multiset(d) == multiset(files)
            && (forall p :: p in d ==> FoundUnder(["."], p, 0))
            && n == m.(logMessages := Logging.Logged(m.logMessages, Logging.Info(DetectionMessage(d, searched)))))
  {
    if Found(["."], io.cwd, 0).Ok? {
      SortedFound(io.cwd);
    }
  }

  /** The sorted result of a successful search is sorted, holds the same paths, and each lies under the working directory. */
  lemma SortedFound(cwd: Listing)
    requires Found(["."], cwd, 0).Ok?
    ensures var files := Found(["."], cwd, 0).value.0;
      Sorted(SortPaths(files)) && multiset(SortPaths(files)) == multiset(files)
      && forall p :: p in SortPaths(files) ==> FoundUnder(["."], p, 0)
  {
    FoundSound(["."], cwd, 0);
    var files := Found(["."], cwd, 0).value.0;
    SortPathsSorted(files);
    forall p | p in SortPaths(files)
      ensures FoundUnder(["."], p, 0)
    {
      assert p in multiset(SortPaths(files));
    }
  }

  /**
   * "cycle" with an empty list is an error that keeps the position; with a
   * list it opens the file at the position and advances it modulo the
   * length. An index within the list picks that file; any other argument is
   * the path itself.
   */
  lemma ResolvedCases(detected: seq<Path>, index: nat, arg: string)
    requires |detected| < USIZE_MODULUS
    ensures detected == [] ==> Resolved(detected, index, "cycle") == (Err(NO_DETECTION), index)
    ensures index < |detected| ==>
      Resolved(detected, index, "cycle") == (Ok(Display(detected[index])), (index + 1) % |detected|)
      && (index + 1) % |detected| < |detected|
    ensures arg != "cycle" && ParseInt(arg, USize).Some? && ParseInt(arg, USize).value < |detected| ==>
      Resolved(detected, index, arg) == (Ok(Display(detected[ParseInt(arg, USize).value])), index)
    ensures arg != "cycle" && (ParseInt(arg, USize).None? || ParseInt(arg, USize).value >= |detected|) ==>
      Resolved(detected, index, arg) == (Ok(arg), index)
  {
    if index < |detected| {
      ParseIntToString(index, USize);
    }
  }

  /** The position after `k` runs of `load cycle` from `index`. */
  function Cycled(detected: seq<Path>, index: nat, k: nat): nat
  {
    if k == 0 then index else Next(detected, Cycled(detected, index, k - 1))
  }

  /** One `load cycle` from a position inside the list opens that file and moves to the next position, wrapping at the end. */
  lemma CycleStep(detected: seq<Path>, c: nat)
    requires c < |detected| < USIZE_MODULUS
    ensures Resolved(detected, c, "cycle") == (Ok(Display(detected[c])), (c + 1) % |detected|)
    ensures (c + 1) % |detected| == if c == |detected| - 1 then 0 else c + 1
  {
    ParseIntToString(c, USize);
    assert Picked(detected, IntToString(c)) == Display(detected[c]);
    DivModUnique(c, |detected|, 0, c);
    ModSuccessor(c, |detected|);
  }

  /** After `k` runs of `load cycle` the position is `k` places after the start, wrapping around. */
  lemma {:induction false} CyclePosition(detected: seq<Path>, index: nat, k: nat)
    requires 0 < |detected| < USIZE_MODULUS && index < |detected|
    ensures Cycled(detected, index, k) == (index + k) % |detected|
  {
    var n := |detected|;
    if k > 0 {
      CyclePosition(detected, index, k - 1);
      var c := Cycled(detected, index, k - 1);
      var a := index + k - 1;
      assert c == a % n;
      assert Cycled(detected, index, k) == if c == n - 1 then 0 else c + 1 by {
        ModSuccessor(c, n);
        DivModUnique(c, n, 0, c);
      }
      assert (index + k) % n == if c == n - 1 then 0 else c + 1 by {
        ModSuccessor(a, n);
      }
    } else {
      DivModUnique(index, n, 0, index);
    }
  }

  /**
   * Repeating `load cycle` visits the list in order and wraps around: run
   * number `k` (from 0) opens the file `k` places after the starting one.
   */
  lemma CycleVisitsInOrder(detected: seq<Path>, index: nat, k: nat)
    requires 0 < |detected| < USIZE_MODULUS && index < |detected|
    ensures Resolved(detected, Cycled(detected, index, k), "cycle").0 == Ok(Display(detected[(index + k) % |detected|]))
  {
    CyclePosition(detected, index, k);
    CycleStep(detected, (index + k) % |detected|);
  }

  /** Position 0, or a position inside the list: what every run of `load` keeps. */
  predicate ValidPosition(detected: seq<Path>, index: nat)
  {
    index == 0 || index < |detected|
  }

  /** Every run of `load` keeps the cycle position valid for the list. */
  lemma LoadKeepsPosition(m: AppModel, detected: seq<Path>, index: nat, args: seq<string>, io: LoadIo)
    requires ValidPosition(detected, index)
    ensures var (_, d, i, _) := LoadExecuted(m, detected, index, args, io);
      ValidPosition(d, i)
  {
  }

  /** The listing lines of the detected files, built in a loop as `execute_load` does. */
  method DetectedListing(files: seq<Path>) returns (res: string)
    ensures res == History.ListingLines(Displays(files))
  {
    var names := Displays(files);
    res := "";
    var i := 0;
    while i < |files|
      invariant 0 <= i <= |files|
      invariant res == History.ListingLines(names[..i])
    {
      assert names[..i + 1][..i] == names[..i];
      res := res + History.EntryLine(i, Display(files[i]));
      i := i + 1;
    }
    assert names[..i] == names;
  }

  /** `execute_load` without arguments: the search, the sorted list and its listing in the log. */
  method Detect(state: AppState, memory: LoadMemory, io: LoadIo) returns (r: Result<(), string>)
    modifies state, memory
    ensures (state.Model(), memory.detected, memory.index, r) ==
      LoadExecuted(old(state.Model()), old(memory.detected), old(memory.index), [], io)
  {
    memory.index := 0;
    var found := FindStateFiles(["."], io.cwd, 0);
    if found.Err? {
      return Err(found.error);
    }
    var searched := found.value.1;
    memory.detected := SortPaths(found.value.0);
    if |memory.detected| == 0 {
      state.LogInfo("Looked into <acc " + IntToString(searched) + "> directories, but no state file was found.");
    } else {
      var listing := DetectedListing(memory.detected);
      state.LogInfo("Looked into <acc " + IntToString(searched) +
                    "> directories, the following state files have been detected:\n" + Trim(listing));
    }
    return Ok(());
  }

  /** `execute_load`; the mutex locks are not modelled (they fail only when poisoned). */
  method ExecuteLoad(state: AppState, memory: LoadMemory, args: seq<string>, io: LoadIo) returns (r: Result<(), string>)
    requires io.env.escapeErrors
    modifies state, state.renderSettings, memory
    ensures (state.Model(), memory.detected, memory.index, r) ==
      LoadExecuted(old(state.Model()), old(memory.detected), old(memory.index), args, io)
  {
    if |args| == 0 {
      r := Detect(state, memory, io);
      return;
    }
    var filename := args[0];
    if filename == "cycle" {
      if |memory.detected| == 0 {
        return Err(NO_DETECTION);
      }
      filename := IntToString(memory.index);
      memory.index := (memory.index + 1) % |memory.detected|;
    }
    var num := ParseInt(filename, USize);
    if num.Some? && num.value < |memory.detected| {
      filename := Display(memory.detected[num.value]);
    }
    r := LoadFile(state, filename, io);
  }

  /** The end of `execute_load`: the file is read, parsed and applied. */
  method LoadFile(state: AppState, filename: string, io: LoadIo) returns (r: Result<(), string>)
    requires io.env.escapeErrors
    modifies state, state.renderSettings
    ensures (state.Model(), r) == FileLoaded(old(state.Model()), filename, io)
  {
    match io.files(filename)
    case CannotOpen(e) =>
      return Err("Could not open file <command " + Markup.Esc(filename) + ">: " + Markup.Esc(e));
    case CannotRead(e) =>
      return Err("The file cannot be read: " + Markup.Esc(e));
    case Contents(text) =>
      var saved := io.parse(text);
      if saved.Err? {
        return Err(saved.error);
      }
      StateLoading.ApplyVersioned(state, saved.value, filename, io.version, io.warn, io.env);
      return Ok(());
  }
}
