// `command_increment` (src/commands/command_increment.rs): the shared
// argument handling of the numeric commands. No argument shows the value,
// one argument is the new value, two are an operator and an increment
// applied with saturation, and every changed value is range-checked.
module CommandIncrement {
  import opened Base
  import opened AppStates
  import Logging

  /** `saturating_add` on the integer kind. */
  function SaturatingAdd(a: int, b: int, k: IntKind): int
  {
    Clamp(a + b, KindMin(k), KindMax(k))
  }

  /** `saturating_sub` on the integer kind. */
  function SaturatingSub(a: int, b: int, k: IntKind): int
  {
    Clamp(a - b, KindMin(k), KindMax(k))
  }

  const NOT_INTERPRETED: string := "The value you provided could not be interpreted."
  const INCREMENT_NOT_INTERPRETED: string := "The given increment value could not be interpreted as an integer."
  const BAD_OPERATOR: string := "The first argument must be either <acc +> or <acc ->."

  /** The text logged when no argument is given: the current value. */
  function CurrentMessage(current: int): string
  {
    "The value is currently set to <acc " + IntToString(current) + ">"
  }

  /** The text logged when a value is accepted: the new value. */
  function SetMessage(v: int): string
  {
    "Value successfully set to <acc " + IntToString(v) + ">."
  }

  function RangeError(lo: int, hi: int): string
  {
    "The value must stay remain " + IntToString(lo) + " and " + IntToString(hi)
  }

  /** The candidate value before the range check, for a non-empty argument list. */
  function Candidate(current: int, args: seq<string>, k: IntKind): Result<int, string>
    requires args != []
  {
    if |args| == 1 then
      (match ParseInt(args[0], k)
       case None => Err(NOT_INTERPRETED)
       case Some(v) => Ok(v))
    else if |args| == 2 then
      (match ParseInt(args[1], k)
       case None => Err(INCREMENT_NOT_INTERPRETED)
       case Some(p) =>
         if args[0] == "+" then Ok(SaturatingAdd(current, p, k))
         else if args[0] == "-" then Ok(SaturatingSub(current, p, k))
         else Err(BAD_OPERATOR))
    else Ok(current)
  }

  /**
   * The result of `command_increment(current, args, lo, hi)` and the message
   * it logs, already formatted: an info line for no argument, a success line
   * for an accepted value, nothing for an error.
   */
  function Incremented(current: int, args: seq<string>, lo: int, hi: int, k: IntKind): (r: (Result<int, string>, Option<string>))
    ensures args == [] ==> r.0 == Ok(current)
    ensures args != [] && r.0.Ok? ==> lo <= r.0.value <= hi
    ensures r.1.Some? <==> r.0.Ok?
  {
    if args == [] then
      (Ok(current), Some(Logging.Info(CurrentMessage(current))))
    else
      match Candidate(current, args, k)
      case Err(e) => (Err(e), None)
      case Ok(v) =>
        if v < lo || v > hi then (Err(RangeError(lo, hi)), None)
        else (Ok(v), Some(Logging.Success(SetMessage(v))))
  }

  /** The range check on a candidate value. */
  function RangeChecked(v: int, lo: int, hi: int): Result<int, string>
  {
    if lo <= v <= hi then Ok(v) else Err(RangeError(lo, hi))
  }

  /**
   * One argument is parsed as the new value; two are an operator, `+` or
   * `-`, and an increment applied with saturation, and any other operator is
   * refused once the increment parses; more arguments keep the current value.
   * Whatever survives is accepted only inside `[lo, hi]`.
   */
  lemma {:induction false} IncrementedCases(current: int, args: seq<string>, lo: int, hi: int, k: IntKind)
    ensures |args| == 1 && ParseInt(args[0], k).None? ==> Incremented(current, args, lo, hi, k).0 == Err(NOT_INTERPRETED)
    ensures |args| == 1 && ParseInt(args[0], k).Some? ==>
      Incremented(current, args, lo, hi, k).0 == RangeChecked(ParseInt(args[0], k).value, lo, hi)
    ensures |args| == 2 && ParseInt(args[1], k).None? ==>
      Incremented(current, args, lo, hi, k).0 == Err(INCREMENT_NOT_INTERPRETED)
    ensures |args| == 2 && ParseInt(args[1], k).Some? && args[0] == "+" ==>
      Incremented(current, args, lo, hi, k).0 == RangeChecked(SaturatingAdd(current, ParseInt(args[1], k).value, k), lo, hi)
    ensures |args| == 2 && ParseInt(args[1], k).Some? && args[0] == "-" ==>
      Incremented(current, args, lo, hi, k).0 == RangeChecked(SaturatingSub(current, ParseInt(args[1], k).value, k), lo, hi)
    ensures |args| == 2 && ParseInt(args[1], k).Some? && args[0] != "+" && args[0] != "-" ==>
      Incremented(current, args, lo, hi, k).0 == Err(BAD_OPERATOR)
    ensures |args| > 2 ==> Incremented(current, args, lo, hi, k).0 == RangeChecked(current, lo, hi)
  {
  }

  /** With a non-empty argument list, an accepted value logs exactly one success line naming it, and an error logs nothing. */
  lemma IncrementedLogs(current: int, args: seq<string>, lo: int, hi: int, k: IntKind)
    requires args != []
    ensures var r := Incremented(current, args, lo, hi, k);
      && (r.0.Ok? ==> r.1 == Some(Logging.Success(SetMessage(r.0.value))))
      && (r.0.Err? ==> r.1 == None)
  {
  }

  /** Printing a value in range and passing it back as the single argument sets that value. */
  lemma IncrementedRoundTrip(current: int, v: int, lo: int, hi: int, k: IntKind)
    requires InKind(k, v) && lo <= v <= hi
    ensures Incremented(current, [IntToString(v)], lo, hi, k).0 == Ok(v)
  {
    ParseIntToString(v, k);
  }

  /** An increment by `d` and a decrement by `d` cancel out while both values stay in range and `d` fits the kind. */
  lemma IncrementedUndo(current: int, d: int, lo: int, hi: int, k: IntKind)
    requires InKind(k, d) && InKind(k, current) && InKind(k, current + d)
    requires lo <= current <= hi && lo <= current + d <= hi
    ensures Incremented(current, ["+", IntToString(d)], lo, hi, k).0 == Ok(current + d)
    ensures Incremented(current + d, ["-", IntToString(d)], lo, hi, k).0 == Ok(current)
  {
    ParseIntToString(d, k);
  }

  /** The log after the message `command_increment` chose, if any. */
  function LoggedIf(log: seq<string>, message: Option<string>): seq<string>
  {
    if message.Some? then Logging.Logged(log, message.value) else log
  }

  /** `command_increment` on the state: its result, and its message logged. */
  method CommandIncrement(state: AppState, current: int, args: seq<string>, lo: int, hi: int, k: IntKind)
    returns (r: Result<int, string>)
    modifies state
    ensures r == Incremented(current, args, lo, hi, k).0
    ensures state.Model() == old(state.Model()).(logMessages := LoggedIf(old(state.logMessages), Incremented(current, args, lo, hi, k).1))
  {
    if |args| == 0 {
      state.LogInfo(CurrentMessage(current));
      return Ok(current);
    }
    r := SetFromArgs(state, current, args, lo, hi, k);
  }

  /** With arguments, the outcome follows the candidate: its error, the range error, or the value and its message. */
  lemma IncrementedFromCandidate(current: int, args: seq<string>, lo: int, hi: int, k: IntKind)
    requires args != []
    ensures var c := Candidate(current, args, k);
      Incremented(current, args, lo, hi, k) ==
        if c.Err? then (Err(c.error), None)
        else if c.value < lo || c.value > hi then (Err(RangeError(lo, hi)), None)
        else (Ok(c.value), Some(Logging.Success(SetMessage(c.value))))
  {
  }

  /** `command_increment` with arguments: the candidate, the range check and the success message. */
  method SetFromArgs(state: AppState, current: int, args: seq<string>, lo: int, hi: int, k: IntKind)
    returns (r: Result<int, string>)
    requires args != []
    modifies state
    ensures r == Incremented(current, args, lo, hi, k).0
    ensures state.Model() == old(state.Model()).(logMessages := LoggedIf(old(state.logMessages), Incremented(current, args, lo, hi, k).1))
  {
    IncrementedFromCandidate(current, args, lo, hi, k);
    var candidate := ParseCandidate(current, args, k);
    if candidate.Err? {
      return Err(candidate.error);
    }
    var newVal := candidate.value;
    if newVal < lo || newVal > hi {
      return Err(RangeError(lo, hi));
    }
    state.LogSuccess(SetMessage(newVal));
    return Ok(newVal);
  }

  /** The parsing and the operator of `command_increment`, before the range check. */
  method ParseCandidate(current: int, args: seq<string>, k: IntKind) returns (r: Result<int, string>)
    requires args != []
    ensures r == Candidate(current, args, k)
  {
    var newVal := current;
    if |args| == 1 {
      var parsed := ParseInt(args[0], k);
      if parsed.None? {
        return Err(NOT_INTERPRETED);
      }
      newVal := parsed.value;
    } else if |args| == 2 {
      var parsed := ParseInt(args[1], k);
      if parsed.None? {
        return Err(INCREMENT_NOT_INTERPRETED);
      }
      if args[0] == "+" {
        newVal := SaturatingAdd(newVal, parsed.value, k);
      } else if args[0] == "-" {
        newVal := SaturatingSub(newVal, parsed.value, k);
      } else {
        return Err(BAD_OPERATOR);
      }
    }
    return Ok(newVal);
  }
}
