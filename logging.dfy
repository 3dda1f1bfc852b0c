// The entries of the log panel: how each kind of message is formatted, and
// the bounded history that `log_raw` keeps.
module Logging {
  import opened Base

  const LOG_MESSAGE_LIMIT: nat := 500

  /** `log_raw` on the current `AppState`: append, then drop the oldest entry once over the limit. */
  function Logged(log: seq<string>, m: string): (r: seq<string>)
    ensures |r| > 0 && r[|r| - 1] == m
    ensures |log| < LOG_MESSAGE_LIMIT ==> r == log + [m]
    ensures |log| <= LOG_MESSAGE_LIMIT ==> |r| <= LOG_MESSAGE_LIMIT
    ensures |log| == LOG_MESSAGE_LIMIT ==> r == log[1..] + [m]
  {
    var pushed := log + [m];
    if |pushed| > LOG_MESSAGE_LIMIT then pushed[1..] else pushed
  }

  /** The log after `log_raw` has been called with each of `ms` in turn. */
  function LoggedAll(log: seq<string>, ms: seq<string>): seq<string>
    decreases |ms|
  {
    if ms == [] then log else LoggedAll(Logged(log, ms[0]), ms[1..])
  }

  /**
   * Logging several messages into a history within the limit keeps the
   * newest entries of the old history followed by the messages: the
   * result is the last `LOG_MESSAGE_LIMIT` entries (or all of them) of the
   * old history and the messages together.
   */
  lemma {:induction false} LoggedAllIsSuffix(log: seq<string>, ms: seq<string>)
    requires |log| <= LOG_MESSAGE_LIMIT
    ensures var r := LoggedAll(log, ms);
      |r| == Min(|log| + |ms|, LOG_MESSAGE_LIMIT) && r == (log + ms)[|log| + |ms| - |r|..]
    decreases |ms|
  {
    if ms == [] {
      assert log + ms == log;
    } else {
      var l1 := Logged(log, ms[0]);
      var d := if |log| < LOG_MESSAGE_LIMIT then 0 else 1;
      assert l1 == (log + [ms[0]])[d..];
      LoggedAllIsSuffix(l1, ms[1..]);
      var r := LoggedAll(l1, ms[1..]);
      assert r == LoggedAll(log, ms);
      assert l1 + ms[1..] == (log + ms)[d..] by {
        assert ms == [ms[0]] + ms[1..];
        assert log + ms == (log + [ms[0]]) + ms[1..];
      }
      assert (log + ms)[d..][|l1| + |ms| - 1 - |r|..] == (log + ms)[|log| + |ms| - |r|..];
    }
  }

  /**
   * A history that is within the limit stays within it, grows to at most the
   * limit, and always ends with the latest messages in the order they were logged.
   */
  lemma LoggedAllKeepsNewest(log: seq<string>, ms: seq<string>)
    requires |log| <= LOG_MESSAGE_LIMIT && |ms| <= LOG_MESSAGE_LIMIT
    ensures var r := LoggedAll(log, ms);
      |r| == Min(|log| + |ms|, LOG_MESSAGE_LIMIT) && r[|r| - |ms|..] == ms
      && r[..|r| - |ms|] == log[|log| + |ms| - |r|..]
  {
    LoggedAllIsSuffix(log, ms);
    var r := LoggedAll(log, ms);
    var whole := log + ms;
    var start := |log| + |ms| - |r|;
    assert r[|r| - |ms|..] == whole[|log|..];
    assert whole[|log|..] == ms;
    assert r[..|r| - |ms|] == whole[start..|log|];
    assert whole[start..|log|] == log[start..];
  }

  /** When the history is full, `log_raw` removes exactly the oldest entry and keeps the order of the rest. */
  lemma LoggedOverflowDropsOldest(log: seq<string>, m: string)
    requires |log| == LOG_MESSAGE_LIMIT
    ensures |Logged(log, m)| == LOG_MESSAGE_LIMIT
    ensures forall i :: 0 <= i < LOG_MESSAGE_LIMIT - 1 ==> Logged(log, m)[i] == log[i + 1]
  {
  }

  /** The older `App::log_raw`: append with no limit. */
  function LoggedUnbounded(log: seq<string>, m: string): (r: seq<string>)
    ensures |r| == |log| + 1 && r[..|log|] == log && r[|log|] == m
  {
    log + [m]
  }

  /** The header line of an entry: a coloured tag around the title. */
  function Header(tag: string, title: string): string
  {
    "<" + tag + "  " + title + " >\n"
  }

  function SuccessTitled(title: string, m: string): string { Header("bggreen", title) + m }
  function InfoTitled(title: string, m: string): string { Header("bgacc", title) + m }
  /** `log_error_title` of the current `AppState`: no colour around the message. */
  function ErrorTitled(title: string, m: string): string { Header("bgred", title) + m }
  /** `log_error_title` of the older `App` and `AppState`: the message is wrapped in `<red ...>`. */
  function LegacyErrorTitled(title: string, m: string): string { Header("bgred", title) + "<red " + m + ">" }

  function Success(m: string): string { SuccessTitled("Success", m) }
  function Info(m: string): string { InfoTitled("Info", m) }
  function Error(m: string): string { ErrorTitled("Error", m) }
  function LegacyError(m: string): string { LegacyErrorTitled("Error", m) }

  /** The listing the commands log: each name as `<acc name>`, joined by ", ". */
  function AccList(names: seq<string>): string
  {
    Join(seq(|names|, i requires 0 <= i < |names| => "<acc " + names[i] + ">"), ", ")
  }

  predicate NoNewline(s: string) { forall i :: 0 <= i < |s| ==> s[i] != '\n' }

  /** The first line break of an entry is the one that closes its header. */
  lemma FirstLineBreak(tag: string, t: string, m: string)
    requires NoNewline(tag) && NoNewline(t)
    ensures var h := Header(tag, t); var s := h + m;
      s[|h| - 1] == '\n' && forall i :: 0 <= i < |h| - 1 ==> s[i] != '\n'
  {
  }

  /**
   * An entry determines its title and its message when the title holds no
   * line break: the header ends at the first line break.
   */
  lemma HeaderDeterminesParts(tag: string, t1: string, m1: string, t2: string, m2: string)
    requires NoNewline(tag) && NoNewline(t1) && NoNewline(t2)
    requires Header(tag, t1) + m1 == Header(tag, t2) + m2
    ensures t1 == t2 && m1 == m2
  {
    var h1, h2 := Header(tag, t1), Header(tag, t2);
    var s := h1 + m1;
    if |h1| != |h2| {
      FirstLineBreak(tag, t1, m1);
      FirstLineBreak(tag, t2, m2);
      assert false;
    }
    assert h1 == s[..|h1|] == h2;
    assert t1 == h1[|tag| + 3..|h1| - 3] == t2;
    assert m1 == s[|h1|..] == m2;
  }

  /** Success, information and error entries are told apart by their header tag. */
  lemma KindsAreDistinct(t: string, m: string)
    ensures SuccessTitled(t, m)[..3] == "<bg" && SuccessTitled(t, m)[3] == 'g'
    ensures InfoTitled(t, m)[3] == 'a' && ErrorTitled(t, m)[3] == 'r' && LegacyErrorTitled(t, m)[3] == 'r'
    ensures SuccessTitled(t, m) != InfoTitled(t, m) && InfoTitled(t, m) != ErrorTitled(t, m)
  {
    assert SuccessTitled(t, m)[3] != InfoTitled(t, m)[3];
    assert ErrorTitled(t, m)[3] != InfoTitled(t, m)[3];
  }

  const WELCOME_PREFIX: string := "<bgacc Welcome to Rsfrac v"
  const AUTHOR_LEAD: string := ">\nAuthor: <acc "
  const AUTHOR_FIRST_NAME: string := "L\U{00E9}opold"
  const AUTHOR_TAIL: string := " Koprivnik>\nGithub Repo: <acc SkwalExe/rsfrac>"
  const WELCOME_SUFFIX: string := AUTHOR_LEAD + AUTHOR_FIRST_NAME + AUTHOR_TAIL
  const SLOW_RENDERING_HINT: string :=
    "If you are experiencing slow rendering, try to reduce the size of your terminal."
  const NAVIGATION_HINT: string :=
    "You can switch between the canvas, the log panel and the command input using <acc tab>. "
    + "Use the <acc help> command for more information."

  /** The three messages that open the log, the first naming the version right after its greeting. */
  function InitialMessages(version: string): (ms: seq<string>)
    ensures |ms| == 3
    ensures |ms[0]| > |WELCOME_PREFIX| + |version|
    ensures ms[0][|WELCOME_PREFIX|..|WELCOME_PREFIX| + |version|] == version
  {
    var first := WELCOME_PREFIX + version + WELCOME_SUFFIX;
    assert first[|WELCOME_PREFIX|..|WELCOME_PREFIX| + |version|] == version;
    [first, SLOW_RENDERING_HINT, NAVIGATION_HINT]
  }
}
