// Markup: escaping text for the tag syntax of the log panel, and the style
// tables of the two markup generators (terminal output and widgets).
module Markup {
  import opened Base
  import opened Palettes

  // ------------------------------------------------------------- escaping

  predicate IsSpecial(c: char) { c == '\\' || c == '<' || c == '>' }

  /** `s.replace(c, rep)` for a one-character pattern: every occurrence of `c` becomes `rep`. */
  function ReplaceChar(s: string, c: char, rep: string): (t: string)
    ensures c !in s ==> t == s
  {
    if |s| == 0 then "" else (if s[0] == c then rep else [s[0]]) + ReplaceChar(s[1..], c, rep)
  }

  /** `esc(t)`: backslashes are doubled first, then `>` and `<` get a backslash. */
  function Esc(s: string): string
  {
    ReplaceChar(ReplaceChar(ReplaceChar(s, '\\', "\\\\"), '>', "\\>"), '<', "\\<")
  }

  /** The escape of one character. */
  function EscapeChar(c: char): (t: string)
    ensures |t| == if IsSpecial(c) then 2 else 1
  {
    if IsSpecial(c) then ['\\', c] else [c]
  }

  /** The character-by-character escape. */
  function EscapeEach(s: string): string
  {
    if |s| == 0 then "" else EscapeChar(s[0]) + EscapeEach(s[1..])
  }

  function CountSpecial(s: string): nat
  {
    if |s| == 0 then 0 else (if IsSpecial(s[0]) then 1 else 0) + CountSpecial(s[1..])
  }

  lemma {:induction false} ReplaceCharAppend(a: string, b: string, c: char, rep: string)
    ensures ReplaceChar(a + b, c, rep) == ReplaceChar(a, c, rep) + ReplaceChar(b, c, rep)
  {
    if |a| == 0 {
      assert a + b == b;
    } else {
      assert (a + b)[1..] == a[1..] + b;
      ReplaceCharAppend(a[1..], b, c, rep);
    }
  }

  /** The three passes of `esc` together escape each `\`, `<` and `>` and leave every other character. */
  lemma {:induction false} EscIsPerCharacter(s: string)
    ensures Esc(s) == EscapeEach(s)
  {
    if |s| > 0 {
      var c, rest := s[0], s[1..];
      assert s == [c] + rest;
      var p1 := ReplaceChar([c], '\\', "\\\\");
      ReplaceCharAppend([c], rest, '\\', "\\\\");
      var r1 := ReplaceChar(rest, '\\', "\\\\");
      ReplaceCharAppend(p1, r1, '>', "\\>");
      var p2 := ReplaceChar(p1, '>', "\\>");
      var r2 := ReplaceChar(r1, '>', "\\>");
      ReplaceCharAppend(p2, r2, '<', "\\<");
      assert ReplaceChar(p2, '<', "\\<") == EscapeChar(c) by {
        if c == '\\' {
          assert p1 == "\\\\";
          assert p2 == "\\\\" by { assert '>' !in p1; }
          assert '<' !in p2;
        } else if c == '>' {
          assert p1 == ">";
          assert p2 == "\\>";
          assert ReplaceChar("\\>", '<', "\\<") == "\\>";
        } else if c == '<' {
          assert p1 == "<";
          assert p2 == "<";
        } else {
          assert p1 == [c];
          assert p2 == [c];
        }
      }
      EscIsPerCharacter(rest);
    }
  }

  /** `esc` adds exactly one character per `\`, `<` or `>`. */
  lemma {:induction false} EscLength(s: string)
    ensures |Esc(s)| == |s| + CountSpecial(s)
  {
    EscIsPerCharacter(s);
    EscapeEachLength(s);
  }

  lemma {:induction false} EscapeEachLength(s: string)
    ensures |EscapeEach(s)| == |s| + CountSpecial(s)
  {
    if |s| > 0 {
      EscapeEachLength(s[1..]);
    }
  }

  /** Text without `\`, `<` or `>` is returned unchanged. */
  lemma {:induction false} EscIdentity(s: string)
    requires forall i :: 0 <= i < |s| ==> !IsSpecial(s[i])
    ensures Esc(s) == s
  {
    EscIsPerCharacter(s);
    EscapeEachIdentity(s);
  }

  lemma {:induction false} EscapeEachIdentity(s: string)
    requires forall i :: 0 <= i < |s| ==> !IsSpecial(s[i])
    ensures EscapeEach(s) == s
  {
    if |s| > 0 {
      EscapeEachIdentity(s[1..]);
      assert s == [s[0]] + s[1..];
    }
  }

  /** Reading escaped text back: a backslash makes the next character literal. */
  function Unescape(t: string): string
  {
    if |t| == 0 then ""
    else if t[0] == '\\' && |t| >= 2 then [t[1]] + Unescape(t[2..])
    else [t[0]] + Unescape(t[1..])
  }

  /** Removing the escaping backslashes from `esc(s)` gives back `s`. */
  lemma {:induction false} UnescapeEsc(s: string)
    ensures Unescape(Esc(s)) == s
  {
    EscIsPerCharacter(s);
    UnescapeEscapeEach(s);
  }

  lemma {:induction false} UnescapeEscapeEach(s: string)
    ensures Unescape(EscapeEach(s)) == s
  {
    if |s| > 0 {
      UnescapeEscapeEach(s[1..]);
      var t := EscapeEach(s);
      if IsSpecial(s[0]) {
        assert t[2..] == EscapeEach(s[1..]);
      } else {
        assert t[1..] == EscapeEach(s[1..]);
      }
      assert s == [s[0]] + s[1..];
    }
  }

  /** Text made of escape pairs `\x` for special `x` and single non-special characters. */
  predicate WellEscaped(t: string)
  {
    if |t| == 0 then true
    else if t[0] == '\\' then |t| >= 2 && IsSpecial(t[1]) && WellEscaped(t[2..])
    else !IsSpecial(t[0]) && WellEscaped(t[1..])
  }

  lemma {:induction false} EscWellEscaped(s: string)
    ensures WellEscaped(Esc(s))
  {
    EscIsPerCharacter(s);
    EscapeEachWellEscaped(s);
  }

  lemma {:induction false} EscapeEachWellEscaped(s: string)
    ensures WellEscaped(EscapeEach(s))
  {
    if |s| > 0 {
      EscapeEachWellEscaped(s[1..]);
      var t := EscapeEach(s);
      if IsSpecial(s[0]) {
        assert t[2..] == EscapeEach(s[1..]);
      } else {
        assert t[1..] == EscapeEach(s[1..]);
      }
    }
  }

  lemma {:induction false} WellEscapedBracketsPreceded(t: string, i: nat)
    requires WellEscaped(t) && i < |t| && (t[i] == '<' || t[i] == '>')
    ensures i > 0 && t[i - 1] == '\\'
  {
    if t[0] == '\\' {
      if i >= 2 {
        WellEscapedBracketsPreceded(t[2..], i - 2);
      }
    } else {
      WellEscapedBracketsPreceded(t[1..], i - 1);
    }
  }

  /** Every `<` or `>` in `esc(s)` comes right after a backslash. */
  lemma EscBracketsPreceded(s: string, i: nat)
    requires i < |Esc(s)| && (Esc(s)[i] == '<' || Esc(s)[i] == '>')
    ensures i > 0 && Esc(s)[i - 1] == '\\'
  {
    EscWellEscaped(s);
    WellEscapedBracketsPreceded(Esc(s), i);
  }

  // ---------------------------------------------------------- tag tables

  const ACCENT_COLOR: Color := Rgb(162, 119, 255)
  const RED: Color := Rgb(255, 109, 109)
  const YELLOW: Color := Rgb(255, 183, 0)
  const GREEN: Color := Rgb(88, 224, 178)
  const DIM: Color := Rgb(42, 42, 42)
  const COMMAND_BG: Color := Rgb(34, 40, 39)
  const COMMAND_FG: Color := Rgb(217, 214, 207)
  const BLACK: Color := Rgb(0, 0, 0)

  /** A text style: an optional foreground and an optional background colour. */
  datatype Style = Style(fg: Option<Color>, bg: Option<Color>)

  const TAGS: set<string> := {"acc", "bgacc", "bgred", "red", "green", "bgyellow", "yellow", "bggreen", "command", "dim"}

  /** The tag table of the generator for terminal (ANSI) output. */
  function AnsiStyle(tag: string): Option<Style>
  {
    match tag
    case "acc" => Some(Style(Some(ACCENT_COLOR), None))
    case "bgacc" => Some(Style(None, Some(ACCENT_COLOR)))
    case "bgred" => Some(Style(None, Some(RED)))
    case "red" => Some(Style(Some(RED), None))
    case "green" => Some(Style(Some(GREEN), None))
    case "bgyellow" => Some(Style(None, Some(YELLOW)))
    case "yellow" => Some(Style(Some(YELLOW), None))
    case "bggreen" => Some(Style(Some(BLACK), Some(GREEN)))
    case "command" => Some(Style(Some(COMMAND_FG), Some(COMMAND_BG)))
    case "dim" => Some(Style(Some(DIM), None))
    case _ => None
  }

  /** The tag table of the generator for widget output. */
  function RatatuiStyle(tag: string): Option<Style>
  {
    match tag
    case "acc" => Some(Style(Some(ACCENT_COLOR), None))
    case "bgacc" => Some(Style(None, Some(ACCENT_COLOR)))
    case "bgyellow" => Some(Style(None, Some(YELLOW)))
    case "yellow" => Some(Style(Some(YELLOW), None))
    case "bgred" => Some(Style(None, Some(RED)))
    case "red" => Some(Style(Some(RED), None))
    case "green" => Some(Style(Some(GREEN), None))
    case "bggreen" => Some(Style(Some(BLACK), Some(GREEN)))
    case "command" => Some(Style(Some(COMMAND_FG), Some(COMMAND_BG)))
    case "dim" => Some(Style(Some(DIM), None))
    case _ => None
  }

  /** Both generators accept exactly the ten tags, and give each the same style. */
  lemma GeneratorsAgree(tag: string)
    ensures AnsiStyle(tag).Some? <==> tag in TAGS
    ensures RatatuiStyle(tag).Some? <==> tag in TAGS
    ensures AnsiStyle(tag) == RatatuiStyle(tag)
  {
  }
}
