// The footer of the window (src/components/footer.rs): `render_text` lays
// the action hints of the focused component out after " Actions:", breaking
// the line before a hint that would make it longer than the footer is wide.
// Lengths are `str::len`, bytes, which the model counts as characters.
module Footer {
  import opened Base

  const ACTIONS: string := " Actions:"

  /** The text built so far, the length of its last line and how many lines it has. */
  datatype Layout = Layout(content: string, lineLen: nat, lineCount: nat)

  /** One pass of the loop: a line break when the hint would overflow `lineWid`, then a space and the hint. */
  function Place(l: Layout, seg: string, lineWid: nat): Layout
  {
    if l.lineLen + |seg| > lineWid then Layout(l.content + "\n" + " " + seg, |seg| + 1, l.lineCount + 1)
    else Layout(l.content + " " + seg, l.lineLen + |seg| + 1, l.lineCount)
  }

  /** The layout after the hints `segments`, placed one after another. */
  function Laid(segments: seq<string>, lineWid: nat): Layout
    decreases |segments|
  {
    if segments == [] then Layout(ACTIONS, |ACTIONS|, 1)
    else Place(Laid(segments[..|segments| - 1], lineWid), segments[|segments| - 1], lineWid)
  }

  /** The text with its line breaks removed. */
  function Unbroken(s: string): string
    decreases |s|
  {
    if s == [] then []
    else Unbroken(s[..|s| - 1]) + (if s[|s| - 1] == '\n' then [] else [s[|s| - 1]])
  }

  /** The number of line breaks in the text. */
  function Breaks(s: string): nat
    decreases |s|
  {
    if s == [] then 0 else Breaks(s[..|s| - 1]) + (if s[|s| - 1] == '\n' then 1 else 0)
  }

  /** Each hint preceded by one space, run together. */
  function Spaced(segments: seq<string>): string
    decreases |segments|
  {
    if segments == [] then [] else Spaced(segments[..|segments| - 1]) + " " + segments[|segments| - 1]
  }

  predicate NoBreak(s: string)
  {
    forall i :: 0 <= i < |s| ==> s[i] != '\n'
  }

  lemma {:induction false} UnbrokenAppend(a: string, b: string)
    ensures Unbroken(a + b) == Unbroken(a) + Unbroken(b)
    ensures Breaks(a + b) == Breaks(a) + Breaks(b)
    decreases |b|
  {
    if b == [] {
      assert a + b == a;
    } else {
      var b' := b[..|b| - 1];
      assert (a + b)[..|a + b| - 1] == a + b';
      UnbrokenAppend(a, b');
    }
  }

  lemma {:induction false} NoBreakUnbroken(s: string)
    requires NoBreak(s)
    ensures Unbroken(s) == s && Breaks(s) == 0
    decreases |s|
  {
    if s != [] {
      NoBreakUnbroken(s[..|s| - 1]);
    }
  }

  /**
   * The layout of hints without line breaks of their own has one line more
   * than it has line breaks: at least one line, and at most one more per hint.
   */
  lemma {:induction false} LaidLineCount(segments: seq<string>, lineWid: nat)
    requires forall k :: 0 <= k < |segments| ==> NoBreak(segments[k])
    ensures var l := Laid(segments, lineWid);
      l.lineCount == 1 + Breaks(l.content) && 1 <= l.lineCount <= 1 + |segments|
    decreases |segments|
  {
    if segments == [] {
      NoBreakUnbroken(ACTIONS);
    } else {
      var init := segments[..|segments| - 1];
      var seg := segments[|segments| - 1];
      LaidLineCount(init, lineWid);
      var l := Laid(init, lineWid);
      NoBreakUnbroken(" " + seg);
      if l.lineLen + |seg| > lineWid {
        assert "\n"[..0] == [];
        UnbrokenAppend(l.content, "\n");
        UnbrokenAppend(l.content + "\n", " " + seg);
        assert l.content + "\n" + " " + seg == (l.content + "\n") + (" " + seg);
      } else {
        UnbrokenAppend(l.content, " " + seg);
        assert l.content + " " + seg == l.content + (" " + seg);
      }
    }
  }

  /** Placing a hint without breaks adds a space and the hint to the text without breaks. */
  lemma PlaceUnbroken(l: Layout, seg: string, lineWid: nat)
    requires NoBreak(seg)
    ensures Unbroken(Place(l, seg, lineWid).content) == Unbroken(l.content) + (" " + seg)
  {
    var tail := " " + seg;
    NoBreakUnbroken(tail);
    if l.lineLen + |seg| > lineWid {
      var broken := l.content + "\n";
      assert Place(l, seg, lineWid).content == broken + tail;
      UnbrokenAppend(broken, tail);
      assert broken[..|broken| - 1] == l.content && broken[|broken| - 1] == '\n';
      assert Unbroken(broken) == Unbroken(l.content);
    } else {
      assert Place(l, seg, lineWid).content == l.content + tail;
      UnbrokenAppend(l.content, tail);
    }
  }

  /**
   * With the line breaks taken out, the layout of hints without breaks of
   * their own is " Actions:" followed by every hint, in order, each after one space.
   */
  lemma {:induction false} LaidUnbroken(segments: seq<string>, lineWid: nat)
    requires forall k :: 0 <= k < |segments| ==> NoBreak(segments[k])
    ensures Unbroken(Laid(segments, lineWid).content) == ACTIONS + Spaced(segments)
    decreases |segments|
  {
    if segments == [] {
      NoBreakUnbroken(ACTIONS);
    } else {
      var init := segments[..|segments| - 1];
      var seg := segments[|segments| - 1];
      LaidUnbroken(init, lineWid);
      PlaceUnbroken(Laid(init, lineWid), seg, lineWid);
      assert Spaced(segments) == Spaced(init) + (" " + seg);
    }
  }

  /** Every layout starts with " Actions:": the loop only ever appends. */
  lemma {:induction false} LaidStartsWithActions(segments: seq<string>, lineWid: nat)
    ensures StartsWith(Laid(segments, lineWid).content, ACTIONS)
    decreases |segments|
  {
    if segments != [] {
      var init := segments[..|segments| - 1];
      LaidStartsWithActions(init, lineWid);
      var c := Laid(init, lineWid).content;
      var c' := Laid(segments, lineWid).content;
      assert c'[..|c|] == c;
      assert c'[..|ACTIONS|] == c[..|ACTIONS|];
    }
  }

  /** A line break goes before a hint exactly when the current line plus the hint is wider than the footer. */
  lemma BreakBeforeIffOverflow(segments: seq<string>, seg: string, lineWid: nat)
    ensures var before := Laid(segments, lineWid);
      var after := Laid(segments + [seg], lineWid);
      && (after.lineCount == before.lineCount + 1 <==> before.lineLen + |seg| > lineWid)
      && after.content == before.content + (if before.lineLen + |seg| > lineWid then "\n" else "") + " " + seg
  {
    assert (segments + [seg])[..|segments + [seg]| - 1] == segments;
  }

  /** Without hints the footer is the header alone, on one line. */
  lemma NoSegments(lineWid: nat)
    ensures Laid([], lineWid) == Layout(" Actions:", 9, 1)
  {
  }

  /** `Footer::render_text`. */
  method RenderText(lineWid: nat, segments: seq<string>) returns (content: string, lineCount: nat)
    ensures content == Laid(segments, lineWid).content && lineCount == Laid(segments, lineWid).lineCount
    ensures StartsWith(content, ACTIONS)
    ensures (forall k :: 0 <= k < |segments| ==> NoBreak(segments[k])) ==>
      lineCount == 1 + Breaks(content) && lineCount <= 1 + |segments|
      && Unbroken(content) == ACTIONS + Spaced(segments)
  {
    content := ACTIONS;
    var lineLen: nat := |content|;
    var maxLineLen := lineWid;
    lineCount := 1;
    var i := 0;
    while i < |segments|
      invariant 0 <= i <= |segments|
      invariant Laid(segments[..i], lineWid) == Layout(content, lineLen, lineCount)
      invariant StartsWith(content, ACTIONS)
    {
      var seg := segments[i];
      assert segments[..i + 1][..i] == segments[..i];
      if lineLen + |seg| > maxLineLen {
        content := content + "\n";
        lineLen := 0;
        lineCount := lineCount + 1;
      }
      content := content + " ";
      content := content + seg;
      lineLen := lineLen + |seg| + 1;
      i := i + 1;
    }
    assert segments[..i] == segments;
    if forall k :: 0 <= k < |segments| ==> NoBreak(segments[k]) {
      LaidLineCount(segments, lineWid);
      LaidUnbroken(segments, lineWid);
    }
  }
}
