// The command line's text field (the `tui_input::Input` kept in
// `command_input`): its text and the cursor, counted in characters.
module TextInput {

  datatype InputField = InputField(value: string, cursor: nat)

  predicate Valid(f: InputField)
  {
    f.cursor <= |f.value|
  }

  /** `Input::default()` and the field after `reset()`. */
  const EMPTY_INPUT: InputField := InputField("", 0)

  /** `Input::with_value(s)`: the text `s` with the cursor after its last character. */
  function WithValue(s: string): (f: InputField)
    ensures Valid(f) && f.value == s
  {
    InputField(s, |s|)
  }

  /** `InputRequest::InsertChar(c)`: `c` goes in at the cursor, which moves past it. */
  function InsertChar(f: InputField, c: char): (g: InputField)
    requires Valid(f)
    ensures Valid(g) && |g.value| == |f.value| + 1
    ensures g.value[..f.cursor] == f.value[..f.cursor] && g.value[f.cursor] == c
    ensures g.value[g.cursor..] == f.value[f.cursor..]
  {
    InputField(f.value[..f.cursor] + [c] + f.value[f.cursor..], f.cursor + 1)
  }

  /** The field after inserting each character of `s` in turn. */
  function InsertAll(f: InputField, s: string): (g: InputField)
    requires Valid(f)
    ensures Valid(g)
    decreases |s|
  {
    if s == [] then f else InsertAll(InsertChar(f, s[0]), s[1..])
  }

  /** Typing a string character by character inserts the whole string at the cursor. */
  lemma {:induction false} InsertAllIsSplice(f: InputField, s: string)
    requires Valid(f)
    ensures InsertAll(f, s) == InputField(f.value[..f.cursor] + s + f.value[f.cursor..], f.cursor + |s|)
    decreases |s|
  {
    if s != [] {
      var pre, post := f.value[..f.cursor], f.value[f.cursor..];
      var g := InsertChar(f, s[0]);
      assert g.value == pre + [s[0]] + post;
      InsertAllIsSplice(g, s[1..]);
      assert g.value[..g.cursor] == pre + [s[0]];
      assert g.value[g.cursor..] == post;
      calc {
        pre + [s[0]] + s[1..] + post;
        pre + ([s[0]] + s[1..]) + post;
        { assert [s[0]] + s[1..] == s; }
        pre + s + post;
      }
    }
  }
}
