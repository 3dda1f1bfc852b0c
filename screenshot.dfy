// The screenshot job (src/app/parallel_jobs.rs): each pass computes up to
// `LINES_PER_PASS` more lines of the divergence matrix and reports the
// progression; the pass that reaches the last line saves the picture and
// reports where. The test for the final pass is the corrected one (see
// `FinalAsWritten`). The lines come from `get_diverg_lines`, which is not part
// of this model (the parameter `lines`); the image encoding and the file
// written are left out, and the clock reading is the parameter `timestamp`.
module Screenshots {
  import opened Base
  import opened Vec2s
  import opened AppStates
  import Fractals
  import Logging

  const LINES_PER_PASS: int := 64

  /** The line a pass stops before: `size.y.min(current_line + LINES_PER_PASS)`. */
  function PassEnd(height: int, currentLine: int): (next: int)
    ensures next <= height && next <= currentLine + LINES_PER_PASS
    ensures next == height || next == currentLine + LINES_PER_PASS
  {
    Min(height, currentLine + LINES_PER_PASS)
  }

  /**
   * The test `run` is written with: the pass whose end reaches the last
   * line index, `size.y - 1`, ends the job. The pass stops before its end
   * line, so for a height of one more than a multiple of `LINES_PER_PASS`
   * the last line is never computed, and building the picture from the
   * matrix then reads a row that is not there: the program panics with an
   * index out of bounds instead of saving.
   */
  predicate FinalAsWritten(height: int, currentLine: int)
  {
    PassEnd(height, currentLine) >= height - 1
  }

  /**
   * A picture 65 lines high ends its job after the first pass, with 64 of its
   * lines computed, so reading its 65th row is out of bounds.
   */
  lemma AsWrittenEndsTooEarly()
    ensures FinalAsWritten(65, 0) && PassEnd(65, 0) == 64 && !Final(65, 0)
  {
  }

  /** The pass that saves the picture: its end reaches the height, so every line has been computed. */
  predicate Final(height: int, currentLine: int)
  {
    PassEnd(height, currentLine) >= height
  }

  /** The final pass computes the lines up to the last one; every other pass ends before it. */
  lemma FinalPassEndsAtHeight(height: int, currentLine: int)
    requires 0 <= currentLine <= height
    ensures Final(height, currentLine) <==> PassEnd(height, currentLine) == height
    ensures FinalAsWritten(height, currentLine) && !Final(height, currentLine)
      ==> PassEnd(height, currentLine) == height - 1
  {
  }

  /**
   * A pass that is not the final one moves the current line forward by a
   * whole `LINES_PER_PASS`, and never past the height.
   */
  lemma PassAdvances(height: int, currentLine: int)
    requires 0 <= currentLine <= height && !Final(height, currentLine)
    ensures PassEnd(height, currentLine) == currentLine + LINES_PER_PASS
    ensures currentLine < PassEnd(height, currentLine) < height
  {
  }

  /**
   * How many calls of `run` it takes, from `currentLine`, until one returns
   * true: there always is such a call, at most one per `LINES_PER_PASS`
   * lines left plus the final one.
   */
  function PassesLeft(height: int, currentLine: int): (k: nat)
    requires 0 <= currentLine <= height
    ensures 1 <= k <= (height - currentLine) / LINES_PER_PASS + 1
    ensures k == 1 <==> Final(height, currentLine)
    decreases height - currentLine
  {
    if Final(height, currentLine) then 1
    else
      var next := PassEnd(height, currentLine);
      var k := 1 + PassesLeft(height, next);
      assert (height - next) / LINES_PER_PASS + 1 == (height - currentLine) / LINES_PER_PASS by {
        DivShift(height - next, LINES_PER_PASS);
      }
      k
  }

  lemma DivShift(a: int, d: int)
    requires a >= 0 && d > 0
    ensures (a + d) / d == a / d + 1
  {
    DivModUnique(a + d, d, a / d + 1, a % d);
  }

  /** The progression reported after a pass: `current_line * 100 / size.y`, a percentage. */
  function Progress(height: int, currentLine: int): (p: int)
    requires 0 <= currentLine <= height && height > 0
    ensures 0 <= p <= 100
    ensures currentLine == height <==> p == 100
  {
    ProgressBounds(height, currentLine);
    currentLine * 100 / height
  }

  lemma ProgressBounds(height: int, currentLine: int)
    requires 0 <= currentLine <= height && height > 0
    ensures 0 <= currentLine * 100 / height <= 100
    ensures currentLine == height <==> currentLine * 100 / height == 100
  {
    var p, r := currentLine * 100 / height, currentLine * 100 % height;
    assert currentLine * 100 == p * height + r;
    if currentLine < height && p >= 100 {
      MultiplyAtLeastMonotone(100, p, height);
      assert false;
    }
    if p > 100 {
      MultiplyAtLeastMonotone(101, p, height);
      assert false;
    }
    if currentLine == height {
      DivModUnique(height * 100, height, 100, 0);
    }
  }

  lemma MultiplyAtLeastMonotone(x: int, y: int, d: int)
    requires x <= y && d > 0
    ensures x * d <= y * d
  {
    assert y * d - x * d == (y - x) * d;
    MultiplyNonNegative(y - x, d);
  }

  function ProgressMessage(percent: int): string
  {
    "Screenshot progression: [<acc " + IntToString(percent) + "%>]"
  }

  /** The name the picture is saved under: the fractal's name, the time stamp and ".png". */
  function FileName(fractalName: string, timestamp: int): string
  {
    fractalName + IntToString(timestamp) + ".png"
  }

  function SavedMessage(size: Vec2<int>, fileName: string): string
  {
    "Screenshot (" + IntToString(size.x) + "x" + IntToString(size.y) + ") saved to <acc " + fileName + ">"
  }

  /** `Screenshot`: the picture's size, the next line to compute and the lines computed so far. */
  class Screenshot {
    const size: Vec2<int>
    var currentLine: int
    var divergMatrix: seq<seq<int>>

    /** The current line stays within the picture. */
    ghost predicate Valid()
      reads this
    {
      0 <= currentLine <= size.y
    }

    /** `Screenshot::new`: nothing computed yet. */
    constructor (size: Vec2<int>)
      requires size.y >= 0
      ensures this.size == size && currentLine == 0 && divergMatrix == []
      ensures Valid()
    {
      this.size := size;
      currentLine := 0;
      divergMatrix := [];
    }

    /**
     * `Screenshot::run`: the lines from the current one up to the end of the
     * pass are appended; the final pass logs where the picture was saved
     * and returns true, any other one moves the current line to the end of
     * the pass and logs the progression.
     */
    method Run(st: AppState, lines: (int, int) -> seq<seq<int>>, timestamp: int) returns (done: bool)
      requires Valid() && st.renderSettings.fracIndex < |Fractals.FRACTALS|
      modifies this, st
      ensures Valid()
      ensures var next := PassEnd(size.y, old(currentLine));
        && divergMatrix == old(divergMatrix) + lines(old(currentLine), next - 1)
        && done == Final(size.y, old(currentLine))
        && (done ==> (currentLine == old(currentLine)
              && st.Model() == old(st.Model()).(logMessages := Logging.Logged(old(st.logMessages),
                   Logging.Success(SavedMessage(size, FileName(Fractals.FRACTALS[st.renderSettings.fracIndex].name, timestamp)))))))
        && (!done ==> (currentLine == next && size.y > 0
              && st.Model() == old(st.Model()).(logMessages := Logging.Logged(old(st.logMessages),
                   Logging.Info(ProgressMessage(Progress(size.y, next)))))))
    {
      var next := ComputePass(lines);
      if next >= size.y {
        LogSaved(st, timestamp);
        return true;
      }
      currentLine := next;
      LogProgress(st, currentLine);
      return false;
    }

    /** The lines of one pass appended to the matrix; returns the line the pass stops before. */
    method ComputePass(lines: (int, int) -> seq<seq<int>>) returns (next: int)
      modifies this
      ensures next == PassEnd(size.y, currentLine) && currentLine == old(currentLine)
      ensures divergMatrix == old(divergMatrix) + lines(currentLine, next - 1)
    {
      next := Min(size.y, currentLine + LINES_PER_PASS);
      divergMatrix := divergMatrix + lines(currentLine, next - 1);
    }

    /** The final pass's message: where the picture was saved. */
    method LogSaved(st: AppState, timestamp: int)
      requires st.renderSettings.fracIndex < |Fractals.FRACTALS|
      modifies st
      ensures st.Model() == old(st.Model()).(logMessages := Logging.Logged(old(st.logMessages),
        Logging.Success(SavedMessage(size, FileName(Fractals.FRACTALS[st.renderSettings.fracIndex].name, timestamp)))))
    {
      var fileName := FileName(Fractals.FRACTALS[st.renderSettings.fracIndex].name, timestamp);
      st.LogSuccess(SavedMessage(size, fileName));
    }

    /** Any other pass's message: the progression once `line` lines are computed. */
    method LogProgress(st: AppState, line: int)
      requires 0 <= line <= size.y && size.y > 0
      modifies st
      ensures st.Model() == old(st.Model()).(logMessages := Logging.Logged(old(st.logMessages),
        Logging.Info(ProgressMessage(Progress(size.y, line)))))
    {
      st.LogInfo(ProgressMessage(line * 100 / size.y));
    }
  }
}
