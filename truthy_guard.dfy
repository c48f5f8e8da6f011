/**
 * The "window unset" test as the component writes it: `!currentPlotLine` is
 * true of an absent window and also of a window whose current mark is the
 * timestamp 0. A tick at clock reading 0 followed by any other tick therefore
 * opens a second window without removing the first window's lines, so the
 * lines stack. Session.Step tests for absence only.
 */
module TruthyGuard {
  import opened Optional
  import opened Series
  import opened Annotation
  import opened Session

  /** JavaScript truthiness of `currentPlotLine`: null and 0 both read as unset. */
  predicate LooksUnset(w: Option<Window>)
  {
    w.None? || w.value.current == 0
  }

  /** One tick with the test exactly as written. */
  function StepAsWritten(s: State, p: Poll): State
  {
    Advance(s, p, LooksUnset(s.window))
  }

  /** While the window's current mark is 0, every tick draws a further line under each id beside the old ones. */
  lemma AsWrittenStacks(s: State, p: Poll)
    requires s.window.Some? && s.window.value.current == 0
    requires !p.response.Failed?
    ensures var t := StepAsWritten(s, p);
      && Values(t.xLines, CurrentX) == Values(s.xLines, CurrentX) + [p.x]
      && Values(t.xLines, EndX) == Values(s.xLines, EndX) + [p.x + WINDOW_MS]
      && Values(t.yLines, CurrentY) == Values(s.yLines, CurrentY) + [Resolve(p.response, s.currentPrice)]
  {
    var y := Resolve(p.response, s.currentPrice);
    AddLinesValues(s.(points := Append(s.points, p.x, y, Reference(s.window))), p.x, y);
  }

  /** A first tick at clock reading 0 opens the window at 0 with one line per id. */
  lemma FirstTickAtZero(y: Price)
    ensures var first := StepAsWritten(Initial(), Poll(0, Ok(y)));
      && first.window == Some(Window(0, WINDOW_MS, y))
      && first.currentPrice == Some(y)
      && Values(first.xLines, CurrentX) == [0]
      && Values(first.xLines, EndX) == [WINDOW_MS]
      && Values(first.yLines, CurrentY) == [y]
  {
    StepWindow(Initial(), Poll(0, Ok(y)));
    StepKeepsValid(Initial(), Poll(0, Ok(y)));
  }

  /** Ticks at clock readings 0 and 1: the second tick draws its lines beside the first tick's. */
  lemma ZeroTimestampStacksLines()
    ensures var s := StepAsWritten(StepAsWritten(Initial(), Poll(0, Ok(1.0))), Poll(1, Ok(2.0)));
      && Values(s.xLines, CurrentX) == [0, 1]
      && Values(s.xLines, EndX) == [WINDOW_MS, 1 + WINDOW_MS]
      && Values(s.yLines, CurrentY) == [1.0, 2.0]
      && !Shows(s)
  {
    FirstTickAtZero(1.0);
    var first := StepAsWritten(Initial(), Poll(0, Ok(1.0)));
    var second := StepAsWritten(first, Poll(1, Ok(2.0)));
    AsWrittenStacks(first, Poll(1, Ok(2.0)));
    assert |Values(second.xLines, CurrentX)| == 2;
    assert second.window.Some?;
    assert !Shows(second);
  }

  /** The same two ticks with the corrected test: the window holds and one set of lines stays. */
  lemma CorrectedKeepsOneLine()
    ensures var s := Step(Step(Initial(), Poll(0, Ok(1.0))), Poll(1, Ok(2.0)));
      && s.window == Some(Window(0, WINDOW_MS, 1.0))
      && Values(s.xLines, CurrentX) == [0]
      && Valid(s)
  {
    var first := Step(Initial(), Poll(0, Ok(1.0)));
    StepKeepsValid(Initial(), Poll(0, Ok(1.0)));
    StepKeepsValid(first, Poll(1, Ok(2.0)));
  }
}
