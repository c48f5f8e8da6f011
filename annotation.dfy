/**
 * The annotation window (current mark, end mark, reference price) and the plot
 * lines that show it on the chart's axes. The renderer keeps the plot lines of
 * an axis as an ordered list: adding a line with an id already present draws a
 * second line beside the first, and removing an id takes away every line with
 * that id.
 */
module Annotation {
  import opened Optional
  import opened Series

  /** Length of the annotation window: the end mark lies one minute after the current mark. */
  const WINDOW_MS: int := 60000

  /** The ids the chart's plot lines are drawn under: "current-x", "end-x" and "current-y". */
  datatype LineId = CurrentX | EndX | CurrentY

  /** The window state `currentPlotLine`, `endPlotLine`, `currentYPlotLine`, which the source always sets together. */
  datatype Window = Window(current: int, end: int, reference: Price)

  /** One plot line of an axis, identified by `id` and drawn at `value`. */
  datatype PlotLine<T> = PlotLine(id: LineId, value: T)

  /** The values drawn under `id`, in the order they were added. */
  function Values<T>(lines: seq<PlotLine<T>>, id: LineId): seq<T>
  {
    if lines == [] then []
    else
      var last := lines[|lines| - 1];
      Values(lines[..|lines| - 1], id) + (if last.id == id then [last.value] else [])
  }

  /** `addPlotLine`: one more line under `id`, drawn after the existing ones. */
  function Add<T>(lines: seq<PlotLine<T>>, id: LineId, v: T): seq<PlotLine<T>>
  {
    lines + [PlotLine(id, v)]
  }

  /** `removePlotLine`: every line under `id` goes; the others stay, in order. */
  function Remove<T>(lines: seq<PlotLine<T>>, id: LineId): seq<PlotLine<T>>
  {
    if lines == [] then []
    else
      var rest := Remove(lines[..|lines| - 1], id);
      var last := lines[|lines| - 1];
      if last.id == id then rest else Add(rest, last.id, last.value)
  }

  /** Adding a line appends its value under its id and leaves every other id's values as they were. */
  lemma AddValues<T>(lines: seq<PlotLine<T>>, id: LineId, v: T)
    ensures Values(Add(lines, id, v), id) == Values(lines, id) + [v]
    ensures forall other :: other != id ==> Values(Add(lines, id, v), other) == Values(lines, other)
  {
    assert Add(lines, id, v)[..|lines|] == lines;
  }

  /** Removing an id leaves no value under it and every other id's values as they were. */
  lemma {:induction false} RemoveValues<T>(lines: seq<PlotLine<T>>, id: LineId)
    ensures Values(Remove(lines, id), id) == []
    ensures forall other :: other != id ==> Values(Remove(lines, id), other) == Values(lines, other)
  {
    if lines != [] {
      var rest := lines[..|lines| - 1];
      var last := lines[|lines| - 1];
      RemoveValues(rest, id);
      if last.id != id {
        AddValues(Remove(rest, id), last.id, last.value);
      }
    }
  }

  /** Whenever the window is set, the end mark is one window length after the current mark. */
  predicate WellFormed(w: Option<Window>)
  {
    w.Some? ==> w.value.end - w.value.current == WINDOW_MS
  }

  /** The price new markers are compared with: `currentYPlotLine ?? 0`. */
  function Reference(w: Option<Window>): Price
  {
    if w.Some? then w.value.reference else 0.0
  }
}
