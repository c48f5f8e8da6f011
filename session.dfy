/**
 * One chart session: the series, the annotation window with its plot lines,
 * the last resolved price and the right edge of the time axis, advanced by a
 * tick that polls the latest price once a second.
 */
module Session {
  import opened Optional
  import opened Series
  import opened Annotation

  /** Lead room kept to the right of the newest point on the time axis. */
  const AXIS_LEAD_MS: int := 15000

  /**
   * What the latest-price request yields: a price from an ok response, a
   * non-ok response whose body still parses, or a failure (the request is
   * rejected, or the body does not parse) that aborts the tick.
   */
  datatype Response = Ok(price: Price) | NotOk | Failed

  /** One tick's inputs: the clock reading in milliseconds and the response. */
  datatype Poll = Poll(x: int, response: Response)

  /** Everything a tick reads or writes. */
  datatype State = State(
    points: seq<Point>,
    window: Option<Window>,
    currentPrice: Option<Price>,
    xLines: seq<PlotLine<int>>,
    yLines: seq<PlotLine<Price>>,
    axisMax: Option<int>)

  /** Before the seed and the first tick: nothing drawn, nothing remembered. */
  function Initial(): State
  {
    State([], None, None, [], [], None)
  }

  /** The plot lines show the window: one line per id at the window's marks, or none while it is unset. */
  predicate Shows(s: State)
  {
    match s.window
    case None =>
      Values(s.xLines, CurrentX) == [] && Values(s.xLines, EndX) == [] && Values(s.yLines, CurrentY) == []
    case Some(w) =>
      Values(s.xLines, CurrentX) == [w.current] && Values(s.xLines, EndX) == [w.end]
      && Values(s.yLines, CurrentY) == [w.reference]
  }

  /** The invariant every tick keeps. */
  predicate Valid(s: State)
  {
    AtMostLastMarked(s.points) && WellFormed(s.window) && Shows(s)
  }

  /** The price a tick uses: the fetched one when the response is ok, else the last one, else 0. */
  function Resolve(response: Response, last: Option<Price>): Price
    requires !response.Failed?
  {
    if response.Ok? then response.price else last.GetOr(0.0)
  }

  /** `addPlotLines`: draw the three lines for a window opened at `x` with price `y`, and set the window. */
  function AddLines(s: State, x: int, y: Price): State
  {
    var end := x + WINDOW_MS;
    s.(xLines := Add(Add(s.xLines, CurrentX, x), EndX, end),
       yLines := Add(s.yLines, CurrentY, y),
       window := Some(Window(x, end, y)))
  }

  /** `updatePlotLines`: remove and redraw each of the three lines, and replace the window. */
  function UpdateLines(s: State, x: int, y: Price): State
  {
    var end := x + WINDOW_MS;
    s.(xLines := Add(Remove(Add(Remove(s.xLines, CurrentX), CurrentX, x), EndX), EndX, end),
       yLines := Add(Remove(s.yLines, CurrentY), CurrentY, y),
       window := Some(Window(x, end, y)))
  }

  /** The window step of a tick: open the window when unset, roll it once the clock reaches its end, else hold it. */
  function Annotate(s: State, x: int, y: Price, unset: bool): State
    requires unset || s.window.Some?
  {
    if unset then AddLines(s, x, y)
    else if x >= s.window.value.end then UpdateLines(s, x, y)
    else s
  }

  /**
   * One tick, given the verdict of the "window unset" test: append the point,
   * open or roll the window, move the axis edge and remember the price.
   */
  function Advance(s: State, p: Poll, unset: bool): State
    requires unset || s.window.Some?
  {
    if p.response.Failed? then s
    else
      var y := Resolve(p.response, s.currentPrice);
      var annotated := Annotate(s.(points := Append(s.points, p.x, y, Reference(s.window))), p.x, y, unset);
      var newest := annotated.points[|annotated.points| - 1];
      annotated.(axisMax := Some(newest.x + AXIS_LEAD_MS), currentPrice := Some(y))
  }

  /** One tick, with the window taken as unset exactly when it holds no value. */
  function Step(s: State, p: Poll): State
  {
    Advance(s, p, s.window.None?)
  }

  /** A sequence of ticks, oldest first. */
  function Run(s: State, polls: seq<Poll>): State
  {
    if polls == [] then s else Step(Run(s, polls[..|polls| - 1]), polls[|polls| - 1])
  }

  /** The timestamps of the points a sequence of ticks appends. */
  function Appended(polls: seq<Poll>): seq<int>
  {
    if polls == [] then []
    else
      var last := polls[|polls| - 1];
      Appended(polls[..|polls| - 1]) + (if last.response.Failed? then [] else [last.x])
  }

  /** A tick whose request fails changes nothing. */
  lemma FailedPollChangesNothing(s: State, x: int)
    ensures Step(s, Poll(x, Failed)) == s
  {
  }

  /** The price a tick resolves, where it is stored, and the axis edge it sets. */
  lemma StepOutputs(s: State, p: Poll)
    requires !p.response.Failed?
    ensures var t := Step(s, p); var y := Resolve(p.response, s.currentPrice);
      && (p.response.Ok? ==> y == p.response.price)
      && (p.response.NotOk? && s.currentPrice.Some? ==> y == s.currentPrice.value)
      && (p.response.NotOk? && s.currentPrice.None? ==> y == 0.0)
      && t.currentPrice == Some(y)
      && |t.points| > 0 && t.points[|t.points| - 1].x == p.x && t.points[|t.points| - 1].y == y
      && t.axisMax == Some(t.points[|t.points| - 1].x + AXIS_LEAD_MS)
      && t.axisMax == Some(p.x + AXIS_LEAD_MS)
  {
  }

  /**
   * The new point's marker is on, and it is the only one on if at most the last
   * was on before. It is green exactly when its price is above the window's
   * reference price before the tick, or above 0 while the window is unset.
   */
  lemma StepMarkers(s: State, p: Poll)
    requires !p.response.Failed?
    ensures var t := Step(s, p); var y := Resolve(p.response, s.currentPrice);
      && |t.points| > 0
      && t.points[|t.points| - 1].marker.enabled
      && (AtMostLastMarked(s.points) ==> OnlyLastMarked(t.points))
      && (s.window.Some? ==> (t.points[|t.points| - 1].marker.fill == Some(Green) <==> y > s.window.value.reference))
      && (s.window.Some? ==> (t.points[|t.points| - 1].marker.fill == Some(Red) <==> y <= s.window.value.reference))
      && (s.window.None? ==> (t.points[|t.points| - 1].marker.fill == Some(Green) <==> y > 0.0))
      && (s.window.None? ==> (t.points[|t.points| - 1].marker.fill == Some(Red) <==> y <= 0.0))
  {
    AppendMarks(s.points, p.x, Resolve(p.response, s.currentPrice), Reference(s.window));
  }

  /** Open on the first tick, hold while the clock is before the end mark, roll wholesale once it reaches it. */
  lemma StepWindow(s: State, p: Poll)
    requires !p.response.Failed?
    ensures var t := Step(s, p); var y := Resolve(p.response, s.currentPrice);
      && (s.window.None? ==> t.window == Some(Window(p.x, p.x + WINDOW_MS, y)))
      && (s.window.Some? && p.x < s.window.value.end ==>
            t.window == s.window && t.xLines == s.xLines && t.yLines == s.yLines)
      && (s.window.Some? && p.x >= s.window.value.end ==> t.window == Some(Window(p.x, p.x + WINDOW_MS, y)))
      && t.window.Some? && p.x < t.window.value.end
      && (WellFormed(s.window) ==> WellFormed(t.window))
  {
    var y := Resolve(p.response, s.currentPrice);
    var appended := s.(points := Append(s.points, p.x, y, Reference(s.window)));
    if s.window.None? {
      assert Annotate(appended, p.x, y, true).window == Some(Window(p.x, p.x + WINDOW_MS, y));
    } else if p.x >= s.window.value.end {
      assert Annotate(appended, p.x, y, false).window == Some(Window(p.x, p.x + WINDOW_MS, y));
    } else {
      assert Annotate(appended, p.x, y, false) == appended;
    }
  }

  /** Survivors keep their samples and order; with a clock that moves forward the timestamps stay strictly increasing. */
  lemma StepKeepsIncreasing(s: State, p: Poll)
    requires Increasing(s.points)
    requires |s.points| == 0 || s.points[|s.points| - 1].x < p.x
    ensures Increasing(Step(s, p).points)
  {
    if !p.response.Failed? {
      AppendKeepsIncreasing(s.points, p.x, Resolve(p.response, s.currentPrice), Reference(s.window));
    }
  }

  /** Opening the window draws one more line under each id, at the new window's marks, beside any already drawn. */
  lemma AddLinesValues(s: State, x: int, y: Price)
    ensures var t := AddLines(s, x, y);
      && t.window == Some(Window(x, x + WINDOW_MS, y))
      && Values(t.xLines, CurrentX) == Values(s.xLines, CurrentX) + [x]
      && Values(t.xLines, EndX) == Values(s.xLines, EndX) + [x + WINDOW_MS]
      && Values(t.yLines, CurrentY) == Values(s.yLines, CurrentY) + [y]
  {
    AddValues(s.xLines, CurrentX, x);
    AddValues(Add(s.xLines, CurrentX, x), EndX, x + WINDOW_MS);
    AddValues(s.yLines, CurrentY, y);
  }

  /** Rolling the window never stacks lines: afterwards each id holds one line, whatever was drawn before. */
  lemma UpdateLinesShows(s: State, x: int, y: Price)
    ensures Shows(UpdateLines(s, x, y))
    ensures WellFormed(UpdateLines(s, x, y).window)
  {
    var a := Remove(s.xLines, CurrentX);
    var b := Add(a, CurrentX, x);
    var c := Remove(b, EndX);
    RemoveValues(s.xLines, CurrentX);
    AddValues(a, CurrentX, x);
    RemoveValues(b, EndX);
    AddValues(c, EndX, x + WINDOW_MS);
    RemoveValues(s.yLines, CurrentY);
    AddValues(Remove(s.yLines, CurrentY), CurrentY, y);
  }

  /** A tick keeps the invariant. */
  lemma StepKeepsValid(s: State, p: Poll)
    requires Valid(s)
    ensures Valid(Step(s, p))
  {
    if !p.response.Failed? {
      var y := Resolve(p.response, s.currentPrice);
      var appended := s.(points := Append(s.points, p.x, y, Reference(s.window)));
      AppendMarks(s.points, p.x, y, Reference(s.window));
      if s.window.None? {
        AddLinesValues(appended, p.x, y);
      } else if p.x >= s.window.value.end {
        UpdateLinesShows(appended, p.x, y);
      }
    }
  }

  /** Any sequence of ticks keeps the invariant. */
  lemma {:induction false} RunKeepsValid(s: State, polls: seq<Poll>)
    requires Valid(s)
    ensures Valid(Run(s, polls))
  {
    if polls != [] {
      RunKeepsValid(s, polls[..|polls| - 1]);
      StepKeepsValid(Run(s, polls[..|polls| - 1]), polls[|polls| - 1]);
    }
  }

  /** A tick changes the series exactly as Append does, and only when its request did not fail. */
  lemma StepPoints(s: State, p: Poll)
    ensures Step(s, p).points
         == if p.response.Failed? then s.points
            else Append(s.points, p.x, Resolve(p.response, s.currentPrice), Reference(s.window))
  {
  }

  /** A tick keeps the series the recent window of a history, extended by the tick's timestamp. */
  lemma StepKeepsRecent(s: State, p: Poll, history: seq<int>)
    requires Xs(s.points) == Recent(history, MAX_POINTS)
    ensures Xs(Step(s, p).points) == Recent(history + (if p.response.Failed? then [] else [p.x]), MAX_POINTS)
  {
    StepPoints(s, p);
    if p.response.Failed? {
      assert history + [] == history;
    } else {
      AppendKeepsSurvivors(s.points, p.x, Resolve(p.response, s.currentPrice), Reference(s.window));
      RecentSnoc(history, p.x);
    }
  }

  /**
   * The series always holds the MAX_POINTS most recent points: those it started
   * with followed by those the ticks appended, in order.
   */
  lemma {:induction false} RunKeepsRecent(s: State, polls: seq<Poll>)
    requires |s.points| <= MAX_POINTS
    ensures Xs(Run(s, polls).points) == Recent(Xs(s.points) + Appended(polls), MAX_POINTS)
  {
    if polls == [] {
      assert Xs(s.points) + Appended(polls) == Xs(s.points);
    } else {
      var earlier := polls[..|polls| - 1];
      var last := polls[|polls| - 1];
      RunKeepsRecent(s, earlier);
      StepKeepsRecent(Run(s, earlier), last, Xs(s.points) + Appended(earlier));
      assert Xs(s.points) + Appended(polls)
          == (Xs(s.points) + Appended(earlier)) + (if last.response.Failed? then [] else [last.x]);
    }
  }

  /** However many ticks run, the series never holds more than MAX_POINTS points. */
  lemma RunBounded(s: State, polls: seq<Poll>)
    requires |s.points| <= MAX_POINTS
    ensures |Run(s, polls).points| <= MAX_POINTS
  {
    RunKeepsRecent(s, polls);
  }

  /** The session object: the state the component holds across ticks, updated in place. */
  class ChartSession {
    var points: seq<Point>
    var window: Option<Window>
    var currentPrice: Option<Price>
    var xLines: seq<PlotLine<int>>
    var yLines: seq<PlotLine<Price>>
    var axisMax: Option<int>

    /** The fields as one value. */
    ghost function Snapshot(): State
      reads this
    {
      State(points, window, currentPrice, xLines, yLines, axisMax)
    }

    constructor ()
      ensures Snapshot() == Initial()
      ensures Valid(Snapshot())
    {
      points, window, currentPrice := [], None, None;
      xLines, yLines, axisMax := [], [], None;
    }

    /** Replaces the series wholesale with the historical candles; nothing else changes. */
    method Seed(candles: seq<Candle>)
      modifies this
      ensures Snapshot() == old(Snapshot()).(points := FromCandles(candles))
      ensures Valid(old(Snapshot())) ==> Valid(Snapshot())
    {
      points := FromCandles(candles);
    }

    /** Draws the current, end and reference-price lines of a new window and sets the window. */
    method AddPlotLines(x: int, y: Price)
      modifies this
      ensures Snapshot() == AddLines(old(Snapshot()), x, y)
    {
      xLines := Add(xLines, CurrentX, x);
      var endX := x + WINDOW_MS;
      xLines := Add(xLines, EndX, endX);
      yLines := Add(yLines, CurrentY, y);
      window := Some(Window(x, endX, y));
    }

    /** Removes and redraws each of the three lines for a new window and replaces the window. */
    method UpdatePlotLines(x: int, y: Price)
      modifies this
      ensures Snapshot() == UpdateLines(old(Snapshot()), x, y)
    {
      xLines := Remove(xLines, CurrentX);
      xLines := Add(xLines, CurrentX, x);
      var newEndX := x + WINDOW_MS;
      xLines := Remove(xLines, EndX);
      xLines := Add(xLines, EndX, newEndX);
      yLines := Remove(yLines, CurrentY);
      yLines := Add(yLines, CurrentY, y);
      window := Some(Window(x, newEndX, y));
    }

    /**
     * The series part of a tick: evict the oldest point if the series is too
     * long, switch off the previous marker, append the new point with its
     * marker coloured against the window's reference price.
     */
    method AppendPoint(x: int, y: Price)
      modifies this`points
      ensures points == Append(old(points), x, y, Reference(window))
    {
      if |points| > EVICT_ABOVE {
        points := points[1..];
      }
      if |points| > 0 {
        var prev := points[|points| - 1];
        points := points[|points| - 1 := prev.(marker := prev.marker.(enabled := false))];
      }
      var fill := FillFor(y, Reference(window));
      points := points + [Point(x, y, Marker(true, Some(fill)))];
    }

    /** Opens the window on the first tick and rolls it once the clock reaches the end mark. */
    method AnnotateWindow(x: int, y: Price)
      modifies this
      ensures Snapshot() == Annotate(old(Snapshot()), x, y, old(window).None?)
    {
      if window.None? {
        AddPlotLines(x, y);
      } else if x >= window.value.end {
        UpdatePlotLines(x, y);
      }
    }

    /**
     * One tick at clock reading `x`: nothing happens until the chart is mounted
     * or when the request fails; otherwise the point is appended, the window
     * opened or rolled, the axis edge moved and the price remembered.
     */
    method Tick(mounted: bool, x: int, response: Response)
      modifies this
      ensures Snapshot() == if mounted then Step(old(Snapshot()), Poll(x, response)) else old(Snapshot())
      ensures Valid(old(Snapshot())) ==> Valid(Snapshot())
    {
      if !mounted || response.Failed? {
        return;
      }
      ghost var before := Snapshot();
      var y := Resolve(response, currentPrice);
      AppendPoint(x, y);
      ghost var appended := Snapshot();
      assert appended == before.(points := Append(before.points, x, y, Reference(before.window)));
      AnnotateWindow(x, y);
      ghost var annotated := Snapshot();
      var newest := points[|points| - 1];
      axisMax := Some(newest.x + AXIS_LEAD_MS);
      currentPrice := Some(y);
      assert Snapshot() == annotated.(axisMax := Some(newest.x + AXIS_LEAD_MS), currentPrice := Some(y));
      assert Snapshot() == Advance(before, Poll(x, response), before.window.None?);
      if Valid(before) {
        StepKeepsValid(before, Poll(x, response));
      }
    }
  }
}
