# Live price chart: the per-tick streaming state

This project models the core of a live ETH/USDT price chart component. The
component seeds its one series from historical one-second candles. Once a
second it then polls the latest price and runs one tick. A tick does four
things:

- it appends a point to a series bounded at 67 points;
- it highlights only the newest point, in green or red against a reference price;
- it keeps a one-minute annotation window (current mark, end mark, reference
  price), drawn as three plot lines "current-x", "end-x" and "current-y";
- it moves the right edge of the time axis 15 seconds past the newest point.

The model is imperative where the component is. `Session.ChartSession` holds
the component's state as fields that its methods update in place:

- the series points;
- the window;
- the last resolved price;
- the plot lines of each axis;
- the axis maximum.

Each method's postcondition ties the new state to a function of the old state:
`Session.Step` for a whole tick, `AddLines`/`UpdateLines` for the plot-line
helpers and `Series.Append` for the series update. The lemmas about those
functions state what the component promises, both for one tick and for any
sequence of ticks (`Session.Run`).

Modules:

- `Optional` (optional.dfy): absent values. `GetOr` is JavaScript's `??`.
- `Series` (series.dfy): points, markers, seeding from candles, and the append
  step with eviction.
- `Annotation` (annotation.dfy): the window, and plot lines as the renderer
  keeps them. `addPlotLine` adds a line even when its id is already drawn.
  `removePlotLine` removes every line with that id.
- `Session` (session.dfy): the tick as a function and as a class. It also holds
  the invariant and the lemmas over one tick and over many.
- `TruthyGuard` (truthy_guard.dfy): the "window unset" test exactly as written.
  See Findings.

Modelling choices:

- Prices are `real`. They are only copied and compared.
- Timestamps are unbounded integers. The clock reading is a parameter of the tick.
- The latest-price request becomes a `Response` parameter with three cases:
  - `Ok(price)`: the response is ok.
  - `NotOk`: the response is not ok but its body parses. The tick falls back
    to the last resolved price, or to 0 if there is none.
  - `Failed`: the request is rejected or the body does not parse. The `await`
    throws before any state changes, so the tick does nothing.
- `mounted` stands for the `if (chart)` test. Before the chart exists, a tick
  does nothing.

Some behaviours of the code are easy to misread; the model follows the code:

- A new point is green only when its price is strictly above the reference
  (src/App.tsx:125). An equal price is red.
- Eviction happens when the series holds more than 66 points (src/App.tsx:109),
  not at 66. So the series grows to 67 and stays there.
- A failed price request does not fall back. It aborts the tick. Only a
  non-ok response that still parses falls back to the last price.
- Nothing guarantees strictly increasing timestamps. `Session.StepKeepsIncreasing`
  proves that they stay increasing when the clock moves forward.

## Model

| member | source | states |
|---|---|---|
| Series.FromCandles | src/App.tsx:86-93 | the seed series has one point per candle, in order, at the candle's open time and closing price, with no marker enabled |
| Series.Append | src/App.tsx:109-129 | the series grows by one point only while it holds at most 66 points, so a series within 67 stays within 67. The newest point carries the tick's time and price, and its marker is on. The marker is green iff the price is above the reference and red otherwise, equality included |
| Series.AppendKeepsSurvivors | src/App.tsx:109-111 | eviction happens exactly when the series holds more than 66 points and removes only the oldest. Surviving points keep their time, price and order, and the new point comes last |
| Series.AppendMarks | src/App.tsx:113-129 | only the previous last marker is switched off, and every earlier point is kept as it was. If at most the last marker was on before, exactly one marker, the newest, is on after |
| Series.AppendKeepsIncreasing | src/App.tsx:118-129 | appending a later timestamp keeps timestamps strictly increasing |
| Annotation.AddValues | src/App.tsx:153-201 | adding a plot line appends its value under its id and leaves every other id's values unchanged, even when the id is already drawn |
| Annotation.RemoveValues | src/App.tsx:209-244 | removing an id leaves no value under it and leaves every other id's values unchanged |
| Session.FailedPollChangesNothing | src/App.tsx:103-107 | a tick whose request is rejected or whose body does not parse leaves the whole state unchanged |
| Session.StepOutputs | src/App.tsx:107-143 | the resolved price is the fetched one when the response is ok, otherwise the last resolved price, or 0 if none. It becomes the stored price and the newest point's price. The axis maximum is the newest point's x plus 15000 |
| Session.StepPoints | src/App.tsx:109-129 | a tick changes the series exactly as Append does, against the pre-tick reference price, and leaves it alone when the request fails |
| Session.StepMarkers | src/App.tsx:113-129 | after a tick the newest point's marker is on. If at most the last marker was on before, it is the only one on after. It is green iff the price exceeds the window's reference price before the tick, or 0 while the window is unset, and red otherwise |
| Session.StepWindow | src/App.tsx:131-135 | an unset window opens at (x, x+60000, y). A set window is held, lines untouched, while x is before its end. Once x reaches the end it is replaced wholesale by (x, x+60000, y). Either way the tick lies before the new end mark and the 60000 gap is kept |
| Session.StepKeepsIncreasing | src/App.tsx:118-129 | when the clock moves past the newest point, strictly increasing timestamps stay strictly increasing |
| Session.AddLinesValues | src/App.tsx:152-206 | opening the window sets it to (x, x+60000, y) and draws one more line under each id at those marks, beside any already there |
| Session.UpdateLinesShows | src/App.tsx:208-263 | after rolling the window each of "current-x", "end-x" and "current-y" holds exactly one line, at the new window's marks, whatever was drawn before |
| Session.StepKeepsValid | src/App.tsx:98-145 | a tick keeps the invariant. At most the last marker is on. End minus current is 60000. Each plot-line id holds exactly the window's value, or nothing while the window is unset |
| Session.RunKeepsValid | src/App.tsx:147-149 | any sequence of ticks keeps that invariant |
| Session.StepKeepsRecent | src/App.tsx:109-129 | if the series is the 67 most recent timestamps of a history, then after a tick it is the 67 most recent of that history extended by the tick's timestamp |
| Session.RunKeepsRecent | src/App.tsx:109-129 | after any sequence of ticks the series timestamps are the 67 most recent of the starting points followed by the appended points, in order |
| Session.RunBounded | src/App.tsx:109-111 | starting within 67 points, no sequence of ticks takes the series above 67 points |
| Session.ChartSession.constructor | src/App.tsx:17-44 | a new session has an empty series, no window, no price, no plot lines and no axis maximum |
| Session.ChartSession.Seed | src/App.tsx:91-93 | seeding replaces the series wholesale with the candles' points, changes nothing else and keeps the invariant |
| Session.ChartSession.AppendPoint | src/App.tsx:109-129 | the series becomes Append of the old series, the tick's point and the current reference price |
| Session.ChartSession.AddPlotLines | src/App.tsx:152-206 | the state becomes AddLines of the old state: one more line per id and the window (x, x+60000, y) |
| Session.ChartSession.UpdatePlotLines | src/App.tsx:208-263 | the state becomes UpdateLines of the old state: each id removed and redrawn, and the window replaced |
| Session.ChartSession.AnnotateWindow | src/App.tsx:131-135 | opens the window when unset, rolls it once x reaches the end mark, and otherwise changes nothing |
| Session.ChartSession.Tick | src/App.tsx:98-145 | the new state is one Step of the old state, or the old state while the chart is unmounted, and the invariant is kept |
| TruthyGuard.AsWrittenStacks | src/App.tsx:131-132 | with the test as written, while the window's current mark is 0 every tick draws another line under each id beside the old ones |
| TruthyGuard.FirstTickAtZero | src/App.tsx:131-132 | a first tick at clock reading 0 opens the window at 0, with one line per id |
| TruthyGuard.ZeroTimestampStacksLines | src/App.tsx:131-132 | with the test as written, ticks at 0 and then 1 leave two "current-x", two "end-x" and two "current-y" lines, so the lines no longer show the window |
| TruthyGuard.CorrectedKeepsOneLine | src/App.tsx:131-135 | with the corrected test, the same ticks hold the window opened at 0 with one line per id |

## Left out

- The HTTP requests for the candles (src/App.tsx:81-90) and for the latest
  price (src/App.tsx:103-106) are network I/O. The candles are a parameter of
  `Seed`, and the response is a parameter of `Tick`.
- `parseFloat` and the two-decimal label text (`toFixed(2)`) are left out,
  along with all floating-point behaviour. A price that parses to NaN is not
  modelled.
- React plumbing is left out:
  - the `useState`/`useRef`/`useEffect` lifecycle;
  - the `setInterval`/`clearInterval` scheduling;
  - the effect dependency list;
  - the stale capture of `currentYPlotLine` by the interval closure.

  The model keeps the intended explicit state instead. The window fields are
  always set together, so one optional `Window` stands for all three.
- Overlapping ticks are left out. A slow request can let a second tick start
  before the first one ends, and the source has no guard against that. This is
  concurrency.
- Highcharts styling is left out: the options object, dash styles, label HTML,
  colours, widths and `redraw()`. Plot lines are modelled only as ids and
  values.
- Seed: replacing the chart options also resets the series' styling and may
  interact with points already ticked in. The model replaces only the points.
- Series.Append: takes the renderer's `addPoint` to put the new point at the end of the series. A spline series kept sorted by x inserts a point with an earlier x inside the series instead, and the old last point stays last with its marker switched off. The model matches the component only while the clock does not step back.
- Session.StepOutputs: states the axis edge as the new point's x plus 15000. When the clock steps back, the component takes the edge from the old last point instead (see Series.Append).
- Session.StepMarkers: states that the newest point ends the series marked. When the clock steps back, the marked point sits inside the series and the last point is unmarked (see Series.Append).
- app/welcome/const.ts holds only colour strings and the interval constants.
  It has no behaviour.

## Findings

| source | as written | input that shows it | evidently intended | confidence | as-written member | corrected member |
|---|---|---|---|---|---|---|
| src/App.tsx:131 | `!currentPlotLine` also treats a window whose current mark is the timestamp 0 as unset. The next tick then calls `addPlotLines` without removing the old lines | a tick at clock reading 0, then a tick at 1: two lines each for "current-x", "end-x" and "current-y" | test only whether the window is set, so the window holds and one line per id remains | low, not executed; needs a clock reading of exactly 0 | TruthyGuard.ZeroTimestampStacksLines | Session.StepKeepsValid |
