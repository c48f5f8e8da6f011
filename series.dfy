/**
 * The chart's single price series: an ordered buffer of points, trimmed at the
 * front and appended at the back on every tick, where only the newest point
 * carries an enabled marker whose colour tells whether the price is above the
 * reference price of the annotation window.
 */
module Series {
  import opened Optional

  /** Prices are parsed from the feed and from then on only copied and compared. */
  type Price = real

  /** The two marker fill colours of a new point: "#00ff00" and "#ff0000". */
  datatype Colour = Green | Red

  /** A point's own marker options: whether it is drawn, and its fill colour if one was set. */
  datatype Marker = Marker(enabled: bool, fill: Option<Colour>)

  /** One sample of the series: a timestamp in milliseconds, a price and a marker. */
  datatype Point = Point(x: int, y: Price, marker: Marker)

  /** A kline record, reduced to the two elements the seed reads: open time (element 0) and close (element 4). */
  datatype Candle = Candle(openTime: int, close: Price)

  /** The oldest point is evicted once the series holds more than this many points. */
  const EVICT_ABOVE: nat := 66

  /** The longest the series grows to by appending. */
  const MAX_POINTS: nat := EVICT_ABOVE + 1

  /** The timestamps of a series, in order. */
  function Xs(s: seq<Point>): seq<int>
  {
    seq(|s|, i requires 0 <= i < |s| => s[i].x)
  }

  /** The (timestamp, price) samples of a series, in order, markers left aside. */
  function Samples(s: seq<Point>): seq<(int, Price)>
  {
    seq(|s|, i requires 0 <= i < |s| => (s[i].x, s[i].y))
  }

  /** No point other than the last has its marker enabled. */
  predicate AtMostLastMarked(s: seq<Point>)
  {
    forall i :: 0 <= i < |s| - 1 ==> !s[i].marker.enabled
  }

  /** Exactly one point, the last, has its marker enabled. */
  predicate OnlyLastMarked(s: seq<Point>)
  {
    |s| > 0 && s[|s| - 1].marker.enabled && AtMostLastMarked(s)
  }

  /** Timestamps strictly increase along the series. */
  predicate Increasing(s: seq<Point>)
  {
    forall i, j :: 0 <= i < j < |s| ==> s[i].x < s[j].x
  }

  /** The last `n` elements of `a`, or all of `a` when it is shorter. */
  function Recent(a: seq<int>, n: nat): (r: seq<int>)
    ensures |r| <= n
  {
    if |a| <= n then a else a[|a| - n..]
  }

  /** Seed data: each candle becomes a point at its open time priced at its close, with no marker of its own. */
  function FromCandles(candles: seq<Candle>): (r: seq<Point>)
    ensures |r| == |candles|
    ensures forall i :: 0 <= i < |r| ==> Samples(r)[i] == (candles[i].openTime, candles[i].close)
    ensures forall i :: 0 <= i < |r| ==> !r[i].marker.enabled
    ensures AtMostLastMarked(r)
  {
    seq(|candles|, i requires 0 <= i < |candles| => Point(candles[i].openTime, candles[i].close, Marker(false, None)))
  }

  /** Drops the oldest point when the series is longer than EVICT_ABOVE. */
  function Trim(s: seq<Point>): seq<Point>
  {
    if |s| > EVICT_ABOVE then s[1..] else s
  }

  /** Switches off the marker of the last point, keeping the rest of its options. */
  function Unmark(s: seq<Point>): seq<Point>
  {
    if |s| == 0 then s
    else s[|s| - 1 := s[|s| - 1].(marker := s[|s| - 1].marker.(enabled := false))]
  }

  /** The fill of a new point's marker against the reference price. */
  function FillFor(y: Price, reference: Price): Colour
  {
    if y > reference then Green else Red
  }

  /**
   * One append: evict the oldest point if the series is too long, switch off the
   * previous last marker, and add the new point with its marker on.
   */
  function Append(s: seq<Point>, x: int, y: Price, reference: Price): (r: seq<Point>)
    ensures |r| == if |s| > EVICT_ABOVE then |s| else |s| + 1
    ensures |s| <= MAX_POINTS ==> |r| <= MAX_POINTS
    ensures r[|r| - 1].x == x && r[|r| - 1].y == y
    ensures r[|r| - 1].marker.enabled
    ensures r[|r| - 1].marker.fill == Some(Green) <==> y > reference
    ensures r[|r| - 1].marker.fill == Some(Red) <==> y <= reference
  {
    Unmark(Trim(s)) + [Point(x, y, Marker(true, Some(FillFor(y, reference))))]
  }

  /** Eviction takes exactly the oldest point and only past EVICT_ABOVE points; survivors keep their samples and order. */
  lemma AppendKeepsSurvivors(s: seq<Point>, x: int, y: Price, reference: Price)
    ensures var r := Append(s, x, y, reference);
      && (|s| > EVICT_ABOVE ==> Samples(r) == Samples(s[1..]) + [(x, y)])
      && (|s| <= EVICT_ABOVE ==> Samples(r) == Samples(s) + [(x, y)])
      && Xs(r) == (if |s| > EVICT_ABOVE then Xs(s)[1..] else Xs(s)) + [x]
  {
  }

  /** Only the previous last marker is switched off, so at most one marker on before means exactly one after. */
  lemma AppendMarks(s: seq<Point>, x: int, y: Price, reference: Price)
    ensures var r := Append(s, x, y, reference);
      && (|r| >= 2 ==> !r[|r| - 2].marker.enabled)
      && (forall i :: 0 <= i < |r| - 2 ==> r[i] == Trim(s)[i])
      && (AtMostLastMarked(s) ==> OnlyLastMarked(r))
  {
  }

  /** Appending a later timestamp keeps timestamps strictly increasing. */
  lemma AppendKeepsIncreasing(s: seq<Point>, x: int, y: Price, reference: Price)
    requires Increasing(s)
    requires |s| == 0 || s[|s| - 1].x < x
    ensures Increasing(Append(s, x, y, reference))
  {
  }

  /** Appending to a window of recent values and trimming it as Append does keeps it the recent window. */
  lemma RecentSnoc(a: seq<int>, x: int)
    ensures Recent(a + [x], MAX_POINTS)
         == (var w := Recent(a, MAX_POINTS); if |w| > EVICT_ABOVE then w[1..] else w) + [x]
  {
  }
}
