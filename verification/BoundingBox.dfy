/**
 Bounding boxes of connections: Netlist::updateNetAndConnectionBBox (src/db/netlist.cpp)
 followed by aStarRoute::updateIndirectConnectionBBox (src/route/aStarRoute.cpp).
 */
module BoundingBox {
  import opened Geometry

  const LAYOUT_X: int := 108
  const LAYOUT_Y: int := 300
  const LAYOUT_BOX := Box(Interval(-1, LAYOUT_X), Interval(-1, LAYOUT_Y))
  const X_MARGIN: int := 3
  const Y_MARGIN: int := 15

  /** End tile coordinate of a route node. */
  datatype Tile = Tile(x: int, y: int)

  /** A connection: its net and the end tiles of its source and sink node. */
  datatype TileConn = TileConn(net: nat, source: Tile, sink: Tile)

  predicate InLayout(t: Tile) { 0 <= t.x < LAYOUT_X && 0 <= t.y < LAYOUT_Y }

  function CeilDiv(a: int, b: int): int
    requires b > 0
  {
    -((-a) / b)
  }

  function Sum(s: seq<int>): int { if |s| == 0 then 0 else Sum(s[..|s| - 1]) + s[|s| - 1] }

  /** The rounded-up mean of the source and sink coordinates. */
  function CenterOf(source: int, sinks: seq<int>): int { CeilDiv(source + Sum(sinks), |sinks| + 1) }

  /** The centre is the least integer not below the mean of the pins. */
  predicate IsMean(center: int, source: int, sinks: seq<int>) {
    var total, pins := source + Sum(sinks), |sinks| + 1;
    center * pins - pins < total <= center * pins
  }

  /** Centre of one net along one axis; it never leaves the range of the net's own pins. */
  method NetCenter(source: int, sinks: seq<int>) returns (center: int, ghost lo: int, ghost hi: int)
    ensures center == CenterOf(source, sinks)
    ensures IsMean(center, source, sinks)
    ensures lo <= center <= hi
    ensures lo == source || lo in sinks
    ensures hi == source || hi in sinks
  {
    var sum := source;
    lo, hi := source, source;
    for i := 0 to |sinks|
      invariant sum == source + Sum(sinks[..i])
      invariant lo == source || lo in sinks
      invariant hi == source || hi in sinks
      invariant lo * (i + 1) <= sum <= hi * (i + 1)
    {
      assert sinks[..i + 1][..i] == sinks[..i];
      MeanStep(sum, i + 1, lo, hi, sinks[i]);
      sum := sum + sinks[i];
      lo := Min(lo, sinks[i]);
      hi := Max(hi, sinks[i]);
    }
    assert sinks[..|sinks|] == sinks;
    center := CeilDiv(sum, |sinks| + 1);
    CeilDivBounds(sum, |sinks| + 1, lo, hi);
    CeilDivDefinition(sum, |sinks| + 1);
  }

  lemma MeanStep(sum: int, cnt: nat, lo: int, hi: int, v: int)
    requires lo * cnt <= sum <= hi * cnt
    ensures Min(lo, v) * (cnt + 1) <= sum + v <= Max(hi, v) * (cnt + 1)
  {
    var lo', hi' := Min(lo, v), Max(hi, v);
    assert lo' * cnt <= lo * cnt && hi * cnt <= hi' * cnt;
    assert lo' * (cnt + 1) == lo' * cnt + lo' && hi' * (cnt + 1) == hi' * cnt + hi';
  }

  lemma MulMonotonic(a: int, b: int, c: nat)
    requires a <= b
    ensures a * c <= b * c
  {
  }

  lemma CeilDivBounds(sum: int, cnt: int, lo: int, hi: int)
    requires cnt > 0 && lo * cnt <= sum <= hi * cnt
    ensures lo <= CeilDiv(sum, cnt) <= hi
  {
    var c := CeilDiv(sum, cnt);
    CeilDivDefinition(sum, cnt);
    if c < lo { MulMonotonic(c, lo - 1, cnt); }
    if c > hi { MulMonotonic(hi + 1, c, cnt); }
  }

  lemma CeilDivDefinition(sum: int, cnt: int)
    requires cnt > 0
    ensures CeilDiv(sum, cnt) * cnt - cnt < sum <= CeilDiv(sum, cnt) * cnt
  {
    var q := (-sum) / cnt;
    assert -sum == q * cnt + (-sum) % cnt;
    assert (-q) * cnt == -(q * cnt);
  }

  /** Range of the net centre, the source and the sink, clamped to the layout. */
  function RawSpan(center: int, a: int, b: int, limit: int): Interval {
    var lo, hi := Min(center, Min(a, b)), Max(center, Max(a, b));
    Interval(if lo < 0 then -1 else lo, if hi > limit then limit else hi)
  }

  function Widened(i: Interval, margin: int, limit: int): Interval {
    var lo, hi := i.low - margin, i.high + margin;
    Interval(if lo < 0 then -1 else lo, if hi > limit then limit else hi)
  }

  function RawBox(cx: int, cy: int, c: TileConn): Box {
    Box(RawSpan(cx, c.source.x, c.sink.x, LAYOUT_X), RawSpan(cy, c.source.y, c.sink.y, LAYOUT_Y))
  }

  function RoutingBox(raw: Box): Box {
    Box(Widened(raw.x, X_MARGIN, LAYOUT_X), Widened(raw.y, Y_MARGIN, LAYOUT_Y))
  }

  predicate OneOf(p: int, center: int, a: int, b: int) { p == center || p == a || p == b }

  /**
   Coordinate z lies less than `margin` outside the range spanned by the net centre and the two
   pins: above one of the three less the margin, and below one of the three plus the margin.
   */
  ghost predicate Near(z: int, center: int, a: int, b: int, margin: int) {
    exists p, q :: OneOf(p, center, a, b) && OneOf(q, center, a, b) && p - margin < z < q + margin
  }

  /** A tile of the layout is within reach of a connection when both its coordinates are. */
  ghost predicate Reach(t: Tile, center: Tile, c: TileConn, dx: int, dy: int) {
    && Near(t.x, center.x, c.source.x, c.sink.x, dx)
    && Near(t.y, center.y, c.source.y, c.sink.y, dy)
  }

  /** On the layout the raw span is the range of the three coordinates, the widened one their neighbourhood. */
  lemma SpansReach(center: int, a: int, b: int, margin: int, limit: int, z: int)
    requires margin >= 1 && 0 <= z <= limit
    ensures var raw := RawSpan(center, a, b, limit);
      && -1 <= raw.low && raw.high <= limit
      && (raw.low <= z <= raw.high <==> Near(z, center, a, b, 1))
      && (z < limit ==> (Widened(raw, margin, limit).StrictlyContains(z) <==> Near(z, center, a, b, margin)))
  {
    var lo, hi := Min(center, Min(a, b)), Max(center, Max(a, b));
    NearRange(z, center, a, b, 1, lo, hi);
    NearRange(z, center, a, b, margin, lo, hi);
  }

  lemma NearRange(z: int, center: int, a: int, b: int, margin: int, lo: int, hi: int)
    requires lo == Min(center, Min(a, b)) && hi == Max(center, Max(a, b))
    ensures Near(z, center, a, b, margin) <==> lo - margin < z < hi + margin
  {
    if lo - margin < z < hi + margin {
      assert OneOf(lo, center, a, b) && OneOf(hi, center, a, b);
    }
  }

  /** The tiles of the layout that a box holds, its edges counted in. */
  predicate Covers(b: Box, t: Tile) { b.x.low <= t.x <= b.x.high && b.y.low <= t.y <= b.y.high }

  /** Both boxes of a connection, tile by tile. */
  lemma BoxesReach(center: Tile, c: TileConn, t: Tile)
    requires InLayout(t)
    ensures Covers(RawBox(center.x, center.y, c), t) <==> Reach(t, center, c, 1, 1)
    ensures RoutingBox(RawBox(center.x, center.y, c)).StrictlyContains(t.x, t.y) <==>
              Reach(t, center, c, X_MARGIN, Y_MARGIN)
  {
    SpansReach(center.x, c.source.x, c.sink.x, X_MARGIN, LAYOUT_X, t.x);
    SpansReach(center.y, c.source.y, c.sink.y, Y_MARGIN, LAYOUT_Y, t.y);
  }

  /** A pin coordinate ends strictly inside the widened span exactly when it is on the device. */
  lemma WidenedHoldsPin(center: int, a: int, b: int, margin: int, limit: int)
    requires margin >= 1 && limit >= 0
    ensures Widened(RawSpan(center, a, b, limit), margin, limit).StrictlyContains(a) <==> 0 <= a < limit
    ensures Widened(RawSpan(center, a, b, limit), margin, limit).StrictlyContains(b) <==> 0 <= b < limit
    ensures 0 <= a < limit ==>
              Interval(-1, limit).Contains(Widened(RawSpan(center, a, b, limit), margin, limit))
  {
  }

  /**
   The accessibility test (strict containment of the end tile) admits the source, and the
   sink, of a connection exactly when that pin lies in the layout, wherever the net centre is.
   */
  lemma RoutingBoxHoldsPins(cx: int, cy: int, c: TileConn)
    ensures RoutingBox(RawBox(cx, cy, c)).StrictlyContains(c.source.x, c.source.y) <==> InLayout(c.source)
    ensures RoutingBox(RawBox(cx, cy, c)).StrictlyContains(c.sink.x, c.sink.y) <==> InLayout(c.sink)
    ensures InLayout(c.source) ==> RoutingBox(RawBox(cx, cy, c)).IsStrictValid()
    ensures InLayout(c.source) ==> LAYOUT_BOX.Contains(RoutingBox(RawBox(cx, cy, c)))
  {
    WidenedHoldsPin(cx, c.source.x, c.sink.x, X_MARGIN, LAYOUT_X);
    WidenedHoldsPin(cy, c.source.y, c.sink.y, Y_MARGIN, LAYOUT_Y);
  }

  /** The nets' connection lists mention each connection, under its own net. */
  predicate ListsCover(nets: seq<seq<nat>>, conns: seq<TileConn>) {
    && (forall n, k :: 0 <= n < |nets| && 0 <= k < |nets[n]| ==> nets[n][k] < |conns|)
    && (forall c :: 0 <= c < |conns| ==> conns[c].net < |nets| && c in nets[conns[c].net])
  }

  /** Connections of one net start at one source node. */
  predicate OneSourcePerNet(conns: seq<TileConn>) {
    forall c, d :: 0 <= c < |conns| && 0 <= d < |conns| && conns[c].net == conns[d].net ==>
      conns[c].source == conns[d].source
  }

  function SinkXs(conns: seq<TileConn>, ids: seq<nat>): (xs: seq<int>)
    requires forall k :: 0 <= k < |ids| ==> ids[k] < |conns|
  {
    seq(|ids|, k requires 0 <= k < |ids| => conns[ids[k]].sink.x)
  }

  function SinkYs(conns: seq<TileConn>, ids: seq<nat>): (ys: seq<int>)
    requires forall k :: 0 <= k < |ids| ==> ids[k] < |conns|
  {
    seq(|ids|, k requires 0 <= k < |ids| => conns[ids[k]].sink.y)
  }

  function NetTile(conns: seq<TileConn>, ids: seq<nat>): Tile
    requires |ids| > 0 && forall k :: 0 <= k < |ids| ==> ids[k] < |conns|
  {
    var source := conns[ids[0]].source;
    Tile(CenterOf(source.x, SinkXs(conns, ids)), CenterOf(source.y, SinkYs(conns, ids)))
  }

  /** Both coordinates of a net's centre are rounded-up means over the source and all sinks. */
  predicate IsCenter(center: Tile, conns: seq<TileConn>, ids: seq<nat>)
    requires |ids| > 0 && forall k :: 0 <= k < |ids| ==> ids[k] < |conns|
  {
    && IsMean(center.x, conns[ids[0]].source.x, SinkXs(conns, ids))
    && IsMean(center.y, conns[ids[0]].source.y, SinkYs(conns, ids))
  }

  method NetCenters(nets: seq<seq<nat>>, conns: seq<TileConn>) returns (centers: seq<Tile>)
    requires forall n, k :: 0 <= n < |nets| && 0 <= k < |nets[n]| ==> nets[n][k] < |conns|
    ensures |centers| == |nets|
    ensures forall n :: 0 <= n < |nets| && |nets[n]| > 0 ==>
      centers[n] == NetTile(conns, nets[n]) && IsCenter(centers[n], conns, nets[n])
  {
    centers := [];
    for n := 0 to |nets|
      invariant |centers| == n
      invariant forall m :: 0 <= m < n && |nets[m]| > 0 ==>
        centers[m] == NetTile(conns, nets[m]) && IsCenter(centers[m], conns, nets[m])
    {
      var center := Tile(0, 0);
      if |nets[n]| > 0 {
        var source := conns[nets[n][0]].source;
        var cx, _, _ := NetCenter(source.x, SinkXs(conns, nets[n]));
        var cy, _, _ := NetCenter(source.y, SinkYs(conns, nets[n]));
        center := Tile(cx, cy);
      }
      centers := centers + [center];
    }
  }

  /** First pass: centres of all nets, then the clamped pin range of every connection. */
  method UpdateNetAndConnectionBBox(nets: seq<seq<nat>>, conns: seq<TileConn>)
    returns (centers: seq<Tile>, raw: seq<Box>)
    requires ListsCover(nets, conns)
    ensures |centers| == |nets| && |raw| == |conns|
    ensures forall n :: 0 <= n < |nets| && |nets[n]| > 0 ==>
      centers[n] == NetTile(conns, nets[n]) && IsCenter(centers[n], conns, nets[n])
    ensures forall c :: 0 <= c < |conns| ==>
      raw[c] == RawBox(centers[conns[c].net].x, centers[conns[c].net].y, conns[c])
    ensures forall c, t :: 0 <= c < |conns| && InLayout(t) ==>
      (Covers(raw[c], t) <==> Reach(t, centers[conns[c].net], conns[c], 1, 1))
  {
    centers := NetCenters(nets, conns);
    raw := RawBoxes(centers, conns);
    forall c, t | 0 <= c < |conns| && InLayout(t)
      ensures Covers(raw[c], t) <==> Reach(t, centers[conns[c].net], conns[c], 1, 1)
    {
      BoxesReach(centers[conns[c].net], conns[c], t);
    }
  }

  method RawBoxes(centers: seq<Tile>, conns: seq<TileConn>) returns (raw: seq<Box>)
    requires forall c :: 0 <= c < |conns| ==> conns[c].net < |centers|
    ensures |raw| == |conns|
    ensures forall c :: 0 <= c < |conns| ==>
      raw[c] == RawBox(centers[conns[c].net].x, centers[conns[c].net].y, conns[c])
  {
    raw := [];
    for c := 0 to |conns|
      invariant |raw| == c
      invariant forall d :: 0 <= d < c ==>
        raw[d] == RawBox(centers[conns[d].net].x, centers[conns[d].net].y, conns[d])
    {
      var center := centers[conns[c].net];
      raw := raw + [RawBox(center.x, center.y, conns[c])];
    }
  }

  /** Second pass: net by net, widen every connection's box in place. */
  method UpdateIndirectConnectionBBox(nets: seq<seq<nat>>, conns: seq<TileConn>, raw: seq<Box>, bbox: array<Box>)
    requires ListsCover(nets, conns) && |raw| == |conns| == bbox.Length
    modifies bbox
    ensures forall c :: 0 <= c < |conns| ==> bbox[c] == RoutingBox(raw[c])
  {
    for n := 0 to |nets|
      invariant forall m, k :: 0 <= m < n && 0 <= k < |nets[m]| ==> bbox[nets[m][k]] == RoutingBox(raw[nets[m][k]])
    {
      for k := 0 to |nets[n]|
        invariant forall m, j :: 0 <= m < n && 0 <= j < |nets[m]| ==>
          bbox[nets[m][j]] == RoutingBox(raw[nets[m][j]])
        invariant forall j :: 0 <= j < k ==> bbox[nets[n][j]] == RoutingBox(raw[nets[n][j]])
      {
        bbox[nets[n][k]] := RoutingBox(raw[nets[n][k]]);
      }
    }
    forall c | 0 <= c < |conns| ensures bbox[c] == RoutingBox(raw[c]) {
      var n := conns[c].net;
      var k :| 0 <= k < |nets[n]| && nets[n][k] == c;
      assert bbox[nets[n][k]] == RoutingBox(raw[nets[n][k]]);
    }
  }

  /** What the later stages rely on: every box holds both pins strictly inside. */
  predicate BoxesHoldPins(conns: seq<TileConn>, boxes: seq<Box>) {
    && |boxes| == |conns|
    && forall c :: 0 <= c < |conns| ==>
         && boxes[c].IsStrictValid()
         && boxes[c].StrictlyContains(conns[c].source.x, conns[c].source.y)
         && boxes[c].StrictlyContains(conns[c].sink.x, conns[c].sink.y)
  }

  /** Every net with connections has its centre in the list. */
  predicate AreCenters(nets: seq<seq<nat>>, conns: seq<TileConn>, centers: seq<Tile>) {
    && |centers| == |nets|
    && (forall n, k :: 0 <= n < |nets| && 0 <= k < |nets[n]| ==> nets[n][k] < |conns|)
    && (forall n :: 0 <= n < |nets| && |nets[n]| > 0 ==> IsCenter(centers[n], conns, nets[n]))
  }

  /** A tile of the layout passes the accessibility test of a box exactly within reach of the margins. */
  ghost predicate BoxesAreReach(conns: seq<TileConn>, boxes: seq<Box>, centers: seq<Tile>)
  {
    && |boxes| == |conns|
    && (forall c :: 0 <= c < |conns| ==> conns[c].net < |centers|)
    && forall c, t :: 0 <= c < |conns| && InLayout(t) ==>
      (boxes[c].StrictlyContains(t.x, t.y) <==> Reach(t, centers[conns[c].net], conns[c], X_MARGIN, Y_MARGIN))
  }

  /** Both passes together, for a netlist whose pins lie in the layout. */
  method ComputeBoxes(nets: seq<seq<nat>>, conns: seq<TileConn>)
    returns (boxes: seq<Box>, ghost centers: seq<Tile>)
    requires ListsCover(nets, conns)
    ensures |boxes| == |conns|
    ensures AreCenters(nets, conns, centers) && BoxesAreReach(conns, boxes, centers)
    ensures BoxesHoldPins(conns, boxes) <==>
              forall c :: 0 <= c < |conns| ==> InLayout(conns[c].source) && InLayout(conns[c].sink)
    ensures forall c :: 0 <= c < |conns| && InLayout(conns[c].source) ==> LAYOUT_BOX.Contains(boxes[c])
  {
    var middles, raw := UpdateNetAndConnectionBBox(nets, conns);
    centers := middles;
    var bbox := new Box[|conns|](_ => EMPTY_BOX);
    UpdateIndirectConnectionBBox(nets, conns, raw, bbox);
    boxes := bbox[..];
    forall c | 0 <= c < |conns|
      ensures boxes[c].StrictlyContains(conns[c].source.x, conns[c].source.y) <==> InLayout(conns[c].source)
      ensures boxes[c].StrictlyContains(conns[c].sink.x, conns[c].sink.y) <==> InLayout(conns[c].sink)
      ensures InLayout(conns[c].source) ==> boxes[c].IsStrictValid() && LAYOUT_BOX.Contains(boxes[c])
    {
      RoutingBoxHoldsPins(centers[conns[c].net].x, centers[conns[c].net].y, conns[c]);
    }
    forall c, t | 0 <= c < |conns| && InLayout(t)
      ensures boxes[c].StrictlyContains(t.x, t.y) <==>
                Reach(t, centers[conns[c].net], conns[c], X_MARGIN, Y_MARGIN)
    {
      BoxesReach(centers[conns[c].net], conns[c], t);
    }
  }

  /** Boxes of connections of one net always intersect strictly: they share the source's tile. */
  lemma SameNetBoxesMeet(conns: seq<TileConn>, boxes: seq<Box>, c: nat, d: nat)
    requires BoxesHoldPins(conns, boxes) && OneSourcePerNet(conns)
    requires c < |conns| && d < |conns| && conns[c].net == conns[d].net
    ensures boxes[c].HasStrictIntersectWith(boxes[d])
  {
    var s := conns[c].source;
    assert s == conns[d].source;
    assert boxes[c].StrictlyContains(s.x, s.y) && boxes[d].StrictlyContains(s.x, s.y);
  }
}
