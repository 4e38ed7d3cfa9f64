/** The calibration grid: seventeen evenly spaced horizontal bands between the top
    and bottom anchor positions, the lookup of the band holding a y coordinate, and
    the calibration step that rebuilds the grid from this frame's anchor positions,
    falling back on cached or default edges. */
module PitchGrid {
  import opened Wrappers
  import opened Notes
  import Ratios

  /** One band of the grid: its frequency (0 for an anchor), its label, and the
      half-open extent [minY, maxY) with its midline. */
  datatype Region = Region(freq: nat, name: string, minY: real, maxY: real, midY: real)

  /** A rebuild is abandoned when the bottom edge is not more than this below the top. */
  const MinSpan: real := 5.0

  /** Default distance of either edge from the frame border. */
  const DefaultMargin: real := 10.0

  predicate Contains(r: Region, y: real)
  {
    y >= r.minY && y < r.maxY
  }

  /** Height of one band: the span between the edges split into NumRegions - 1 steps. */
  function Step(top: real, bottom: real): real
  {
    (bottom - top) / ((NumRegions - 1) as real)
  }

  /** The line i steps below the top edge, top + i * step, laid down one step at a time. */
  function Line(top: real, step: real, i: nat): real
  {
    if i == 0 then top else Line(top, step, i - 1) + step
  }

  lemma {:induction false} LineIsProduct(top: real, step: real, i: nat)
    ensures Line(top, step, i) == top + (i as real) * step
  {
    if i > 0 {
      LineIsProduct(top, step, i - 1);
      assert (i as real) * step == ((i - 1) as real) * step + step;
    }
  }

  /** With a positive step, a line lies at least one step above every later line. */
  lemma {:induction false} LinesIncrease(top: real, step: real, i: nat, j: nat)
    requires step > 0.0 && i < j
    ensures Line(top, step, i) + step <= Line(top, step, j)
  {
    if j > i + 1 {
      LinesIncrease(top, step, i, j - 1);
    }
  }

  function RegionAt(top: real, step: real, i: nat): Region
    requires i < NumRegions
  {
    var lineY := Line(top, step, i);
    var centerY := lineY + step / 2.0;
    Region(Frequency(Table[i].midi), Table[i].name, lineY, lineY + step, centerY)
  }

  /** The grid rebuilt from a top and a bottom edge, band i for table row i. */
  function Grid(top: real, bottom: real): (g: seq<Region>)
    ensures |g| == NumRegions
  {
    seq(NumRegions, i requires 0 <= i < NumRegions => RegionAt(top, Step(top, bottom), i))
  }

  lemma StepPositive(top: real, bottom: real)
    requires top < bottom
    ensures Step(top, bottom) > 0.0
    ensures 16.0 * Step(top, bottom) == bottom - top
  {
    TableShape();
  }

  /** Band i of a grid starts on line i and ends on line i + 1, with its midline halfway. */
  lemma BandAt(top: real, bottom: real, i: nat)
    requires i < NumRegions
    ensures Grid(top, bottom)[i].minY == Line(top, Step(top, bottom), i)
    ensures Grid(top, bottom)[i].maxY == Line(top, Step(top, bottom), i + 1)
    ensures Grid(top, bottom)[i].maxY == Grid(top, bottom)[i].minY + Step(top, bottom)
    ensures Grid(top, bottom)[i].midY == Grid(top, bottom)[i].minY + Step(top, bottom) / 2.0
  {
  }

  /** The first band starts at the top edge and the last band at the bottom edge. */
  lemma GridEnds(top: real, bottom: real)
    ensures Grid(top, bottom)[0].minY == top
    ensures Grid(top, bottom)[NumRegions - 1].minY == bottom
    ensures Grid(top, bottom)[NumRegions - 1].maxY == bottom + Step(top, bottom)
  {
    TableShape();
    BandAt(top, bottom, 0);
    BandAt(top, bottom, 16);
    LineIsProduct(top, Step(top, bottom), 16);
  }

  /** Band i starts i steps below the top edge. */
  lemma BandStarts(top: real, bottom: real)
    ensures forall i :: 0 <= i < NumRegions ==>
              Grid(top, bottom)[i].minY == top + (i as real) * Step(top, bottom)
  {
    forall i | 0 <= i < NumRegions
      ensures Grid(top, bottom)[i].minY == top + (i as real) * Step(top, bottom)
    {
      BandAt(top, bottom, i);
      LineIsProduct(top, Step(top, bottom), i);
    }
  }

  /** A band of a rebuilt grid ends no lower than any later band begins, so it
      starts strictly above it. */
  lemma BandsDisjoint(top: real, bottom: real, i: nat, j: nat)
    requires top < bottom && i < j < NumRegions
    ensures Grid(top, bottom)[i].maxY <= Grid(top, bottom)[j].minY
    ensures Grid(top, bottom)[i].minY < Grid(top, bottom)[j].minY
  {
    StepPositive(top, bottom);
    BandAt(top, bottom, i);
    BandAt(top, bottom, j);
    LinesIncrease(top, Step(top, bottom), i, j);
  }

  /** Geometry of a rebuilt grid: the step is a sixteenth of the span, the first
      band starts at the top edge, the last at the bottom edge, every band is one
      step high with its midline halfway, each
      band ends where the next begins, and the bands' upper edges strictly increase. */
  lemma GridGeometry(top: real, bottom: real)
    requires top < bottom
    ensures var g, s := Grid(top, bottom), Step(top, bottom);
            s > 0.0 && 16.0 * s == bottom - top &&
            g[0].minY == top && g[NumRegions - 1].minY == bottom &&
            g[NumRegions - 1].maxY == bottom + s &&
            (forall i :: 0 <= i < NumRegions ==>
               g[i].maxY == g[i].minY + s && g[i].midY == g[i].minY + s / 2.0) &&
            (forall i :: 0 <= i < NumRegions - 1 ==> g[i].maxY == g[i + 1].minY) &&
            (forall i, j :: 0 <= i < j < NumRegions ==> g[i].minY < g[j].minY)
  {
    var g, s := Grid(top, bottom), Step(top, bottom);
    StepPositive(top, bottom);
    TableShape();
    GridEnds(top, bottom);
    forall i | 0 <= i < NumRegions
      ensures g[i].maxY == g[i].minY + s && g[i].midY == g[i].minY + s / 2.0
    {
      BandAt(top, bottom, i);
    }
    forall i | 0 <= i < NumRegions - 1
      ensures g[i].maxY == g[i + 1].minY
    {
      BandAt(top, bottom, i);
      BandAt(top, bottom, i + 1);
    }
    forall i, j | 0 <= i < j < NumRegions
      ensures g[i].minY < g[j].minY
    {
      BandsDisjoint(top, bottom, i, j);
    }
  }

  /** Labels of a rebuilt grid: band i carries table row i's label and frequency;
      so band 0 is the silent top anchor, the last band the silent bottom anchor,
      and every band in between sounds and is not labelled as an anchor. */
  lemma GridLabels(top: real, bottom: real)
    ensures var g := Grid(top, bottom);
            g[0].name == AnchorTopName && g[0].freq == 0 &&
            g[NumRegions - 1].name == AnchorBottomName && g[NumRegions - 1].freq == 0 &&
            (forall i :: 0 <= i < NumRegions ==>
               g[i].name == Table[i].name && g[i].freq == Frequency(Table[i].midi)) &&
            forall i :: 1 <= i < NumRegions - 1 ==>
              g[i].freq != 0 &&
              g[i].name != AnchorTopName && g[i].name != AnchorBottomName
  {
    TableShape();
  }

  /** The band of a rebuilt grid whose label is the top (bottom) anchor is band 0 (the last band). */
  lemma AnchorBands(top: real, bottom: real, i: nat)
    requires i < NumRegions
    ensures Grid(top, bottom)[i].name == AnchorTopName <==> i == 0
    ensures Grid(top, bottom)[i].name == AnchorBottomName <==> i == NumRegions - 1
  {
    GridLabels(top, bottom);
    TableShape();
  }

  /** Worked example: edges 50 and 450 give bands 25 high, the top anchor spanning
      [50, 75) and the bottom anchor [450, 475). */
  lemma ExampleFiftyToFourFifty()
    ensures Step(50.0, 450.0) == 25.0
    ensures Grid(50.0, 450.0)[0].minY == 50.0 && Grid(50.0, 450.0)[0].maxY == 75.0
    ensures Grid(50.0, 450.0)[0].midY == 62.5
    ensures Grid(50.0, 450.0)[16].minY == 450.0 && Grid(50.0, 450.0)[16].maxY == 475.0
  {
    GridEnds(50.0, 450.0);
  }

  /** The first band, in band order, that contains y. */
  function FirstContaining(g: seq<Region>, y: real): (r: Option<nat>)
    ensures r.Some? ==> r.value < |g| && Contains(g[r.value], y) &&
                        forall j :: 0 <= j < r.value ==> !Contains(g[j], y)
    ensures r.None? ==> forall j :: 0 <= j < |g| ==> !Contains(g[j], y)
  {
    FirstFrom(g, y, 0)
  }

  function FirstFrom(g: seq<Region>, y: real, k: nat): (r: Option<nat>)
    requires k <= |g|
    ensures r.Some? ==> k <= r.value < |g| && Contains(g[r.value], y) &&
                        forall j :: k <= j < r.value ==> !Contains(g[j], y)
    ensures r.None? ==> forall j :: k <= j < |g| ==> !Contains(g[j], y)
    decreases |g| - k
  {
    if k == |g| then None
    else if Contains(g[k], y) then Some(k)
    else FirstFrom(g, y, k + 1)
  }

  /** The scan of the grid in band order that stops at the first band containing y. */
  method FindRegion(g: seq<Region>, y: real) returns (r: Option<nat>)
    ensures r == FirstContaining(g, y)
  {
    var i := 0;
    while i < |g|
      invariant 0 <= i <= |g|
      invariant forall j :: 0 <= j < i ==> !Contains(g[j], y)
    {
      if Contains(g[i], y) {
        return Some(i);
      }
      i := i + 1;
    }
    return None;
  }

  /** The whole number of steps s that fit into an offset d within n steps. */
  lemma StepsIn(d: real, s: real, n: nat) returns (k: nat)
    requires s > 0.0 && 0.0 <= d < (n as real) * s
    ensures k < n && (k as real) * s <= d < (k as real) * s + s
  {
    var f := (d / s).Floor;
    Ratios.QuotientBound(d, s, f as real);
    Ratios.QuotientBound(d, s, f as real + 1.0);
    Ratios.QuotientBound(d, s, n as real);
    k := f;
    assert (k as real + 1.0) * s == (k as real) * s + s;
  }

  /** For y inside the span of a rebuilt grid, the band holding y. */
  lemma BandOf(top: real, bottom: real, y: real) returns (k: nat)
    requires top < bottom && top <= y < bottom + Step(top, bottom)
    ensures k < NumRegions && Contains(Grid(top, bottom)[k], y)
  {
    var s := Step(top, bottom);
    StepPositive(top, bottom);
    TableShape();
    k := StepsIn(y - top, s, 17);
    BandAt(top, bottom, k);
    LineIsProduct(top, s, k);
  }

  /** A rebuilt grid has no gaps and no overlaps: y lies in some band exactly when
      top <= y < bottom + step, and then the band found is the only band holding y. */
  lemma GridLookup(top: real, bottom: real, y: real)
    requires top < bottom
    ensures FirstContaining(Grid(top, bottom), y).Some? <==> top <= y < bottom + Step(top, bottom)
    ensures forall i :: 0 <= i < NumRegions && Contains(Grid(top, bottom)[i], y) ==>
              FirstContaining(Grid(top, bottom), y) == Some(i)
  {
    var g, s := Grid(top, bottom), Step(top, bottom);
    TableShape();
    if top <= y < bottom + s {
      var k := BandOf(top, bottom, y);
    }
    var r := FirstContaining(g, y);
    if r.Some? {
      var i := r.value;
      GridEnds(top, bottom);
      BandAt(top, bottom, i);
      if i > 0 { BandsDisjoint(top, bottom, 0, i); }
      if i < 16 { BandsDisjoint(top, bottom, i, 16); }
      forall j | i < j < NumRegions
        ensures !Contains(g[j], y)
      {
        BandsDisjoint(top, bottom, i, j);
      }
    }
  }

  /** JavaScript's Math.round, the key under which the scanner stores each band. */
  function Round(x: real): int
  {
    (x + 0.5).Floor
  }

  /** With bands at least one pixel high, the bands' rounded midlines are strictly
      increasing, so keying the bands by them loses none and visits them in band order. */
  lemma RoundedKeysIncrease(top: real, bottom: real)
    requires Step(top, bottom) >= 1.0
    ensures forall i :: 0 <= i < NumRegions - 1 ==>
              Round(Grid(top, bottom)[i].midY) < Round(Grid(top, bottom)[i + 1].midY)
  {
    GridGeometry(top, bottom);
  }

  /** With edges 10 and 20 (span 10, above the abort threshold, step 0.625) the
      midlines of bands 2 and 3 round to the same key. */
  lemma DenseGridKeysCollide()
    ensures Round(Grid(10.0, 20.0)[2].midY) == 12 && Round(Grid(10.0, 20.0)[3].midY) == 12
  {
  }

  /** What the calibration step reads and writes: the cached edges and the grid. */
  datatype Calibration = Calibration(lastTopY: Option<real>, lastBottomY: Option<real>, pitchMap: seq<Region>)

  /** An edge: this frame's measurement, else the cached edge, else the default. */
  function Resolve(measured: Option<real>, cached: Option<real>, default: real): real
  {
    if measured.Some? then measured.value
    else if cached.Some? then cached.value
    else default
  }

  /** One calibration step: resolve both edges, cache them when both were measured,
      and rebuild the grid unless the span is degenerate. */
  function Calibrate(c: Calibration, topY: Option<real>, bottomY: Option<real>, canvasHeight: int): Calibration
  {
    var top := Resolve(topY, c.lastTopY, DefaultMargin);
    var bottom := Resolve(bottomY, c.lastBottomY, canvasHeight as real - DefaultMargin);
    var cached := if topY.Some? && bottomY.Some?
                  then c.(lastTopY := Some(top), lastBottomY := Some(bottom))
                  else c;
    if bottom <= top + MinSpan then cached
    else cached.(pitchMap := Grid(top, bottom))
  }

  /** A grid the calibration step can have built: seventeen bands whose edges are
      more than the minimum span apart. */
  ghost predicate IsRebuilt(g: seq<Region>)
  {
    |g| == NumRegions &&
    g[NumRegions - 1].minY > g[0].minY + MinSpan &&
    g == Grid(g[0].minY, g[NumRegions - 1].minY)
  }

  /** The state invariant: the edges are cached together, and the grid is either the
      initial empty one or a rebuilt one. */
  ghost predicate WellFormed(c: Calibration)
  {
    (c.lastTopY.Some? <==> c.lastBottomY.Some?) &&
    (c.pitchMap == [] || IsRebuilt(c.pitchMap))
  }

  /** What a calibration step does: the cache changes only on a joint measurement and
      then holds the measured edges; the grid is replaced by the grid of the resolved
      edges exactly when they are more than the minimum span apart, and kept
      otherwise; and the invariant is kept. */
  lemma CalibrateSpec(c: Calibration, topY: Option<real>, bottomY: Option<real>, canvasHeight: int)
    requires WellFormed(c)
    ensures var r := Calibrate(c, topY, bottomY, canvasHeight);
            var top := Resolve(topY, c.lastTopY, DefaultMargin);
            var bottom := Resolve(bottomY, c.lastBottomY, canvasHeight as real - DefaultMargin);
            WellFormed(r) &&
            (if topY.Some? && bottomY.Some?
             then r.lastTopY == topY && r.lastBottomY == bottomY
             else r.lastTopY == c.lastTopY && r.lastBottomY == c.lastBottomY) &&
            (if bottom > top + MinSpan then r.pitchMap == Grid(top, bottom) else r.pitchMap == c.pitchMap)
  {
    var top := Resolve(topY, c.lastTopY, DefaultMargin);
    var bottom := Resolve(bottomY, c.lastBottomY, canvasHeight as real - DefaultMargin);
    if bottom > top + MinSpan {
      GridGeometry(top, bottom);
    }
  }

  /** Feeding the same measurements twice gives the same state as feeding them once. */
  lemma CalibrateIdempotent(c: Calibration, topY: Option<real>, bottomY: Option<real>, canvasHeight: int)
    ensures var r := Calibrate(c, topY, bottomY, canvasHeight);
            Calibrate(r, topY, bottomY, canvasHeight) == r
  {
  }

  /** A measurement of one edge alone moves the grid but not the cache. Starting from
      edges 50 and 450, top edges measured at 70, 90 and 110, each inside the top
      anchor band of the grid before it, walk the top edge down to 110; the next
      frame that sees no anchor resolves the top edge from the cache again and puts
      it back at 50, more than two bands of the grid it left. */
  lemma CacheWalkAndSnapBack(canvasHeight: int)
    ensures var c0 := Calibration(Some(50.0), Some(450.0), Grid(50.0, 450.0));
            var c1 := Calibrate(c0, Some(70.0), None, canvasHeight);
            var c2 := Calibrate(c1, Some(90.0), None, canvasHeight);
            var c3 := Calibrate(c2, Some(110.0), None, canvasHeight);
            var c4 := Calibrate(c3, None, None, canvasHeight);
            Contains(c0.pitchMap[0], 70.0) && Contains(c1.pitchMap[0], 90.0) &&
            Contains(c2.pitchMap[0], 110.0) &&
            c3 == Calibration(Some(50.0), Some(450.0), Grid(110.0, 450.0)) &&
            c4 == c0 &&
            110.0 - 50.0 > 2.0 * Step(110.0, 450.0)
  {
    BandAt(50.0, 450.0, 0);
    BandAt(70.0, 450.0, 0);
    BandAt(90.0, 450.0, 0);
  }

  /** Once a joint measurement has been taken, from any state, frames that see
      neither anchor leave the cache and the grid exactly as that measurement left
      them; when the measured span exceeds the minimum, that grid is the grid of
      the measured edges. */
  lemma CalibrateHoldsWhenAnchorsLost(c: Calibration, top: real, bottom: real, canvasHeight: int)
    ensures var c1 := Calibrate(c, Some(top), Some(bottom), canvasHeight);
            c1.lastTopY == Some(top) && c1.lastBottomY == Some(bottom) &&
            (bottom > top + MinSpan ==> c1.pitchMap == Grid(top, bottom)) &&
            Calibrate(c1, None, None, canvasHeight) == c1
  {
  }
}
