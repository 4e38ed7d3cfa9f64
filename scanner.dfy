/** One frame of the scanner: classify the contours, look their centres up in the
    current grid, collect anchor positions and note pitches, recalibrate the grid
    from the anchor means, and decide whether the frame's chord sounds. The state
    that survives between frames lives in ScannerState. */
module Scanner {
  import opened Wrappers
  import opened Notes
  import opened Classifier
  import opened PitchGrid
  import opened Anchors
  import opened Chord

  /** Where one contour's centre ends up: nowhere, in one of the anchor lists, or
      in the note lists. */
  datatype Hit = Skip | TopAnchor(y: real) | BottomAnchor(y: real) | NoteHit(freq: nat, name: string)

  function Route(g: seq<Region>, roiLeft: real, c: Contour): Hit
  {
    if !Accept(c) then Skip
    else if !InRoi(CenterX(c), roiLeft) then Skip
    else
      var y := CenterY(c);
      match FirstContaining(g, y)
      case None => Skip
      case Some(i) =>
        if g[i].name == AnchorTopName then TopAnchor(y)
        else if g[i].name == AnchorBottomName then BottomAnchor(y)
        else NoteHit(g[i].freq, g[i].name)
  }

  /** The four lists one pass over the contours fills. */
  datatype FrameScan = FrameScan(topAnchorYs: seq<real>, bottomAnchorYs: seq<real>,
                                 pitches: seq<nat>, noteNames: seq<string>)

  function Record(s: FrameScan, h: Hit): FrameScan
  {
    match h
    case Skip => s
    case TopAnchor(y) => s.(topAnchorYs := s.topAnchorYs + [y])
    case BottomAnchor(y) => s.(bottomAnchorYs := s.bottomAnchorYs + [y])
    case NoteHit(f, n) => s.(pitches := s.pitches + [f], noteNames := s.noteNames + [n])
  }

  /** The lists after routing the contours in order. */
  function ScanSpec(g: seq<Region>, roiLeft: real, cs: seq<Contour>): FrameScan
  {
    if cs == [] then FrameScan([], [], [], [])
    else Record(ScanSpec(g, roiLeft, cs[..|cs| - 1]), Route(g, roiLeft, cs[|cs| - 1]))
  }

  /** The contour loop of a frame: each contour passes the area, aspect and solidity
      filters, then the strip test, then the first band holding its centre decides
      which list, if any, it goes to. */
  method ScanFrame(g: seq<Region>, roiLeft: real, contours: seq<Contour>) returns (scan: FrameScan)
    ensures scan == ScanSpec(g, roiLeft, contours)
  {
    var topAnchorYs: seq<real> := [];
    var bottomAnchorYs: seq<real> := [];
    var currentPitches: seq<nat> := [];
    var currentNoteNames: seq<string> := [];
    var i := 0;
    while i < |contours|
      invariant 0 <= i <= |contours|
      invariant FrameScan(topAnchorYs, bottomAnchorYs, currentPitches, currentNoteNames)
                == ScanSpec(g, roiLeft, contours[..i])
    {
      var c := contours[i];
      i := i + 1;
      assert contours[..i][..i - 1] == contours[..i - 1];
      if c.area < AreaMin || c.area > AreaMax {
        continue;
      }
      var aspectRatio := (c.width as real) / (c.height as real);
      if aspectRatio < AspectMin || aspectRatio > AspectMax {
        continue;
      }
      if c.hullArea == 0.0 || c.area / c.hullArea < SolidityMin {
        continue;
      }
      var centerX := c.x as real + (c.width as real) / 2.0;
      var centerY := c.y as real + (c.height as real) / 2.0;
      if centerX >= roiLeft && centerX <= roiLeft + RoiWidth as real {
        var found := FindRegion(g, centerY);
        if found.Some? {
          var info := g[found.value];
          if info.name == AnchorTopName {
            topAnchorYs := topAnchorYs + [centerY];
          } else if info.name == AnchorBottomName {
            bottomAnchorYs := bottomAnchorYs + [centerY];
          } else {
            currentPitches := currentPitches + [info.freq];
            currentNoteNames := currentNoteNames + [info.name];
          }
        }
      }
    }
    assert contours[..i] == contours;
    scan := FrameScan(topAnchorYs, bottomAnchorYs, currentPitches, currentNoteNames);
  }

  /** In a rebuilt grid a contour is routed somewhere exactly when it passes the
      filter, its centre lies in the strip, and its centre's y lies within the
      grid's span; an anchor hit lies in that anchor's band, and a note hit
      carries a sounding frequency. */
  lemma RouteInRebuiltGrid(g: seq<Region>, roiLeft: real, c: Contour)
    requires IsRebuilt(g)
    ensures var top, bottom := g[0].minY, g[NumRegions - 1].minY;
            var y := CenterY(c);
            var h := Route(g, roiLeft, c);
            (h != Skip <==> Accept(c) && InRoi(CenterX(c), roiLeft) &&
                            top <= y < bottom + Step(top, bottom)) &&
            (h.TopAnchor? ==> Contains(g[0], h.y)) &&
            (h.BottomAnchor? ==> Contains(g[NumRegions - 1], h.y)) &&
            (h.NoteHit? ==> h.freq != 0)
  {
    var top, bottom := g[0].minY, g[NumRegions - 1].minY;
    var y := CenterY(c);
    GridLookup(top, bottom, y);
    GridLabels(top, bottom);
    var r := FirstContaining(g, y);
    if r.Some? {
      AnchorBands(top, bottom, r.value);
    }
  }

  /** A blob that passes the filter and lies in the strip, with its centre in band k
      of a rebuilt grid, is recorded by that band: its own centre height when k is
      an anchor band, and otherwise the pitch and label of table row k. */
  lemma RouteToBand(g: seq<Region>, roiLeft: real, c: Contour, k: nat)
    requires IsRebuilt(g) && k < NumRegions && Contains(g[k], CenterY(c))
    requires Accept(c) && InRoi(CenterX(c), roiLeft)
    ensures Route(g, roiLeft, c) ==
              if k == 0 then TopAnchor(CenterY(c))
              else if k == NumRegions - 1 then BottomAnchor(CenterY(c))
              else NoteHit(Frequency(Table[k].midi), Table[k].name)
  {
    var top, bottom := g[0].minY, g[NumRegions - 1].minY;
    GridLookup(top, bottom, CenterY(c));
    GridLabels(top, bottom);
    AnchorBands(top, bottom, k);
  }

  /** Two blobs on two different note bands, with no chord remembered, sound one
      two-note chord of those bands' pitches, in contour order, which becomes the
      remembered chord. */
  lemma TwoNoteBandsPlayChord(c: Calibration, roiLeft: real, canvasHeight: int,
                              c1: Contour, c2: Contour, j: nat, k: nat)
    requires IsRebuilt(c.pitchMap)
    requires 1 <= j < NumRegions - 1 && 1 <= k < NumRegions - 1 && j != k
    requires Accept(c1) && InRoi(CenterX(c1), roiLeft) && Contains(c.pitchMap[j], CenterY(c1))
    requires Accept(c2) && InRoi(CenterX(c2), roiLeft) && Contains(c.pitchMap[k], CenterY(c2))
    ensures var chord := [Frequency(Table[j].midi), Frequency(Table[k].midi)];
            var r := FrameStep(c, [], roiLeft, canvasHeight, [c1, c2]);
            r.sounded == Some(chord) && r.lastDetectedPitches == chord
  {
    var g := c.pitchMap;
    TableShape();
    var f1, f2 := Frequency(Table[j].midi), Frequency(Table[k].midi);
    RouteToBand(g, roiLeft, c1, j);
    RouteToBand(g, roiLeft, c2, k);
    var s1 := FrameScan([], [], [f1], [Table[j].name]);
    assert ScanSpec(g, roiLeft, [c1]) == s1 by {
      assert [c1][..0] == [];
    }
    assert ScanSpec(g, roiLeft, [c1, c2]).pitches == [f1, f2] by {
      assert [c1, c2][..1] == [c1];
    }
    assert f1 != f2;
    assert Unique([f1, f2]) == [f1, f2] by {
      assert [f1, f2][..1] == [f1];
      assert [f1][..0] == [];
    }
    assert ChordStep([f1, f2], []) == ChordOutcome(true, [f1, f2]) by {
      assert f1 in multiset([f1, f2]);
    }
  }

  /** A blob above the top edge of a rebuilt grid, or at or below the end of its
      bottom anchor band, is collected nowhere: an anchor that moved up out of the
      top band, or down out of the bottom band, is not seen. */
  lemma OutsideGridUnseen(g: seq<Region>, roiLeft: real, c: Contour)
    requires IsRebuilt(g)
    ensures CenterY(c) < g[0].minY ==> Route(g, roiLeft, c) == Skip
    ensures CenterY(c) >= g[NumRegions - 1].maxY ==> Route(g, roiLeft, c) == Skip
  {
    var top, bottom := g[0].minY, g[NumRegions - 1].minY;
    RouteInRebuiltGrid(g, roiLeft, c);
    GridEnds(top, bottom);
  }

  /** Every contour lands in at most one list, and the pitch and name lists grow together. */
  lemma {:induction false} ScanCounts(g: seq<Region>, roiLeft: real, cs: seq<Contour>)
    ensures var s := ScanSpec(g, roiLeft, cs);
            |s.topAnchorYs| + |s.bottomAnchorYs| + |s.pitches| <= |cs| &&
            |s.pitches| == |s.noteNames|
  {
    if cs != [] {
      ScanCounts(g, roiLeft, cs[..|cs| - 1]);
    }
  }

  /** Against a rebuilt grid, every top (bottom) anchor position collected lies in the
      top (bottom) anchor band and every collected pitch sounds; against the initial
      empty grid nothing is collected. */
  lemma {:induction false} ScanInGrid(g: seq<Region>, roiLeft: real, cs: seq<Contour>)
    requires g == [] || IsRebuilt(g)
    ensures g == [] ==> ScanSpec(g, roiLeft, cs) == FrameScan([], [], [], [])
    ensures g != [] ==> forall y :: y in ScanSpec(g, roiLeft, cs).topAnchorYs ==> Contains(g[0], y)
    ensures g != [] ==> forall y :: y in ScanSpec(g, roiLeft, cs).bottomAnchorYs ==> Contains(g[|g| - 1], y)
    ensures forall f :: f in ScanSpec(g, roiLeft, cs).pitches ==> f != 0
  {
    if cs != [] {
      ScanInGrid(g, roiLeft, cs[..|cs| - 1]);
      if g != [] {
        RouteInRebuiltGrid(g, roiLeft, cs[|cs| - 1]);
      }
    }
  }

  /** The edges measured in a frame lie inside the previous grid's anchor bands: a
      measured top edge never lies above the previous top edge, and a measured edge
      lies less than one band below the previous one. An edge that is not measured
      comes from the cache or the default, at any distance. */
  lemma MeasuredEdgesInBands(g: seq<Region>, roiLeft: real, cs: seq<Contour>)
    requires IsRebuilt(g)
    ensures var s := ScanSpec(g, roiLeft, cs);
            (Mean(s.topAnchorYs).Some? ==> Contains(g[0], Mean(s.topAnchorYs).value)) &&
            (Mean(s.bottomAnchorYs).Some? ==> Contains(g[NumRegions - 1], Mean(s.bottomAnchorYs).value))
  {
    var s := ScanSpec(g, roiLeft, cs);
    TableShape();
    assert g != [];
    ScanInGrid(g, roiLeft, cs);
    if s.topAnchorYs != [] {
      forall k | 0 <= k < |s.topAnchorYs|
        ensures g[0].minY <= s.topAnchorYs[k] < g[0].maxY
      {
        assert s.topAnchorYs[k] in s.topAnchorYs;
      }
      MeanWithin(s.topAnchorYs, g[0].minY, g[0].maxY);
    }
    if s.bottomAnchorYs != [] {
      var last := g[NumRegions - 1];
      forall k | 0 <= k < |s.bottomAnchorYs|
        ensures last.minY <= s.bottomAnchorYs[k] < last.maxY
      {
        assert s.bottomAnchorYs[k] in s.bottomAnchorYs;
      }
      MeanWithin(s.bottomAnchorYs, last.minY, last.maxY);
    }
  }

  /** What a frame leaves behind: the calibration, the remembered chord, and the
      chord it sounded, if any. */
  datatype FrameResult = FrameResult(calibration: Calibration, lastDetectedPitches: seq<nat>,
                                     sounded: Option<seq<nat>>)

  /** One frame: scan against the grid the previous frame left, recalibrate from
      the anchor means, then sound or forget the deduplicated chord. */
  function FrameStep(c: Calibration, last: seq<nat>, roiLeft: real, canvasHeight: int,
                     contours: seq<Contour>): FrameResult
  {
    var scan := ScanSpec(c.pitchMap, roiLeft, contours);
    var cal := Calibrate(c, Mean(scan.topAnchorYs), Mean(scan.bottomAnchorYs), canvasHeight);
    var unique := Unique(scan.pitches);
    var o := ChordStep(unique, last);
    FrameResult(cal, o.last, if o.play then Some(unique) else None)
  }

  /** With the grid built from its cached edges, a set of blobs held still on note
      bands over two frames leaves the grid in place and sounds its chord at most
      once: on the first frame exactly when it differs from the remembered chord,
      never on the second. */
  lemma HeldBlobsSoundOnce(c: Calibration, last: seq<nat>, roiLeft: real, canvasHeight: int,
                           contours: seq<Contour>)
    requires c.lastTopY.Some? && c.lastBottomY.Some?
    requires c.pitchMap == Grid(c.lastTopY.value, c.lastBottomY.value)
    requires var s := ScanSpec(c.pitchMap, roiLeft, contours);
             s.topAnchorYs == [] && s.bottomAnchorYs == [] && s.pitches != []
    ensures var unique := Unique(ScanSpec(c.pitchMap, roiLeft, contours).pitches);
            var r1 := FrameStep(c, last, roiLeft, canvasHeight, contours);
            var r2 := FrameStep(r1.calibration, r1.lastDetectedPitches, roiLeft, canvasHeight, contours);
            r1.calibration == c && r2.calibration == c &&
            (r1.sounded.Some? <==> multiset(unique) != multiset(last)) &&
            (r1.sounded.Some? ==> r1.sounded.value == unique) &&
            r2.sounded.None?
  {
    var s := ScanSpec(c.pitchMap, roiLeft, contours);
    var unique := Unique(s.pitches);
    assert s.pitches[0] in unique;
    var r1 := FrameStep(c, last, roiLeft, canvasHeight, contours);
    ChordStepFollows(unique, last);
    ChordStepFollows(unique, r1.lastDetectedPitches);
  }

  /** The grid's construction: band i spans one step from i steps below the top edge,
      with its midline halfway and its label and frequency from table row i. */
  method BuildGrid(fixedTopY: real, fixedBottomY: real) returns (regions: seq<Region>)
    ensures regions == Grid(fixedTopY, fixedBottomY)
  {
    var actualStepHeight := (fixedBottomY - fixedTopY) / ((NumRegions - 1) as real);
    ghost var g := Grid(fixedTopY, fixedBottomY);
    assert actualStepHeight == Step(fixedTopY, fixedBottomY);
    regions := [];
    for i := 0 to NumRegions
      invariant regions == g[..i]
    {
      var note := Table[i];
      var lineY := fixedTopY + (i as real) * actualStepHeight;
      var centerY := lineY + actualStepHeight / 2.0;
      var frequency := if note.midi != 0 then MidiPitch(note.midi) else 0;
      var region := Region(frequency, note.name, lineY, lineY + actualStepHeight, centerY);
      LineIsProduct(fixedTopY, actualStepHeight, i);
      assert region == RegionAt(fixedTopY, actualStepHeight, i);
      assert region == g[i];
      assert g[..i + 1] == g[..i] + [g[i]];
      regions := regions + [region];
    }
  }

  /** The persistent state of the scanner between frames. */
  class ScannerState {
    var isProcessing: bool
    var canvasWidth: nat
    var canvasHeight: nat
    /** Left edge of the fixed scanning strip. */
    var roiLeft: real
    /** Cached edges of the last joint anchor measurement. */
    var lastTopY: Option<real>
    var lastBottomY: Option<real>
    /** The grid, band by band from the top. */
    var pitchMap: seq<Region>
    /** The chord remembered from the previous frame. */
    var lastDetectedPitches: seq<nat>
    /** Every chord handed to the tone engine, in order. */
    ghost var played: seq<seq<nat>>

    function Calib(): Calibration
      reads this
    {
      Calibration(lastTopY, lastBottomY, pitchMap)
    }

    /** The edges are cached together, the grid is empty or rebuilt, and the
        remembered chord has no repeats and only sounding pitches. */
    ghost predicate Valid()
      reads this
    {
      WellFormed(Calib()) && NoDup(lastDetectedPitches) &&
      forall k :: 0 <= k < |lastDetectedPitches| ==> lastDetectedPitches[k] != 0
    }

    /** The page's initial state: idle, nothing cached, an empty grid, no chord. */
    constructor ()
      ensures Valid() && !isProcessing
      ensures Calib() == Calibration(None, None, []) && lastDetectedPitches == [] && played == []
    {
      isProcessing := false;
      canvasWidth, canvasHeight := 0, 0;
      roiLeft := 0.0;
      lastTopY, lastBottomY := None, None;
      pitchMap := [];
      lastDetectedPitches := [];
      played := [];
    }

    /** Recalibration: resolve each edge from the measurement, the cache or the
        default margin; cache both when both were measured (even when the span then
        turns out degenerate); rebuild the grid band by band unless the span is at
        most the minimum. */
    method CreateDynamicGridMap(topY: Option<real>, bottomY: Option<real>, height: int)
      requires Valid()
      modifies this`lastTopY, this`lastBottomY, this`pitchMap
      ensures Valid()
      ensures Calib() == Calibrate(old(Calib()), topY, bottomY, height)
    {
      ghost var before := Calib();
      var fixedTopY := if topY.Some? then topY.value
                       else if lastTopY.Some? then lastTopY.value else DefaultMargin;
      var fixedBottomY := if bottomY.Some? then bottomY.value
                          else if lastBottomY.Some? then lastBottomY.value else height as real - DefaultMargin;
      CalibrateSpec(before, topY, bottomY, height);
      if topY.Some? && bottomY.Some? {
        lastTopY := Some(fixedTopY);
        lastBottomY := Some(fixedBottomY);
      }
      if fixedBottomY <= fixedTopY + MinSpan {
        return;
      }
      var regions := BuildGrid(fixedTopY, fixedBottomY);
      pitchMap := regions;
    }

    /** Starting (once the camera delivers frames): ignored while running; otherwise
        record the frame size, centre the strip, and recalibrate with no measurement,
        which reuses any edges cached before an earlier stop. */
    method Start(videoWidth: nat, videoHeight: nat)
      requires Valid()
      modifies this
      ensures Valid()
      ensures old(isProcessing) ==> unchanged(this)
      ensures !old(isProcessing) ==>
                isProcessing && canvasWidth == videoWidth && canvasHeight == videoHeight &&
                roiLeft == RoiLeft(videoWidth) &&
                Calib() == Calibrate(old(Calib()), None, None, videoHeight) &&
                lastDetectedPitches == old(lastDetectedPitches) && played == old(played)
    {
      if isProcessing {
        return;
      }
      canvasWidth := videoWidth;
      canvasHeight := videoHeight;
      roiLeft := (canvasWidth as real) / 2.0 - (RoiWidth as real) / 2.0;
      CreateDynamicGridMap(None, None, canvasHeight);
      isProcessing := true;
    }

    /** Stopping: ignored while idle; otherwise only the remembered chord is reset,
        and the cached edges and the grid survive into the next start. */
    method Stop()
      requires Valid()
      modifies this`isProcessing, this`lastDetectedPitches
      ensures Valid()
      ensures old(isProcessing) ==> !isProcessing && lastDetectedPitches == []
      ensures !old(isProcessing) ==> unchanged(this)
    {
      if !isProcessing {
        return;
      }
      isProcessing := false;
      lastDetectedPitches := [];
    }

    /** The chord decision at the end of a frame: a non-empty chord that differs
        from the remembered one, compared regardless of order, goes to the tone
        engine and becomes the remembered chord; an empty chord clears a
        remembered one; otherwise nothing changes. */
    method UpdateChord(uniquePitches: seq<nat>)
      requires Valid()
      requires NoDup(uniquePitches)
      requires forall k :: 0 <= k < |uniquePitches| ==> uniquePitches[k] != 0
      modifies this`lastDetectedPitches, this`played
      ensures Valid()
      ensures var o := ChordStep(uniquePitches, old(lastDetectedPitches));
              lastDetectedPitches == o.last &&
              played == old(played) + (if o.play then [uniquePitches] else [])
    {
      var same := ArraysEqual(uniquePitches, lastDetectedPitches);
      if |uniquePitches| > 0 && !same {
        played := played + [uniquePitches];
        lastDetectedPitches := uniquePitches;
      } else if |uniquePitches| == 0 && |lastDetectedPitches| > 0 {
        lastDetectedPitches := [];
      }
    }

    /** One frame: does nothing unless running; otherwise scans against the grid the
        previous frame left, recalibrates from the anchor means, and settles the
        deduplicated chord. */
    method ProcessFrame(contours: seq<Contour>)
      requires Valid()
      modifies this`lastTopY, this`lastBottomY, this`pitchMap, this`lastDetectedPitches, this`played
      ensures Valid()
      ensures !old(isProcessing) ==> unchanged(this)
      ensures old(isProcessing) ==>
                var r := FrameStep(old(Calib()), old(lastDetectedPitches), roiLeft, canvasHeight, contours);
                Calib() == r.calibration && lastDetectedPitches == r.lastDetectedPitches &&
                played == old(played) + (if r.sounded.Some? then [r.sounded.value] else [])
    {
      if !isProcessing {
        return;
      }
      ghost var before, lastBefore := Calib(), lastDetectedPitches;
      var scan := ScanFrame(pitchMap, roiLeft, contours);
      ScanInGrid(pitchMap, roiLeft, contours);
      var newTopY := Mean(scan.topAnchorYs);
      var newBottomY := Mean(scan.bottomAnchorYs);
      CreateDynamicGridMap(newTopY, newBottomY, canvasHeight);
      var uniquePitches := Unique(scan.pitches);
      forall k | 0 <= k < |uniquePitches|
        ensures uniquePitches[k] != 0
      {
        assert uniquePitches[k] in scan.pitches;
      }
      UpdateChord(uniquePitches);
      ghost var o := ChordStep(uniquePitches, lastBefore);
      assert FrameStep(before, lastBefore, roiLeft, canvasHeight, contours)
             == FrameResult(Calib(), o.last, if o.play then Some(uniquePitches) else None);
    }
  }
}
