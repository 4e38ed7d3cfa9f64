# Music box scanner: the per-frame pitch pipeline

This project models the core of `30ver.js`, a browser scanner. The scanner
watches markers pass through a fixed vertical strip in the middle of a camera
frame and turns their heights into notes. Each frame it:

1. classifies the contours the image pipeline reports, by area, aspect ratio and
   solidity;
2. keeps the contours whose bounding-box centre lies in the 20-pixel strip;
3. looks each centre's height up in a grid of seventeen horizontal bands: a top
   anchor band, fifteen note bands (C4 to B6) and a bottom anchor band;
4. averages the heights seen in each anchor band and recalibrates the grid from
   those means, falling back to the cached edges and then to default margins;
5. removes repeated pitches from the frame's chord, compares the chord with the
   previous frame's chord regardless of order, and sounds it only when it
   changed.

Modules:

- `Notes` holds the note table.
- `Classifier` holds the contour filter, the box centre and the strip test.
- `PitchGrid` holds the grid, its lookup, the rounding keys and the
  calibration step as a function.
- `Anchors` holds the anchor means.
- `Chord` holds sorting, the order-insensitive comparison, duplicate removal and
  the chord transition.
- `Scanner` holds the contour loop, the whole frame as a function, and the
  class `ScannerState`. Its fields are the page's globals: `lastTopY`,
  `lastBottomY`, `PITCH_MAP` (`pitchMap`, a sequence indexed by band) and
  `lastDetectedPitches`. Its methods are the start, stop and per-frame
  handlers.

Every chord handed to the tone engine is appended to the ghost field
`played`.

Where the code departs from what its purpose suggests, the model follows the code:

- The scan looks centres up in the grid the previous frame left. The grid is
  recalibrated after the scan, and there is no second pass against the new grid.
- The strip is fixed and centred. It is closed on both sides, `[roiLeft, roiLeft + 20]`,
  and there is no tracking or smoothing window.
- The grid is kept when the resolved bottom edge is at most 5 pixels below the
  top edge (`<=`, not `<`).
- A joint measurement updates the edge cache before that test, so a degenerate
  pair of edges is still cached.
- Anchor bands carry frequency 0, not a null frequency.
- The grid covers `[top, bottom + step)`, not `[top, bottom)`: the bottom anchor
  band begins at the bottom edge.
- Stopping resets only the remembered chord. The cached edges and the grid
  survive, and the next start recalibrates with no measurement, so it reuses
  the cached edges.
- Anchors are looked for only inside the previous grid's anchor bands, and each
  anchor band begins at its edge. So a measured edge never moves up the frame,
  and moves down by less than one band. An anchor that drifts above its band is
  not seen while the grid stays where it is (`Scanner.OutsideGridUnseen`). A
  later frame that takes the edge from the cache can bring the band back over
  the anchor.
- The edge cache changes only when both anchors are measured in the same frame.
  Frames that see one anchor walk that edge away from the cache. The next frame
  that sees neither anchor puts the edge back at the cached value, however far
  that is (`PitchGrid.CacheWalkAndSnapBack`).

## Model

| member | source | states |
|---|---|---|
| Notes.TableShape | 30ver.js:25-46 | seventeen rows: the top anchor with MIDI 0 first, the bottom anchor with MIDI 0 last, and fifteen notes in between with distinct non-anchor labels and strictly rising pitch |
| Notes.Frequency | 30ver.js:97 | a row's frequency is silent (0) exactly when its MIDI number is 0 |
| Classifier.AcceptIff | 30ver.js:279-299 | a contour is accepted iff 100 <= area <= 4000, neither box side exceeds twice the other (0.5 <= w/h <= 2), the hull is non-empty and area/hull >= 0.8; with a positive hull the last test is area >= 0.8 * hull |
| Classifier.AreaOutsideRejected | 30ver.js:280-282 | a contour with area outside [100, 4000] is rejected whatever its shape |
| Classifier.RoiLeft | 30ver.js:157 | the strip's left edge lies half a strip width left of the frame's centre |
| PitchGrid.BandStarts | 30ver.js:91-94 | band i starts i steps below the top edge: minY = top + i * step |
| PitchGrid.GridGeometry | 30ver.js:86-106 | for top < bottom the grid has 17 bands and a positive step that is one sixteenth of the span; band 0 starts at the top edge and band 16 at the bottom edge; every band is one step high with its midline half a step down; consecutive bands touch (maxY of i is minY of i+1), and minY strictly increases |
| PitchGrid.GridLabels | 30ver.js:91-101 | band i carries table row i's label and frequency (silent for MIDI 0, the row's pitch otherwise); so band 0 is the top anchor and band 16 the bottom anchor, both silent, and bands 1..15 sound and carry no anchor label |
| PitchGrid.AnchorBands | 30ver.js:315-321 | in a rebuilt grid the band labelled top anchor is exactly band 0, and the band labelled bottom anchor exactly band 16 |
| PitchGrid.ExampleFiftyToFourFifty | 30ver.js:86-105 | edges 50 and 450 give step 25, band 0 = [50, 75) with midline 62.5, and band 16 = [450, 475) |
| PitchGrid.FirstContaining | 30ver.js:311-314 | the result is the first band, in band order, whose half-open [minY, maxY) holds y; it is None exactly when no band holds y |
| PitchGrid.FindRegion | 30ver.js:311-329 | the loop over the bands that stops at the first band holding y returns the first containing band |
| PitchGrid.GridLookup | 30ver.js:311-314 | in a rebuilt grid y lies in some band iff top <= y < bottom + step, and any band holding y is the one found, so the bands neither overlap nor leave gaps |
| PitchGrid.RoundedKeysIncrease | 30ver.js:99 | with a step of at least one pixel, the bands' rounded midlines (the map keys) strictly increase, so no band overwrites another and key order is band order |
| PitchGrid.DenseGridKeysCollide | 30ver.js:99 | with edges 10 and 20 (step 0.625) bands 2 and 3 round to the same key 12 |
| PitchGrid.CalibrateSpec | 30ver.js:70-108 | each edge resolves to the measurement, else the cached edge, else 10 / height - 10; the cache changes only when both edges were measured, and then holds them; when bottom > top + 5 the grid is replaced by the grid of the resolved edges, and otherwise it is kept; the invariant (edges cached together, grid empty or rebuilt) is kept |
| PitchGrid.CalibrateIdempotent | 30ver.js:70-109 | feeding the same measurements twice leaves the state of feeding them once |
| PitchGrid.CacheWalkAndSnapBack | 30ver.js:73-84 | starting from edges 50 and 450, top-only measurements at 70, 90 and 110 each fall in the previous top band; they move the grid but not the cache; the next frame with no anchors restores the cached edge 50, more than two bands from 110 |
| PitchGrid.CalibrateHoldsWhenAnchorsLost | 30ver.js:72-108 | from any state, a joint measurement caches both edges and, when their span exceeds 5, builds their grid; a following frame that sees neither anchor leaves the cache and the grid unchanged |
| Anchors.Mean | 30ver.js:334-343 | the mean is absent exactly when the list is empty, and otherwise times the count equals the sum |
| Anchors.MeanWithin | 30ver.js:338-343 | the mean of heights that all lie in a band [lo, hi) lies in that band |
| Chord.Insert | 30ver.js:61-62 | inserting into an ascending list keeps it ascending and adds exactly the one element |
| Chord.SortedCopy | 30ver.js:61-62 | the copy is ascending and holds the same elements with the same multiplicities |
| Chord.SortedUnique | 30ver.js:61-66 | two ascending lists with the same elements and multiplicities are equal, so comparing sorted copies position by position decides multiset equality |
| Chord.ArraysEqual | 30ver.js:59-67 | the comparison holds exactly when both lists hold the same elements the same number of times, so it ignores order and is reflexive |
| Chord.Unique | 30ver.js:386 | the result has no repeats, holds exactly the elements of the input, and is no longer than it |
| Chord.NoDupMultisetIsSet | 30ver.js:386-389 | for lists without repeats, multiset equality is set equality, so comparing deduplicated chords compares pitch sets |
| Chord.ChordStepFollows | 30ver.js:389-401 | the chord sounds iff it is non-empty and differs from the remembered one; the remembered chord then becomes the frame's list; after any frame it holds the frame's pitches |
| Chord.HeldChordSilent | 30ver.js:389-401 | holding a non-empty chord that is already remembered sounds nothing over any number of frames |
| Chord.HeldChordPlaysOnce | 30ver.js:389-401 | the same non-empty chord over consecutive frames sounds once, on the first frame, unless it was already remembered, and never again |
| Scanner.ScanFrame | 30ver.js:269-331 | the contour loop with its filters, strip test and first-band lookup fills the four lists exactly as routing the contours one by one does |
| Scanner.RouteInRebuiltGrid | 30ver.js:279-329 | in a rebuilt grid a contour is routed somewhere iff it is accepted, its centre is in the strip and its height is within the grid's span; an anchor hit lies in that anchor's band and a note hit has a non-zero frequency |
| Scanner.RouteToBand | 30ver.js:311-327 | an accepted blob in the strip whose centre lies in band k of a rebuilt grid is recorded by band k: its own centre height in the top or bottom anchor list for k = 0 or 16, otherwise table row k's pitch and label |
| Scanner.TwoNoteBandsPlayChord | 30ver.js:311-401 | two accepted blobs in the strip on two different note bands, with no chord remembered, sound exactly the two-note chord of those bands' pitches, which becomes the remembered chord |
| Scanner.ScanCounts | 30ver.js:311-329 | each contour lands in at most one list, and the pitch and name lists have equal length |
| Scanner.ScanInGrid | 30ver.js:311-329 | against the initial empty grid nothing is collected; against a rebuilt grid collected top and bottom heights lie in their anchor bands, and collected pitches are non-zero |
| Scanner.MeasuredEdgesInBands | 30ver.js:334-347 | a frame's measured edges lie in the previous grid's anchor bands: each measured edge is never above the previous edge and less than one band below it; edges that are not measured are not constrained |
| Scanner.OutsideGridUnseen | 30ver.js:311-314 | a blob above a rebuilt grid's top edge, or at or below the end of its bottom anchor band, is collected in no list |
| Scanner.HeldBlobsSoundOnce | 30ver.js:333-401 | with the grid built from the cached edges and no anchor in view, blobs held still on note bands keep the grid in place and sound their chord at most once over two frames, on the first frame exactly when it differs from the remembered chord |
| Scanner.BuildGrid | 30ver.js:86-108 | the band-by-band loop builds exactly the grid of the two edges |
| Scanner.ScannerState.constructor | 30ver.js:15-51 | the page starts idle, with no cached edges, an empty grid and no remembered chord |
| Scanner.ScannerState.CreateDynamicGridMap | 30ver.js:70-109 | the new cache and grid are one calibration step from the old ones, and the state invariant is kept |
| Scanner.ScannerState.Start | 30ver.js:128-171 | ignored while running; otherwise it records the frame size, centres the strip, recalibrates with no measurement (reusing cached edges), keeps the remembered chord and starts processing |
| Scanner.ScannerState.Stop | 30ver.js:181-189 | ignored while idle; otherwise processing stops and only the remembered chord is reset |
| Scanner.ScannerState.UpdateChord | 30ver.js:385-401 | the remembered chord and the played log follow one chord transition: a changed non-empty chord is appended to the log |
| Scanner.ScannerState.ProcessFrame | 30ver.js:247-401 | a frame does nothing while idle; otherwise the cache, grid, remembered chord and played log become those of one frame step (scan against the previous grid, recalibrate from the anchor means, settle the deduplicated chord), and the invariant is kept |

## Left out

- Host plumbing is not modelled: buttons, status text, the camera request and its
  failure path, teardown of the stream and the image buffers, and frame
  scheduling. `Start` is the moment the camera's metadata arrives.
- The image preprocessing (grayscale, threshold, erosion, contour extraction) is
  left out. Each contour arrives as its area, bounding box and hull area, with a
  positive box width and height.
- Drawing is left out: the strip box, midlines and labels. So are the
  deduplicated note names, which only feed the status text.
- The tone engine and its audio context are not modelled. A sounded chord is
  appended to the ghost log `played`.
- Notes.Frequency: a pitch is its MIDI number, not `440 * 2^((m - 69)/12)` Hz.
  The conversion is strictly increasing, so equality and order of pitches are
  the same.
- Floating point is not modelled: coordinates, steps and means are exact reals,
  so band boundaries that double rounding would shift are not captured.
- PitchGrid.Grid: the grid is a sequence indexed by band, not an object keyed by
  rounded midlines. With a step below one pixel, two bands can share a key and
  the later one replaces the earlier, which the sequence does not do
  (`PitchGrid.DenseGridKeysCollide` exhibits such a pair). With a step of at
  least one pixel the keys are distinct and ascending
  (`PitchGrid.RoundedKeysIncrease`).
- Key order is not modelled: the object is visited in integer-key order, with
  negative keys last. Since the bands are disjoint (`PitchGrid.GridLookup`),
  the first band holding a height is the only one, so visiting order does not
  change the result.
- The guard `if (PITCH_MAP)` is always true, because an object is truthy. The
  model recalibrates unconditionally.
- Chord.Unique: the contract states no repeats and the same elements, but not
  that the kept elements stay in order of first occurrence. The function's
  definition keeps that order, as the set construction does.
