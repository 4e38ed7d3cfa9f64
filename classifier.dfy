/** Blob classification: which contours the scanner takes for a marker, where the
    marker's centre is, and whether that centre falls in the fixed scanning strip. */
module Classifier {
  import opened Ratios

  type Positive = n: int | n > 0 witness 1

  /** What the contour extractor reports for one contour: its area, its bounding
      rectangle (integer pixels, never empty) and the area of its convex hull. */
  datatype Contour = Contour(area: real, x: int, y: int, width: Positive, height: Positive, hullArea: real)

  const AreaMin: real := 100.0
  const AreaMax: real := 4000.0
  const AspectMin: real := 0.5
  const AspectMax: real := 2.0
  const SolidityMin: real := 0.8

  /** Width of the fixed scanning strip, in pixels. */
  const RoiWidth: nat := 20

  function AspectRatio(c: Contour): real
  {
    (c.width as real) / (c.height as real)
  }

  /** The filter as the scanner applies it: area first, then aspect ratio, then a
      non-empty hull and the solidity area / hullArea. */
  predicate Accept(c: Contour)
  {
    if c.area < AreaMin || c.area > AreaMax then false
    else if AspectRatio(c) < AspectMin || AspectRatio(c) > AspectMax then false
    else if c.hullArea == 0.0 || c.area / c.hullArea < SolidityMin then false
    else true
  }

  /** A contour is accepted exactly when every criterion holds; the aspect ratio
      test is the same as neither side of the box being more than twice the other,
      and with a positive hull the solidity test is area >= 0.8 * hullArea. */
  lemma AcceptIff(c: Contour)
    ensures Accept(c) <==>
              AreaMin <= c.area <= AreaMax &&
              c.height <= 2 * c.width && c.width <= 2 * c.height &&
              c.hullArea != 0.0 && c.area / c.hullArea >= SolidityMin
    ensures c.hullArea > 0.0 ==>
              (Accept(c) <==>
                 AreaMin <= c.area <= AreaMax &&
                 c.height <= 2 * c.width && c.width <= 2 * c.height &&
                 c.area >= SolidityMin * c.hullArea)
  {
    var w, h := c.width as real, c.height as real;
    QuotientBound(w, h, AspectMin);
    QuotientBound(w, h, AspectMax);
    if c.hullArea > 0.0 {
      QuotientBound(c.area, c.hullArea, SolidityMin);
    }
  }

  /** A contour whose area lies outside [100, 4000] is rejected whatever its shape. */
  lemma AreaOutsideRejected(c: Contour)
    requires c.area < AreaMin || c.area > AreaMax
    ensures !Accept(c)
  {
  }

  /** Centre of the bounding box. */
  function CenterX(c: Contour): real
  {
    c.x as real + (c.width as real) / 2.0
  }

  function CenterY(c: Contour): real
  {
    c.y as real + (c.height as real) / 2.0
  }

  /** Left edge of the scanning strip: the strip is centred on the frame. */
  function RoiLeft(canvasWidth: nat): (left: real)
    ensures left + (RoiWidth as real) / 2.0 == (canvasWidth as real) / 2.0
  {
    (canvasWidth as real) / 2.0 - (RoiWidth as real) / 2.0
  }

  /** The strip is closed on both sides. */
  predicate InRoi(centerX: real, roiLeft: real)
  {
    centerX >= roiLeft && centerX <= roiLeft + RoiWidth as real
  }
}
