/**
 * The fit geometry used when an uploaded image is drawn onto the meme canvas:
 * the image is scaled so that it preserves its aspect ratio, touches one pair
 * of canvas edges and is centred along the other axis.
 *
 * Dimensions are exact reals rather than IEEE doubles, and all four inputs
 * are positive, so the aspect-ratio division is always defined.
 */
module Geometry {

  /** The rectangle an image is drawn into: its size and its top-left corner. */
  datatype Rect = Rect(width: real, height: real, startX: real, startY: real)

  /** True when the rectangle lies inside a canvas of the given size. */
  predicate FitsInside(r: Rect, canvasWidth: real, canvasHeight: real)
  {
    && 0.0 <= r.startX && r.startX + r.width <= canvasWidth
    && 0.0 <= r.startY && r.startY + r.height <= canvasHeight
  }

  /** An image taller than it is wide is drawn in the portrait branch. */
  predicate IsPortrait(imageWidth: real, imageHeight: real)
    requires imageHeight > 0.0
  {
    imageWidth / imageHeight < 1.0
  }

  lemma PortraitIsNarrow(imageWidth: real, imageHeight: real)
    requires imageWidth > 0.0 && imageHeight > 0.0
    ensures IsPortrait(imageWidth, imageHeight) <==> imageWidth < imageHeight
  {
    var ratio := imageWidth / imageHeight;
    assert ratio * imageHeight == imageWidth;
    if imageWidth < imageHeight {
      assert ratio < 1.0 by {
        if ratio >= 1.0 {
          MulMonotone(1.0, ratio, imageHeight);
        }
      }
    }
  }

  /** Multiplying by a positive factor keeps a non-strict order. */
  lemma MulMonotone(a: real, b: real, k: real)
    requires a <= b && k > 0.0
    ensures a * k <= b * k
  {
  }

  /**
   * The placement of an image of the given size on a canvas of the given
   * size. A portrait image takes the full canvas height and is centred
   * horizontally; a landscape or square one takes the full canvas width and
   * is centred vertically.
   */
  function GetDimensions(canvasWidth: real, canvasHeight: real, imageWidth: real, imageHeight: real): (r: Rect)
    requires canvasWidth > 0.0 && canvasHeight > 0.0
    requires imageWidth > 0.0 && imageHeight > 0.0
    // portrait branch: full height, flush with the top, width in proportion
    ensures imageWidth < imageHeight ==>
              && r.height == canvasHeight && r.startY == 0.0
              && r.width * imageHeight == canvasHeight * imageWidth
    // landscape or square branch: full width, flush with the left, height in proportion
    ensures imageWidth >= imageHeight ==>
              && r.width == canvasWidth && r.startX == 0.0
              && r.height * imageWidth == canvasWidth * imageHeight
    // the aspect ratio of the image is kept
    ensures r.width * imageHeight == r.height * imageWidth
    // the image is centred on both axes
    ensures 2.0 * r.startX + r.width == canvasWidth
    ensures 2.0 * r.startY + r.height == canvasHeight
    ensures r.width > 0.0 && r.height > 0.0
  {
    PortraitIsNarrow(imageWidth, imageHeight);
    var aspectRatio := imageWidth / imageHeight;
    assert aspectRatio * imageHeight == imageWidth;
    if aspectRatio < 1.0 then
      var height := canvasHeight;
      var width := canvasHeight * aspectRatio;
      Rect(width, height, (canvasWidth - width) / 2.0, 0.0)
    else
      var width := canvasWidth;
      var height := canvasWidth / aspectRatio;
      assert height * aspectRatio == canvasWidth;
      assert height * imageWidth == height * aspectRatio * imageHeight;
      Rect(width, height, 0.0, (canvasHeight - height) / 2.0)
  }

  /**
   * The placement lies inside the canvas exactly when the scaled image's
   * other dimension does not exceed the canvas along that axis.
   */
  lemma FitsInsideExactly(canvasWidth: real, canvasHeight: real, imageWidth: real, imageHeight: real)
    requires canvasWidth > 0.0 && canvasHeight > 0.0
    requires imageWidth > 0.0 && imageHeight > 0.0
    ensures FitsInside(GetDimensions(canvasWidth, canvasHeight, imageWidth, imageHeight), canvasWidth, canvasHeight)
            <==> if imageWidth < imageHeight
                 then canvasHeight * imageWidth <= canvasWidth * imageHeight
                 else canvasWidth * imageHeight <= canvasHeight * imageWidth
  {
  }

  /**
   * On a square canvas every image fits: the placement lies inside the
   * canvas and has a positive size no larger than the canvas.
   */
  lemma SquareCanvasFits(canvasWidth: real, canvasHeight: real, imageWidth: real, imageHeight: real)
    requires canvasWidth > 0.0 && canvasHeight > 0.0
    requires imageWidth > 0.0 && imageHeight > 0.0
    requires canvasWidth == canvasHeight
    ensures var r := GetDimensions(canvasWidth, canvasHeight, imageWidth, imageHeight);
            && FitsInside(r, canvasWidth, canvasHeight)
            && 0.0 < r.width <= canvasWidth && 0.0 < r.height <= canvasHeight
  {
  }

  /**
   * On a canvas that is not square the placement can overflow: a 1000 by 900
   * image on a 500 by 400 canvas is drawn 450 high.
   */
  lemma WideCanvasOverflow()
    ensures GetDimensions(500.0, 400.0, 1000.0, 900.0).height == 450.0
    ensures !FitsInside(GetDimensions(500.0, 400.0, 1000.0, 900.0), 500.0, 400.0)
  {
  }

  /** The placement always spans the full width or the full height of the canvas. */
  lemma TouchesOneEdge(canvasWidth: real, canvasHeight: real, imageWidth: real, imageHeight: real)
    requires canvasWidth > 0.0 && canvasHeight > 0.0
    requires imageWidth > 0.0 && imageHeight > 0.0
    ensures var r := GetDimensions(canvasWidth, canvasHeight, imageWidth, imageHeight);
            r.width == canvasWidth || r.height == canvasHeight
  {
  }

  /**
   * A square image takes the canvas width on both axes, whatever the
   * canvas height.
   */
  lemma SquareImage(canvasWidth: real, canvasHeight: real, side: real)
    requires canvasWidth > 0.0 && canvasHeight > 0.0 && side > 0.0
    ensures var r := GetDimensions(canvasWidth, canvasHeight, side, side);
            r.width == canvasWidth && r.height == canvasWidth && r.startX == 0.0
  {
  }

  /** A 1000 by 500 image on a 500 by 400 canvas: the landscape branch. */
  lemma LandscapeExample()
    ensures GetDimensions(500.0, 400.0, 1000.0, 500.0) == Rect(500.0, 250.0, 0.0, 75.0)
  {
  }

  /** A 400 by 800 image on a 500 by 400 canvas: the portrait branch. */
  lemma PortraitExample()
    ensures GetDimensions(500.0, 400.0, 400.0, 800.0) == Rect(200.0, 400.0, 150.0, 0.0)
  {
  }
}
