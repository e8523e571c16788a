/** The image-fit calculation of the meme generator: how an uploaded image is
    scaled, keeping its aspect ratio, and placed on the canvas it is drawn on. */
module ImageFit {

  /** The rectangle the image is drawn in: its size and its top-left corner. */
  datatype Dimensions = Dimensions(width: real, height: real, startX: real, startY: real)

  /** Side of the square canvas that the image-load handler draws on. */
  const CanvasSize: real := 400.0

  /** The image is taller than it is wide: its aspect ratio is below 1. */
  predicate IsTall(imageWidth: real, imageHeight: real)
    requires imageHeight != 0.0
  {
    imageWidth / imageHeight < 1.0
  }

  /** Scales the image so that it fills the canvas along one axis and centres
      it along the other. Which axis is filled depends only on the image's own
      aspect ratio, never on the canvas's. */
  function GetDimensions(canvasWidth: real, canvasHeight: real, imageWidth: real, imageHeight: real): (r: Dimensions)
    requires imageHeight != 0.0
    // the drawn rectangle keeps the image's aspect ratio
    ensures r.width * imageHeight == r.height * imageWidth
    // a tall image fills the height and starts at the top edge
    ensures IsTall(imageWidth, imageHeight) ==> r.height == canvasHeight && r.startY == 0.0
    // any other image fills the width and starts at the left edge
    ensures !IsTall(imageWidth, imageHeight) ==> r.width == canvasWidth && r.startX == 0.0
    // the rectangle is centred on both axes
    ensures 2.0 * r.startX + r.width == canvasWidth
    ensures 2.0 * r.startY + r.height == canvasHeight
  {
    var aspectRatio := imageWidth / imageHeight;
    if aspectRatio < 1.0 then
      var width := canvasHeight * aspectRatio;
      assert width * imageHeight == canvasHeight * (aspectRatio * imageHeight);
      Dimensions(width, canvasHeight, (canvasWidth - width) / 2.0, 0.0)
    else
      var height := canvasWidth / aspectRatio;
      assert imageWidth != 0.0;
      assert height * imageWidth == canvasWidth * imageHeight by {
        assert aspectRatio * imageHeight == imageWidth;
        assert height * aspectRatio == canvasWidth;
      }
      Dimensions(canvasWidth, height, 0.0, (canvasHeight - height) / 2.0)
  }

  /** Multiplying by a positive factor keeps a strict order. */
  lemma MulStrict(a: real, b: real, c: real)
    requires a < b && c > 0.0
    ensures a * c < b * c
  {
  }

  /** Multiplying by a positive factor keeps a weak order. */
  lemma MulWeak(a: real, b: real, c: real)
    requires a <= b && c > 0.0
    ensures a * c <= b * c
  {
  }

  /** For positive dimensions, "tall" is simply "narrower than high". */
  lemma TallIffNarrower(imageWidth: real, imageHeight: real)
    requires imageWidth > 0.0 && imageHeight > 0.0
    ensures IsTall(imageWidth, imageHeight) <==> imageWidth < imageHeight
  {
    var aspectRatio := imageWidth / imageHeight;
    assert aspectRatio * imageHeight == imageWidth;
    if aspectRatio < 1.0 {
      MulStrict(aspectRatio, 1.0, imageHeight);
    } else {
      MulWeak(1.0, aspectRatio, imageHeight);
    }
  }

  /** On a square canvas, the only way the page calls the calculation, an
      image of positive size is drawn inside the canvas, with non-negative
      offsets, and is never shrunk to nothing. */
  lemma FitsSquareCanvas(size: real, imageWidth: real, imageHeight: real)
    requires size > 0.0 && imageWidth > 0.0 && imageHeight > 0.0
    ensures var r := GetDimensions(size, size, imageWidth, imageHeight);
      && 0.0 < r.width <= size && 0.0 < r.height <= size
      && r.startX >= 0.0 && r.startY >= 0.0
  {
    var r := GetDimensions(size, size, imageWidth, imageHeight);
    TallIffNarrower(imageWidth, imageHeight);
    if imageWidth < imageHeight {
      // r.width * imageHeight == size * imageWidth < size * imageHeight
      assert r.width * imageHeight < size * imageHeight;
      assert r.width * imageHeight > 0.0;
    } else {
      // r.height * imageWidth == size * imageHeight <= size * imageWidth
      assert r.height * imageWidth <= size * imageWidth;
      assert r.height * imageWidth > 0.0;
    }
  }

  /** The drawn rectangle is at least as large as any copy of the image,
      scaled by a positive factor, that fits inside the canvas: no larger
      copy fits. This holds for every canvas, square or not. */
  lemma FitIsLargest(canvasWidth: real, canvasHeight: real, imageWidth: real, imageHeight: real, scale: real)
    requires imageWidth > 0.0 && imageHeight > 0.0 && scale > 0.0
    requires scale * imageWidth <= canvasWidth && scale * imageHeight <= canvasHeight
    ensures var r := GetDimensions(canvasWidth, canvasHeight, imageWidth, imageHeight);
      scale * imageWidth <= r.width && scale * imageHeight <= r.height
  {
    TallIffNarrower(imageWidth, imageHeight);
  }

  /** On a canvas of any shape, the image stays inside exactly when the filled
      axis's scale leaves the other axis within bounds. */
  lemma FitsExactlyWhen(canvasWidth: real, canvasHeight: real, imageWidth: real, imageHeight: real)
    requires canvasWidth > 0.0 && canvasHeight > 0.0 && imageWidth > 0.0 && imageHeight > 0.0
    ensures var r := GetDimensions(canvasWidth, canvasHeight, imageWidth, imageHeight);
      (r.width <= canvasWidth && r.height <= canvasHeight && r.startX >= 0.0 && r.startY >= 0.0)
      <==>
      (if imageWidth < imageHeight then canvasHeight * imageWidth <= canvasWidth * imageHeight
       else canvasWidth * imageHeight <= canvasHeight * imageWidth)
  {
    var r := GetDimensions(canvasWidth, canvasHeight, imageWidth, imageHeight);
    TallIffNarrower(imageWidth, imageHeight);
    if imageWidth < imageHeight {
      assert r.width * imageHeight == canvasHeight * imageWidth;
      assert r.width <= canvasWidth <==> r.width * imageHeight <= canvasWidth * imageHeight;
    } else {
      assert r.height * imageWidth == canvasWidth * imageHeight;
      assert r.height <= canvasHeight <==> r.height * imageWidth <= canvasHeight * imageWidth;
    }
  }

  /** The branch ignores the canvas's own shape, so on a 400 x 100 canvas a
      2:1 image is drawn 200 high and starts 50 above the canvas. */
  lemma NonSquareCanvasOverflows()
    ensures GetDimensions(400.0, 100.0, 800.0, 400.0) == Dimensions(400.0, 200.0, 0.0, -50.0)
  {
  }

  /** The rectangle the image-load handler draws a freshly loaded image in:
      it fits the 400 x 400 canvas and is centred on it. */
  function LoadedImageRect(imageWidth: real, imageHeight: real): (r: Dimensions)
    requires imageWidth > 0.0 && imageHeight > 0.0
    ensures 0.0 < r.width <= CanvasSize && 0.0 < r.height <= CanvasSize
    ensures r.startX >= 0.0 && r.startY >= 0.0
    ensures r.startX + r.width + r.startX == CanvasSize
    ensures r.startY + r.height + r.startY == CanvasSize
    ensures r.width == CanvasSize || r.height == CanvasSize
    ensures r.width * imageHeight == r.height * imageWidth
  {
    FitsSquareCanvas(CanvasSize, imageWidth, imageHeight);
    GetDimensions(CanvasSize, CanvasSize, imageWidth, imageHeight)
  }

  /** Three images on the 400 x 400 canvas: wide, tall and square. */
  lemma Scenarios()
    ensures LoadedImageRect(800.0, 400.0) == Dimensions(400.0, 200.0, 0.0, 100.0)
    ensures LoadedImageRect(200.0, 800.0) == Dimensions(100.0, 400.0, 150.0, 0.0)
    ensures LoadedImageRect(400.0, 400.0) == Dimensions(400.0, 400.0, 0.0, 0.0)
  {
  }
}
