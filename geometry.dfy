/**
 * Geometry of the video element: turning the detector's normalised corners
 * into an on-screen bounding box, and the letterbox fit of the intrinsic
 * video size into the element's box.
 */
module Geometry {

  /** The part of the video element the component reads. All sizes are CSS pixels. */
  datatype VideoElement = VideoElement(
    videoWidth: real,    // intrinsic width of the decoded stream
    videoHeight: real,   // intrinsic height of the decoded stream
    offsetWidth: real,   // laid-out width of the element
    offsetHeight: real)  // laid-out height of the element

  /** One raw box from the detector, in its own order `[y1, x1, y2, x2]`, normalised to [0, 1]. */
  datatype Corners = Corners(minY: real, minX: real, maxY: real, maxX: real)

  /** A box in pixel space: `[x, y, width, height]`. */
  datatype BBox = BBox(x: real, y: real, width: real, height: real)

  /** A width/height pair, as returned by `videoDimensions`. */
  datatype Dims = Dims(width: real, height: real)

  /**
   * Scales the corners by the element's size, then subtracts the scaled
   * corners to get the extent. The right and bottom edges of the result are
   * exactly the scaled far corners.
   */
  function ToBBox(c: Corners, offsetWidth: real, offsetHeight: real): (b: BBox)
    ensures b.x == c.minX * offsetWidth && b.y == c.minY * offsetHeight
    ensures b.width == (c.maxX - c.minX) * offsetWidth
    ensures b.height == (c.maxY - c.minY) * offsetHeight
    ensures b.x + b.width == c.maxX * offsetWidth
    ensures b.y + b.height == c.maxY * offsetHeight
  {
    var minY := c.minY * offsetHeight;
    var minX := c.minX * offsetWidth;
    var maxY := c.maxY * offsetHeight;
    var maxX := c.maxX * offsetWidth;
    BBox(minX, minY, maxX - minX, maxY - minY)
  }

  /** Corners that are ordered and lie in the unit square. */
  predicate Normalised(c: Corners) {
    0.0 <= c.minX <= c.maxX <= 1.0 && 0.0 <= c.minY <= c.maxY <= 1.0
  }

  /** A normalised box lands inside `[0, w] x [0, h]` with a non-negative extent. */
  lemma BBoxWithinElement(c: Corners, w: real, h: real)
    requires Normalised(c) && w >= 0.0 && h >= 0.0
    ensures var b := ToBBox(c, w, h);
      0.0 <= b.x && 0.0 <= b.width && b.x + b.width <= w &&
      0.0 <= b.y && 0.0 <= b.height && b.y + b.height <= h
  {
  }

  predicate PositiveSizes(video: VideoElement) {
    video.videoWidth > 0.0 && video.videoHeight > 0.0 &&
    video.offsetWidth > 0.0 && video.offsetHeight > 0.0
  }

  /**
   * `videoDimensions`: keeps the element's size on the axis that binds and
   * shrinks the other so the result has the video's aspect ratio. When the
   * element is relatively wider than the video the width shrinks; otherwise
   * (taller, or exactly the same ratio) the height is recomputed.
   */
  function VideoDimensions(video: VideoElement): (d: Dims)
    requires PositiveSizes(video)
    ensures d.width > 0.0 && d.height > 0.0
  {
    var videoRatio := video.videoWidth / video.videoHeight;
    var width := video.offsetWidth;
    var height := video.offsetHeight;
    var elementRatio := width / height;
    if elementRatio > videoRatio then
      Dims(height * videoRatio, height)
    else
      Dims(width, width / videoRatio)
  }

  /**
   * The letterbox fit: the result has the video's aspect ratio, fits inside
   * the element, and fills the element along at least one axis.
   */
  lemma VideoDimensionsFit(video: VideoElement)
    requires PositiveSizes(video)
    ensures var d := VideoDimensions(video);
      d.width * video.videoHeight == d.height * video.videoWidth &&
      d.width <= video.offsetWidth && d.height <= video.offsetHeight &&
      (d.width == video.offsetWidth || d.height == video.offsetHeight)
  {
  }

  /** An element that already has the video's aspect ratio is returned unchanged. */
  lemma VideoDimensionsSameRatio(video: VideoElement)
    requires PositiveSizes(video)
    requires video.offsetWidth * video.videoHeight == video.offsetHeight * video.videoWidth
    ensures VideoDimensions(video) == Dims(video.offsetWidth, video.offsetHeight)
  {
  }
}
