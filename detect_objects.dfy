/**
 * The detection component: its per-instance state (the score threshold and
 * the class ids recorded by the last build) and the two per-frame steps that
 * work by mutation, building the detection list and drawing it.
 */
module DetectObjects {
  import opened Options
  import opened Geometry
  import opened Detections
  import opened Canvas

  /** Detections at or below this score are dropped. */
  const DefaultThreshold: real := 0.7

  class DetectObjectsComponent {
    var threshold: real
    /** Class ids of the last build: primary then secondary id per kept candidate. */
    var classes: seq<int>

    constructor ()
      ensures threshold == DefaultThreshold && classes == []
    {
      threshold := DefaultThreshold;
      classes := [];
    }

    /**
     * `buildDetectedObjects`: walks the scores in index order, and for each
     * score strictly above `threshold` records the candidate's two class ids
     * and emits a detection whose box is the normalised corners scaled by the
     * element's offset size. The recorded class ids start afresh on each call.
     */
    method BuildDetectedObjects(raw: RawPrediction, threshold: real, labels: map<int, string>, video: VideoElement)
      returns (detectionObjects: seq<Detection>)
      requires raw.WellShaped()
      modifies this`classes
      ensures detectionObjects == Build(raw, threshold, labels, video)
      ensures classes == ClassPairs(raw, threshold)
    {
      detectionObjects := [];
      classes := [];
      var i := 0;
      while i < |raw.scores|
        invariant 0 <= i <= |raw.scores|
        invariant detectionObjects == BuildUpTo(raw, threshold, labels, video, i)
        invariant classes == ClassPairsUpTo(raw, threshold, i)
      {
        var score := raw.scores[i];
        if score > threshold {
          classes := classes + [raw.primary[i]];
          classes := classes + [raw.secondary[i]];
          var box := raw.boxes[i];
          var minY := box.minY * video.offsetHeight;
          var minX := box.minX * video.offsetWidth;
          var maxY := box.maxY * video.offsetHeight;
          var maxX := box.maxX * video.offsetWidth;
          var bbox := BBox(minX, minY, maxX - minX, maxY - minY);
          assert bbox == ToBBox(box, video.offsetWidth, video.offsetHeight);
          detectionObjects := detectionObjects +
            [Detection(raw.primary[i], ResolveLabel(labels, raw.primary[i], raw.secondary[i]), score, bbox)];
        }
        i := i + 1;
      }
    }

    /**
     * `renderPredictions`: clears the canvas, builds the detections with the
     * component's threshold, then draws in two passes: every outline and
     * label background first, every caption after.
     */
    method RenderPredictions(ctx: Context2D, raw: RawPrediction, labels: map<int, string>, video: VideoElement,
                             measure: Caption -> real)
      requires raw.WellShaped()
      modifies this`classes, ctx`events
      ensures ctx.events == old(ctx.events) + RenderLog(ctx.width, ctx.height, Build(raw, threshold, labels, video), measure)
      ensures classes == ClassPairs(raw, threshold)
    {
      ctx.ClearRect(0.0, 0.0, ctx.width, ctx.height);
      var detections := BuildDetectedObjects(raw, threshold, labels, video);
      DrawBoxes(ctx, detections, measure);
      DrawCaptions(ctx, detections);
    }

    /** The first `forEach` of `renderPredictions`: per detection, its outline, then its label background. */
    method DrawBoxes(ctx: Context2D, detections: seq<Detection>, measure: Caption -> real)
      modifies ctx`events
      ensures ctx.events == old(ctx.events) + BoxPass(detections, measure)
    {
      var k := 0;
      while k < |detections|
        invariant 0 <= k <= |detections|
        invariant ctx.events == old(ctx.events) + BoxPass(detections[..k], measure)
      {
        var item := detections[k];
        var x, y := item.bbox.x, item.bbox.y;
        ctx.StrokeRect(x, y, item.bbox.width, item.bbox.height);
        var textWidth := measure(CaptionOf(item));
        var textHeight := FontPx;
        ctx.FillRect(x, y, textWidth + LabelPadding, textHeight + LabelPadding);
        assert detections[..k + 1][..k] == detections[..k];
        k := k + 1;
      }
      assert detections[..k] == detections;
    }

    /** The second `forEach` of `renderPredictions`: per detection, its caption at the box's corner. */
    method DrawCaptions(ctx: Context2D, detections: seq<Detection>)
      modifies ctx`events
      ensures ctx.events == old(ctx.events) + TextPass(detections)
    {
      var k := 0;
      while k < |detections|
        invariant 0 <= k <= |detections|
        invariant ctx.events == old(ctx.events) + TextPass(detections[..k])
      {
        var item := detections[k];
        ctx.FillText(CaptionOf(item), item.bbox.x, item.bbox.y);
        assert detections[..k + 1][..k] == detections[..k];
        k := k + 1;
      }
      assert detections[..k] == detections;
    }
  }
}
