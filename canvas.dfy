/**
 * The overlay canvas as an append-only log of draw calls, and the log that
 * one render of a detection list produces: a clear, then a box outline and a
 * label background per detection, then the label text per detection.
 */
module Canvas {
  import opened Options
  import opened Detections

  /** Height in pixels of the label font, "16px sans-serif". */
  const FontPx: real := 16.0
  /** Padding added to the measured text on the label background. */
  const LabelPadding: real := 4.0

  /** What a label shows: the label text and the score it is printed with. */
  datatype Caption = Caption(labelText: Option<string>, score: real)

  datatype DrawEvent =
    | Clear(x: real, y: real, width: real, height: real)
    | StrokeRect(x: real, y: real, width: real, height: real)
    | FillRect(x: real, y: real, width: real, height: real)
    | FillText(caption: Caption, x: real, y: real)

  predicate IsBoxEvent(e: DrawEvent) {
    e.StrokeRect? || e.FillRect?
  }

  /** A 2D rendering context; every draw call is appended to `events`. */
  class Context2D {
    const width: real
    const height: real
    var events: seq<DrawEvent>

    constructor (width: real, height: real)
      ensures this.width == width && this.height == height && events == []
    {
      this.width := width;
      this.height := height;
      events := [];
    }

    method ClearRect(x: real, y: real, w: real, h: real)
      modifies this`events
      ensures events == old(events) + [Clear(x, y, w, h)]
    {
      events := events + [Clear(x, y, w, h)];
    }

    method StrokeRect(x: real, y: real, w: real, h: real)
      modifies this`events
      ensures events == old(events) + [DrawEvent.StrokeRect(x, y, w, h)]
    {
      events := events + [DrawEvent.StrokeRect(x, y, w, h)];
    }

    method FillRect(x: real, y: real, w: real, h: real)
      modifies this`events
      ensures events == old(events) + [DrawEvent.FillRect(x, y, w, h)]
    {
      events := events + [DrawEvent.FillRect(x, y, w, h)];
    }

    method FillText(caption: Caption, x: real, y: real)
      modifies this`events
      ensures events == old(events) + [DrawEvent.FillText(caption, x, y)]
    {
      events := events + [DrawEvent.FillText(caption, x, y)];
    }
  }

  function CaptionOf(d: Detection): Caption {
    Caption(d.labelText, d.score)
  }

  /** First pass, for one detection: its outline, then its label background sized by the measured caption. */
  function BoxEvents(d: Detection, measure: Caption -> real): seq<DrawEvent> {
    [StrokeRect(d.bbox.x, d.bbox.y, d.bbox.width, d.bbox.height),
     FillRect(d.bbox.x, d.bbox.y, measure(CaptionOf(d)) + LabelPadding, FontPx + LabelPadding)]
  }

  /** First pass over a detection list. */
  function BoxPass(ds: seq<Detection>, measure: Caption -> real): seq<DrawEvent> {
    if ds == [] then [] else BoxPass(ds[..|ds| - 1], measure) + BoxEvents(ds[|ds| - 1], measure)
  }

  /** Second pass over a detection list: each caption at its box's top-left corner. */
  function TextPass(ds: seq<Detection>): seq<DrawEvent> {
    if ds == [] then [] else TextPass(ds[..|ds| - 1]) + [FillText(CaptionOf(ds[|ds| - 1]), ds[|ds| - 1].bbox.x, ds[|ds| - 1].bbox.y)]
  }

  /** The draw calls of one render on a canvas of the given size. */
  function RenderLog(canvasWidth: real, canvasHeight: real, ds: seq<Detection>, measure: Caption -> real): seq<DrawEvent> {
    [Clear(0.0, 0.0, canvasWidth, canvasHeight)] + BoxPass(ds, measure) + TextPass(ds)
  }

  /** The first pass draws, for the j-th detection, its outline at 2j and its label background at 2j+1. */
  lemma {:induction false} BoxPassShape(ds: seq<Detection>, measure: Caption -> real)
    ensures |BoxPass(ds, measure)| == 2 * |ds|
    ensures forall j :: 0 <= j < |ds| ==>
      BoxPass(ds, measure)[2 * j] == StrokeRect(ds[j].bbox.x, ds[j].bbox.y, ds[j].bbox.width, ds[j].bbox.height) &&
      BoxPass(ds, measure)[2 * j + 1] == FillRect(ds[j].bbox.x, ds[j].bbox.y, measure(CaptionOf(ds[j])) + LabelPadding, FontPx + LabelPadding)
  {
    if ds != [] {
      var init := ds[..|ds| - 1];
      BoxPassShape(init, measure);
      assert forall j :: 0 <= j < |init| ==> ds[j] == init[j];
    }
  }

  /** The second pass writes exactly one caption per detection, in list order. */
  lemma {:induction false} TextPassShape(ds: seq<Detection>)
    ensures |TextPass(ds)| == |ds|
    ensures forall j :: 0 <= j < |ds| ==> TextPass(ds)[j] == FillText(CaptionOf(ds[j]), ds[j].bbox.x, ds[j].bbox.y)
  {
    if ds != [] {
      var init := ds[..|ds| - 1];
      TextPassShape(init);
      assert forall j :: 0 <= j < |init| ==> ds[j] == init[j];
    }
  }

  /**
   * The shape of one render: a single clear first, 3n events in all, every
   * box event before every text event; so no label text can be covered by a
   * later detection's box or background.
   */
  lemma RenderLogShape(canvasWidth: real, canvasHeight: real, ds: seq<Detection>, measure: Caption -> real)
    ensures var log := RenderLog(canvasWidth, canvasHeight, ds, measure);
      |log| == 1 + 3 * |ds| &&
      log[0] == Clear(0.0, 0.0, canvasWidth, canvasHeight) &&
      (forall k :: 1 <= k <= 2 * |ds| ==> IsBoxEvent(log[k])) &&
      (forall k :: 2 * |ds| < k < |log| ==> log[k].FillText?) &&
      (forall a, b :: 0 <= a < b < |log| && log[a].FillText? ==> log[b].FillText?)
  {
    var log := RenderLog(canvasWidth, canvasHeight, ds, measure);
    BoxPassShape(ds, measure);
    TextPassShape(ds);
    var boxes := BoxPass(ds, measure);
    forall k | 1 <= k <= 2 * |ds|
      ensures IsBoxEvent(log[k])
    {
      assert log[k] == boxes[k - 1];
      var j := (k - 1) / 2;
      assert 0 <= j < |ds|;
      var d := ds[j];
      if (k - 1) % 2 == 0 {
        assert k - 1 == 2 * j;
        assert boxes[2 * j] == StrokeRect(d.bbox.x, d.bbox.y, d.bbox.width, d.bbox.height);
      } else {
        assert k - 1 == 2 * j + 1;
        assert boxes[2 * j + 1] == FillRect(d.bbox.x, d.bbox.y, measure(CaptionOf(d)) + LabelPadding, FontPx + LabelPadding);
      }
    }
    assert forall k :: 2 * |ds| < k < |log| ==> log[k] == TextPass(ds)[k - 1 - 2 * |ds|];
  }
}
