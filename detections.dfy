/**
 * What the detection builder computes, stated as functions over the raw
 * model output: which indices survive the score threshold, the detection
 * built for each survivor, and the class ids recorded on the component.
 */
module Detections {
  import opened Options
  import opened Geometry

  /**
   * The already-extracted model output for one frame (batch index 0): a score,
   * a box and two class-id channels per candidate index.
   */
  datatype RawPrediction = RawPrediction(
    scores: seq<real>,
    boxes: seq<Corners>,
    primary: seq<int>,    // first class-id output channel
    secondary: seq<int>)  // second class-id output channel
  {
    /** Every output has an entry for each scored candidate; longer outputs are read only up to `|scores|`. */
    predicate WellShaped() {
      |boxes| >= |scores| && |primary| >= |scores| && |secondary| >= |scores|
    }
  }

  /** One detection handed to the renderer; `labelText` None stands for `undefined`. */
  datatype Detection = Detection(classId: int, labelText: Option<string>, score: real, bbox: BBox)

  /**
   * `labels[primaryId] || labels[secondaryId]`: the primary label when it is
   * present and non-empty (a truthy string), otherwise whatever the secondary
   * lookup gives, which may itself be missing or empty.
   */
  function ResolveLabel(labels: map<int, string>, primaryId: int, secondaryId: int): (r: Option<string>)
    ensures primaryId in labels && labels[primaryId] != "" ==> r == Some(labels[primaryId])
    ensures !(primaryId in labels && labels[primaryId] != "") ==> r == Lookup(labels, secondaryId)
    ensures r.None? <==> (primaryId !in labels || labels[primaryId] == "") && secondaryId !in labels
  {
    var first := Lookup(labels, primaryId);
    if first.Some? && first.value != "" then first else Lookup(labels, secondaryId)
  }

  /** The label, when there is one, comes from one of the two channels' entries. */
  lemma ResolveLabelSource(labels: map<int, string>, primaryId: int, secondaryId: int)
    ensures var r := ResolveLabel(labels, primaryId, secondaryId);
      r.Some? ==> (primaryId in labels && r.value == labels[primaryId] && r.value != "") ||
                  (secondaryId in labels && r.value == labels[secondaryId])
    ensures ResolveLabel(labels, primaryId, secondaryId) == Some("") ==>
      secondaryId in labels && labels[secondaryId] == ""
  {
  }

  /** The detection built for candidate `i`; its bbox is scaled by the element's offset size. */
  function DetectionAt(raw: RawPrediction, i: nat, labels: map<int, string>, video: VideoElement): (d: Detection)
    requires raw.WellShaped() && i < |raw.scores|
    ensures d.classId == raw.primary[i] && d.score == raw.scores[i]
    ensures d.labelText == ResolveLabel(labels, raw.primary[i], raw.secondary[i])
    ensures d.bbox.x == raw.boxes[i].minX * video.offsetWidth
    ensures d.bbox.y == raw.boxes[i].minY * video.offsetHeight
    ensures d.bbox.width == (raw.boxes[i].maxX - raw.boxes[i].minX) * video.offsetWidth
    ensures d.bbox.height == (raw.boxes[i].maxY - raw.boxes[i].minY) * video.offsetHeight
  {
    Detection(raw.primary[i], ResolveLabel(labels, raw.primary[i], raw.secondary[i]), raw.scores[i],
              ToBBox(raw.boxes[i], video.offsetWidth, video.offsetHeight))
  }

  /** The candidate indices below `n` whose score is strictly above `threshold`, in index order. */
  function KeptIndices(scores: seq<real>, threshold: real, n: nat): (ks: seq<nat>)
    requires n <= |scores|
    ensures |ks| <= n
    ensures forall j :: 0 <= j < |ks| ==> ks[j] < n
    decreases n
  {
    if n == 0 then []
    else KeptIndices(scores, threshold, n - 1) + (if scores[n - 1] > threshold then [n - 1] else [])
  }

  /** Index `i` is kept exactly when its score beats the threshold; a tie is dropped. */
  lemma {:induction false} KeptIff(scores: seq<real>, threshold: real, n: nat, i: nat)
    requires n <= |scores|
    ensures i in KeptIndices(scores, threshold, n) <==> i < n && scores[i] > threshold
    decreases n
  {
    if n > 0 {
      KeptIff(scores, threshold, n - 1, i);
    }
  }

  predicate Ascending(ks: seq<nat>) {
    forall a, b :: 0 <= a < b < |ks| ==> ks[a] < ks[b]
  }

  /** Kept indices are strictly ascending: the output follows the raw index order. */
  lemma {:induction false} KeptAscending(scores: seq<real>, threshold: real, n: nat)
    requires n <= |scores|
    ensures Ascending(KeptIndices(scores, threshold, n))
    decreases n
  {
    if n > 0 {
      KeptAscending(scores, threshold, n - 1);
    }
  }

  /** The detections for candidates below `n`, in the order the loop pushes them. */
  function BuildUpTo(raw: RawPrediction, threshold: real, labels: map<int, string>, video: VideoElement, n: nat): seq<Detection>
    requires raw.WellShaped() && n <= |raw.scores|
    decreases n
  {
    if n == 0 then []
    else BuildUpTo(raw, threshold, labels, video, n - 1) +
         (if raw.scores[n - 1] > threshold then [DetectionAt(raw, n - 1, labels, video)] else [])
  }

  /** The class ids recorded for candidates below `n`: primary then secondary, per kept index. */
  function ClassPairsUpTo(raw: RawPrediction, threshold: real, n: nat): seq<int>
    requires raw.WellShaped() && n <= |raw.scores|
    decreases n
  {
    if n == 0 then []
    else ClassPairsUpTo(raw, threshold, n - 1) +
         (if raw.scores[n - 1] > threshold then [raw.primary[n - 1], raw.secondary[n - 1]] else [])
  }

  /** All detections of one frame. */
  function Build(raw: RawPrediction, threshold: real, labels: map<int, string>, video: VideoElement): seq<Detection>
    requires raw.WellShaped()
  {
    BuildUpTo(raw, threshold, labels, video, |raw.scores|)
  }

  /** All class ids recorded for one frame. */
  function ClassPairs(raw: RawPrediction, threshold: real): seq<int>
    requires raw.WellShaped()
  {
    ClassPairsUpTo(raw, threshold, |raw.scores|)
  }

  /** The j-th detection is the one built for the j-th kept index, and there is one per kept index. */
  lemma {:induction false} BuildUpToIsKept(raw: RawPrediction, threshold: real, labels: map<int, string>, video: VideoElement, n: nat)
    requires raw.WellShaped() && n <= |raw.scores|
    ensures var ks := KeptIndices(raw.scores, threshold, n);
      var ds := BuildUpTo(raw, threshold, labels, video, n);
      |ds| == |ks| &&
      forall j :: 0 <= j < |ks| ==> ds[j] == DetectionAt(raw, ks[j], labels, video)
    decreases n
  {
    if n > 0 {
      BuildUpToIsKept(raw, threshold, labels, video, n - 1);
    }
  }

  /** The recorded class ids are the pairs `primary[i], secondary[i]` of the kept indices, in order. */
  lemma {:induction false} ClassPairsUpToIsKept(raw: RawPrediction, threshold: real, n: nat)
    requires raw.WellShaped() && n <= |raw.scores|
    ensures var ks := KeptIndices(raw.scores, threshold, n);
      var cs := ClassPairsUpTo(raw, threshold, n);
      |cs| == 2 * |ks| &&
      forall j :: 0 <= j < |ks| ==> cs[2 * j] == raw.primary[ks[j]] && cs[2 * j + 1] == raw.secondary[ks[j]]
    decreases n
  {
    if n > 0 {
      ClassPairsUpToIsKept(raw, threshold, n - 1);
      var ks := KeptIndices(raw.scores, threshold, n - 1);
      var cs := ClassPairsUpTo(raw, threshold, n - 1);
      assert forall j :: 0 <= j < |ks| ==> ClassPairsUpTo(raw, threshold, n)[2 * j] == cs[2 * j];
      assert forall j :: 0 <= j < |ks| ==> ClassPairsUpTo(raw, threshold, n)[2 * j + 1] == cs[2 * j + 1];
    }
  }

  /**
   * The builder's contract in one place: one detection per candidate whose
   * score is strictly above the threshold, in ascending index order, each
   * built from its own candidate; so at most one per score.
   */
  lemma BuildSpec(raw: RawPrediction, threshold: real, labels: map<int, string>, video: VideoElement)
    requires raw.WellShaped()
    ensures var ks := KeptIndices(raw.scores, threshold, |raw.scores|);
      var ds := Build(raw, threshold, labels, video);
      |ds| == |ks| <= |raw.scores| &&
      (forall i :: 0 <= i < |raw.scores| ==> (i in ks <==> raw.scores[i] > threshold)) &&
      Ascending(ks) &&
      (forall j :: 0 <= j < |ds| ==> ds[j] == DetectionAt(raw, ks[j], labels, video))
  {
    var ks := KeptIndices(raw.scores, threshold, |raw.scores|);
    BuildUpToIsKept(raw, threshold, labels, video, |raw.scores|);
    KeptAscending(raw.scores, threshold, |raw.scores|);
    forall i | 0 <= i < |raw.scores|
      ensures i in ks <==> raw.scores[i] > threshold
    {
      KeptIff(raw.scores, threshold, |raw.scores|, i);
    }
  }

  /** Every detection's score beats the threshold. */
  lemma BuildScoresAboveThreshold(raw: RawPrediction, threshold: real, labels: map<int, string>, video: VideoElement)
    requires raw.WellShaped()
    ensures forall d :: d in Build(raw, threshold, labels, video) ==> d.score > threshold
  {
    var ks := KeptIndices(raw.scores, threshold, |raw.scores|);
    var ds := Build(raw, threshold, labels, video);
    BuildSpec(raw, threshold, labels, video);
    forall d | d in ds
      ensures d.score > threshold
    {
      var j :| 0 <= j < |ds| && ds[j] == d;
      assert ks[j] in ks;
    }
  }

  /** When every scored candidate's box is normalised, every detection's bbox has a non-negative extent and lies inside the element's offset box. */
  lemma BuildWithinElement(raw: RawPrediction, threshold: real, labels: map<int, string>, video: VideoElement)
    requires raw.WellShaped()
    requires forall i :: 0 <= i < |raw.scores| ==> Normalised(raw.boxes[i])
    requires video.offsetWidth >= 0.0 && video.offsetHeight >= 0.0
    ensures forall d :: d in Build(raw, threshold, labels, video) ==>
      0.0 <= d.bbox.x && 0.0 <= d.bbox.width && d.bbox.x + d.bbox.width <= video.offsetWidth &&
      0.0 <= d.bbox.y && 0.0 <= d.bbox.height && d.bbox.y + d.bbox.height <= video.offsetHeight
  {
    var ks := KeptIndices(raw.scores, threshold, |raw.scores|);
    var ds := Build(raw, threshold, labels, video);
    BuildSpec(raw, threshold, labels, video);
    forall d | d in ds
      ensures 0.0 <= d.bbox.x && 0.0 <= d.bbox.width && d.bbox.x + d.bbox.width <= video.offsetWidth
      ensures 0.0 <= d.bbox.y && 0.0 <= d.bbox.height && d.bbox.y + d.bbox.height <= video.offsetHeight
    {
      var j :| 0 <= j < |ds| && ds[j] == d;
      BBoxWithinElement(raw.boxes[ks[j]], video.offsetWidth, video.offsetHeight);
    }
  }

  /** The class ids recorded by a build: two per detection, the pair of its candidate. */
  lemma ClassPairsSpec(raw: RawPrediction, threshold: real, labels: map<int, string>, video: VideoElement)
    requires raw.WellShaped()
    ensures var ds := Build(raw, threshold, labels, video);
      var cs := ClassPairs(raw, threshold);
      |cs| == 2 * |ds| &&
      forall j :: 0 <= j < |ds| ==> cs[2 * j] == ds[j].classId
  {
    BuildUpToIsKept(raw, threshold, labels, video, |raw.scores|);
    ClassPairsUpToIsKept(raw, threshold, |raw.scores|);
  }

  /** A sample box: [0.1, 0.2, 0.5, 0.6] on a 640 x 480 element. */
  lemma ExampleBox()
    ensures ToBBox(Corners(0.1, 0.2, 0.5, 0.6), 640.0, 480.0) == BBox(128.0, 48.0, 256.0, 192.0)
  {
  }

  /** A score equal to the default threshold 0.7 yields no detection. */
  lemma TieIsDropped(labels: map<int, string>, video: VideoElement)
    ensures Build(RawPrediction([0.7], [Corners(0.0, 0.0, 1.0, 1.0)], [1], [1]), 0.7, labels, video) == []
  {
  }
}
