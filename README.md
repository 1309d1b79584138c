# Object-detection overlay component, modelled in Dafny

This project models the logic of `DetectObjectsComponent`, the Angular component of a browser
application that shows the camera feed, runs an object-detection network on each frame and draws
the detected objects over the video on a canvas. The inference itself, the camera and the browser
are outside the model. What is modelled:

- **Detection builder** (`buildDetectedObjects`). It walks the raw scores in index order and keeps a
  candidate only when its score is strictly above the threshold (0.7 by default). It scales the
  normalised corners `[y1, x1, y2, x2]` by the video element's `offsetWidth`/`offsetHeight`, then
  subtracts the corners to get `[x, y, width, height]`. It resolves the label as
  `cocoLabels[primary] || cocoLabels[secondary]`. As a side effect it rewrites the component's
  `classes` field with the two class ids of every kept candidate.
- **Letterbox fit** (`videoDimensions`). It shrinks one axis of the element's box so that the
  result has the video's intrinsic aspect ratio.
- **Facing-mode choice** in `ngAfterViewInit`. A case-insensitive match of the user agent against
  `Android|webOS|iPhone|iPad|Mac|Macintosh|iPod|BlackBerry|IEMobile|Opera Mini` picks
  `"environment"` (rear camera); anything else picks `"user"`.
- **Rendering** (`renderPredictions`). The 2D context is an append-only log of draw calls. One
  render is a clear, then an outline and a label background per detection, then a caption per
  detection.

Modules: `Options` (lookups that may miss), `Geometry` (box scaling and letterbox fit),
`FacingMode`, `Detections` (what the builder computes, as functions, and its properties), `Canvas`
(the draw log and the shape of one render) and `DetectObjects` (the component class with its
state-changing methods). `BuildDetectedObjects` is a loop over the component's state.
`RenderPredictions` clears the canvas, builds the detections and then runs the source's two
drawing loops, `DrawBoxes` and `DrawCaptions`, over the context's log. The methods are proved to
produce exactly the specification functions `Build`, `ClassPairs`, `BoxPass`, `TextPass` and
`RenderLog`, and the properties are proved about those functions.

Some behaviours of the code worth stating plainly:
- When the primary channel's label is missing or empty, the label falls back to the secondary
  channel's entry.
- A rejected inference does not re-arm the frame loop.
- For box `[0.1, 0.2, 0.5, 0.6]` on a 640 x 480 element the bbox is `[128, 48, 256, 192]`: the
  height is `0.5*480 - 0.1*480 = 192` (`Detections.ExampleBox`).

The facing-mode heuristic sends desktop Macs (whose agents contain "Macintosh") to the rear
camera. That is what the marker list says, and the model keeps it.

## Model

| member | source | states |
|---|---|---|
| `DetectObjects.DetectObjectsComponent.constructor` | client/src/app/detect-objects/detect-objects.component.ts:17-24 | a new component has threshold 0.7 and no recorded class ids |
| `DetectObjects.DetectObjectsComponent.BuildDetectedObjects` | client/src/app/detect-objects/detect-objects.component.ts:126-152 | the returned list is exactly `Build` of the inputs, and `classes` is exactly `ClassPairs` of the inputs, so nothing from an earlier call survives |
| `DetectObjects.DetectObjectsComponent.RenderPredictions` | client/src/app/detect-objects/detect-objects.component.ts:154-199 | the context's log grows by exactly `RenderLog` of the detections built with the component's own threshold; `classes` is rewritten as by the builder |
| `DetectObjects.DetectObjectsComponent.DrawBoxes` | client/src/app/detect-objects/detect-objects.component.ts:173-189 | the first pass appends exactly `BoxPass` of the detections: outline then label background per detection, in list order |
| `DetectObjects.DetectObjectsComponent.DrawCaptions` | client/src/app/detect-objects/detect-objects.component.ts:191-198 | the second pass appends exactly `TextPass` of the detections: one caption per detection, in list order |
| `Detections.KeptIndices` | client/src/app/detect-objects/detect-objects.component.ts:130-131 | the kept candidates below n number at most n and are all below n |
| `Detections.KeptIff` | client/src/app/detect-objects/detect-objects.component.ts:130-131 | candidate i is kept if and only if i is in range and its score is strictly greater than the threshold, so a tie is dropped |
| `Detections.KeptAscending` | client/src/app/detect-objects/detect-objects.component.ts:130 | kept candidates are strictly ascending, which is the forEach index order |
| `Detections.BuildUpToIsKept` | client/src/app/detect-objects/detect-objects.component.ts:127-151 | the loop emits one detection per kept candidate, and the j-th one is built from the j-th kept candidate |
| `Detections.ClassPairsUpToIsKept` | client/src/app/detect-objects/detect-objects.component.ts:129-133 | the recorded ids hold 2k entries for k kept candidates: primary at 2j and secondary at 2j+1 for the j-th kept candidate |
| `Detections.BuildSpec` | client/src/app/detect-objects/detect-objects.component.ts:126-152 | the output length equals the number of kept candidates, which is at most the number of scores; kept means score above threshold; kept order ascends; each output is its candidate's detection |
| `Detections.BuildScoresAboveThreshold` | client/src/app/detect-objects/detect-objects.component.ts:131 | every emitted detection has a score strictly above the threshold |
| `Detections.BuildWithinElement` | client/src/app/detect-objects/detect-objects.component.ts:134-142 | when the box of every scored candidate is normalised and ordered, every emitted box has non-negative width and height and lies inside `[0, offsetWidth] x [0, offsetHeight]` |
| `Detections.ClassPairsSpec` | client/src/app/detect-objects/detect-objects.component.ts:129-144 | the recorded ids number twice the detections, and the entry at 2j is the j-th detection's class id |
| `Detections.DetectionAt` | client/src/app/detect-objects/detect-objects.component.ts:143-148 | a detection's class is the primary-channel id, its score is the raw score, its label is the fallback lookup, and its box's x, y, width and height are the corners scaled by the offset size |
| `Detections.ResolveLabel` | client/src/app/detect-objects/detect-objects.component.ts:145 | the primary label when present and non-empty, otherwise the secondary lookup; absent exactly when the primary is missing or empty and the secondary is missing |
| `Detections.ResolveLabelSource` | client/src/app/detect-objects/detect-objects.component.ts:145 | a resolved label comes from one of the two channels' entries, and an empty label can only come from the secondary channel |
| `Detections.ExampleBox` | client/src/app/detect-objects/detect-objects.component.ts:134-142 | box `[0.1, 0.2, 0.5, 0.6]` on 640 x 480 gives `[128, 48, 256, 192]` |
| `Detections.TieIsDropped` | client/src/app/detect-objects/detect-objects.component.ts:130-131 | a single score of exactly 0.7 against threshold 0.7 yields no detection |
| `Options.Lookup` | client/src/app/detect-objects/detect-objects.component.ts:145 | a label-table lookup is present exactly when the id is a key, and then it is that key's entry |
| `Geometry.ToBBox` | client/src/app/detect-objects/detect-objects.component.ts:134-142 | the box's origin is the scaled near corner; its width and height are the corner differences times the offset size; its far edges are exactly the scaled far corners |
| `Geometry.BBoxWithinElement` | client/src/app/detect-objects/detect-objects.component.ts:134-142 | a normalised, ordered box maps to a box with non-negative extent inside the element |
| `Geometry.VideoDimensions` | client/src/app/detect-objects/detect-objects.component.ts:98-118 | for positive sizes both returned dimensions are positive |
| `Geometry.VideoDimensionsFit` | client/src/app/detect-objects/detect-objects.component.ts:98-118 | the result has the video's aspect ratio (`width*videoHeight == height*videoWidth`), fits in the element, and fills it along at least one axis |
| `Geometry.VideoDimensionsSameRatio` | client/src/app/detect-objects/detect-objects.component.ts:110-113 | an element that already has the video's ratio is returned unchanged |
| `FacingMode.FacingModeFor` | client/src/app/detect-objects/detect-objects.component.ts:43-47 | the requested facing mode is always `"environment"` or `"user"` |
| `FacingMode.FacingModeIff` | client/src/app/detect-objects/detect-objects.component.ts:43-47 | `"environment"` if and only if some marker occurs in the user agent with ASCII letters compared case-insensitively; `"user"` otherwise |
| `FacingMode.OccursIff` | client/src/app/detect-objects/detect-objects.component.ts:45 | the substring search succeeds exactly when the pattern sits at some position of the text |
| `FacingMode.MarkerOccursIff` | client/src/app/detect-objects/detect-objects.component.ts:45 | searching the lower-cased marker in the lower-cased agent succeeds exactly when the marker matches case-insensitively somewhere |
| `FacingMode.AnyMarkerFromIff` | client/src/app/detect-objects/detect-objects.component.ts:45 | trying the alternatives in turn succeeds exactly when one of them matches somewhere |
| `FacingMode.LowerAscii` | client/src/app/detect-objects/detect-objects.component.ts:45 | the `i` flag's case folding maps 'A'..'Z' to lower case and leaves every other character alone |
| `FacingMode.Lower` | client/src/app/detect-objects/detect-objects.component.ts:45 | lower-casing keeps the length and folds each character |
| `FacingMode.IPhoneIsEnvironment` | client/src/app/detect-objects/detect-objects.component.ts:43-47 | an iPhone user agent selects `"environment"` |
| `FacingMode.WindowsNotMarked` | client/src/app/detect-objects/detect-objects.component.ts:45 | no marker matches `"Windows NT"` |
| `FacingMode.WindowsIsUser` | client/src/app/detect-objects/detect-objects.component.ts:43-47 | `"Windows NT"` selects `"user"` |
| `Canvas.Context2D.ClearRect` | client/src/app/detect-objects/detect-objects.component.ts:156 | `clearRect` appends one clear event |
| `Canvas.Context2D.StrokeRect` | client/src/app/detect-objects/detect-objects.component.ts:182 | `strokeRect` appends one outline event |
| `Canvas.Context2D.FillRect` | client/src/app/detect-objects/detect-objects.component.ts:188 | `fillRect` appends one filled-rectangle event |
| `Canvas.Context2D.FillText` | client/src/app/detect-objects/detect-objects.component.ts:197 | `fillText` appends one text event |
| `Canvas.BoxPassShape` | client/src/app/detect-objects/detect-objects.component.ts:173-189 | the first pass draws 2n events: for the j-th detection, its outline at 2j and at 2j+1 a background of measured width + 4 and height 16 + 4 at the same corner |
| `Canvas.TextPassShape` | client/src/app/detect-objects/detect-objects.component.ts:191-198 | the second pass draws n events: the j-th detection's caption at its box's top-left corner |
| `Canvas.RenderLogShape` | client/src/app/detect-objects/detect-objects.component.ts:156-198 | one render is 1 + 3n events: a full-canvas clear first, box events at positions 1..2n, text after that, and no box event follows any text event |

## Left out

- Camera acquisition and teardown (`getUserMedia`, `srcObject`, stopping tracks in `stopStreamedVideo`, `ngOnDestroy`) are browser I/O. The model keeps only the facing-mode choice that feeds the request.
- Model loading (`loadGraphModel`), `tf.setBackend`, `processInput`, and the frame loop `detectFrame` (`startScope`/`endScope`, `executeAsync`, `requestAnimationFrame`) are calls into the ML runtime and browser scheduling. No claim is made that the loop always continues: the rejection path neither re-arms it nor ends the tensor scope.
- `handleOnLoad` calls `videoDimensions` (modelled as `Geometry.VideoDimensions`), passes the result to `setDimmensions` and starts the frame loop with `detectFrame`. `setDimmensions` only assigns the sizes to the video and canvas elements, and the loop is left out as above.
- Reading the prediction tensors back (`arraySync`/`dataSync`) and the choice of output slots 0, 6, 2 and 3 are runtime calls. The builder takes the already-extracted arrays of batch 0 as a `RawPrediction`.
- `score.toFixed(4)` and the caption text `label + " " + (100*score).toFixed(2) + "%"` are formatting. A detection keeps its raw score as a real, and a caption is the pair (label, score).
- Detections.BuildScoresAboveThreshold: holds of the raw score only. The emitted `score` field is a 4-decimal string, so a raw score of 0.70004 is kept but emitted as "0.7000", which does not exceed 0.7.
- `measureText` comes from the canvas. It is a parameter `measure` of `RenderPredictions`. The text height is the 16 of the font string.
- Style assignments (`font`, `textBaseline`, `strokeStyle`, `lineWidth`, `fillStyle`) are not draw calls and are not logged.
- Floating point: all arithmetic is over exact reals. IEEE rounding of corner-then-subtract and of the ratio divisions is not captured, and neither are NaN or infinite scores and sizes.
- Geometry.VideoDimensions: requires all four sizes to be positive. With a zero size the source divides by zero and yields NaN or Infinity.
- DetectObjects.DetectObjectsComponent.BuildDetectedObjects: requires the boxes and both class channels to have at least one entry per score (longer ones are read only up to the number of scores). With shorter arrays the source reads `undefined` or throws.
- Class ids are integers and the label table is a `map<int, string>`. The table's contents (`coco_labels.constant`) are not part of this model.
- Routing (client/src/app/app-routing.module.ts) is framework configuration. The unused `width`/`height` fields are not modelled either.
