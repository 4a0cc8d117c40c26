/**
 * The export of `VideoRenderer`: the pure parameter choices of
 * `videoOutput(url:videoTextState:)` and of the fixed-name legacy overload
 * (canvas, image scale, label placement, composition, layer tree, output
 * file), the `forEach` that adds one label per text to the overlay view, and
 * the single completion update of the `VideoResultInfo` record.
 *
 * AVFoundation and UIKit stay outside: the asset's duration and preferred
 * transform, the documents directory, the text measurement, the file sizes
 * and the clock are parameters.
 */
module VideoRenderer {
  import opened Wrappers
  import opened CoreGraphics
  import opened Numerics
  import opened VideoTextModel

  /** The texts to burn in, keyed by id, with the video's natural size and the on-screen size. */
  datatype VideoTextState = VideoTextState(texts: map<string, VideoText>, videoSize: Size, displaySize: Size)

  /**
   * A `CGFloat` quotient: a finite value, or the infinity or NaN that a
   * division by zero yields, since `videoOutput` does not guard the divisor.
   */
  datatype Scale = Finite(value: real) | NonFinite

  /** `CGSize(width: ceil(w), height: ceil(h))`: the smallest whole-point canvas that holds the display. */
  function CanvasSize(display: Size): (c: Size)
    ensures display.width <= c.width < display.width + 1.0
    ensures display.height <= c.height < display.height + 1.0
    ensures c.width.Floor as real == c.width && c.height.Floor as real == c.height
  {
    Size(Ceil(display.width) as real, Ceil(display.height) as real)
  }

  /** `videoSize.width / canvasSize.width`, the pixels per point of the overlay image. */
  function ImageScale(videoSize: Size, canvas: Size): (s: Scale)
    ensures s.NonFinite? <==> canvas.width == 0.0
    ensures s.Finite? ==> s.value * canvas.width == videoSize.width
  {
    if canvas.width == 0.0 then NonFinite else Finite(videoSize.width / canvas.width)
  }

  /** Labels wrap at the display width less 32 points. */
  const LabelMargin := 32.0

  /**
   * One label of the overlay view: its text, colour and bold system font at
   * the stored size, the size the text measures at within the wrap width and
   * unbounded height, its transform and its centre.
   */
  datatype LabelPlacement = LabelPlacement(
    text: string,
    textColor: Option<Color>,
    fontSize: real,
    wrapWidth: real,
    size: Size,
    transform: AffineTransform,
    center: Point)

  /**
   * The label for `v` on a view of size `display`. `measure` stands for
   * `sizeThatFits` of a bold label of `v`'s text and size within the given
   * width; nothing is assumed about it.
   */
  function Place(v: VideoText, display: Size, measure: (VideoText, real) -> Size): (p: LabelPlacement)
    ensures p.text == v.text && p.textColor == v.textColor && p.fontSize == v.fontSize
    ensures p.wrapWidth + LabelMargin == display.width
    ensures p.size == measure(v, p.wrapWidth)
    ensures p.center == v.position && p.transform.angle == v.angle && p.transform.scale == 1.0
  {
    LabelPlacement(v.text, v.textColor, v.fontSize, display.width - LabelMargin,
                   measure(v, display.width - LabelMargin), v.Transform(), v.CenterPosition())
  }

  /** The labels of the overlay view, back to front, when the dictionary yields its keys in `order`. */
  function Placements(texts: map<string, VideoText>, order: seq<string>, display: Size,
                      measure: (VideoText, real) -> Size): (ps: seq<LabelPlacement>)
    requires forall k :: k in order ==> k in texts
    ensures |ps| == |order|
    ensures forall i :: 0 <= i < |order| ==> ps[i] == Place(texts[order[i]], display, measure)
  {
    if order == [] then []
    else Placements(texts, order[..|order| - 1], display, measure)
         + [Place(texts[order[|order| - 1]], display, measure)]
  }

  /** `order` lists every key of `texts` exactly once, as a dictionary's iteration does. */
  predicate EnumeratesKeys(texts: map<string, VideoText>, order: seq<string>) {
    && (forall k :: k in order ==> k in texts)
    && (forall k :: k in texts ==> k in order)
    && (forall i, j :: 0 <= i < j < |order| ==> order[i] != order[j])
  }

  /**
   * The `forEach` of `videoOutput`: a new label per text, added to the view
   * in the dictionary's iteration order `order`.
   */
  method BuildOverlayLabels(texts: map<string, VideoText>, order: seq<string>, display: Size,
                            measure: (VideoText, real) -> Size) returns (subviews: seq<LabelPlacement>)
    requires EnumeratesKeys(texts, order)
    ensures subviews == Placements(texts, order, display, measure)
  {
    subviews := [];
    var i := 0;
    while i < |order|
      invariant 0 <= i <= |order|
      invariant subviews == Placements(texts, order[..i], display, measure)
    {
      assert order[..i + 1][..i] == order[..i];
      subviews := subviews + [Place(texts[order[i]], display, measure)];
      i := i + 1;
    }
    assert order[..i] == order;
  }

  /** Every text of the state is drawn by exactly one label of the overlay. */
  lemma {:induction false} EveryTextPlacedOnce(texts: map<string, VideoText>, order: seq<string>, display: Size,
                                               measure: (VideoText, real) -> Size, id: string)
    requires EnumeratesKeys(texts, order)
    requires id in texts
    ensures |Placements(texts, order, display, measure)| == |texts|
    ensures exists i :: 0 <= i < |order| && order[i] == id
                        && Placements(texts, order, display, measure)[i] == Place(texts[id], display, measure)
    ensures forall i, j :: 0 <= i < |order| && 0 <= j < |order| && order[i] == id && order[j] == id ==> i == j
  {
    KeysCount(texts, order);
    var i :| 0 <= i < |order| && order[i] == id;
    assert Placements(texts, order, display, measure)[i] == Place(texts[id], display, measure);
  }

  /** A duplicate-free enumeration of a map's keys has as many entries as the map. */
  lemma {:induction false} KeysCount(texts: map<string, VideoText>, order: seq<string>)
    requires EnumeratesKeys(texts, order)
    ensures |order| == |texts|
    decreases |order|
  {
    if order != [] {
      var n := |order| - 1;
      var rest := texts - {order[n]};
      KeysDropLast(texts, order);
      KeysCount(rest, order[..n]);
      assert order[n] in texts;
      assert |rest| == |texts| - 1;
    }
  }

  /** Dropping the last key of an enumeration enumerates the map without that key. */
  lemma KeysDropLast(texts: map<string, VideoText>, order: seq<string>)
    requires EnumeratesKeys(texts, order) && order != []
    ensures EnumeratesKeys(texts - {order[|order| - 1]}, order[..|order| - 1])
  {
    var n := |order| - 1;
    var front := order[..n];
    var rest := texts - {order[n]};
    forall k
      ensures k in front <==> k in rest
    {
      if k in front {
        var i :| 0 <= i < n && front[i] == k;
        assert order[i] == k;
      }
      if k in rest {
        assert k in order;
        var i :| 0 <= i < |order| && order[i] == k;
        assert i != n;
        assert front[i] == k;
      }
    }
    forall i, j | 0 <= i < j < n
      ensures front[i] != front[j]
    {
      assert front[i] == order[i] && front[j] == order[j];
    }
  }

  /** The overlay image: canvas size in points, pixels per point, and the labels of the view behind it. */
  datatype OverlayImage = OverlayImage(canvas: Size, scale: Scale, viewFrame: Rect, labels: seq<LabelPlacement>)

  /** The image `videoOutput` renders for `state`, the dictionary yielding its keys in `order`. */
  function Overlay(state: VideoTextState, order: seq<string>, measure: (VideoText, real) -> Size): (img: OverlayImage)
    requires EnumeratesKeys(state.texts, order)
    ensures img.viewFrame == Rect(PointZero, state.displaySize)
    ensures img.labels == Placements(state.texts, order, state.displaySize, measure)
    ensures img.scale == ImageScale(state.videoSize, img.canvas) && img.canvas == CanvasSize(state.displaySize)
    ensures |img.labels| == |state.texts|
  {
    KeysCount(state.texts, order);
    var canvas := CanvasSize(state.displaySize);
    OverlayImage(canvas, ImageScale(state.videoSize, canvas), Rect(PointZero, state.displaySize),
                 Placements(state.texts, order, state.displaySize, measure))
  }

  /** A `CMTime`: `value / timescale` seconds. */
  datatype CMTime = CMTime(value: int, timescale: int)

  /** `CMTime(value: 1, timescale: 30)`: thirty frames a second. */
  const FrameDuration := CMTime(1, 30)

  /** A time range in seconds of the asset's timeline. */
  datatype TimeRange = TimeRange(start: real, duration: real)

  /** A `CGAffineTransform` matrix, taken from the asset track as it is and never inspected. */
  datatype Matrix = Matrix(a: real, b: real, c: real, d: real, tx: real, ty: real)

  /** The one layer instruction: the track's transform from time zero, opacity 0 from `opacityAt`. */
  datatype LayerInstruction = LayerInstruction(transform: Matrix, transformAt: real, opacity: real, opacityAt: real)

  datatype MediaType = Video | Audio

  /** A layer of the animation tool's tree and whether it clips to its bounds. */
  datatype Layer = Layer(frame: Rect, masksToBounds: bool)

  /** Which layer a sublayer of the parent is. */
  datatype LayerRole = VideoLayer | OverlayLayer

  /** `applyVideoEffects`: the parent layer and its sublayers, back to front. */
  datatype LayerTree = LayerTree(parent: Layer, video: Layer, overlay: Layer, sublayers: seq<LayerRole>)

  /**
   * The layers `applyVideoEffects(to:size:image:)` builds: the parent, the
   * video layer and the clipping overlay layer all span the render size
   * from the origin, and the overlay is added second, on top of the video.
   */
  function ApplyVideoEffects(size: Size): (t: LayerTree)
    ensures t.parent.frame == t.video.frame == t.overlay.frame == Rect(PointZero, size)
    ensures t.overlay.masksToBounds
    ensures t.sublayers == [VideoLayer, OverlayLayer]
  {
    var frame := Rect(Point(0.0, 0.0), Size(size.width, size.height));
    var overlay := Layer(frame, true);
    var parent := Layer(frame, false);
    var video := Layer(frame, false);
    LayerTree(parent, video, overlay, [VideoLayer, OverlayLayer])
  }

  /** The video composition with its one instruction, and the tracks copied into the mutable composition. */
  datatype CompositionPlan = CompositionPlan(
    tracks: seq<MediaType>,
    timeRange: TimeRange,
    layerInstruction: LayerInstruction,
    renderSize: Size,
    frameDuration: CMTime,
    layers: LayerTree)

  /**
   * The composition both overloads build for an asset of `duration` seconds
   * whose video track prefers `preferred`, rendered at `renderSize`.
   */
  function Composition(tracks: seq<MediaType>, duration: real, preferred: Matrix, renderSize: Size): (c: CompositionPlan)
    ensures c.tracks == tracks && c.renderSize == renderSize && c.frameDuration == FrameDuration
    ensures c.timeRange.start == 0.0 && c.timeRange.duration == duration
    ensures c.layerInstruction == LayerInstruction(preferred, 0.0, 0.0, duration)
    ensures c.layers == ApplyVideoEffects(renderSize)
  {
    CompositionPlan(tracks, TimeRange(0.0, duration), LayerInstruction(preferred, 0.0, 0.0, duration),
                    Size(renderSize.width, renderSize.height), CMTime(1, 30), ApplyVideoEffects(renderSize))
  }

  /** A file URL: a directory path and a last path component. */
  datatype FileURL = FileURL(directory: string, name: string) {
    /** `url.path`. */
    function Path(): string {
      directory + "/" + name
    }
  }

  datatype FileType = Mp4 | Mov

  /** The export preset; both exporters ask for `AVAssetExportPresetHighestQuality`. */
  datatype ExportPreset = HighestQuality

  /** What the export session is given besides the asset. */
  datatype ExportSession = ExportSession(composition: CompositionPlan, preset: ExportPreset, outputURL: FileURL,
                                         fileType: FileType, shouldOptimizeForNetworkUse: bool)

  /** The suffix every batch result's file name carries. */
  const ResultSuffix := "-result.mp4"

  /** `"\(id)-result.mp4"`. */
  function ResultFileName(id: string): (name: string)
    ensures |name| == |id| + |ResultSuffix|
    ensures name[..|id|] == id && name[|id|..] == ResultSuffix
  {
    id + ResultSuffix
  }

  /** The fixed name of the legacy overload. */
  const LegacyFileName := "newVideoWithLabel.mp4"

  /** Two results get the same file name only when they have the same id. */
  lemma ResultFileNameInjective(a: string, b: string)
    ensures ResultFileName(a) == ResultFileName(b) ==> a == b
  {
    if ResultFileName(a) == ResultFileName(b) {
      assert |a| == |b|;
      assert a == ResultFileName(a)[..|a|];
    }
  }

  /** The legacy overload never writes over a batch result, whatever its id. */
  lemma LegacyNameIsNoResultName(id: string)
    ensures LegacyFileName != ResultFileName(id)
  {
    var name := ResultFileName(id);
    if |name| == |LegacyFileName| {
      assert name[|name| - |ResultSuffix|] == '-';
      assert LegacyFileName[|LegacyFileName| - |ResultSuffix|] == 't';
    }
  }

  /**
   * `fileExists` then `removeItem`: the file at `path` is deleted when it
   * exists, unless the removal throws (`removable` false), which is only
   * logged; no other file is touched.
   */
  function RemoveExisting(files: set<string>, path: string, removable: bool): (r: set<string>)
    ensures r <= files
    ensures forall p :: p in files && p != path ==> p in r
    ensures path in r <==> path in files && !removable
  {
    if path in files && removable then files - {path} else files
  }

  /**
   * What `videoOutput(url:videoTextState:)` sets up for the asset at a path
   * whose duration is `duration` and whose video track prefers `preferred`:
   * the overlay image, and an mp4 export of the video and audio tracks at
   * the video's natural size to `"<resultId>-result.mp4"` in `documents`,
   * without network optimization. The documents directory is force-unwrapped
   * on the existence check, so it is a path here.
   */
  function VideoOutputPlan(state: VideoTextState, order: seq<string>, measure: (VideoText, real) -> Size,
                           duration: real, preferred: Matrix, resultId: string, documents: string)
    : (plan: (OverlayImage, ExportSession))
    requires EnumeratesKeys(state.texts, order)
    ensures plan.0 == Overlay(state, order, measure)
    ensures plan.1.composition == Composition([Video, Audio], duration, preferred, state.videoSize)
    ensures plan.1.outputURL == FileURL(documents, ResultFileName(resultId))
    ensures plan.1.fileType == Mp4 && !plan.1.shouldOptimizeForNetworkUse && plan.1.preset == HighestQuality
  {
    var composition := Composition([Video, Audio], duration, preferred, state.videoSize);
    (Overlay(state, order, measure), ExportSession(composition, HighestQuality, FileURL(documents, ResultFileName(resultId)), Mp4, false))
  }

  /**
   * The legacy `videoOutput(videoAsset:image:size:completion:)`: the video
   * track only, at the given size, to the fixed `newVideoWithLabel.mp4`, as a
   * QuickTime movie optimized for network use.
   */
  function LegacyVideoOutputPlan(duration: real, preferred: Matrix, size: Size, documents: string): (s: ExportSession)
    ensures s.composition == Composition([Video], duration, preferred, size)
    ensures s.outputURL == FileURL(documents, LegacyFileName)
    ensures s.fileType == Mov && s.shouldOptimizeForNetworkUse && s.preset == HighestQuality
  {
    ExportSession(Composition([Video], duration, preferred, size), HighestQuality, FileURL(documents, LegacyFileName), Mov, true)
  }

  /**
   * The overlay image has the video's pixel width: whenever the scale is a
   * number, canvas width times scale is the render width.
   */
  lemma OverlayMatchesVideoWidth(state: VideoTextState, order: seq<string>, measure: (VideoText, real) -> Size,
                                 duration: real, preferred: Matrix, resultId: string, documents: string)
    requires EnumeratesKeys(state.texts, order)
    ensures var plan := VideoOutputPlan(state, order, measure, duration, preferred, resultId, documents);
      plan.0.scale.Finite? ==> plan.0.scale.value * plan.0.canvas.width == plan.1.composition.renderSize.width
  {
  }

  /**
   * With a display narrower than one point (but not negative) the canvas
   * has width 0 and the scale is not a number: nothing guards the division.
   */
  lemma NarrowDisplayHasNoScale(state: VideoTextState, order: seq<string>, measure: (VideoText, real) -> Size)
    requires EnumeratesKeys(state.texts, order)
    requires -1.0 < state.displaySize.width <= 0.0
    ensures Overlay(state, order, measure).scale == NonFinite
  {
    assert CanvasSize(state.displaySize).width == 0.0;
  }

  /**
   * The composition covers the whole clip: its instruction starts at zero
   * and ends where the video fades to opacity 0, at the asset's duration.
   */
  lemma FadeAtEndOfRange(tracks: seq<MediaType>, duration: real, preferred: Matrix, renderSize: Size)
    ensures var c := Composition(tracks, duration, preferred, renderSize);
      && c.timeRange.start == c.layerInstruction.transformAt == 0.0
      && c.layerInstruction.opacity == 0.0
      && c.layerInstruction.opacityAt == c.timeRange.start + c.timeRange.duration
      && c.frameDuration.value as real / c.frameDuration.timescale as real == 1.0 / 30.0
  {
  }

  /** The overlay layer is drawn above the video layer and both fill the render size. */
  lemma OverlayOnTop(tracks: seq<MediaType>, duration: real, preferred: Matrix, renderSize: Size)
    ensures var t := Composition(tracks, duration, preferred, renderSize).layers;
      && |t.sublayers| == 2
      && (forall i, j :: 0 <= i < 2 && 0 <= j < 2 && t.sublayers[i] == VideoLayer && t.sublayers[j] == OverlayLayer ==> i < j)
      && t.overlay.frame.size == t.video.frame.size == renderSize
  {
  }

  /** Results with different ids are written to different files of the same directory. */
  lemma DistinctResultsDistinctFiles(documents: string, a: string, b: string)
    requires a != b
    ensures FileURL(documents, ResultFileName(a)).Path() != FileURL(documents, ResultFileName(b)).Path()
  {
    var pa, pb := FileURL(documents, ResultFileName(a)).Path(), FileURL(documents, ResultFileName(b)).Path();
    var k := |documents + "/"|;
    assert pa[k..] == ResultFileName(a);
    assert pb[k..] == ResultFileName(b);
    ResultFileNameInjective(a, b);
  }

  /**
   * The existence check before the export clears the plan's own output
   * path, unless the removal throws, and keeps the file of every other
   * result in the same directory.
   */
  lemma PlanClearsItsOutput(state: VideoTextState, order: seq<string>, measure: (VideoText, real) -> Size,
                            duration: real, preferred: Matrix, resultId: string, documents: string,
                            files: set<string>, removable: bool)
    requires EnumeratesKeys(state.texts, order)
    ensures var path := VideoOutputPlan(state, order, measure, duration, preferred, resultId, documents).1.outputURL.Path();
      var after := RemoveExisting(files, path, removable);
      && (path in after <==> path in files && !removable)
      && forall other :: other != resultId && FileURL(documents, ResultFileName(other)).Path() in files ==>
           FileURL(documents, ResultFileName(other)).Path() in after
  {
    forall other | other != resultId
      ensures FileURL(documents, ResultFileName(other)).Path() != FileURL(documents, ResultFileName(resultId)).Path()
    {
      DistinctResultsDistinctFiles(documents, resultId, other);
    }
  }

  /**
   * The 960 x 540 point preview of a 1920 x 1080 video: the canvas is the
   * display itself and each point becomes two pixels.
   */
  lemma FullHDExample(texts: map<string, VideoText>, order: seq<string>, measure: (VideoText, real) -> Size)
    requires EnumeratesKeys(texts, order)
    ensures var img := Overlay(VideoTextState(texts, Size(1920.0, 1080.0), Size(960.0, 540.0)), order, measure);
      img.canvas == Size(960.0, 540.0) && img.scale == Finite(2.0)
  {
    var c := CanvasSize(Size(960.0, 540.0));
    assert Ceil(960.0) == 960;
    assert Ceil(540.0) == 540;
  }

  /** The benchmark record of one export. `endDate` is absent until the export completes. */
  datatype VideoResultInfo = VideoResultInfo(
    id: string,
    videoSize: Size,
    fileSize: int,
    startDate: real,
    duration: real,
    outputVideoUrl: Option<FileURL>,
    flattenedFileSize: int,
    endDate: Option<real>)
  {
    predicate Completed() {
      endDate.Some?
    }

    /** `flattenedTime`: seconds from the start of the export to its completion. */
    function FlattenedTime(): real
      requires Completed()
    {
      endDate.value - startDate
    }
  }

  /** `VideoResultInfo(videoSize:fileSize:startDate:duration:)`, with the id its initializer draws. */
  function NewVideoResultInfo(id: string, videoSize: Size, fileSize: int, startDate: real, duration: real)
    : (r: VideoResultInfo)
    ensures r.id == id && r.videoSize == videoSize && r.fileSize == fileSize
    ensures r.startDate == startDate && r.duration == duration
    ensures r.outputVideoUrl == None && r.flattenedFileSize == 0 && !r.Completed()
  {
    VideoResultInfo(id, videoSize, fileSize, startDate, duration, None, 0, None)
  }

  /**
   * The export's completion block: records the output URL, its size (0 when
   * there is no URL or no size), and the completion time `now`; the rest of
   * the record stays as it was.
   */
  method CompleteResult(info: VideoResultInfo, outputPath: Option<FileURL>, fileSizeOf: FileURL -> Option<int>, now: real)
    returns (r: VideoResultInfo)
    ensures r.id == info.id && r.videoSize == info.videoSize && r.fileSize == info.fileSize
    ensures r.startDate == info.startDate && r.duration == info.duration
    ensures r.outputVideoUrl == outputPath
    ensures r.flattenedFileSize == (if outputPath.Some? && fileSizeOf(outputPath.value).Some?
                                    then fileSizeOf(outputPath.value).value else 0)
    ensures r.Completed() && r.FlattenedTime() == now - info.startDate
  {
    r := info;
    r := r.(outputVideoUrl := outputPath);
    var size := if outputPath.Some? then fileSizeOf(outputPath.value) else None;
    r := r.(flattenedFileSize := size.GetOr(0));
    r := r.(endDate := Some(now));
  }

  /**
   * `videoOutput(url:videoTextState:completion:)` end to end: a new record
   * for the input, whose size is `fileSize`, is started at `start`; the
   * export is planned to that record's own result path, which is cleared
   * in `files` first; the completion at `now` fills in the record that is
   * handed to `completion`.
   */
  method VideoOutput(state: VideoTextState, order: seq<string>, measure: (VideoText, real) -> Size,
                     duration: real, preferred: Matrix, id: string, documents: string, fileSize: int,
                     start: real, files: set<string>, removable: bool, fileSizeOf: FileURL -> Option<int>, now: real)
    returns (plan: (OverlayImage, ExportSession), remaining: set<string>, r: VideoResultInfo)
    requires EnumeratesKeys(state.texts, order)
    ensures plan == VideoOutputPlan(state, order, measure, duration, preferred, r.id, documents)
    ensures remaining == RemoveExisting(files, plan.1.outputURL.Path(), removable)
    ensures r.id == id && r.videoSize == state.videoSize && r.fileSize == fileSize
    ensures r.startDate == start && r.duration == duration
    ensures r.outputVideoUrl == Some(FileURL(documents, ResultFileName(r.id)))
    ensures r.flattenedFileSize == fileSizeOf(FileURL(documents, ResultFileName(r.id))).GetOr(0)
    ensures r.Completed() && r.FlattenedTime() == now - start
  {
    var info := NewVideoResultInfo(id, state.videoSize, fileSize, start, duration);
    plan := VideoOutputPlan(state, order, measure, duration, preferred, info.id, documents);
    remaining := RemoveExisting(files, plan.1.outputURL.Path(), removable);
    r := CompleteResult(info, Some(plan.1.outputURL), fileSizeOf, now);
  }

  /** Two results of different inputs never point at the same file. */
  lemma DistinctRecordsDistinctFiles(a: VideoResultInfo, b: VideoResultInfo, documents: string)
    requires a.id != b.id
    requires a.outputVideoUrl == Some(FileURL(documents, ResultFileName(a.id)))
    requires b.outputVideoUrl == Some(FileURL(documents, ResultFileName(b.id)))
    ensures a.outputVideoUrl.value.Path() != b.outputVideoUrl.value.Path()
  {
    DistinctResultsDistinctFiles(documents, a.id, b.id);
  }
}
