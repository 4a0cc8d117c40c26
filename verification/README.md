# RenderTextToVideo, modelled in Dafny

RenderTextToVideo is an iOS app that lets the user place, drag, pinch and rotate text labels over a video preview. It then burns the texts into the video through an AVFoundation export, and it can benchmark that export over a batch of picked videos. This project models the sequential core of the app and proves properties of the model:

- `VideoTextModel` (video_text.dfy): the `VideoText` record and its initializer defaults, and the `GlobalColor` palette.
- `Helper` (helper.dfy): the `CGSize` helpers `normalizedSize`, the zero guards of `sizeThatFits`/`rectThatFits`, and `cornerRadius`.
- `TextPreview` (video_text_preview.dfy): the editor `VideoTextPreview`, modelled as a class.
  - Its state is the `videoTexts` dictionary, the `textLabels` array, the selected label and the subview stack.
  - Its methods are the add, clear, mock-load, select and touch actions, the drag, pinch and rotation handlers, and `updateLabel`.
  - Labels are objects: the selection aliases one of them.
- `VideoRenderer` (video_renderer.dfy): the parameter choices of both `videoOutput` overloads and of `applyVideoEffects`, as pure functions.
  - These are the canvas, the image scale, the label placement, the composition, the layer tree and the output file.
  - The `forEach` that builds the overlay labels is a method with a loop.
  - The completion update of `VideoResultInfo` is a method.
- `BenchmarkLog` (benchmark_log.dfy): the batch bookkeeping of `BenchmarkLogVC`, modelled as a class.
  - It covers the batch reset, one record and one count emission per completion, the done filter and the parallel-mode total-time update.
  - It also covers the `mm:ss` formatting of a duration.
- `CoreGraphics`, `Numerics` and `Wrappers` hold the supporting pieces:
  - points, sizes and a transform modelled as (angle, scale);
  - `ceil`, the truncating `Int(_:)` conversion and Swift's truncating `/` and `%`;
  - decimal rendering and `%02d`;
  - `Option`.

`CGFloat` and `Double` are modelled as `real`. A division by zero that the code does not guard is modelled as `Scale.NonFinite`.

Some inputs come from the environment or from system frameworks, so the model takes them as parameters:
- UUIDs, `Date()` and the random palette colour;
- the dictionary's iteration order;
- the text measurement of UIKit;
- `AVMakeRect`;
- file sizes and the documents directory;
- the formatting of `Double`, `ByteCountFormatter` and `seconds(from:)`.

The model follows these behaviours of the code:
- The image scale `videoSize.width / canvasSize.width` is computed with no guard, so a canvas of width 0 yields a non-finite scale. It does not yield a sentinel (`ImageScale`, `NarrowDisplayHasNoScale`).
- On every completion the log view shows the whole batch log (RenderTextToVideo/BenchmarkLogVC.swift:217). The done handler reads the switch's current state at the time it fires (line 97), not the state captured when the batch started.
- The declared `VideoText` struct lacks `angle`, `fontSize`, `textColor`, `transform` and `centerPosition`, but the code that uses it reads them. The model defines one record holding all of them: `transform` is rotation by `angle` and `centerPosition` is `position`.

## Model

| member | source | states |
|---|---|---|
| VideoTextModel.Colors | RenderTextToVideo/Model/VideoText.swift:12-22 | The palette has exactly seven colours, all distinct, green first and gray last |
| VideoTextModel.PaletteComplete | RenderTextToVideo/Model/VideoText.swift:12-22 | Every colour of the palette type occurs in the palette (the palette type is the colour type, so this holds by construction) |
| VideoTextModel.NewVideoText | RenderTextToVideo/Model/VideoText.swift:29-38 | The initializer keeps the given id, text, position, size, angle, font size and colour, and `initialSize` starts at `.zero` |
| VideoTextModel.NewVideoTextDefaultSize | RenderTextToVideo/Model/VideoText.swift:33 | Leaving out `size` stores `.zero` |
| VideoTextModel.EqualIffFieldsEqual | RenderTextToVideo/Model/VideoText.swift:25 | Two texts are equal exactly when every stored field is equal (both directions) |
| CoreGraphics.RotationAngle | RenderTextToVideo/Component/VideoTextPreview.swift:97 | A rotation transform carries the angle and scale 1 |
| CoreGraphics.Rotated | RenderTextToVideo/Component/VideoTextPreview.swift:171 | Rotating adds the angle and keeps the scale |
| CoreGraphics.ScaledBy | RenderTextToVideo/Component/VideoTextPreview.swift:146 | Uniform scaling multiplies the scale and keeps the angle |
| CoreGraphics.RotatedRoundTrip | RenderTextToVideo/Component/VideoTextPreview.swift:171 | Rotating by an angle and then by its negation gives back the transform |
| CoreGraphics.RotationAndScaleIndependent | RenderTextToVideo/Component/VideoTextPreview.swift:146-171 | Uniform scaling and rotation commute; each leaves the other component unchanged |
| Helper.NormalizedSize | RenderTextToVideo/Helper.swift:13-25 | The width is always `maxWidth`; the height is `maxWidth` or keeps the input's aspect ratio |
| Helper.NormalizedSizeKeepsAspectRatio | RenderTextToVideo/Helper.swift:17-19 | When the width and the scaled height are positive, the height is the scaled height and the aspect ratio is kept |
| Helper.NormalizedSizeFallback | RenderTextToVideo/Helper.swift:16-21 | With a non-positive width, or a non-positive scaled height, the height falls back to `maxWidth` |
| Helper.NormalizedSizePositive | RenderTextToVideo/Helper.swift:17-24 | A positive `maxWidth` always gives a positive height |
| Helper.SizeThatFits | RenderTextToVideo/Helper.swift:30-33 | `sizeThatFits(in:)` is the size of `rectThatFits(in:)` for the rect at the origin |
| Helper.RectThatFits | RenderTextToVideo/Helper.swift:35-38 | The result is `AVMakeRect`'s rect or `.zero`, and it is `.zero` exactly when the size is `.zero` or `AVMakeRect` gives `.zero` |
| Helper.ZeroSizeNeverReachesMakeRect | RenderTextToVideo/Helper.swift:27-37 | For the `.zero` size both helpers return `.zero`, whatever `AVMakeRect` would give |
| Helper.OnlyExactZeroShortCircuits | RenderTextToVideo/Helper.swift:31-37 | Any size with a non-zero side goes to `AVMakeRect` |
| Helper.CornerRadius | RenderTextToVideo/Helper.swift:40-42 | The radius is the fraction of the smaller side |
| Helper.CornerRadiusSymmetric | RenderTextToVideo/Helper.swift:40-42 | Swapping width and height does not change the radius |
| Helper.CornerRadiusFits | RenderTextToVideo/Helper.swift:40-42 | A fraction in [0, 1] of non-negative sides gives a radius between 0 and either side |
| TextPreview.Without | RenderTextToVideo/Component/VideoTextPreview.swift:107-109 | Removing a label from the stack keeps every other label and no copy of the removed one, in their order (a subsequence of the stack), and keeps the stack duplicate-free |
| TextPreview.BringToFront | RenderTextToVideo/Component/VideoTextPreview.swift:121 | A subview moves to the top, with the same members and count, the others below it in their previous order; a non-subview leaves the stack unchanged |
| TextPreview.SubsequenceEmbeds | RenderTextToVideo/Component/VideoTextPreview.swift:107-121 | A subsequence of the stack comes with an increasing map of its positions into the stack that picks the same labels |
| TextPreview.SubsequenceKeepsOrder | RenderTextToVideo/Component/VideoTextPreview.swift:107-121 | Any two labels of a subsequence stand in the stack in the same order as in the subsequence |
| TextPreview.DefaultVideoText | RenderTextToVideo/Component/VideoTextPreview.swift:80-85 | The default text is "Hello World" at the centre of the frame, with angle 0 and size 18 |
| TextPreview.MockData | RenderTextToVideo/Component/VideoTextPreview.swift:33-40 | There are three mock texts, each "Hello World", carrying the given ids in order |
| TextPreview.Inserted | RenderTextToVideo/Component/VideoTextPreview.swift:74-98 | Inserting texts one by one stores exactly their ids as keys |
| TextPreview.InsertedCount | RenderTextToVideo/Component/VideoTextPreview.swift:74-98 | With distinct ids, the dictionary has one entry per text |
| TextPreview.InsertedDistinct | RenderTextToVideo/Component/VideoTextPreview.swift:74-98 | With distinct ids, every text is stored under its own id |
| TextPreview.InsertedSnoc | RenderTextToVideo/Component/VideoTextPreview.swift:74-98 | Storing one more text puts it under its id on top of the dictionary of the texts before it |
| TextPreview.MockDataStored | RenderTextToVideo/Component/VideoTextPreview.swift:33-77 | Three distinct mock ids fill exactly three entries, each holding its own mock text |
| TextPreview.TextLabel.constructor | RenderTextToVideo/Component/VideoTextPreview.swift:86-101 | The new label carries the text's id, text, size, centre and rotation, and the picked colour |
| TextPreview.VideoTextPreview.constructor | RenderTextToVideo/Component/VideoTextPreview.swift:42-47 | The preview starts empty with no selection |
| TextPreview.VideoTextPreview.SelectedLabelIsBacked | RenderTextToVideo/Component/VideoTextPreview.swift:147-159 | A selected label still on the preview has a stored text, so the force-unwraps succeed |
| TextPreview.VideoTextPreview.AddNewText | RenderTextToVideo/Component/VideoTextPreview.swift:79-102 | The text, or the default one, is stored under its id and other entries are unchanged; exactly one fresh label for it is appended and put on top; the invariant is kept |
| TextPreview.VideoTextPreview.ClearAllText | RenderTextToVideo/Component/VideoTextPreview.swift:106-112 | Every label leaves the view, and the labels and the dictionary end up empty; the selection is left as it was |
| TextPreview.VideoTextPreview.LoadMockData | RenderTextToVideo/Component/VideoTextPreview.swift:71-77 | Afterwards there are exactly three fresh labels, stacked in order as the subviews. Each shows its mock text's id, text, centre, rotation and font size in its picked colour. The dictionary is the mock texts inserted in order: three entries when the ids are distinct |
| TextPreview.VideoTextPreview.AddMockText | RenderTextToVideo/Component/VideoTextPreview.swift:74-76 | One pass of the loop adds the next mock text's label on top of the ones before it, which are kept, and stores the text |
| TextPreview.VideoTextPreview.SelectText | RenderTextToVideo/Component/VideoTextPreview.swift:119-122 | The label becomes the selection and is brought to the front; nothing else changes |
| TextPreview.VideoTextPreview.UpdateLabel | RenderTextToVideo/Component/VideoTextPreview.swift:155-167 | The label's angle and centre are committed to its text; the label takes the stored font size, and its transform becomes pure rotation with the centre kept; the entry is required (force-unwrap) |
| TextPreview.VideoTextPreview.HandleDrag | RenderTextToVideo/Component/VideoTextPreview.swift:124-136 | With no selection, nothing changes; otherwise the centre moves by the translation, the translation resets to zero, and `.ended` commits |
| TextPreview.VideoTextPreview.HandlePinch | RenderTextToVideo/Component/VideoTextPreview.swift:139-153 | `.began` restarts the stored size from the label's point size; each step multiplies the stored size and the transform scale by the gesture scale, then resets the gesture scale to 1; `.ended` commits |
| TextPreview.VideoTextPreview.HandleRotation | RenderTextToVideo/Component/VideoTextPreview.swift:169-176 | With no selection, nothing changes; otherwise the gesture's rotation is added to the angle, the gesture resets to 0, and `.ended` commits |
| TextPreview.VideoTextPreview.TouchesBegan | RenderTextToVideo/Component/VideoTextPreview.swift:178-182 | Any touch clears the selection; no touch leaves it |
| TextPreview.VideoTextPreview.TouchesEnded | RenderTextToVideo/Component/VideoTextPreview.swift:184-186 | The selection is cleared and nothing else changes |
| TextPreview.PinchFoldsScaleIntoFontSize | RenderTextToVideo/Component/VideoTextPreview.swift:139-165 | A whole pinch, `.began` at one scale and `.ended` at another, on any selected label: the shown and the stored font size become the point size times both scales, the label is back at a pure rotation, and the text keeps the label's angle and centre |
| Numerics.Ceil | RenderTextToVideo/VideoRenderer.swift:111 | `ceil` is the least integer not below its argument |
| Numerics.TruncateToInt | RenderTextToVideo/BenchmarkLogVC.swift:198-204 | `Int(x)` drops the fraction toward zero |
| Numerics.TruncDivRem | RenderTextToVideo/BenchmarkLogVC.swift:198-199 | Swift's `/` and `%` recombine to the dividend; the remainder has the dividend's sign and is smaller than the divisor |
| Numerics.ParseDecimalOfDecimal | RenderTextToVideo/BenchmarkLogVC.swift:204-208 | The decimal rendering of a number reads back as that number |
| Numerics.IntString | RenderTextToVideo/BenchmarkLogVC.swift:204-208 | The interpolation of an `Int` is its digits, with a leading minus sign when negative, and reads back as the value |
| Numerics.ZeroPad2 | RenderTextToVideo/BenchmarkLogVC.swift:200 | `%02d` is at least two characters: all digits for a non-negative value, exactly two below 100, and a leading minus sign for a negative value |
| Numerics.ZeroPad2RoundTrip | RenderTextToVideo/BenchmarkLogVC.swift:200 | A padded non-negative value reads back as the value |
| VideoRenderer.CanvasSize | RenderTextToVideo/VideoRenderer.swift:111 | The canvas holds the display, is less than one point larger in each dimension, and is integral |
| VideoRenderer.ImageScale | RenderTextToVideo/VideoRenderer.swift:112 | The scale is non-finite exactly when the canvas width is 0; otherwise scale times canvas width is the video width |
| VideoRenderer.Place | RenderTextToVideo/VideoRenderer.swift:122-132 | A label draws the text's text, colour and unscaled font size, wraps at the display width minus 32, is measured at that width, and has the text's rotation and centre |
| VideoRenderer.Placements | RenderTextToVideo/VideoRenderer.swift:121-133 | There is one label per enumerated key, in enumeration order |
| VideoRenderer.BuildOverlayLabels | RenderTextToVideo/VideoRenderer.swift:121-133 | The loop adds exactly the labels of `Placements`, in the dictionary's order |
| VideoRenderer.EveryTextPlacedOnce | RenderTextToVideo/VideoRenderer.swift:121-133 | The overlay has as many labels as texts, and every text is drawn by exactly one label |
| VideoRenderer.KeysCount | RenderTextToVideo/VideoRenderer.swift:121 | A duplicate-free enumeration of the keys has as many entries as the dictionary |
| VideoRenderer.Overlay | RenderTextToVideo/VideoRenderer.swift:110-135 | The image has the ceiling canvas, its scale and the labels (one per text of the state), over a view framed at the origin with the display size |
| VideoRenderer.ApplyVideoEffects | RenderTextToVideo/VideoRenderer.swift:246-263 | The parent, video and overlay layers span the render size from the origin; the overlay clips, and it is added after the video layer |
| VideoRenderer.Composition | RenderTextToVideo/VideoRenderer.swift:160-209 | The composition carries the tracks, a time range from zero over the full duration, the preferred transform at zero, opacity 0 at the duration, the render size and 1/30 s frames |
| VideoRenderer.ResultFileName | RenderTextToVideo/VideoRenderer.swift:221 | The file name is the id followed by `-result.mp4` |
| VideoRenderer.ResultFileNameInjective | RenderTextToVideo/VideoRenderer.swift:221 | Equal result file names imply equal ids |
| VideoRenderer.LegacyNameIsNoResultName | RenderTextToVideo/VideoRenderer.swift:85-221 | The legacy file name is never a result file name |
| VideoRenderer.RemoveExisting | RenderTextToVideo/VideoRenderer.swift:222-229 | An existing file at the path is deleted unless the removal fails; no other file is touched |
| VideoRenderer.VideoOutputPlan | RenderTextToVideo/VideoRenderer.swift:107-243 | The plan holds the overlay, and an mp4 export without network optimization of the video and audio tracks at the video's size to `<id>-result.mp4` in the documents directory, at the highest-quality preset |
| VideoRenderer.PlanClearsItsOutput | RenderTextToVideo/VideoRenderer.swift:220-233 | The existence check clears the export's own output path unless the removal throws, and keeps every other result's file |
| VideoRenderer.LegacyVideoOutputPlan | RenderTextToVideo/VideoRenderer.swift:16-105 | The legacy plan exports the video track only, at the given size, to `newVideoWithLabel.mp4` as a network-optimized QuickTime movie, at the highest-quality preset |
| VideoRenderer.OverlayMatchesVideoWidth | RenderTextToVideo/VideoRenderer.swift:111-116 | When the scale is finite, the overlay's pixel width equals the render width |
| VideoRenderer.NarrowDisplayHasNoScale | RenderTextToVideo/VideoRenderer.swift:111-112 | A display width in (-1, 0] gives a zero-width canvas and a non-finite scale |
| VideoRenderer.FadeAtEndOfRange | RenderTextToVideo/VideoRenderer.swift:161-207 | The instruction starts at zero, and the video fades to opacity 0 exactly at the end of the range; frames last 1/30 s |
| VideoRenderer.OverlayOnTop | RenderTextToVideo/VideoRenderer.swift:251-260 | The overlay sits above the video layer, and both have the render size |
| VideoRenderer.DistinctResultsDistinctFiles | RenderTextToVideo/VideoRenderer.swift:221 | Results with different ids are written to different paths |
| VideoRenderer.VideoOutput | RenderTextToVideo/VideoRenderer.swift:107-243 | The whole export: the new record's id names the plan's output file, an older file there is removed, and the completed record points at `<id>-result.mp4` in the documents directory with that file's size, keeping the id, size, file size, start date and duration |
| VideoRenderer.DistinctRecordsDistinctFiles | RenderTextToVideo/VideoRenderer.swift:214-239 | Two completed records with different ids point at different files |
| VideoRenderer.FullHDExample | RenderTextToVideo/VideoRenderer.swift:110-112 | A worked example, not a general property: a 960 x 540 display of a 1920 x 1080 video gives canvas 960 x 540 and scale 2 |
| VideoRenderer.NewVideoResultInfo | RenderTextToVideo/VideoRenderer.swift:214-219 | A new record keeps its size, file size, start date and duration, with no URL, flattened size 0, and not completed |
| VideoRenderer.CompleteResult | RenderTextToVideo/VideoRenderer.swift:237-242 | The completion sets the URL, the output file's size (0 when there is no URL or no size) and the end date; the other fields are kept |
| BenchmarkLog.WholeSeconds | RenderTextToVideo/BenchmarkLogVC.swift:197-199 | `Int(ceil(d))` is the least integer not below `d` |
| BenchmarkLog.Minutes | RenderTextToVideo/BenchmarkLogVC.swift:199 | The minutes bracket the rounded-up duration to within one minute, rounding toward zero on either side of -1 |
| BenchmarkLog.Seconds | RenderTextToVideo/BenchmarkLogVC.swift:198 | The seconds differ from the rounded-up duration by whole minutes and lie in [0, 60) above -1 and in (-60, 0] otherwise |
| BenchmarkLog.MinutesSeconds | RenderTextToVideo/BenchmarkLogVC.swift:197-199 | `minutes*60 + seconds` is the whole seconds; above -1, seconds lie in [0, 60) and minutes are non-negative; otherwise both are non-positive |
| BenchmarkLog.DurationString | RenderTextToVideo/BenchmarkLogVC.swift:200 | The `mm:ss` string has at least five characters |
| BenchmarkLog.DurationStringRoundTrip | RenderTextToVideo/BenchmarkLogVC.swift:197-200 | The string is digits, `:` and two digits. The digits before the colon read back as `Int(ceil(d)) / 60` and the two after it as `Int(ceil(d)) % 60`, which is below 60. Together they give the rounded-up duration, and the string is exactly five characters up to 99:59 |
| BenchmarkLog.LogEntry | RenderTextToVideo/BenchmarkLogVC.swift:202-210 | Each entry ends with a blank line |
| BenchmarkLog.EntryLines | RenderTextToVideo/BenchmarkLogVC.swift:202-210 | The entry opens with the `<width>x<height>` resolution and the duration label, and closes with the flattened file size and its formatted form |
| BenchmarkLog.LogSnoc | RenderTextToVideo/BenchmarkLogVC.swift:202 | One more completion extends the batch log by its own entry |
| BenchmarkLog.WithTotal | RenderTextToVideo/BenchmarkLogVC.swift:99-100 | The parallel-mode log is the old text twice, then exactly `\n\n Total Time = <total> seconds` |
| BenchmarkLog.Successes | RenderTextToVideo/BenchmarkLogVC.swift:188-218 | The first `n` inputs give at most `n` records |
| BenchmarkLog.AllSucceedIffNoFailure | RenderTextToVideo/BenchmarkLogVC.swift:188-218 | The first `n` inputs give `n` records exactly when none of them fails the load check |
| BenchmarkLog.Counts | RenderTextToVideo/BenchmarkLogVC.swift:218-219 | The emitted counts over k completions are 1, 2, ..., k |
| BenchmarkLog.OccurrencesOfCounts | RenderTextToVideo/BenchmarkLogVC.swift:91-95 | Each count from 1 to k is emitted exactly once, and no other count |
| BenchmarkLog.DoneFiresIffAllSucceed | RenderTextToVideo/BenchmarkLogVC.swift:91-219 | Over a batch, the done filter passes at most once, and passes exactly when the batch is non-empty and every input loads |
| BenchmarkLog.BenchmarkLogVC.constructor | RenderTextToVideo/BenchmarkLogVC.swift:19-50 | The controller starts with no records, count 0, both dates at the given time, the switch off and an empty log |
| BenchmarkLog.BenchmarkLogVC.SetParallel | RenderTextToVideo/BenchmarkLogVC.swift:46-50 | Flipping the switch changes only the switch |
| BenchmarkLog.BenchmarkLogVC.DidFinishPicking | RenderTextToVideo/BenchmarkLogVC.swift:172-184 | A batch start empties the records and the batch log, stores the picked count, shows the HUD when something was picked, and takes the start time |
| BenchmarkLog.BenchmarkLogVC.Done | RenderTextToVideo/BenchmarkLogVC.swift:95-105 | In parallel mode the log view becomes the old text twice plus the total time; the HUD is hidden |
| BenchmarkLog.BenchmarkLogVC.Emit | RenderTextToVideo/BenchmarkLogVC.swift:91-95 | A count is recorded, and the done handler runs exactly when it equals the picked count |
| BenchmarkLog.BenchmarkLogVC.CompleteExport | RenderTextToVideo/BenchmarkLogVC.swift:202-219 | A completion appends its entry to the log and its record to the list, takes the end time, shows the log, and emits the new count, running the done handler when the count is reached |
| BenchmarkLog.BenchmarkLogVC.HandlePickedItem | RenderTextToVideo/BenchmarkLogVC.swift:188-219 | A failed input changes nothing. A loaded one appends one record and emits the new count, and takes the end time. The log view shows the batch log, with the total appended when this was the last video in parallel mode. The HUD is hidden exactly when this was the last video |
| BenchmarkLog.BenchmarkLogVC.CompleteAll | RenderTextToVideo/BenchmarkLogVC.swift:186-219 | The background loop's completions, in order, record exactly the loaded inputs, keep the batch's counts, HUD and log view in step, and leave the end date at the last completion's time |
| BenchmarkLog.BenchmarkLogVC.ProcessBatch | RenderTextToVideo/BenchmarkLogVC.swift:172-219 | After a sequential batch, the records and the log are those of the loaded inputs in order, and the emitted counts are 1 to their number. The end date is the last completion's time. For a non-empty batch the HUD stays up exactly when some input failed. The log view is the batch log, followed by the total in parallel mode when every input loaded, and is unchanged when none did |

## Left out

- AVFoundation I/O is out: track insertion, `AVAssetExportSession` and its asynchronous export, file deletion and file-size queries. Only the parameters they receive are modelled. The asset's duration, the preferred transform, the documents directory, the file system (`RemoveExisting`) and the sizes (`fileSizeOf`) are inputs.
- Rasterization (`UIGraphicsImageRenderer`, `layer.render(in:)`, the layer contents) is out. The label measurement `sizeThatFits` is the uninterpreted parameter `measure`.
- `AVMakeRect` is a foreign call, so it is the uninterpreted parameter `makeRect` beyond the zero guard.
- The `CGAffineTransform` matrix arithmetic and the `atan2` in `updateLabel` are out. The transform is the pair (angle, scale), so recovering the angle is exact, and an angle is not reduced to (-π, π].
- The renderer's dictionary iteration order is unspecified in Swift, so it is the parameter `order`.
- Concurrency in `BenchmarkLogVC` is out: the global queue, the semaphore, the main-queue hops, the Rx subjects and drivers, and the picker. Completions arrive one at a time, in a given order, at given times.
- `BenchmarkLog.BenchmarkLogVC.ProcessBatch` models serial completion only. The overlap of parallel mode, and the ordering that the semaphore is meant to keep, are not captured.
- The photo-library save after each completion, the HUD view (kept only as a flag), the clipboard copy and `print` are out, as is the commented-out code.
- The random colour choice, the UUIDs and `Date()` are parameters (`color`, `ids`, `defaultId`, `id`, `now`).
- The formatting of a `Double`, `ByteCountFormatter` and `seconds(from:)` is the `Formatters` parameter, with nothing assumed about it.
- `BenchmarkLog.LogEntry` states only that an entry ends with a blank line, which is weaker than its text. The full text is `EntryLines`, so every log line is still defined. Stating each line in the contract makes every proof that unfolds the log too expensive.
- IEEE behaviour is out: `CGFloat` is `real`, and a division by zero is `Scale.NonFinite`. `Int(_:)` of a huge or non-finite value traps in Swift, and that trap is not modelled.
- Indexing `tracks(withMediaType: .audio)[0]` traps for a video without audio. The model assumes that track exists.
- The force-unwraps of the documents directory are `documents` given as a path.
- `VideoResultInfo` and `VideoTextState` are not declared in any file of this model's source; both records are reconstructed from how the code uses them. Their assumed parts are:
  - the initializer's `id`, a fresh UUID string here passed in as `id`;
  - the unset fields a new record starts with (no `outputVideoUrl`, `flattenedFileSize` 0, no `endDate`), as `NewVideoResultInfo` states;
  - `flattenedTime` as `endDate - startDate`;
  - `url.fileSize` as optional, the parameter `fileSizeOf`, so that `outputPath?.fileSize ?? 0` gives 0 for a missing URL or a missing size (`CompleteResult`).
- `BenchmarkLog.EntryLines` states only the entry's first and last line; the lines between are its definition.
- After `clearAllText` the selection still refers to a removed label, as in the code.
- `TextPreview.VideoTextPreview.UpdateLabel` omits the label's frame resize to its intrinsic content size: no label geometry beyond centre and transform is modelled.
- The UI-only files (view controllers, `DeleteView`, `VideoTextPreviewNode`, and the separate `VideoTextLabel` class) are not part of this model. Neither is the gesture delegate that allows simultaneous recognition.
