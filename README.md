# imagist in Dafny

This project models the decision layer of `imagist`, the image-variant engine of gocipe-upload. It covers three parts:

- **Admission (`Imagist.Add`)**: the signature check, header decode, type allow-list {jpg, jpeg, png} and the optional width/height floors, in that order. The outcomes of the signature check and of the header decode are inputs. On success exactly one `Job` goes into the bounded jobs queue.
- **Dispatch (`New`, `listen`, the completion signal of `execute`)**: two bounded channels, the in-flight set of file paths and the executions started for them. Goroutines and `select` become events that may happen in any order. A ghost count of running executions per path shows that at most one runs per path.
- **Per-format planning (`execute`, `imageProcess`)**: the skip guard, the target size, the landscape test, the choice between fill and backdrop, the backdrop canvas and its fallback colour, the watermark asset key and the environment-specific handling of its load failures, the anchor arithmetic with its write-back of normalised anchors, and the output path `path:name`. Pixel work is replaced by the boxes it is asked to produce. The result of one format is an abstract plan: `Fill(box)` or `Backdrop(fit, canvas, layer)`, an optional watermark point, and the output path.

Files:

- `wrappers.dfy`: Option and Result.
- `anchors.dfy`: the anchor constants, the `WatermarkPosition` class and the pure placement functions.
- `dimensions.dfy`: the data model and the admission checks.
- `processing.dfy`: per-format planning, `ImageProcess` and execute's loop.
- `dispatch.dfy`: the dispatcher as a pure state machine, and the `Imagist` class whose methods are tied to it.

Inputs that stand for I/O or library calls:

- `isImage` is the result of `filetype.IsImage`.
- `decoded` is the result of `image.DecodeConfig`: a header and a type name, or `None`.
- `Config` holds the environment and the watermark and backdrop base keys, which the source keeps in globals.
- `Io` holds:
  - whether the original opens;
  - the asset source, as a map from key to asset (an absent key fails to open, `Undecodable` fails to decode);
  - whether `imaging.FormatFromFilename` knows the extension;
  - the output paths that cannot be created;
  - the output paths whose encoding fails.

Behaviour of the code that the model keeps, though it may look unintended:

- The backdrop canvas is `format.Width x format.Height`, not the capped target box. So a backdrop variant can be larger than the original (`BackdropCanvasCanExceedOriginal`).
- In production, a watermark key that fails to open makes the variant fail with no file written (imagist/imagist.go:305-308). Only a watermark that opens but does not decode is skipped.
- The Left anchor uses `x = OffsetX` without adding `Min.X`, while Right and Center add it. The model keeps this. It makes no difference for the images the pixel library returns, whose `Min` is the origin: `Background` always gives a rectangle at (0, 0), so Left's `OffsetX` equals `Min.X + OffsetX` there.

The height cap of `execute` is the one place where the model departs from the code: as written it never caps the height (see Findings). The execute loop of the model uses the corrected capping, and the "no upscaling" property of the box the original is scaled into holds only under it (`OutcomesSkipInvalidAndNeverUpscale`). Under the code as written a 600x200 original with a 300x400 format is filled into 300x400 (`AsWrittenUpscalesHeight`).

## Model

| member | source | states |
|---|---|---|
| `Anchors.WatermarkPosition.constructor` | imagist/imagist.go:101-107 | A new position holds exactly the given anchors and offsets |
| `Anchors.WatermarkPosition.Place` | imagist/imagist.go:321-349 | Returns the placement point for the anchors held on entry, and writes back an unknown horizontal anchor as Left and an unknown vertical anchor as Top, keeping the offsets |
| `Anchors.NormalizedIdempotent` | imagist/imagist.go:323-342 | Normalising a position a second time changes nothing |
| `Anchors.NormalizedPlacesAlike` | imagist/imagist.go:323-349 | Normalising twice is the same as normalising once; the normalised anchors are known ones; placement with the written-back anchors gives the same point, so re-running is idempotent |
| `Anchors.UnknownAnchorsActAsLeftTop` | imagist/imagist.go:323-328 | Any anchor outside {Left, Right, Center} horizontally (Top and Bottom included) and outside {Top, Bottom, Center} vertically is placed at (OffsetX, OffsetY) and normalised to Left/Top |
| `Anchors.FarAnchorsKeepOffsetFromEdge` | imagist/imagist.go:329-331 | With Right/Bottom, the watermark's right and bottom edges sit exactly OffsetX and OffsetY inside the background's edges |
| `Anchors.CenterAnchorBalancesMargins` | imagist/imagist.go:332-334 | With Center/Center and zero offsets, the two horizontal margins differ by at most one pixel, and so do the two vertical margins |
| `Anchors.ZeroOffsetsStayInside` | imagist/imagist.go:323-349 | With zero offsets, a watermark no larger than a background at the origin lies inside it for every anchor pair |
| `Anchors.WorkedPlacements` | imagist/imagist.go:329-348 | On a 200x100 background, a 20x10 watermark at Right/Bottom with offsets 5 is placed at (175, 85), and at Center/Center with offsets 0 at (90, 45) |
| `Dimensions.Validate` | imagist/imagist.go:184-222 | Accepts exactly when the buffer is an image, its header decodes, its type is jpg/jpeg/png, and (when validating) no non-sentinel floor exceeds the header; the accepted job carries the path, the decoded header and the given spec or the default one |
| `Dimensions.RejectionOrder` | imagist/imagist.go:184-203 | A non-image is rejected as such whatever its header; an undecodable image is a decode error; a decoded type outside the allow-list is reported with its name |
| `Dimensions.GifIsRejected` | imagist/imagist.go:198-203 | A decodable gif header is rejected as an unsupported type |
| `Dimensions.FloorErrors` | imagist/imagist.go:205-216 | When validating, a width below a non-sentinel floor is reported first; a height below its floor is reported only when the width passes |
| `Dimensions.SizeIgnoredWithoutFloors` | imagist/imagist.go:188-190 | With validation off, no spec, or both floors at the sentinel, the verdict is the same for any two header sizes |
| `Dimensions.MissingSpecIsDefault` | imagist/imagist.go:39-43 | Passing no spec behaves exactly like passing the default spec (both floors at the sentinel, no formats) |
| `Processing.TargetSize` | imagist/imagist.go:234-243 | Each side of the target box is at most the requested side and at most the original's side, and equals one of them (the minimum) |
| `Processing.TargetSizeAsWritten` | imagist/imagist.go:234-243 | As written, the target height is always the requested height; the width is capped as in the corrected version |
| `Processing.AsWrittenDiffersOnlyForTallFormats` | imagist/imagist.go:241-243 | The as-written and corrected target boxes differ exactly when the requested height exceeds the original's height |
| `Processing.AsWrittenUpscalesHeight` | imagist/imagist.go:241-243 | For a 600x200 original and a 300x400 variant, the as-written target is 300x400, taller than the original; the corrected target is 300x200 |
| `Processing.PlanFormat` | imagist/imagist.go:253-369 | The variant fails with "image open error" exactly when the original does not open; with "watermark not found" exactly when, after that, production cannot open the watermark key of an entry that has a position; with an unknown format or an uncreatable output file exactly when the earlier steps passed and that step fails; otherwise a file is written and `encoded` says whether encoding succeeded. A written variant goes to `path:name` and scales the original into the target box. It uses the backdrop layout exactly when Backdrop is set and the image is not landscape. Its canvas is the requested box: the backdrop asset filled to the canvas when it loads, and the solid fallback colour otherwise. It has a watermark point exactly when the entry has a position and the watermark loaded, and the point is the anchor placement on the bounds of the composed image: the backdrop canvas or the filled box |
| `Processing.OutputPathInjective` | imagist/imagist.go:360 | Two variant names give the same output path only if they are equal |
| `Processing.PlanIgnoresNormalization` | imagist/imagist.go:323-349 | Planning an entry whose shared position was already normalised gives the same result as planning it before normalisation |
| `Processing.BackdropNeverFails` | imagist/imagist.go:270-290 | Whether the backdrop asset loads never decides whether the variant fails; the output, watermark, encoding result and foreground box are the same either way |
| `Processing.DevSkipsMissingWatermark` | imagist/imagist.go:301-302 | In development, a watermark that does not load leaves the variant identical to the one planned without a watermark |
| `Processing.ProdWatermarkFailures` | imagist/imagist.go:303-312 | In production, a watermark key that does not open fails the variant with "watermark not found"; one that opens but does not decode is skipped |
| `Processing.BackdropCanvasCanExceedOriginal` | imagist/imagist.go:278-289 | For a 100x200 original and a 400x400 backdrop variant, the original is fitted into 100x200 on a 400x400 canvas of the fallback colour |
| `Processing.ImageProcess` | imagist/imagist.go:253-369 | Returns the plan of the entry as it was on entry, and normalises the shared watermark position exactly when the source opened and the watermark loaded |
| `Processing.ExecuteEntry` | imagist/imagist.go:229-247 | One loop turn: an entry with an empty name or a non-positive side gives no outcome; any other entry gives the plan for its capped target box and landscape test, even if its shared position was normalised earlier in the loop. The entry's shared position is normalised exactly when the entry is admissible, the original opens and its watermark loads, and is otherwise unchanged |
| `Processing.Outcomes` | imagist/imagist.go:229-248 | The loop yields exactly one outcome per format entry |
| `Processing.OutcomesAt` | imagist/imagist.go:229-248 | The outcome of entry k depends on that entry alone: it is what one loop turn does with it, whatever the other entries are or how they fail |
| `Processing.OutcomesSnoc` | imagist/imagist.go:229-248 | The outcomes of the first i+1 entries are those of the first i followed by what one loop turn does with entry i |
| `Processing.OutcomesSkipInvalidAndNeverUpscale` | imagist/imagist.go:229-243 | An entry is skipped exactly when its name is empty or a side is not positive; a written variant goes to `path:name` and scales the original into a box no wider and no taller than the original |
| `Processing.OutcomesWriteDistinctFiles` | imagist/imagist.go:229-248 | Two written variants of one job with different names go to different files |
| `Processing.ExecuteFormats` | imagist/imagist.go:229-248 | The loop's outcomes are the outcomes of the entries as they were when execution began; a shared watermark position ends normalised exactly when some admissible entry pointing to it had its watermark load while the original opened, and unchanged otherwise |
| `Dispatch.TakeJobStartsAtMostOne` | imagist/imagist.go:173-177 | Receiving a job dequeues it and starts one execution for its path exactly when the path was not in flight; no other path's count changes |
| `Dispatch.TakeDoneRemovesOnlyItsKey` | imagist/imagist.go:171-172 | Receiving a completion removes only that path from the in-flight set; removing an absent path changes nothing |
| `Dispatch.TakeJobKeepsInv` | imagist/imagist.go:173-177 | Receiving a job keeps the channels within bound and keeps each path in flight exactly while one execution runs or its signal waits |
| `Dispatch.TakeDoneKeepsInv` | imagist/imagist.go:171-172 | Receiving a completion signal keeps the invariant: the signalled path was in flight, and removing it balances the removed signal |
| `Dispatch.CompleteKeepsInv` | imagist/imagist.go:250 | Sending a completion signal keeps the invariant: the running execution is traded for a waiting signal |
| `Dispatch.ApplyKeepsInv` | imagist/imagist.go:166-178 | Every enabled event keeps the channels within bound and keeps each path in flight exactly while one execution runs or its completion signal waits |
| `Dispatch.RunKeepsInv` | imagist/imagist.go:166-178 | The invariant holds after any sequence of events |
| `Dispatch.AtMostOneExecution` | imagist/imagist.go:167-177 | Under the invariant, no path has more than one running execution, and a path with a running execution is in flight |
| `Dispatch.NoDuplicateExecution` | imagist/imagist.go:146-178 | From the empty state after New, whatever the order of events, at most one execution runs per path |
| `Dispatch.DuplicateIsDropped` | imagist/imagist.go:174 | A job at the head of the queue whose path is already in flight is dropped, however many jobs wait behind it: the only change is the dequeue |
| `Dispatch.Imagist.New` | imagist/imagist.go:146-163 | Both channels get size 10 when no size is given and the first size otherwise; the new dispatcher is empty and satisfies the invariant |
| `Dispatch.Imagist.Add` | imagist/imagist.go:183-226 | Returns no error exactly when validation accepts. On an error the state is unchanged. On success the validated job is appended to the queue |
| `Dispatch.Imagist.ReceiveJob` | imagist/imagist.go:173-177 | Dequeues the head job; returns it as started and marks its path exactly when the path was not in flight; keeps the invariant |
| `Dispatch.Imagist.ReceiveDone` | imagist/imagist.go:171-172 | Dequeues one completion signal and removes its path from the in-flight set; keeps the invariant |
| `Dispatch.Imagist.Execute` | imagist/imagist.go:228-251 | Runs the format loop with the outcomes of `Outcomes`, then ends one running execution for the job's path and sends exactly one completion signal for it; keeps the invariant. Each shared watermark position ends normalised exactly when some entry's turn wrote it back, and unchanged otherwise |

## Left out

- Pixel work (`imaging.Open/Fit/Fill/New/OverlayCenter/Overlay/Encode`, Lanczos resampling) is floating point inside a library. It is represented by the boxes it is asked to produce. The fitted image is given as its bounding box, not its exact aspect-preserving size.
- Image bounds are taken to be what the pixel library returns: the requested size with `Min` at the origin. A zero-sized original (a header reporting width or height 0) is not special-cased.
- `filetype.IsImage`, `image.DecodeConfig` and `imaging.FormatFromFilename` are library calls. Their outcomes are inputs. The `init` codec registration is left out with them.
- File and asset access (`os.Create`, `_assetBox.Open`, the `"../assets/"` prefix in development, `defer Close`) is I/O. Only whether each step succeeded is modelled. Development and production read the same abstract asset source.
- `log.Printf` calls, `SetEnv`, `SetBackdropImage` and `SetWatermarkImage` are wiring. Their values are the immutable `Config` parameter.
- The value of `util.NoLimit`: the util package is not part of this model, so `NoLimit` is a stand-in value. No property depends on it, because a floor equal to the sentinel is never compared.
- Goroutines and channels: blocking on a full channel is a precondition (`Add`, `Execute`) or a disabled event (`Run`). A channel of size 0 is modelled as a buffer of one. Scheduler fairness and deadlock are not modelled.
- Dispatch.Imagist.Execute: one execution runs as a single step. Its formats do not interleave with other events. It touches no dispatcher state before its final send, so the dispatcher's properties are unaffected.
- Aliasing between a `Job` and its caller: `Job.Dimensions` is a pointer in the source, so a caller could change the spec after `Add`. The model holds the spec as a value; only the `WatermarkPosition` objects are shared.
- Two concurrent executions that share one `WatermarkPosition` object race on its write-back. The model runs executions one at a time. The write-back is idempotent and does not move the watermark (`NormalizedPlacesAlike`).
- Processing.ExecuteStep, Processing.Outcomes, Processing.OutcomesSkipInvalidAndNeverUpscale, Processing.ExecuteFormats, Processing.ExecuteEntry, Dispatch.Imagist.Execute: use the corrected height capping (see Findings), not the as-written one; their no-upscaling guarantee does not hold of the code as written.
- Dispatch.Imagist.New: requires a non-negative channel size. In the source a negative size makes `make(chan …)` panic; the model does not represent the panic.
- Per-format errors: `execute` discards them in the source. The model still returns them in `outcomes` so that contracts can speak about them; nothing reports them to the dispatcher.

## Findings

| source | as written | input that shows it | evidently intended | confidence | as-written member | corrected member |
|---|---|---|---|---|---|---|
| imagist/imagist.go:241 | `if j.Config.Height < j.Config.Height` compares the original height with itself, so the target height is never capped | original 600x200, format 300x400: target 300x400, taller than the original | cap the height at the original's height, like the width (`j.Config.Height < format.Height`) | high; derived by proof, not executed | `Processing.AsWrittenUpscalesHeight` | `Processing.TargetSize` |
