# CocoaAR core, modelled in Dafny

CocoaAR is a macOS app. It runs a folder of photographs through the
platform's photogrammetry session, previews the result in a 3D viewport and
exports a model file. This project models the three pieces of discrete logic
in the app. Each is a pure step function over an immutable record, folded
over a sequence of events:

- **The progress stage** (`reconstruction.dfy`, module `Reconstruction`). This
  is the loop that consumes the session's output stream. It drives the
  progress value and the status label, and stores the bounds, point-cloud and
  poses results in three optional slots. Whenever a completion leaves all
  three slots filled, it hands the results to the preview stage. A request
  error, or an error thrown by the stream, ends the process (`fatalError`).
- **The preview stage** (`preview.dfy`, module `Preview`). It builds the box
  proxy and one sphere marker per cloud point. The width, height and depth
  text fields edit the box one axis at a time. On export it builds the
  model-file request from the box.
- **The orbit camera** (`orbit_camera.dfy`, module `OrbitCamera`). This is the
  pan-gesture state machine with its optional baseline transform, plus the
  reset action and the four nudges.

Shared types live in `common.dfy` (`Option`) and `geometry.dfy` (axes,
vectors, boxes, rotations and transforms). The engine's message shapes live
in `engine.dfy`.

Abstractions:

- Coordinates are exact `real`s.
- A quaternion product is a term of the free `Rotation` algebra, so it is
  uninterpreted.
- `Float(String)` and `String(Float)` become the function parameters `parse`
  and `show`.
- Point-colour channels are 8-bit (`byte`).
- Every extent the app uses is read back from the box mesh's bounds: the
  `??` defaults, the reverted field text and the export constraint. The model
  assumes these read-back extents equal the sizes last passed to the box
  generator, so it stores those sizes. The assumption cannot hold for a
  negative size, because a mesh's bounds have non-negative extents (see
  Left out).
- A generated box mesh is assumed to be centred on its entity's origin.
  So its own bounds (`Preview.MeshBounds`) are centred at the origin, while
  the box is displayed at its entity's position (`Preview.DisplayedBox`).
  This is an assumption about the 3D engine, not something proved.
- Each hand-over to the preview stage is recorded as a `Snapshot` in the
  driver's `transitions` sequence. The view-controller transition itself is
  not modelled.

The model follows the code where it departs from what the app appears to
intend. The preview transition looks meant to fire once. The code has no such
guard: every later bounds, point-cloud or poses completion re-triggers it
while all three slots are filled. `Reconstruction.HandOverCount` counts the
hand-overs exactly, and `Reconstruction.HandsOverAgain` shows a second one.
The per-pose image markers the preview stage seems meant to show are not
built by the code (see Left out).

## Model

| member | source | states |
|---|---|---|
| Reconstruction.Start | CocoaAR/ProgressViewController.swift:29-31 | The stage starts with all three result slots empty, no hand-over and no error. |
| Reconstruction.Step | CocoaAR/ProgressViewController.swift:33-86 | One output: the label shows it. The stage ends exactly when it was already ended or the item is a request error or a thrown stream error. An ended stage ignores everything. The progress range never changes. |
| Reconstruction.StoreFrame | CocoaAR/ProgressViewController.swift:45-64 | A bounds, point-cloud or poses completion fills only its own slot and keeps the other two. It appends a hand-over carrying the three current results exactly when all three are then filled. |
| Reconstruction.OtherItemsKeepResults | CocoaAR/ProgressViewController.swift:36-82 | Every other item leaves the three slots and the hand-overs unchanged. |
| Reconstruction.ProgressValue | CocoaAR/ProgressViewController.swift:37-44 | Input completion sets progress to 0, processing completion sets it to the maximum, and request progress sets it to the maximum times the fraction. Every other output leaves it alone. |
| Reconstruction.FractionOf | CocoaAR/ProgressViewController.swift:43-44 | The maximum times a fraction in [0, 1] lies in [0, max]. |
| Reconstruction.ProgressWithinRange | CocoaAR/ProgressViewController.swift:43-44 | Request progress with a fraction in [0, 1] keeps the progress value within [0, max]. |
| Reconstruction.InertOutputs | CocoaAR/ProgressViewController.swift:65-81 | Cancelled, invalid, skipped and downsampling outputs, progress info, incomplete stitching and unknown outputs change only the label. So do completions of other requests. |
| Reconstruction.Run | CocoaAR/ProgressViewController.swift:33-86 | A left fold of the step over the stream. Hand-overs are only ever appended. The stage ends exactly when some item is terminal, and an ended stage stays as it is. |
| Reconstruction.RunConcat | CocoaAR/ProgressViewController.swift:33-83 | Consuming a stream in two parts is the same as consuming it whole. |
| Reconstruction.TerminalStopsProcessing | CocoaAR/ProgressViewController.swift:68-86 | After a request error or a thrown error the stage has ended, and nothing after that item has any effect. |
| Reconstruction.Consume | CocoaAR/ProgressViewController.swift:33-86 | The loop consumes items in order, one at a time, and its result is the fold over the stream. It stops early only when the stage has ended. Every item before the last one it consumed is non-terminal. |
| Reconstruction.FilledOnlyByDelivery | CocoaAR/ProgressViewController.swift:47-62 | A slot that starts empty is filled only if its result arrives somewhere in the stream. |
| Reconstruction.FilledIffArrived | CocoaAR/ProgressViewController.swift:45-64 | Before any terminal item, a slot is filled exactly when its result has arrived, in whatever order the three results come. |
| Reconstruction.MissingResultNeverHandsOver | CocoaAR/ProgressViewController.swift:50-64 | If one of the three results never arrives, the stage never hands over. |
| Reconstruction.HandOverCount | CocoaAR/ProgressViewController.swift:45-64 | The number of hand-overs equals the number of completions at or after which all three results have arrived. There is no once-guard. |
| Reconstruction.HandsOverAgain | CocoaAR/ProgressViewController.swift:47-64 | Bounds, point cloud, poses and then a second bounds give two hand-overs, the second with the new bounds. |
| Preview.MarkerColor | CocoaAR/PreviewViewController.swift:63-68 | Red, green and blue are channel/255 and lie in [0, 1]. Alpha is channel/100 and lies in [0, 1] exactly when the channel is at most 100. Multiplying back recovers the channels. |
| Preview.BuildMarkers | CocoaAR/PreviewViewController.swift:58-75 | One sphere marker per cloud point, in order, at the point's position, with radius 0.005 and the point's converted colour. |
| Preview.MarkerColorsInRange | CocoaAR/PreviewViewController.swift:58-75 | All of a marker's colour channels are in [0, 1] exactly when its point's alpha channel is at most 100. |
| Preview.Setup | CocoaAR/PreviewViewController.swift:27-54 | Each text field shows its axis of the engine's extents. The box proxy has those extents and sits at the engine's bounds centre. |
| Preview.UpdateBoxBounds | CocoaAR/PreviewViewController.swift:86-99 | Each supplied size replaces its axis. Each omitted axis keeps its current extent. Position and texts are unchanged. |
| Preview.Commit | CocoaAR/PreviewViewController.swift:102-127 | Unparsable text leaves the box unchanged and resets that field to the current extent of its own axis. Parsable text sets that axis to the value and keeps the other two axes and the position. |
| Preview.ApplyEdits | CocoaAR/PreviewViewController.swift:102-127 | Any sequence of commits keeps the box's position. |
| Preview.EditsPerAxis | CocoaAR/PreviewViewController.swift:102-127 | After any commits, each axis holds the value of its own last commit that parsed, or its starting extent. Commits on other axes do not matter. This holds for non-negative sizes only (see Left out). |
| Preview.ExportRequestAsWritten | CocoaAR/PreviewViewController.swift:138-142 | As written, the export asks for reduced detail and is constrained to a box centred at the origin with the current extents. |
| Preview.AsWrittenExportMissesOffsetBox | CocoaAR/PreviewViewController.swift:138-142 | As written, the export constraint equals the displayed box exactly when the bounds centre is the origin. |
| Preview.AsWrittenExportCounterexample | CocoaAR/PreviewViewController.swift:138-142 | Bounds centred at (1, 0, 0) are shown there but exported centred at the origin. |
| Preview.ExportAsWrittenAfterEdits | CocoaAR/PreviewViewController.swift:102-142 | As written, from load to export: the constraint is centred at the origin whatever the engine's bounds centre. Each axis carries its last committed value that parsed, or the engine's extent. |
| Preview.ExportRequest | CocoaAR/PreviewViewController.swift:138-142 | Corrected definition (see Findings), not the code as written: the export asks for reduced detail and is constrained to the displayed box, with its extents at the moment of export. |
| Preview.ExportAfterEdits | CocoaAR/PreviewViewController.swift:102-142 | Corrected definition (see Findings), not the code as written: from load to export, the constraint is centred at the engine's bounds centre. Each axis carries its last committed value that parsed, or the engine's extent. |
| Preview.WidthEditScenario | CocoaAR/PreviewViewController.swift:102-109 | From extents (2, 1, 1), width "3" gives (3, 1, 1). Then "abc" keeps (3, 1, 1) and resets the field to the text of 3 (`show(3.0)`, "3.0" on the platform). |
| OrbitCamera.RotateCamera | CocoaAR/MyARView.swift:111-116 | Only the rotation changes: translation and scale are kept. The new rotation is the baseline rotation, then a turn about Y by x·0.01, then a turn about X by −y·0.01. |
| OrbitCamera.RotationIgnoresCurrent | CocoaAR/MyARView.swift:111-114 | The rotation depends only on the baseline and the translation, never on the transform it replaces. |
| OrbitCamera.PanStep | CocoaAR/MyARView.swift:70-104 | Began stores the current transform as the baseline and rotates from it. Changed or ended without a baseline does nothing. With a baseline, changed rotates from it, and ended rotates from it and then drops it. Cancelled and failed drop the baseline and keep the transform. Possible and unknown states change nothing. A recognized pan is the ended state on the platform, so it takes the ended path, and the handler's separate recognized case (line 99) is never reached. No pan moves or scales the camera. |
| OrbitCamera.Nudge | CocoaAR/MyARView.swift:118-132 | A nudge moves the camera along one axis by the given distance. It keeps the other two coordinates, the rotation, the scale and the baseline. |
| OrbitCamera.Step | CocoaAR/MyARView.swift:106-132 | Reset gives the identity transform and keeps the baseline. Right and left change only x, by +0.1 and −0.1. Up and down change only z, by −0.1 and +0.1. Pans never move or scale the camera. |
| OrbitCamera.BaselineLifecycle | CocoaAR/MyARView.swift:74-98 | From a camera with no pan in progress, a baseline exists exactly when a pan began and nothing later ended, cancelled or failed it. The baseline is then the transform the camera had just before the last began. |
| OrbitCamera.BaselineFromRest | CocoaAR/MyARView.swift:70-104 | For a freshly created camera, a baseline exists exactly while a pan is in progress: one began, and nothing since ended, cancelled or failed it. |
| OrbitCamera.BaselineKept | CocoaAR/MyARView.swift:79-102 | Events other than began, ended, cancelled and failed leave the baseline as it is. |
| OrbitCamera.ReplayGivesSameRotation | CocoaAR/MyARView.swift:79-92 | During a pan, changed or ended with translation t rotates to the orbit of the baseline by t. The result is the same whatever events came in between. |
| OrbitCamera.PanFromBegin | CocoaAR/MyARView.swift:74-92 | After began and any events that keep the baseline, changed or ended with t rotates to the orbit, by t, of the rotation the camera had when the pan began. |
| OrbitCamera.ResetAfterAnything | CocoaAR/MyARView.swift:106-109 | Reset gives the identity transform after any history. |
| OrbitCamera.NudgesCancel | CocoaAR/MyARView.swift:118-132 | Right then left, left then right, up then down and down then up each restore the camera exactly, in exact arithmetic. |

## Findings

| source | as written | input that shows it | evidently intended | confidence | as-written member | corrected member |
|---|---|---|---|---|---|---|
| CocoaAR/PreviewViewController.swift:141 | The export's oriented-bounds constraint is built from `boxEntity.model!.mesh.bounds`. These are the mesh's own bounds, centred at the origin, while the box is shown at `bounds.center` (line 52). | Engine bounds centred at (1, 0, 0) with extents (2, 1, 1): the box is shown centred at (1, 0, 0), but the export is constrained to a box centred at (0, 0, 0). | The constraint is the box the user sees: centred at the engine's bounds centre, with the edited extents. | medium; not executed (relies on a generated box mesh being centred on its entity's origin) | Preview.AsWrittenExportCounterexample | Preview.ExportAfterEdits |

## Left out

- Rendering (RealityKit) is not modelled: anchors, meshes, materials, the light, the ground plane and the camera rig's anchor at (0.2, 1, 1). Only the box proxy's geometry and the markers' position, radius and colour are modelled.
- Floating point is not modelled. Coordinates, extents and progress are exact reals, so 32-bit rounding, NaN and infinities are out of scope. 
- Preview.Commit: a negative parsed size is stored as is. In the app, the box generator either rejects it or builds a mesh whose read-back extent is non-negative, and that read-back value then feeds the `??` defaults (CocoaAR/PreviewViewController.swift:87-89), the reverted text and the export. The contract is faithful only for non-negative sizes.
- Preview.UpdateBoxBounds: an omitted axis keeps the stored extent, which may be a negative size stored earlier. The app reads the non-negative mesh extent back instead (line 87), so the contract is faithful only while every stored size is non-negative.
- Preview.EditsPerAxis: holds only for non-negative parsed sizes. After a negative commit, a later commit on another axis passes the non-negative read-back extent to the generator, so in the app that axis changes from the negative value to its magnitude (or the app traps at the negative commit). Extents (2, 1, 1) with edits "-3" on X then "2" on Y give (−3, 2, 1) in the model, while the app would give (3, 2, 1).
- Preview.ExportAsWrittenAfterEdits: the per-axis extents of the exported constraint hold only for non-negative parsed sizes, for the same read-back reason as `Preview.EditsPerAxis`.
- Preview.ExportAfterEdits: the per-axis extents of the corrected constraint hold only for non-negative parsed sizes, for the same read-back reason as `Preview.EditsPerAxis`.
- Quaternion algebra is not modelled. Rotations are uninterpreted terms, so no identity between different rotation terms (for example, angles that differ by 2π) is available.
- `Float(String)`, `String(Float)` and `localizedDescription` are platform calls. They are the parameters `parse` and `show`, and the label records the output it describes rather than its text.
- The pose loop (CocoaAR/PreviewViewController.swift:79-83) is not modelled. Its body is empty, and its only behaviour is a trap when `posesBySample` lacks an index. The image markers and the gallery described for the preview stage do not exist in the code.
- The remaining stages are UI and I/O glue: the view-controller transitions, `transitToPreviewViewController` beyond recording its arguments, `SelectPhotosViewController.swift`, `HomeViewController.swift` and `Constant.swift`. A second hand-over is not harmless in the app. Once the first transition's completion has removed the stage from its parent (CocoaAR/ProgressViewController.swift:115), a second call traps on the force cast of `parent` (line 102). The model records it as one more `Snapshot` and keeps running.
- The export request's output URL, `session.process` and the new progress stage it starts are not modelled.
- `Task` creation, cancellation in `deinit` and the suspension mechanics of the async stream are not modelled, because they concern concurrency. The stream is a finite sequence of items. The `Crashed` phase models the process exit at `fatalError` (CocoaAR/ProgressViewController.swift:69 and 85) and nothing else; the `print` calls (lines 71, 75 and 77) only log, and that logging is dropped.
- Reconstruction.HandOverCount: states the count only for streams without a terminal item, because the `Crashed` phase cuts a stream short. `Reconstruction.TerminalStopsProcessing` covers what follows a terminal item.
