# AnyAICam camera pipeline — a Dafny model

AnyAICam is an Android camera app that runs an ordered, user-chosen chain of image
processors over every camera frame. The processors are raw, face, pose, tongue and
wink. The app enables the shutter only when every processor is satisfied. A captured
photo goes to a preview screen, which shows and saves one result per processor. The
repository also holds an older version of the app, MPdetector, and an earlier
prototype, tanguecaptureapp.

This project models the sequential logic under the CameraX, MediaPipe, OpenCV and
MediaStore glue:

- **The per-frame analyzer of both camera screens.** It covers the rotation step and the
  processor chain, with each stage fed the previous stage's output. It also covers the
  shutter flag (the AND of the stage statuses) and the identity-based release rule for
  OpenCV buffers. Finally it covers the `finally` block, which releases the frame's
  buffers and closes the image. A frame that `cvtColor` cannot convert throws before
  the `try`, so that frame's image stays open and its conversion buffers leak.
  - Buffers are modelled as identities handed out by `Mats.MatHeap`, which logs every
    `release()`.
  - `MatHeap.FrameInv` states that exactly the live buffers of a frame are unreleased,
    and that none is released twice.
- **AnyAICam's recording toggle and its lazily created recorder.**
- **NV21 assembly**: the Y, V and U plane bytes are copied into one byte array, in that order.
- **The contracts of the raw, wink, face, pose and tongue stages.** For each stage, the
  model gives:
  - whether display returns its input or a fresh clone;
  - which status it reports;
  - what the save path returns, or that it throws.

  It also covers the pose visibility filter, the tongue crop window test, and both
  tongue classifiers (`TfliteHelper`).
- **The processor registry.** It loads classes in declaration order, skips a class that
  fails to load, and caches the result.
- **Both processor-selection adapters.** They cover swaps, the selection map, the
  dummy-preview coupling and the order-preserving filter.
- **AnyAICam's preview/save screen.** It keeps the stored results keyed by processor,
  shows either the placeholder or the real result, and builds the file names and the
  gallery entries.
- **MPdetector's detector plumbing**: the factory, the detector switch, the mirroring
  rule and the crop of the detected box.
- **The prototype's trig-free tongue square.** It is stated on exact reals and proved to
  be a square that maps rigidly onto the upright output bitmap.

Detections, classifier scores, matching-pixel counts, class-load results, write
outcomes and similar platform answers are parameters of the operations. Every source
path below is relative to the repository root.

## Model

| member | source | states |
|---|---|---|
| Mats.MatHeap.Alloc | app/src/main/java/com/example/AnyAICam/CameraFragment.kt:261-267 | `Mat()` and `clone()` give a buffer with a new identity of the given size; nothing is released |
| Mats.MatHeap.Release | app/src/main/java/com/example/AnyAICam/CameraFragment.kt:317-318 | `release()` appends exactly that buffer's identity to the release log |
| Ingest.YuvRows | app/src/main/java/com/example/AnyAICam/CameraFragment.kt:453 | the YUV matrix has height + height/2 rows, i.e. 3/2 of the height rounded down |
| Ingest.BufferGet | app/src/main/java/com/example/AnyAICam/CameraFragment.kt:450-452 | `buffer.get(dst, offset, n)` writes the source bytes at `offset` and leaves the rest of the array unchanged |
| Ingest.AssembleNv21 | app/src/main/java/com/example/AnyAICam/CameraFragment.kt:446-452 | the NV21 array has length ySize+uSize+vSize and holds the Y bytes, then V, then U (the same code is at MPdetector/CameraFragment.kt:222-228) |
| Ingest.ConvertsIff | app/src/main/java/com/example/AnyAICam/CameraFragment.kt:453-456 | `cvtColor` accepts the image's NV21 matrix iff the image is non-empty with even width and even height |
| Ingest.ImageProxyToMat | app/src/main/java/com/example/AnyAICam/CameraFragment.kt:442-459 | the YUV matrix and an empty RGBA `Mat()` are allocated; on a successful conversion the YUV matrix is released and the RGBA frame, of the image's size, is the only new live buffer; when `cvtColor` throws (`converted` false, exactly when the image does not convert) nothing is released and both buffers stay live |
| Stages.RawDisplay | app/src/main/java/com/example/MPdetector/models/raw/ImgAnalyzer.kt:20-23 | raw display returns the very same frame with status true |
| Stages.RawSave | app/src/main/java/com/example/MPdetector/models/raw/ImgAnalyzer.kt:29-31 | raw save returns the very same bitmap |
| Stages.WinkDisplay | app/src/main/java/com/example/MPdetector/models/wink_detector/ImgAnalyzer.kt:16-26 | wink display draws on a fresh clone (the input is never drawn on) and reports true |
| Stages.WinkMark | app/src/main/java/com/example/MPdetector/models/wink_detector/ImgAnalyzer.kt:21-22 | the mark is a radius-50 circle whose centre is equidistant from both edges in each direction |
| Stages.WinkSave | app/src/main/java/com/example/MPdetector/models/wink_detector/ImgAnalyzer.kt:28-31 | wink save returns its input unchanged |
| Stages.FaceDisplay | app/src/main/java/com/example/MPdetector/models/face_detector/ImgAnalyzer.kt:44-60 | status true iff a landmarker exists; the input comes back iff there is none, otherwise a clone (even with no face) |
| Stages.FaceSave | app/src/main/java/com/example/MPdetector/models/face_detector/ImgAnalyzer.kt:62-82 | the input iff there is no landmarker; otherwise a new bitmap of the input's width and height |
| Stages.DrawFaceLandmarks | app/src/main/java/com/example/MPdetector/models/face_detector/ImgAnalyzer.kt:84-92 | one dot per landmark, in landmark order; no visibility filter |
| Stages.PoseDisplay | app/src/main/java/com/example/AnyAICam/models/pose_detector/ImgAnalyzer.kt:52-72 | status is always true; the input comes back iff there is no landmarker, otherwise a clone |
| Stages.PoseSave | app/src/main/java/com/example/AnyAICam/models/pose_detector/ImgAnalyzer.kt:74-99 | the input iff there is no landmarker; otherwise a new bitmap of the same size |
| Stages.PoseConnections | app/src/main/java/com/example/AnyAICam/models/pose_detector/ImgAnalyzer.kt:104-112 | 35 connections, every endpoint one of the 33 pose landmarks (0..32) |
| Stages.VisibleLinesExact | app/src/main/java/com/example/AnyAICam/models/pose_detector/ImgAnalyzer.kt:118-128 | a segment is drawn iff it is a connection and both ends have visibility > 0.5, missing visibility counting as 0 |
| Stages.VisibleDotsExact | app/src/main/java/com/example/AnyAICam/models/pose_detector/ImgAnalyzer.kt:131-136 | a landmark gets a dot iff its visibility is > 0.5 |
| Stages.DrawPose | app/src/main/java/com/example/AnyAICam/models/pose_detector/ImgAnalyzer.kt:113-137 | the draw calls are the visible segments in connection order, then the visible dots in landmark order |
| ProcessorChain.Ran | app/src/main/java/com/example/AnyAICam/CameraFragment.kt:278-285 | stages run in list order; a throwing stage ends the chain, and every stage before it completed |
| ProcessorChain.AllOkIsConjunction | app/src/main/java/com/example/AnyAICam/CameraFragment.kt:275-286 | the shutter flag is true iff every stage that ran reported true; an empty chain gives true |
| ProcessorChain.NoFreshMeansAllSame | app/src/main/java/com/example/AnyAICam/CameraFragment.kt:281-283 | the chain hands back no new buffer iff every stage returned its own argument |
| ProcessorChain.RanAllComplete | app/src/main/java/com/example/AnyAICam/CameraFragment.kt:280-285 | when no stage throws, every stage runs |
| ProcessorChain.RawOnlyChain | app/src/main/java/com/example/AnyAICam/CameraFragment.kt:278-285 | a chain of raw stages passes the frame through untouched and enables the shutter |
| ProcessorChain.RunChain | app/src/main/java/com/example/AnyAICam/CameraFragment.kt:274-286 | each stage gets the previous output; the status is the AND; each clone but the last is released, in creation order; the rotated frame is never released mid-chain; afterwards exactly the rotated frame and the display buffer are live |
| ProcessorChain.ReleaseFrame | app/src/main/java/com/example/AnyAICam/CameraFragment.kt:316-319 | the display buffer is released iff it is not the rotated frame, then the rotated frame once; nothing of the frame stays live and nothing is released twice |
| AnyAICamCamera.RotatedSize | app/src/main/java/com/example/AnyAICam/CameraFragment.kt:260-267 | 90 and 270 swap the sides; 180 keeps them; any other non-zero hint leaves the unwritten, empty `Mat()` |
| AnyAICamCamera.TempVideoNameAsWrittenIsConstant | app/src/main/java/com/example/AnyAICam/CameraFragment.kt:293 | as written, every recording gets the same temp file name whatever the timestamp |
| AnyAICamCamera.TempVideoNameInjective | app/src/main/java/com/example/AnyAICam/CameraFragment.kt:292-293 | with the timestamp inserted, different timestamps give different temp files |
| AnyAICamCamera.NormalizeRotation | app/src/main/java/com/example/AnyAICam/CameraFragment.kt:259-272 | rotation 0 reuses the converted frame with no allocation or release; any other value makes a temp and its clone, releases the temp and the converted frame, and only the clone stays live |
| AnyAICamCamera.PrepareFrame | app/src/main/java/com/example/AnyAICam/CameraFragment.kt:256-272 | after conversion and rotation only the rotated frame is live, sized by the rotation hint; a conversion that throws rotates nothing and leaves both conversion buffers live |
| AnyAICamCamera.RenderFrame | app/src/main/java/com/example/AnyAICam/CameraFragment.kt:255-288 | a conversion that throws runs no stage and leaves both conversion buffers live; otherwise the chain runs on the rotated frame, the display buffer has the rotated size, which is empty for a non-zero rotation hint other than 90, 180 or 270, and exactly the rotated and display buffers are live |
| AnyAICamCamera.CameraFragment.SaveVideoToGallery | app/src/main/java/com/example/AnyAICam/CameraFragment.kt:192-226 | without a gallery entry nothing changes; otherwise the temp file is forgotten, and it is added to the gallery only if the copy succeeded |
| AnyAICamCamera.CameraFragment.ToggleRecording | app/src/main/java/com/example/AnyAICam/CameraFragment.kt:177-190 | the flag flips; turning on creates nothing; turning off stops the live recorder, drops it and passes the temp file to the gallery save |
| AnyAICamCamera.CameraFragment.OnDestroyView | app/src/main/java/com/example/AnyAICam/CameraFragment.kt:435-440 | a live recorder is stopped (but kept) and the view detaches |
| AnyAICamCamera.CameraFragment.AnalyzeFrame | app/src/main/java/com/example/AnyAICam/CameraFragment.kt:255-321 | an image that does not convert throws before the `try`: the image is not closed, its two conversion buffers are never released, and nothing else changes; otherwise the frame throws iff a stage throws or `matToBitmap` gets an empty display buffer (so a rotation hint other than 0, 90, 180 or 270 always throws), every buffer made for the image is released exactly once, the rotated frame last, and the image is closed even when a stage throws; the shutter and overlay are updated only while the view exists; while recording, the first frame creates the recorder at the display size, with the temp file name as written, and later frames reuse it |
| AnyAICamCamera.CameraFragment.RecordFrame | app/src/main/java/com/example/AnyAICam/CameraFragment.kt:290-308 | a recorder is created only if none exists, sized to the frame; its temp file is named as written (`temp_video_${timestamp}.mp4`, the same for every recording); every frame is drawn into the recorder |
| MPdetectorCamera.NormalizeRotation | app/src/main/java/com/example/MPdetector/CameraFragment.kt:125-131 | 90, 180 and 270 make a new rotated buffer and release the converted one; any other value, 0 included, keeps the converted frame |
| MPdetectorCamera.PrepareFrame | app/src/main/java/com/example/MPdetector/CameraFragment.kt:123-131 | after conversion and rotation only the rotated frame is live, its sides swapped for 90 and 270; a conversion that throws rotates nothing and leaves both conversion buffers live |
| MPdetectorCamera.RenderFrame | app/src/main/java/com/example/MPdetector/CameraFragment.kt:122-145 | a conversion that throws runs no stage and leaves both conversion buffers live; otherwise the chain runs on the rotated frame, the status is the AND, and exactly the rotated and display buffers are live |
| MPdetectorCamera.CameraFragment.OnDestroyView | app/src/main/java/com/example/MPdetector/CameraFragment.kt:212-216 | the view detaches and nothing else changes |
| MPdetectorCamera.CameraFragment.AnalyzeFrame | app/src/main/java/com/example/MPdetector/CameraFragment.kt:122-158 | an image that does not convert throws before the `try`: the image is not closed, its two conversion buffers are never released, and nothing else changes; otherwise the frame throws iff a stage throws or `matToBitmap` gets an empty display buffer, a null or empty list runs no stage, the shutter is the AND of the statuses, every buffer is released exactly once, the rotated frame last, and the image is closed |
| AnyAICamTflite.Init | app/src/main/java/com/example/AnyAICam/models/tongue_detector/TfliteHelper.kt:21-39 | NNAPI first; any NNAPI `Exception` falls back to the CPU; a CPU `IOException` leaves the interpreter null; any other CPU failure leaves the constructor |
| AnyAICamTflite.MaxByOrNull | app/src/main/java/com/example/AnyAICam/models/tongue_detector/TfliteHelper.kt:63-65 | the index of a maximal score, the first one on ties; null only for no scores |
| AnyAICamTflite.ClassificationCases | app/src/main/java/com/example/AnyAICam/models/tongue_detector/TfliteHelper.kt:42-66 | the class is 0, 1 or 2; it is 2 iff there is no interpreter or inference throws; otherwise 0 iff score 0 ≥ score 1 |
| AnyAICamTflite.TfliteHelper.Classify | app/src/main/java/com/example/AnyAICam/models/tongue_detector/TfliteHelper.kt:42-66 | `classify` answers the classification of its interpreter and inference outcome |
| AnyAICamTflite.TfliteHelper.Close | app/src/main/java/com/example/AnyAICam/models/tongue_detector/TfliteHelper.kt:68-71 | the interpreter is cleared, after which every classification is 2 |
| AnyAICamTflite.NewTfliteHelper | app/src/main/java/com/example/AnyAICam/models/tongue_detector/TfliteHelper.kt:17-40 | construction fails iff `init` throws; otherwise the helper's interpreter is the one `init` picks |
| MPdetectorTflite.ClassificationCases | app/src/main/java/com/example/MPdetector/models/tongue_detector/TfliteHelper.kt:29-52 | false without an interpreter or when inference throws; otherwise true iff the class-1 score exceeds 0.5 |
| MPdetectorTflite.TfliteHelper.constructor | app/src/main/java/com/example/MPdetector/models/tongue_detector/TfliteHelper.kt:20-27 | an `IOException` while loading leaves the interpreter null |
| MPdetectorTflite.TfliteHelper.Classify | app/src/main/java/com/example/MPdetector/models/tongue_detector/TfliteHelper.kt:29-52 | `classify` answers the classification of its interpreter and inference outcome |
| MPdetectorTflite.TfliteHelper.Close | app/src/main/java/com/example/MPdetector/models/tongue_detector/TfliteHelper.kt:54-57 | the interpreter is cleared, after which every classification is false |
| MPdetectorTflite.NewTfliteHelper | app/src/main/java/com/example/MPdetector/models/tongue_detector/TfliteHelper.kt:16-27 | construction fails iff loading throws something other than `IOException` |
| TongueGeometry.SquareCenter | app/src/main/java/com/example/AnyAICam/models/tongue_detector/ImgAnalyzer.kt:173-192 | the square's centre is the exact midpoint of landmarks 61 and 291 in pixels |
| TongueGeometry.CropAcceptedIffInside | app/src/main/java/com/example/AnyAICam/models/tongue_detector/ImgAnalyzer.kt:76-88 | the bounds test accepts a non-empty window iff every one of its pixels is in the image; it never clamps |
| TongueGeometry.TongueSaveAsWritten | app/src/main/java/com/example/AnyAICam/models/tongue_detector/ImgAnalyzer.kt:128-166 | the save path as written throws exactly for an accepted window of size 0 |
| TongueGeometry.ZeroSizeCropThrowsAsWritten | app/src/main/java/com/example/AnyAICam/models/tongue_detector/ImgAnalyzer.kt:152-155 | a zero-size window at the image centre passes the test and makes the save path throw |
| TongueGeometry.TongueSave | app/src/main/java/com/example/AnyAICam/models/tongue_detector/ImgAnalyzer.kt:128-166 | a new size×size bitmap iff there is a landmarker and a face, and the window is accepted and non-empty; otherwise the input |
| TongueGeometry.TongueSaveAgrees | app/src/main/java/com/example/AnyAICam/models/tongue_detector/ImgAnalyzer.kt:152-160 | the corrected save path returns what the written one returns whenever the written one does not throw |
| AnyAICamTongue.FaceResultCases | app/src/main/java/com/example/AnyAICam/models/tongue_detector/ImgAnalyzer.kt:76-91 | a face's code is -1, 0, 1 or 2; it is 0 iff the window is accepted and non-empty, helper and interpreter exist, and class 0 wins; no helper gives -1 |
| AnyAICamTongue.TongueAnalyzer.Setup | app/src/main/java/com/example/AnyAICam/models/tongue_detector/ImgAnalyzer.kt:35-55 | the landmarker and the helper are each built only when missing; a landmarker failure is caught; a helper constructor exception leaves `setup` |
| AnyAICamTongue.TongueAnalyzer.ProcessFrameForDisplay | app/src/main/java/com/example/AnyAICam/models/tongue_detector/ImgAnalyzer.kt:57-113 | no landmarker gives (same frame, false); otherwise a clone, each face's code starting at -1, and status true iff the last face's code is 0 (false with no face) |
| AnyAICamTongue.TongueAnalyzer.StateDiscriminatorCall | app/src/main/java/com/example/AnyAICam/models/tongue_detector/ImgAnalyzer.kt:116-125 | -1 without a helper, otherwise the helper's classification |
| AnyAICamTongue.TongueAnalyzer.ProcessFrameForSaving | app/src/main/java/com/example/AnyAICam/models/tongue_detector/ImgAnalyzer.kt:128-166 | as written: throws iff there is a landmarker and a face whose window is accepted but of size 0; a size×size bitmap within the image iff the accepted window is non-empty; otherwise the input |
| AnyAICamTongue.StatusMeansLastFaceIsClassZero | app/src/main/java/com/example/AnyAICam/models/tongue_detector/ImgAnalyzer.kt:68-112 | a true status means the last face's window was accepted and its crop classified as class 0 |
| MPdetectorTongue.StateDiscriminatorThreshold | app/src/main/java/com/example/MPdetector/models/tongue_detector/ImgAnalyzer.kt:146-150 | 1 for an empty crop; otherwise 0 iff matching pixels are at least 50 % of all pixels (2·matching ≥ total) |
| MPdetectorTongue.ResultCarriesOver | app/src/main/java/com/example/MPdetector/models/tongue_detector/ImgAnalyzer.kt:61-82 | the result starts at 1 and is not reset between faces: unusable faces keep the previous result |
| MPdetectorTongue.ResultRange | app/src/main/java/com/example/MPdetector/models/tongue_detector/ImgAnalyzer.kt:61-82 | the result code is always 0 or 1 |
| MPdetectorTongue.TongueAnalyzer.Setup | app/src/main/java/com/example/MPdetector/models/tongue_detector/ImgAnalyzer.kt:34-50 | the landmarker is built only when missing; a failure is caught |
| MPdetectorTongue.TongueAnalyzer.ProcessFrameForDisplay | app/src/main/java/com/example/MPdetector/models/tongue_detector/ImgAnalyzer.kt:52-109 | no landmarker gives (same frame, false); otherwise (clone, true) whatever the faces score; face i shows the result carried up to it |
| MPdetectorTongue.TongueAnalyzer.ProcessFrameForSaving | app/src/main/java/com/example/MPdetector/models/tongue_detector/ImgAnalyzer.kt:153-191 | as written: throws iff there is a landmarker and a face whose window is accepted but of size 0; a size×size bitmap within the image iff the accepted window is non-empty; otherwise the input |
| Processors.DeclaredLabelsDistinct | app/src/main/java/com/example/AnyAICam/ProcessorRepository.kt:13-19 | every declared class has labels, and within one app no two declared processors share a name or a save directory |
| Processors.Processor.constructor | app/src/main/java/com/example/AnyAICam/ProcessorRepository.kt:34-35 | a new instance carries its class's name and directory, with dummy preview off |
| Processors.Processor.SetDummyPreviewEnabled | app/src/main/java/com/example/AnyAICam/models/pose_detector/ImgAnalyzer.kt:25 | a write is kept only by a class with its own backing field (the pose analyzer); for any other class, such as the tongue analyzer (models/tongue_detector/ImgAnalyzer.kt:18-20), the flag stays off |
| Registry.LoadedExact | app/src/main/java/com/example/AnyAICam/ProcessorRepository.kt:32-41 | a class is loaded iff its own load succeeded; a failure drops only that class; the result is drawn from the declared list |
| Registry.AllLoaded | app/src/main/java/com/example/AnyAICam/ProcessorRepository.kt:32-41 | when every load succeeds, the result is the declared list in declaration order |
| Registry.RegistrySizes | app/src/main/java/com/example/MPdetector/ProcessorRepository.kt:13-17 | AnyAICam loads at most its 5 declared processors, MPdetector at most its 3 |
| Registry.ProcessorRepository.AnyAICam | app/src/main/java/com/example/AnyAICam/ProcessorRepository.kt:13-21 | the AnyAICam registry declares its five classes and starts without a cache |
| Registry.ProcessorRepository.MPdetector | app/src/main/java/com/example/MPdetector/ProcessorRepository.kt:13-19 | the MPdetector registry declares its three classes and starts without a cache |
| Registry.ProcessorRepository.GetProcessors | app/src/main/java/com/example/AnyAICam/ProcessorRepository.kt:26-44 | a cached list is returned as is; otherwise one new, distinct processor per loaded class, in declaration order, cached even when loads failed (same code at MPdetector/ProcessorRepository.kt:24-42) |
| Selection.Swapped | app/src/main/java/com/example/AnyAICam/ProcessorSelectionDialogFragment.kt:116 | `Collections.swap` exchanges the two positions and keeps every other one |
| Selection.SwappedIsPermutation | app/src/main/java/com/example/AnyAICam/ProcessorSelectionDialogFragment.kt:112-128 | a swap keeps the same multiset of processors, and swapping again restores the list |
| Selection.InitialStatus | app/src/main/java/com/example/AnyAICam/ProcessorSelectionDialogFragment.kt:69 | every listed processor has an entry, true iff it is in `initiallySelected` |
| Selection.SelectedInAppend | app/src/main/java/com/example/AnyAICam/ProcessorSelectionDialogFragment.kt:133-135 | the filter preserves order: filtering a concatenation concatenates the filtered parts |
| Selection.SelectedInExact | app/src/main/java/com/example/AnyAICam/ProcessorSelectionDialogFragment.kt:133-135 | a processor is kept, as often as it is listed, iff it is selected |
| Selection.SelectedInAll | app/src/main/java/com/example/AnyAICam/ProcessorSelectionDialogFragment.kt:133-135 | the filter keeps exactly the listed, selected processors |
| AnyAICamSelection.ProcessorAdapter.constructor | app/src/main/java/com/example/AnyAICam/ProcessorSelectionDialogFragment.kt:36 | the adapter works on its own copy of the list, and the selection map starts from `initiallySelected` |
| AnyAICamSelection.ProcessorAdapter.OnUp | app/src/main/java/com/example/AnyAICam/ProcessorSelectionDialogFragment.kt:109-119 | swaps p and p-1 iff p > 0 (the button shows exactly there); otherwise nothing changes; the rows stay a permutation and keep their selection |
| AnyAICamSelection.ProcessorAdapter.OnDown | app/src/main/java/com/example/AnyAICam/ProcessorSelectionDialogFragment.kt:121-128 | swaps p and p+1 iff p < size-1; position -1 passes the guard and the swap throws; otherwise nothing changes |
| AnyAICamSelection.ProcessorAdapter.OnCheckedChanged | app/src/main/java/com/example/AnyAICam/ProcessorSelectionDialogFragment.kt:90-99 | the map entry follows the checkbox; unchecking also turns the dummy preview off; checking leaves the stored flag as it was |
| AnyAICamSelection.ProcessorAdapter.OnDummySwitchChanged | app/src/main/java/com/example/AnyAICam/ProcessorSelectionDialogFragment.kt:102-107 | while the processor is selected, the dummy preview is on iff the switch is on and its class stores the flag; otherwise the stored flag is unchanged |
| AnyAICamSelection.ProcessorAdapter.GetSelectedProcessors | app/src/main/java/com/example/AnyAICam/ProcessorSelectionDialogFragment.kt:133-135 | exactly the selected processors in the display list |
| MPdetectorSelection.ProcessorAdapter.constructor | app/src/main/java/com/example/MPdetector/ProcessorSelectionDialogFragment.kt:56-61 | the adapter works on its own copy of the list, and a processor starts selected iff it is in `initiallySelected` |
| MPdetectorSelection.ProcessorAdapter.OnUp | app/src/main/java/com/example/MPdetector/ProcessorSelectionDialogFragment.kt:79-91 | swaps p and p-1 iff p > 0; otherwise unchanged; selection kept |
| MPdetectorSelection.ProcessorAdapter.OnDown | app/src/main/java/com/example/MPdetector/ProcessorSelectionDialogFragment.kt:93-102 | swaps p and p+1 iff p < size-1; position -1 throws; otherwise unchanged |
| MPdetectorSelection.ProcessorAdapter.OnCheckedChanged | app/src/main/java/com/example/MPdetector/ProcessorSelectionDialogFragment.kt:75-77 | the map entry becomes the new checkbox value; nothing else changes |
| MPdetectorSelection.ProcessorAdapter.GetSelectedProcessors | app/src/main/java/com/example/MPdetector/ProcessorSelectionDialogFragment.kt:107-109 | exactly the selected processors of the display list, no more than listed |
| Preview.Stored | app/src/main/java/com/example/AnyAICam/PreviewFragment.kt:94-95 | each processor's stored result comes from its own copy of the captured frame, never the frame itself |
| Preview.Shown | app/src/main/java/com/example/AnyAICam/PreviewFragment.kt:98-111 | the placeholder shows iff dummy preview is on and the icon decodes; a null or throwing decode falls back to the stored result |
| Preview.Put | app/src/main/java/com/example/AnyAICam/PreviewFragment.kt:95 | `map[p] = b`: a new key goes last, an existing key keeps its place, and other entries are untouched |
| Preview.BaseName | app/src/main/java/com/example/AnyAICam/PreviewFragment.kt:141 | the user text if it is not blank, otherwise "capture_" plus the timestamp; never blank |
| Preview.FileName | app/src/main/java/com/example/AnyAICam/PreviewFragment.kt:160 | the file name is base, "_", processor name, ".png" |
| Preview.FileNameInjective | app/src/main/java/com/example/AnyAICam/PreviewFragment.kt:160 | different processor names give different files |
| Preview.RelativePath | app/src/main/java/com/example/AnyAICam/PreviewFragment.kt:173 | the folder is "Pictures/AnyAICam/" plus the save directory |
| Preview.RelativePathInjective | app/src/main/java/com/example/AnyAICam/PreviewFragment.kt:173 | different save directories give different folders |
| Preview.SaveBitmap | app/src/main/java/com/example/AnyAICam/PreviewFragment.kt:159-194 | no entry iff insert gives no uri; the entry has the file name and PNG type; folder iff Android Q+; content iff the write completed; pending iff Q+ and compress threw |
| Preview.SaveAllEntries | app/src/main/java/com/example/AnyAICam/PreviewFragment.kt:147-150 | every gallery entry belongs to one stored result: its processor's name, folder and bitmap |
| Preview.SaveAllWritten | app/src/main/java/com/example/AnyAICam/PreviewFragment.kt:143-150 | with every write succeeding, there is one complete, non-pending entry per stored result, in map order |
| Preview.SaveAllNeverCaptured | app/src/main/java/com/example/AnyAICam/PreviewFragment.kt:145-150 | the captured raw frame itself is never written |
| Preview.PreviewRow | app/src/main/java/com/example/AnyAICam/PreviewFragment.kt:98-112 | a preview row carries the processor's name, and shows the placeholder iff the processor's dummy preview is on (never for a class without a stored flag) and the icon decodes, otherwise the stored result |
| Preview.StoreAllHoldsResults | app/src/main/java/com/example/AnyAICam/PreviewFragment.kt:88-95 | after the loop the map holds exactly the active processors, each with the result of its last occurrence |
| Preview.StoreAllInOrder | app/src/main/java/com/example/AnyAICam/PreviewFragment.kt:92-95 | with distinct processors, the map is the active list paired with its results, in order |
| Preview.RowsExact | app/src/main/java/com/example/AnyAICam/PreviewFragment.kt:92-113 | row k names the k-th active processor and shows its result or the placeholder |
| Preview.Completed | app/src/main/java/com/example/AnyAICam/PreviewFragment.kt:92-95 | the save calls run in order until one throws: the completed results are the returning prefix, and the call after them, if any, is the one that threw |
| Preview.PreviewsOf | app/src/main/java/com/example/AnyAICam/PreviewFragment.kt:88-113 | the map holds each processor that ran before the first throw once, with its last result (in list order without duplicates); with no throw, row k shows processor k's result or the placeholder |
| Preview.BuildPreviews | app/src/main/java/com/example/AnyAICam/PreviewFragment.kt:91-114 | the loop stores each result as it is produced and adds one row per processor, in order; it throws iff some save stage throws, and the map then holds the results of the processors before the first throw |
| Preview.PreviewAdapter.UpdateData | app/src/main/java/com/example/AnyAICam/PreviewFragment.kt:219-222 | the adapter's list is replaced wholesale |
| Preview.PreviewFragment.GeneratePreviews | app/src/main/java/com/example/AnyAICam/PreviewFragment.kt:76-120 | no frame: navigate back and change nothing else; otherwise old results are dropped and the map holds the results of the processors whose save stage returned before the first throw; a throwing save stage escapes the coroutine uncaught and crashes the app, so the preview is abandoned and the list is never updated; otherwise the list holds the rows of the active processors, in order, as the flags were when it started |
| Preview.PreviewFragment.SaveImages | app/src/main/java/com/example/AnyAICam/PreviewFragment.kt:138-157 | one write per stored result under the chosen base; the raw frame is not saved; the count equals the number of stored results; then navigate back |
| Detectors.Create | app/src/main/java/com/example/MPdetector/IDetector.kt:37-43 | a detector iff the name is "tangue_detector" or "wink_detector", and its name is the requested one; null otherwise |
| Detectors.CreateNameRoundTrip | app/src/main/java/com/example/MPdetector/IDetector.kt:36-43 | every offered model creates a detector of that name, and creating by a detector's name gives that kind back |
| Detectors.OrientationOf | app/src/main/java/com/example/MPdetector/MainActivity.kt:188-197 | the frame is mirrored iff it is a live-stream frame from the front lens; the rotation is the image's |
| Detectors.Placed | app/src/main/java/com/example/MPdetector/MainActivity.kt:188-197 | an unflipped frame keeps a box where it is; a flipped one mirrors its extent about the frame's centre |
| Detectors.PlacedStaysInFrame | app/src/main/java/com/example/MPdetector/MainActivity.kt:164-177 | a captured photo is never flipped, so the crop takes the region that was detected; a box in a flipped live frame stays inside the frame with its width, and flipping back restores it |
| Detectors.CropAsWritten | app/src/main/java/com/example/MPdetector/MainActivity.kt:199-213 | as written, left and top are raised to 0; a crop that comes back is inside the source |
| Detectors.LeftOverhangAsWritten | app/src/main/java/com/example/MPdetector/MainActivity.kt:208-211 | a box overhanging the left edge makes the written crop throw, or crop columns outside the box |
| Detectors.CropToImage | app/src/main/java/com/example/MPdetector/MainActivity.kt:199-213 | the corrected crop is always extractable from the source |
| Detectors.CropToImageIsIntersection | app/src/main/java/com/example/MPdetector/MainActivity.kt:199-213 | the corrected crop is exactly the box's intersection with the image |
| Detectors.CropInsideAgrees | app/src/main/java/com/example/MPdetector/MainActivity.kt:206-212 | for a non-empty box inside the image, both versions crop exactly the box |
| Detectors.CropAsWrittenAgreesWhenItCrops | app/src/main/java/com/example/MPdetector/MainActivity.kt:208-211 | with left and top not negative, whenever the written crop succeeds it equals the corrected one |
| Detectors.MainActivity.constructor | app/src/main/java/com/example/MPdetector/MainActivity.kt:70-77 | the initial detector is the first offered model, set up for the live stream |
| Detectors.MainActivity.SetupDetector | app/src/main/java/com/example/MPdetector/MainActivity.kt:91-107 | the old detector is closed before the overlay is cleared and the new one is created and set up |
| Detectors.MainActivity.OnModelChosen | app/src/main/java/com/example/MPdetector/MainActivity.kt:79-89 | choosing the current model does nothing; otherwise the log gains exactly: the old detector's close (if any), the overlay clear, the chosen model's live-stream setup and the camera restart; afterwards the chosen model is current |
| Detectors.MainActivity.TakePhotoAndCrop | app/src/main/java/com/example/MPdetector/MainActivity.kt:153-230 | no capture use case or no model: nothing happens; otherwise a detector is set up for a single image and closed; a null result gives no crop; otherwise the photo is cropped by `cropBitmap` as written, and the preview opens iff `createBitmap` accepts the rectangle and the temporary JPEG is written; an `IOException` there launches nothing |
| Detectors.MainActivity.OnDestroy | app/src/main/java/com/example/MPdetector/MainActivity.kt:250-254 | the current detector, if any, is closed |
| Prototype.SquareOn | app/src/main/java/com/example/tanguecaptureapp/MainActivity.kt:255-261 | the top edge runs from the left corner (291) to the right corner (61), and both bottom vertices are the top ones offset by (dy, -dx) |
| Prototype.SquareOnIsSquare | app/src/main/java/com/example/tanguecaptureapp/MainActivity.kt:255-261 | the quad has four equal sides of the mouth width, right angles, and diagonals of twice the squared side |
| Prototype.SquareHangsBelow | app/src/main/java/com/example/tanguecaptureapp/MainActivity.kt:255-261 | for a level mouth in the mirrored photo, the square hangs below the mouth line |
| Prototype.UprightSquare | app/src/main/java/com/example/tanguecaptureapp/MainActivity.kt:278-283 | the destination corners are (0,0), (w,0), (w,w), (0,w) |
| Prototype.CornerMappingIsRigid | app/src/main/java/com/example/tanguecaptureapp/MainActivity.kt:270-286 | with w the square root of the squared width, the source-to-destination mapping keeps all six corner distances |
| Prototype.CoincidentWhenZeroWidth | app/src/main/java/com/example/tanguecaptureapp/MainActivity.kt:249-253 | a width of 0 or less means the corners coincide |
| Prototype.TongueCropOf | app/src/main/java/com/example/tanguecaptureapp/MainActivity.kt:220-262 | no face iff none detected; coincident corners iff they are the same pixel; otherwise the square on corners 291 and 61, with positive squared side |
| Prototype.CropToTongueArea | app/src/main/java/com/example/tanguecaptureapp/MainActivity.kt:220-293 | the landmarker it creates is closed on every path that returns, and the outcome is `TongueCropOf` |
| Prototype.CaptureOutcomeOf | app/src/main/java/com/example/tanguecaptureapp/MainActivity.kt:186-209 | a null crop gives the failure message and no file or preview; a square leads to the preview iff the temp file is written |

## Left out

- Camera lifecycle, use-case binding, permissions, focus, zoom, camera switching and both screens' `takePhoto` handlers: platform calls only.
- JVM `Error`s (such as a failed native library load) are not modelled. Only `Exception`s are, as the source's `catch` clauses see them.
- Floating point.
  - Landmarks, scores and geometry are exact reals or given integers.
  - The trigonometry and `toInt()` truncation in `calculateTongueSquare` are not modelled: the crop window is an input.
  - The float-to-int conversion before `cropBitmap` is not modelled: the box arrives in whole pixels.
  - The prototype's `sqrt` appears only through its defining property.
  - The prototype's `boxWidth.toInt()` is not modelled, so a width between 0 and 1 (a 0×0 bitmap) is not covered.
- Ingest.ConvertsIff: OpenCV's `cvtColor` is not part of this model. It is taken to throw exactly when its own checks on an NV21 source fail: the matrix is empty, its width is odd, or its row count is not a multiple of 3.
- OpenCV, MediaPipe and TFLite internals: rotation, colour conversion, masks, morphology, warping, drawing, detection and inference. Their results are inputs; drawing appears only as the draw calls of the pose and face stages.
- `VideoRecorder` is not part of this model. A recorder is its size, its file and a frame count. The `Movies/AnyAiCamera` gallery path and `IS_PENDING` handling of `saveVideoToGallery` are left out; only its three outcomes are modelled.
- Threading: the analyzer executor, `runOnUiThread`, coroutine dispatchers and LiveData. One frame, one preview and one save run at a time. The shutter and overlay update is applied at once rather than posted.
- Toasts, log calls, navigation beyond a `navigatedBack` flag, and the name, location and contents of the temp files of the MPdetector and prototype previews. Whether the write succeeds is an input.
- MPdetector's live-stream detection path (`detectLiveStream` and its overlay callback) and the dummy `TangueDetector`/`WinkDetector` boxes. Detection results are inputs.
- The raw, face and wink analyzers of AnyAICam are not part of this model. Their name and save directory are taken to be those of the MPdetector counterparts (`Processors.LabelsOf`).
- Processors.Processor.SetDummyPreviewEnabled, AnyAICamSelection.ProcessorAdapter.OnDummySwitchChanged, AnyAICamSelection.ProcessorAdapter.OnCheckedChanged: AnyAICam's `ImgProcessor` interface is not part of this model. Only the pose analyzer declares a backing field for `isDummyPreviewEnabled`. For every other class, the interface's accessors are taken to read `false` and to keep nothing. So the switch has no effect on the tongue analyzer's preview.
- View recycling in both selection adapters. A row's checkbox is taken to show the processor's map entry, so `OnDummySwitchChanged` reads the map where the source reads the checkbox.
- Processors.Processor.constructor: `clazz.newInstance()` is modelled only for the declared classes; arbitrary reflection is not modelled.
- Registry.ProcessorRepository.GetProcessors: requires one load outcome per declared class and labels for every declared class. `Processors.DeclaredLabelsDistinct` proves the labels exist for both registries.
- MPdetectorTflite.TfliteHelper.constructor: requires that loading does not throw a non-`IOException`. That case leaves the constructor and is modelled by `MPdetectorTflite.NewTfliteHelper`.
- Stages.DrawPose: requires at least the 33 landmarks MediaPipe's pose model reports. With fewer, the source's index would throw.
- Prototype.TongueCropOf: requires the first face to have more than 291 landmarks, as MediaPipe's face mesh does. `TongueGeometry.SquareCenter` has the same requirement.
- AnyAICamSelection.ProcessorAdapter.OnUp: positions are `adapterPosition` values, -1 to size-1. The same holds for `OnDown` in both adapters.
- Preview.IsBlank: treats only ASCII whitespace as blank. Kotlin's `isBlank` also accepts other Unicode spaces.
- MPdetectorTongue.StateDiscriminator: divides exactly, where the source divides doubles. Rounding at exactly 50 % is not modelled.
- A stage exception is not caught per stage. It leaves the chain, and only the `finally` block runs (AnyAICam/CameraFragment.kt:276-320).
- Turning recording on while recording is not rejected. Recording is a plain toggle (AnyAICam/CameraFragment.kt:177-190).

## Findings

| source | as written | input that shows it | evidently intended | confidence | as-written member | corrected member |
|---|---|---|---|---|---|---|
| app/src/main/java/com/example/AnyAICam/CameraFragment.kt:293 | `"temp_video_${'$'}{timestamp}.mp4"` inserts a literal `$`, so the name never contains the timestamp | any two recordings: both write `temp_video_${timestamp}.mp4` | the timestamp in the file name | high (not executed) | AnyAICamCamera.TempVideoNameAsWrittenIsConstant | AnyAICamCamera.TempVideoNameInjective |
| app/src/main/java/com/example/AnyAICam/models/tongue_detector/ImgAnalyzer.kt:152-155 | the save path crops any window that passes the bounds test, including size 0, and `Bitmap.createBitmap(0, 0)` throws (same at MPdetector/models/tongue_detector/ImgAnalyzer.kt:177-180) | mouth corners less than a pixel apart: window (320, 240, 0) in a 640×480 photo | skip an empty crop, as the display path does | medium (not executed) | TongueGeometry.ZeroSizeCropThrowsAsWritten | TongueGeometry.TongueSaveAgrees |
| app/src/main/java/com/example/MPdetector/MainActivity.kt:208-211 | width and height are capped using the unclamped left and top, so a box overhanging the left or top edge is cropped too wide or out of bounds | 100-px photo, box left -10, width 110: x 0, width 110, so `createBitmap` throws; box left -10, width 50: crops columns 0-49, although the box ends at column 39 | crop the intersection of the box with the image | high (not executed) | Detectors.LeftOverhangAsWritten | Detectors.CropToImageIsIntersection |
