# Taker presenter model

A Dafny model of `TakerPresenter`, the presenter of the album library's camera/recorder
screen. The screen takes a picture from the live preview or records a video, lets the
user confirm (grant) or reject (deny) the capture, and hands the confirmed item back as a
`MediaMeta` result. The presenter is a small sequential state machine over five fields:

- the captured picture (`mFetchedBitmap`);
- the last recording progress reported by the recorder (`mRecordDuration`);
- the playback retry counter (`mCountTryAgain`);
- the recorded video's Uri and File (`mVideoUri`, `mVideoFile`).

The view it drives holds one of four statuses: camera preview, picture preview, video
play or picked.

Three modules:

- `TakerSpec` (TakerSpec.dfy) holds the value types. Bitmap, Uri and File are opaque
  handles, and a Java `null` is `None`. It also gives one pure transition per handler.
  Each transition maps the fields and the view's status to their new values and to the
  commands issued, in order, to the view, the recorder and the video player.
- `TakerRun` (TakerRun.dfy) runs sequences of calls. A call is a handler invocation, a
  recorder callback, or the view setting its own status. Its lemmas cover several calls:
  - the retry counter stays in 0..3;
  - at most three automatic restarts happen before the record-failed path;
  - the recorded duration is always the last progress value reported;
  - a confirmed video carries that duration.
- `Taker` (TakerPresenter.dfy) holds the class `TakerPresenter` with the five fields and
  one method per handler, callback and helper. Each method changes the fields step by
  step as the Java code does, and issues commands to a `TakerView` object. The view keeps
  its status and a log of every command it receives; commands for the recorder and the
  player go to the same log. Each method's contract ties the new fields, the view's status
  and the commands appended to the log to the matching `TakerSpec` transition. It also
  keeps the invariant `Valid()`: the retry counter is in 0..3.

Modelling notes:

- `performVideoEnsure` reads the path of `mVideoFile` without a null check. Grant takes
  the video branch when either handle is set, so a held Uri with no File makes a
  `NullPointerException` escape from `handleGranted`. The model has this as the outcome
  `NullPointerThrown` (and `threw` on `HandleGranted`), with the state left unchanged.
- Saving a picture when no picture is held dereferences a null bitmap inside the `try`.
  The `catch (Throwable)` handles that like any other save failure: a toast and the
  camera preview.
- Not every return to the camera preview releases the captured picture and video. The
  picture-save failure branch does not: it toasts and sets the camera preview without recycling. The model follows the
  code. `TakerRun.CameraPreviewReleasesCapture` shows that this is the only exception, and
  `TakerRun.PictureSaveFailureKeepsPicture` shows that the exception does happen.
- The presenter never sets the picked status itself. The view code that does is not part
  of this model. A run can include the view setting its own status, and that is how the
  picked branch of `handleViewDestroy` is reached.

## Model

All source paths are in lib-album/src/main/taker/com/sharry/lib/album/TakerPresenter.java.

| member | source | states |
|---|---|---|
| TakerSpec.Initial | lib-album/src/main/taker/com/sharry/lib/album/TakerPresenter.java:42-46 | a new presenter holds no picture or video, its counter is 0 and its duration 0 |
| TakerSpec.PreviewRatio | lib-album/src/main/taker/com/sharry/lib/album/TakerPresenter.java:155-166 | the 1:1 setting gives 1:1, the 16:9 setting gives 16:9, and every other setting (4:3 or unknown) gives 4:3, in both directions |
| TakerSpec.SetupCommands | lib-album/src/main/taker/com/sharry/lib/album/TakerPresenter.java:153-177 | setup sends, in order: the aspect ratio the configuration selects, full screen, the renderer (third, and only when its class name is neither null nor empty; no other renderer command is ever sent), the maximum record duration, video support, the progress colour, and last the camera preview; it issues no result |
| TakerSpec.Recycle | lib-album/src/main/taker/com/sharry/lib/album/TakerPresenter.java:252-263 | afterwards the picture, Uri and File are null and the counter is 0; the duration and the view status are unchanged; the held video is deleted and then the player is stopped |
| TakerSpec.RecordFailure | lib-album/src/main/taker/com/sharry/lib/album/TakerPresenter.java:190-194 | a record failure always recycles, then toasts "record failed", and leaves the view in the camera preview with everything released; it issues no result |
| TakerSpec.VideoPlayFailed | lib-album/src/main/taker/com/sharry/lib/album/TakerPresenter.java:84-92 | the player is restarted on the held Uri exactly when the counter before its increment is below 3, and only the counter changes; otherwise the record-failed path runs (the increment is then erased by the reset); the 0..3 bound is preserved |
| TakerSpec.TakePicture | lib-album/src/main/taker/com/sharry/lib/album/TakerPresenter.java:95-108 | in just-video mode nothing happens; with no bitmap from the camera, a toast and no state change; otherwise the bitmap is held, the status becomes picture preview and that same bitmap is shown |
| TakerSpec.RecordStart | lib-album/src/main/taker/com/sharry/lib/album/TakerPresenter.java:112-114 | starting a recording only starts the recorder |
| TakerSpec.RecordFinish | lib-album/src/main/taker/com/sharry/lib/album/TakerPresenter.java:117-126 | below the minimum duration the recorder is cancelled and a toast shown, exactly then; otherwise the record button is hidden and the recorder is asked to complete; state never changes and no result is issued |
| TakerSpec.ProgressChanged | lib-album/src/main/taker/com/sharry/lib/album/TakerPresenter.java:182-185 | the progress value becomes the recorded duration and is shown on the record button; nothing else changes |
| TakerSpec.RecordComplete | lib-album/src/main/taker/com/sharry/lib/album/TakerPresenter.java:199-204 | the Uri and File are held, the status becomes video play and the player starts on that Uri |
| TakerSpec.PictureMeta | lib-album/src/main/taker/com/sharry/lib/album/TakerPresenter.java:228-230 | a saved picture's result is a picture with the saved Uri and path |
| TakerSpec.PictureEnsure | lib-album/src/main/taker/com/sharry/lib/album/TakerPresenter.java:209-236 | with a held picture and a successful save, the result is the saved picture and state is unchanged; otherwise a toast and the camera preview, without recycling |
| TakerSpec.VideoEnsure | lib-album/src/main/taker/com/sharry/lib/album/TakerPresenter.java:241-247 | throws exactly when no File is held; otherwise the only command is a video result with the held Uri, the File's path, not-a-picture, and the recorded duration |
| TakerSpec.Granted | lib-album/src/main/taker/com/sharry/lib/album/TakerPresenter.java:129-135 | takes the video branch exactly when a Uri or a File is held, else the picture branch; throws exactly when a Uri is held without a File; the video handles are never changed |
| TakerSpec.Denied | lib-album/src/main/taker/com/sharry/lib/album/TakerPresenter.java:138-142 | sets the camera preview, then recycles: everything is released, the duration is kept, and no result is issued |
| TakerSpec.ViewDestroyed | lib-album/src/main/taker/com/sharry/lib/album/TakerPresenter.java:145-151 | always cancels the recorder first; recycles exactly when the status is not picked; a picked state is left untouched |
| TakerRun.Apply | lib-album/src/main/taker/com/sharry/lib/album/TakerPresenter.java:53-70 | only grant can throw; every call keeps the counter within 0..3; only a progress report changes the recorded duration |
| TakerRun.RunKeepsInv | lib-album/src/main/taker/com/sharry/lib/album/TakerPresenter.java:84-92 | after any sequence of calls the retry counter is within 0..3, so its post-increment never wraps |
| TakerRun.RunDurationIsLastProgress | lib-album/src/main/taker/com/sharry/lib/album/TakerPresenter.java:182-185 | after any sequence of calls the recorded duration is the last progress value reported, or the starting value when none was reported |
| TakerRun.GrantedVideoCarriesLastProgress | lib-album/src/main/taker/com/sharry/lib/album/TakerPresenter.java:241-247 | a grant with a held video File, after any sequence of calls, issues one video result whose duration is the last progress value reported |
| TakerRun.RetriesBeforeExhaustion | lib-album/src/main/taker/com/sharry/lib/album/TakerPresenter.java:84-87 | from counter c, each of 3 - c consecutive playback failures restarts the player on the held Uri and changes only the counter |
| TakerRun.ExhaustionTakesRecordFailure | lib-album/src/main/taker/com/sharry/lib/album/TakerPresenter.java:84-92 | from counter c, 4 - c consecutive failures give 3 - c restarts (at most 3) followed by the record-failed path, which releases everything and returns to the camera preview |
| TakerRun.CameraPreviewReleasesCapture | lib-album/src/main/taker/com/sharry/lib/album/TakerPresenter.java:232-235 | every presenter call that sets the camera preview releases the capture, except a grant, whose save-failure branch keeps the picture and the counter |
| TakerRun.PictureSaveFailureKeepsPicture | lib-album/src/main/taker/com/sharry/lib/album/TakerPresenter.java:232-235 | for every state holding a picture and no video, a failed save sets the camera preview yet keeps the picture, so the capture is not released: the exception in CameraPreviewReleasesCapture does happen |
| TakerRun.DenyAfterRecordingDeletesIt | lib-album/src/main/taker/com/sharry/lib/album/TakerPresenter.java:252-263 | denying a freshly recorded video deletes exactly that Uri and File, stops the player and returns to the camera preview |
| TakerRun.DestroyWhenPickedKeepsMedia | lib-album/src/main/taker/com/sharry/lib/album/TakerPresenter.java:145-151 | after a recording completes and the view marks it picked, destroying the view only cancels the recorder: the video is neither deleted nor released and the player is not stopped |
| Taker.TakerPresenter.constructor | lib-album/src/main/taker/com/sharry/lib/album/TakerPresenter.java:48-81 | a new presenter is in the initial state, satisfies the invariant, and has sent the setup commands to the view |
| Taker.TakerPresenter.SetupViews | lib-album/src/main/taker/com/sharry/lib/album/TakerPresenter.java:153-177 | sends the setup commands and leaves the view in the camera preview |
| Taker.TakerPresenter.HandleVideoPlayFailed | lib-album/src/main/taker/com/sharry/lib/album/TakerPresenter.java:84-92 | keeps the invariant; new fields, status and log follow VideoPlayFailed |
| Taker.TakerPresenter.HandleTakePicture | lib-album/src/main/taker/com/sharry/lib/album/TakerPresenter.java:95-108 | keeps the invariant; new fields, status and log follow TakePicture |
| Taker.TakerPresenter.HandleRecordStart | lib-album/src/main/taker/com/sharry/lib/album/TakerPresenter.java:112-114 | leaves the fields unchanged and logs the recorder start |
| Taker.TakerPresenter.HandleRecordFinish | lib-album/src/main/taker/com/sharry/lib/album/TakerPresenter.java:117-126 | leaves the fields unchanged; the log follows RecordFinish with the configured minimum |
| Taker.TakerPresenter.HandleGranted | lib-album/src/main/taker/com/sharry/lib/album/TakerPresenter.java:129-135 | reports the escaping exception exactly when Granted throws, with nothing changed; otherwise the new status and log follow Granted |
| Taker.TakerPresenter.HandleDenied | lib-album/src/main/taker/com/sharry/lib/album/TakerPresenter.java:138-142 | keeps the invariant; new fields, status and log follow Denied |
| Taker.TakerPresenter.HandleViewDestroy | lib-album/src/main/taker/com/sharry/lib/album/TakerPresenter.java:145-151 | keeps the invariant; new fields and log follow ViewDestroyed, decided on the view's current status |
| Taker.TakerPresenter.PerformProgressChanged | lib-album/src/main/taker/com/sharry/lib/album/TakerPresenter.java:182-185 | keeps the invariant; stores the progress as the duration and logs it |
| Taker.TakerPresenter.PerformRecordFailed | lib-album/src/main/taker/com/sharry/lib/album/TakerPresenter.java:190-194 | from any counter value, including one just pushed past 3, it re-establishes the invariant and follows RecordFailure |
| Taker.TakerPresenter.PerformRecordComplete | lib-album/src/main/taker/com/sharry/lib/album/TakerPresenter.java:199-204 | keeps the invariant; new fields, status and log follow RecordComplete |
| Taker.TakerPresenter.PerformPictureEnsure | lib-album/src/main/taker/com/sharry/lib/album/TakerPresenter.java:209-236 | new status and log follow PictureEnsure; the fields are unchanged |
| Taker.TakerPresenter.PerformVideoEnsure | lib-album/src/main/taker/com/sharry/lib/album/TakerPresenter.java:241-247 | reports the exception exactly when no File is held; otherwise logs the video result of VideoEnsure |
| Taker.TakerPresenter.Recycle | lib-album/src/main/taker/com/sharry/lib/album/TakerPresenter.java:252-263 | from any state, it establishes the invariant and follows Recycle: everything is released, the video is deleted and the player is stopped |

## Left out

- PickerContract.java has only interface declarations (`IView`, `IPresenter`, `IModel`) and no behaviour. The picker presenter and model that implement it are not part of this model.
- The view implementation (the taker activity) is not part of this model. `TakerView` only records the commands it receives. Its status changes only through `SetStatus`, which the activity may also send itself, for example to mark the screen picked.
- The recorder set-up: the `SMediaRecorder` itself, the `addRecordCallback` registration call and the `Options.Video` builder (lines 52-53 and 71-78). The routing of `onProgress`, `onComplete` and `onFailed` to the three handlers (lines 55-68) is modelled by the `RecorderProgress`, `RecorderCompleted` and `RecorderFailed` cases of `TakerRun.Apply`, and by the methods `PerformProgressChanged`, `PerformRecordComplete` and `PerformRecordFailed`, called one at a time, as on the UI thread. The camera view passed to `handleRecordStart` is left out.
- The file, content-resolver, file-descriptor and compression work inside picture saving is platform I/O. It becomes the parameter `SaveOutcome`: either the saved Uri and path, or a throw.
- The Android-version split in `recycle` deletes the video by Uri or by File. This is platform I/O, modelled as one `DeleteVideo(uri, file)` command.
- `MediaMeta.date` comes from the wall clock and is not modelled. `MediaMeta.create` is not part of this model. A picture's result duration is taken to be the Java default 0.
- `Log.w` diagnostics and the contents of the toast strings are left out.
- The bitmap returned by the view's `getCameraBitmap` is an input: the parameter `camera` of `HandleTakePicture`.
- Exceptions thrown by the view, recorder or player calls themselves are not modelled. The only exceptions modelled are the null dereferences described above.
- Durations and progress values are Java `long`. The model uses unbounded integers because the presenter only stores and compares them. The `int` retry counter is proved to stay within 0..3, so it cannot wrap.
