/** Value types of the camera/recorder screen and, for every handler of the presenter,
    a pure transition: the presenter's fields and the view's status before the call,
    mapped to the fields and status after it and the commands issued, in order, to the
    view, the recorder and the video player. */
module TakerSpec {

  datatype Option<T> = None | Some(value: T)

  /** Opaque handles of the platform's captured picture, content Uri and video file. */
  datatype Bitmap = Bitmap(id: nat)
  datatype Uri = Uri(id: nat)
  datatype File = File(absolutePath: string)

  /** The statuses the view can hold. */
  datatype Status = CameraPreview | PicturePreview | VideoPlay | Picked

  /** The preview aspect setting of the configuration; any value other than the
      1:1 and 16:9 settings is treated like 4:3. */
  datatype AspectSetting = Aspect1To1 | Aspect16To9 | Aspect4To3 | OtherAspect(code: int)

  datatype AspectRatio = AspectRatio(x: nat, y: nat)

  /** The string resources the presenter toasts. */
  datatype Message =
    | TakePictureFailedMsg
    | RecordTimeTooShortMsg
    | RecordFailedMsg
    | PictureSavedFailedMsg

  /** Descriptor of one captured media item (its capture date is left out). */
  datatype MediaMeta = MediaMeta(uri: Option<Uri>, path: string, isPicture: bool, duration: int)

  /** The part of the configuration the presenter reads. */
  datatype Config = Config(
    justVideoRecord: bool,
    minimumDuration: int,
    maximumDuration: int,
    previewAspect: AspectSetting,
    fullScreen: bool,
    rendererClassName: Option<string>,
    supportVideoRecord: bool,
    progressColor: int)

  /** A command issued to the view, the recorder or the video player. */
  datatype Command =
    | SetPreviewAspect(ratio: AspectRatio)
    | SetPreviewFullScreen(fullScreen: bool)
    | SetPreviewRenderer(className: string)
    | SetMaxRecordDuration(maximum: int)
    | SetSupportVideoRecord(support: bool)
    | SetProgressColor(color: int)
    | SetStatus(status: Status)
    | SetPreviewSource(bitmap: Bitmap)
    | SetRecordButtonVisible(visible: bool)
    | SetRecordButtonProgress(time: int)
    | Toast(message: Message)
    | SetResult(meta: MediaMeta)
    | StartVideoPlayer(uri: Option<Uri>)
    | StopVideoPlayer
    | RecorderStart
    | RecorderCancel
    | RecorderComplete
    | DeleteVideo(videoUri: Option<Uri>, videoFile: Option<File>)

  /** What saving the captured picture did: it produced a published item, or some
      step of the file and content-resolver work threw. */
  datatype SaveOutcome = Saved(uri: Uri, path: string) | SaveThrew

  /** The presenter's fields together with the view's current status. */
  datatype State = State(
    fetchedBitmap: Option<Bitmap>,
    recordDuration: int,
    countTryAgain: int,
    videoUri: Option<Uri>,
    videoFile: Option<File>,
    status: Status)

  datatype Step = Step(next: State, commands: seq<Command>)

  /** The result of a handler that can let an exception escape. */
  datatype Outcome = Completed(step: Step) | NullPointerThrown

  /** The number of automatic restarts of the video player. */
  const MaxTryAgain: int := 3

  /** No captured picture, no captured video, and the retry counter at zero. */
  predicate Cleared(s: State)
  {
    s.fetchedBitmap.None? && s.countTryAgain == 0 && s.videoUri.None? && s.videoFile.None?
  }

  /** What holds of the presenter between any two calls. */
  predicate Inv(s: State)
  {
    0 <= s.countTryAgain <= MaxTryAgain
  }

  predicate NoResult(commands: seq<Command>)
  {
    forall c :: c in commands ==> !c.SetResult?
  }

  /** The fields right after construction; the view's status is set by the setup commands. */
  function Initial(): (s: State)
    ensures Cleared(s) && s.status == CameraPreview && s.recordDuration == 0
  {
    State(None, 0, 0, None, None, CameraPreview)
  }

  /** The preview aspect ratio the configuration selects. */
  function PreviewRatio(a: AspectSetting): (r: AspectRatio)
    ensures r == AspectRatio(1, 1) <==> a == Aspect1To1
    ensures r == AspectRatio(16, 9) <==> a == Aspect16To9
    ensures r == AspectRatio(4, 3) <==> a != Aspect1To1 && a != Aspect16To9
  {
    match a
    case Aspect1To1 => AspectRatio(1, 1)
    case Aspect16To9 => AspectRatio(16, 9)
    case _ => AspectRatio(4, 3)
  }

  /** The renderer is configured only when its class name is neither null nor empty. */
  predicate HasRenderer(c: Config)
  {
    c.rendererClassName.Some? && c.rendererClassName.value != []
  }

  /** The commands that configure the camera and recorder views when the presenter is built. */
  function SetupCommands(c: Config): (r: seq<Command>)
    ensures |r| == if HasRenderer(c) then 7 else 6
    ensures r[0] == SetPreviewAspect(PreviewRatio(c.previewAspect))
    ensures r[1] == SetPreviewFullScreen(c.fullScreen)
    ensures HasRenderer(c) ==> r[2] == SetPreviewRenderer(c.rendererClassName.value)
    ensures forall cmd :: cmd in r && cmd.SetPreviewRenderer? ==>
      HasRenderer(c) && cmd == SetPreviewRenderer(c.rendererClassName.value)
    ensures r[|r| - 4..] == [SetMaxRecordDuration(c.maximumDuration),
                             SetSupportVideoRecord(c.supportVideoRecord),
                             SetProgressColor(c.progressColor),
                             SetStatus(CameraPreview)]
    ensures NoResult(r)
  {
    [SetPreviewAspect(PreviewRatio(c.previewAspect)), SetPreviewFullScreen(c.fullScreen)]
    + (if HasRenderer(c) then [SetPreviewRenderer(c.rendererClassName.value)] else [])
    + [SetMaxRecordDuration(c.maximumDuration),
       SetSupportVideoRecord(c.supportVideoRecord),
       SetProgressColor(c.progressColor),
       SetStatus(CameraPreview)]
  }

  /** Releasing every captured resource: picture, video (deleted) and retry counter. */
  function Recycle(s: State): (r: Step)
    ensures Cleared(r.next)
    ensures r.next.recordDuration == s.recordDuration && r.next.status == s.status
    ensures r.commands == [DeleteVideo(s.videoUri, s.videoFile), StopVideoPlayer]
  {
    var cleared := s.(fetchedBitmap := None, countTryAgain := 0);
    Step(cleared.(videoUri := None, videoFile := None),
         [DeleteVideo(s.videoUri, s.videoFile), StopVideoPlayer])
  }

  /** The recorder reported a failure (also the path taken when playback retries run out). */
  function RecordFailure(s: State): (r: Step)
    ensures Cleared(r.next) && r.next.status == CameraPreview
    ensures r.next.recordDuration == s.recordDuration
    ensures r.commands == Recycle(s).commands + [Toast(RecordFailedMsg), SetStatus(CameraPreview)]
    ensures NoResult(r.commands)
  {
    var recycled := Recycle(s);
    Step(recycled.next.(status := CameraPreview),
         recycled.commands + [Toast(RecordFailedMsg), SetStatus(CameraPreview)])
  }

  /** The video player failed: restart it while the counter, read before its increment,
      is below the threshold; otherwise treat the recording as failed. */
  function VideoPlayFailed(s: State): (r: Step)
    ensures s.countTryAgain < MaxTryAgain ==>
      r.next == s.(countTryAgain := s.countTryAgain + 1) &&
      r.commands == [StartVideoPlayer(s.videoUri)]
    ensures s.countTryAgain >= MaxTryAgain ==> r == RecordFailure(s)
    ensures Inv(s) ==> Inv(r.next)
  {
    var bumped := s.(countTryAgain := s.countTryAgain + 1);
    if s.countTryAgain < MaxTryAgain then
      Step(bumped, [StartVideoPlayer(s.videoUri)])
    else
      RecordFailure(bumped)
  }

  /** Capture a picture from the live preview; `camera` is what the view returned. */
  function TakePicture(s: State, justVideoRecord: bool, camera: Option<Bitmap>): (r: Step)
    ensures justVideoRecord ==> r == Step(s, [])
    ensures !justVideoRecord && camera.None? ==>
      r.next == s && r.commands == [Toast(TakePictureFailedMsg)]
    ensures !justVideoRecord && camera.Some? ==>
      r.next == s.(fetchedBitmap := camera, status := PicturePreview) &&
      r.commands == [SetStatus(PicturePreview), SetPreviewSource(camera.value)]
  {
    if justVideoRecord then Step(s, [])
    else if camera.None? then Step(s, [Toast(TakePictureFailedMsg)])
    else
      var held := s.(fetchedBitmap := camera);
      Step(held.(status := PicturePreview),
           [SetStatus(PicturePreview), SetPreviewSource(held.fetchedBitmap.value)])
  }

  /** Start the platform recorder. */
  function RecordStart(s: State): (r: Step)
    ensures r.next == s && r.commands == [RecorderStart]
  {
    Step(s, [RecorderStart])
  }

  /** The user released the record button after `duration` of recording. */
  function RecordFinish(s: State, minimumDuration: int, duration: int): (r: Step)
    ensures r.next == s && NoResult(r.commands)
    ensures duration < minimumDuration <==> r.commands == [RecorderCancel, Toast(RecordTimeTooShortMsg)]
    ensures duration >= minimumDuration <==> r.commands == [SetRecordButtonVisible(false), RecorderComplete]
  {
    if duration < minimumDuration then
      Step(s, [RecorderCancel, Toast(RecordTimeTooShortMsg)])
    else
      Step(s, [SetRecordButtonVisible(false), RecorderComplete])
  }

  /** The recorder reported progress `time`. */
  function ProgressChanged(s: State, time: int): (r: Step)
    ensures r.next == s.(recordDuration := time)
    ensures r.commands == [SetRecordButtonProgress(time)]
  {
    Step(s.(recordDuration := time), [SetRecordButtonProgress(time)])
  }

  /** The recorder finished writing the video: keep its handles and play it. */
  function RecordComplete(s: State, uri: Uri, file: Option<File>): (r: Step)
    ensures r.next == s.(videoUri := Some(uri), videoFile := file, status := VideoPlay)
    ensures r.commands == [SetStatus(VideoPlay), StartVideoPlayer(Some(uri))]
  {
    var held := s.(videoUri := Some(uri), videoFile := file);
    Step(held.(status := VideoPlay), [SetStatus(VideoPlay), StartVideoPlayer(held.videoUri)])
  }

  /** The result describing a saved picture. */
  function PictureMeta(uri: Uri, path: string): (m: MediaMeta)
    ensures m.isPicture && m.uri == Some(uri) && m.path == path
  {
    MediaMeta(Some(uri), path, true, 0)
  }

  /** Save the captured picture and hand it back as the result. A missing picture makes
      the compression step throw, which is handled like any failure of the saving. */
  function PictureEnsure(s: State, io: SaveOutcome): (r: Step)
    ensures s.fetchedBitmap.Some? && io.Saved? ==>
      r.next == s && r.commands == [SetResult(PictureMeta(io.uri, io.path))]
    ensures s.fetchedBitmap.None? || io.SaveThrew? ==>
      r.next == s.(status := CameraPreview) &&
      r.commands == [Toast(PictureSavedFailedMsg), SetStatus(CameraPreview)]
  {
    if s.fetchedBitmap.Some? && io.Saved? then
      Step(s, [SetResult(PictureMeta(io.uri, io.path))])
    else
      Step(s.(status := CameraPreview), [Toast(PictureSavedFailedMsg), SetStatus(CameraPreview)])
  }

  /** Hand back the recorded video; reading the path of a missing video file throws. */
  function VideoEnsure(s: State): (r: Outcome)
    ensures r.NullPointerThrown? <==> s.videoFile.None?
    ensures r.Completed? ==> r.step.next == s
    ensures r.Completed? ==>
      r.step.commands == [SetResult(MediaMeta(s.videoUri, s.videoFile.value.absolutePath, false, s.recordDuration))]
  {
    if s.videoFile.None? then NullPointerThrown
    else
      var meta := MediaMeta(s.videoUri, s.videoFile.value.absolutePath, false, 0);
      Completed(Step(s, [SetResult(meta.(duration := s.recordDuration))]))
  }

  /** A recorded video is held, by its Uri or by its File. */
  predicate HasVideo(s: State)
  {
    s.videoUri.Some? || s.videoFile.Some?
  }

  /** The user confirmed the capture: a held video wins over a held picture. */
  function Granted(s: State, io: SaveOutcome): (r: Outcome)
    ensures HasVideo(s) ==> r == VideoEnsure(s)
    ensures !HasVideo(s) ==> r == Completed(PictureEnsure(s, io))
    ensures r.NullPointerThrown? <==> s.videoUri.Some? && s.videoFile.None?
    ensures r.Completed? ==> r.step.next.videoUri == s.videoUri && r.step.next.videoFile == s.videoFile
  {
    if HasVideo(s) then VideoEnsure(s) else Completed(PictureEnsure(s, io))
  }

  /** The user rejected the capture: back to the camera preview, everything released. */
  function Denied(s: State): (r: Step)
    ensures Cleared(r.next) && r.next.status == CameraPreview
    ensures r.next.recordDuration == s.recordDuration
    ensures r.commands == [SetStatus(CameraPreview)] + Recycle(s).commands
    ensures NoResult(r.commands)
  {
    var shown := s.(status := CameraPreview);
    var recycled := Recycle(shown);
    Step(recycled.next, [SetStatus(CameraPreview)] + recycled.commands)
  }

  /** The view is being destroyed: the recording is cancelled, and everything is released
      unless the view already holds a picked result. */
  function ViewDestroyed(s: State): (r: Step)
    ensures |r.commands| > 0 && r.commands[0] == RecorderCancel
    ensures s.status == Picked ==> r == Step(s, [RecorderCancel])
    ensures s.status != Picked ==> Cleared(r.next) && r.commands == [RecorderCancel] + Recycle(s).commands
    ensures r.next.status == s.status && r.next.recordDuration == s.recordDuration
  {
    if s.status != Picked then
      var recycled := Recycle(s);
      Step(recycled.next, [RecorderCancel] + recycled.commands)
    else
      Step(s, [RecorderCancel])
  }
}
