/** The presenter of the camera/recorder screen as a class over its five fields, and
    the view it drives. Each method updates the fields and issues commands step by step,
    and its contract ties the new fields, the view's status and the commands issued to
    the matching transition of TakerSpec. */
module Taker {
  import opened TakerSpec

  /** The view: the status it holds and the commands it has received, in order. The
      commands meant for the recorder and the video player go to the same log. */
  class TakerView {
    var status: Status
    var log: seq<Command>

    constructor (initial: Status)
      ensures status == initial && log == []
    {
      status := initial;
      log := [];
    }

    /** Receive one command; only SetStatus changes what `status` reports. */
    method Perform(c: Command)
      modifies this
      ensures log == old(log) + [c]
      ensures status == if c.SetStatus? then c.status else old(status)
    {
      log := log + [c];
      if c.SetStatus? {
        status := c.status;
      }
    }
  }

  class TakerPresenter {
    const view: TakerView
    const config: Config
    var fetchedBitmap: Option<Bitmap>
    var recordDuration: int
    var countTryAgain: int
    var videoUri: Option<Uri>
    var videoFile: Option<File>

    /** The fields together with the view's status. */
    ghost function Snapshot(): State
      reads this, view
    {
      State(fetchedBitmap, recordDuration, countTryAgain, videoUri, videoFile, view.status)
    }

    ghost predicate Valid()
      reads this, view
    {
      Inv(Snapshot())
    }

    constructor (v: TakerView, c: Config)
      modifies v
      ensures view == v && config == c
      ensures Valid() && Snapshot() == Initial()
      ensures v.log == old(v.log) + SetupCommands(c)
    {
      view := v;
      config := c;
      fetchedBitmap := None;
      recordDuration := 0;
      countTryAgain := 0;
      videoUri := None;
      videoFile := None;
      new;
      SetupViews();
    }

    /** Configure the camera and recorder views, then show the camera preview. */
    method SetupViews()
      modifies view
      ensures view.status == CameraPreview
      ensures view.log == old(view.log) + SetupCommands(config)
    {
      view.Perform(SetPreviewAspect(PreviewRatio(config.previewAspect)));
      view.Perform(SetPreviewFullScreen(config.fullScreen));
      if config.rendererClassName.Some? && config.rendererClassName.value != [] {
        view.Perform(SetPreviewRenderer(config.rendererClassName.value));
      }
      view.Perform(SetMaxRecordDuration(config.maximumDuration));
      view.Perform(SetSupportVideoRecord(config.supportVideoRecord));
      view.Perform(SetProgressColor(config.progressColor));
      view.Perform(SetStatus(CameraPreview));
    }

    method HandleVideoPlayFailed()
      requires Valid()
      modifies this, view
      ensures Valid()
      ensures Snapshot() == VideoPlayFailed(old(Snapshot())).next
      ensures view.log == old(view.log) + VideoPlayFailed(old(Snapshot())).commands
    {
      var before := countTryAgain;
      countTryAgain := countTryAgain + 1;
      if before < MaxTryAgain {
        view.Perform(StartVideoPlayer(videoUri));
      } else {
        PerformRecordFailed();
      }
    }

    /** `camera` is the frame the view returns when asked for the preview's bitmap. */
    method HandleTakePicture(camera: Option<Bitmap>)
      requires Valid()
      modifies this, view
      ensures Valid()
      ensures Snapshot() == TakePicture(old(Snapshot()), config.justVideoRecord, camera).next
      ensures view.log == old(view.log) + TakePicture(old(Snapshot()), config.justVideoRecord, camera).commands
    {
      if config.justVideoRecord {
        return;
      }
      if camera.None? {
        view.Perform(Toast(TakePictureFailedMsg));
        return;
      }
      fetchedBitmap := camera;
      view.Perform(SetStatus(PicturePreview));
      view.Perform(SetPreviewSource(fetchedBitmap.value));
    }

    method HandleRecordStart()
      requires Valid()
      modifies view
      ensures Valid()
      ensures Snapshot() == RecordStart(old(Snapshot())).next
      ensures view.log == old(view.log) + RecordStart(old(Snapshot())).commands
    {
      view.Perform(RecorderStart);
    }

    method HandleRecordFinish(duration: int)
      requires Valid()
      modifies view
      ensures Valid()
      ensures Snapshot() == RecordFinish(old(Snapshot()), config.minimumDuration, duration).next
      ensures view.log == old(view.log) + RecordFinish(old(Snapshot()), config.minimumDuration, duration).commands
    {
      if duration < config.minimumDuration {
        view.Perform(RecorderCancel);
        view.Perform(Toast(RecordTimeTooShortMsg));
      } else {
        view.Perform(SetRecordButtonVisible(false));
        view.Perform(RecorderComplete);
      }
    }

    /** `io` is what the file and content-resolver work of saving a picture does.
        `threw` reports a NullPointerException escaping to the caller. */
    method HandleGranted(io: SaveOutcome) returns (threw: bool)
      requires Valid()
      modifies view
      ensures Valid()
      ensures threw <==> Granted(old(Snapshot()), io).NullPointerThrown?
      ensures !threw ==> Snapshot() == Granted(old(Snapshot()), io).step.next
      ensures !threw ==> view.log == old(view.log) + Granted(old(Snapshot()), io).step.commands
      ensures threw ==> Snapshot() == old(Snapshot()) && view.log == old(view.log)
    {
      if videoUri.Some? || videoFile.Some? {
        threw := PerformVideoEnsure();
      } else {
        PerformPictureEnsure(io);
        threw := false;
      }
    }

    method HandleDenied()
      requires Valid()
      modifies this, view
      ensures Valid()
      ensures Snapshot() == Denied(old(Snapshot())).next
      ensures view.log == old(view.log) + Denied(old(Snapshot())).commands
    {
      view.Perform(SetStatus(CameraPreview));
      Recycle();
    }

    method HandleViewDestroy()
      requires Valid()
      modifies this, view
      ensures Valid()
      ensures Snapshot() == ViewDestroyed(old(Snapshot())).next
      ensures view.log == old(view.log) + ViewDestroyed(old(Snapshot())).commands
    {
      view.Perform(RecorderCancel);
      if view.status != Picked {
        Recycle();
      }
    }

    /** Recorder callback: recording progress. */
    method PerformProgressChanged(time: int)
      requires Valid()
      modifies this, view
      ensures Valid()
      ensures Snapshot() == ProgressChanged(old(Snapshot()), time).next
      ensures view.log == old(view.log) + ProgressChanged(old(Snapshot()), time).commands
    {
      recordDuration := time;
      view.Perform(SetRecordButtonProgress(time));
    }

    /** Recorder callback: recording failed; also the end of exhausted playback retries,
        where the counter has just been pushed past the threshold. */
    method PerformRecordFailed()
      modifies this, view
      ensures Valid()
      ensures Snapshot() == RecordFailure(old(Snapshot())).next
      ensures view.log == old(view.log) + RecordFailure(old(Snapshot())).commands
    {
      Recycle();
      view.Perform(Toast(RecordFailedMsg));
      view.Perform(SetStatus(CameraPreview));
    }

    /** Recorder callback: the video is written. */
    method PerformRecordComplete(uri: Uri, file: Option<File>)
      requires Valid()
      modifies this, view
      ensures Valid()
      ensures Snapshot() == RecordComplete(old(Snapshot()), uri, file).next
      ensures view.log == old(view.log) + RecordComplete(old(Snapshot()), uri, file).commands
    {
      videoUri := Some(uri);
      videoFile := file;
      view.Perform(SetStatus(VideoPlay));
      view.Perform(StartVideoPlayer(videoUri));
    }

    method PerformPictureEnsure(io: SaveOutcome)
      modifies view
      ensures Snapshot() == PictureEnsure(old(Snapshot()), io).next
      ensures view.log == old(view.log) + PictureEnsure(old(Snapshot()), io).commands
    {
      if fetchedBitmap.Some? && io.Saved? {
        view.Perform(SetResult(PictureMeta(io.uri, io.path)));
      } else {
        view.Perform(Toast(PictureSavedFailedMsg));
        view.Perform(SetStatus(CameraPreview));
      }
    }

    method PerformVideoEnsure() returns (threw: bool)
      modifies view
      ensures threw <==> VideoEnsure(old(Snapshot())).NullPointerThrown?
      ensures !threw ==> Snapshot() == VideoEnsure(old(Snapshot())).step.next
      ensures !threw ==> view.log == old(view.log) + VideoEnsure(old(Snapshot())).step.commands
      ensures threw ==> Snapshot() == old(Snapshot()) && view.log == old(view.log)
    {
      if videoFile.None? {
        return true;
      }
      var meta := MediaMeta(videoUri, videoFile.value.absolutePath, false, 0);
      meta := meta.(duration := recordDuration);
      view.Perform(SetResult(meta));
      threw := false;
    }

    method Recycle()
      modifies this, view
      ensures Valid()
      ensures Snapshot() == TakerSpec.Recycle(old(Snapshot())).next
      ensures view.log == old(view.log) + TakerSpec.Recycle(old(Snapshot())).commands
    {
      fetchedBitmap := None;
      countTryAgain := 0;
      view.Perform(DeleteVideo(videoUri, videoFile));
      videoUri := None;
      videoFile := None;
      view.Perform(StopVideoPlayer);
    }
  }
}
