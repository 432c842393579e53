/** Sequences of calls into the presenter: the handlers the view invokes, the callbacks
    the recorder delivers (one at a time, on the UI thread) and the view changing its own
    status. The lemmas here relate several calls. */
module TakerRun {
  import opened TakerSpec

  datatype Input =
    | TakePictureTapped(camera: Option<Bitmap>)
    | RecordStarted
    | RecordFinished(duration: int)
    | PermissionGranted(io: SaveOutcome)
    | PermissionDenied
    | ViewDestroying
    | PlaybackFailed
    | RecorderProgress(time: int)
    | RecorderCompleted(uri: Uri, file: Option<File>)
    | RecorderFailed
    | ViewStatusSet(status: Status)

  /** One call into the presenter (or the view setting its own status). */
  function Apply(c: Config, s: State, i: Input): (r: Outcome)
    ensures r.NullPointerThrown? ==> i.PermissionGranted?
    ensures Inv(s) && r.Completed? ==> Inv(r.step.next)
    ensures r.Completed? ==>
      r.step.next.recordDuration == if i.RecorderProgress? then i.time else s.recordDuration
  {
    match i
    case TakePictureTapped(camera) => Completed(TakePicture(s, c.justVideoRecord, camera))
    case RecordStarted => Completed(RecordStart(s))
    case RecordFinished(d) => Completed(RecordFinish(s, c.minimumDuration, d))
    case PermissionGranted(io) => Granted(s, io)
    case PermissionDenied => Completed(Denied(s))
    case ViewDestroying => Completed(ViewDestroyed(s))
    case PlaybackFailed => Completed(VideoPlayFailed(s))
    case RecorderProgress(t) => Completed(ProgressChanged(s, t))
    case RecorderCompleted(u, f) => Completed(RecordComplete(s, u, f))
    case RecorderFailed => Completed(RecordFailure(s))
    case ViewStatusSet(st) => Completed(Step(s.(status := st), [SetStatus(st)]))
  }

  /** The calls `ins`, one after the other; an escaping exception ends the run. */
  function Run(c: Config, s: State, ins: seq<Input>): (r: Outcome)
    decreases |ins|
  {
    if ins == [] then Completed(Step(s, []))
    else
      match Apply(c, s, ins[0])
      case NullPointerThrown => NullPointerThrown
      case Completed(first) =>
        match Run(c, first.next, ins[1..])
        case NullPointerThrown => NullPointerThrown
        case Completed(rest) => Completed(Step(rest.next, first.commands + rest.commands))
  }

  /** The time of the last progress report among `ins`, or `d` when there is none. */
  function LastProgress(ins: seq<Input>, d: int): (last: int)
    decreases |ins|
  {
    if ins == [] then d
    else LastProgress(ins[1..], if ins[0].RecorderProgress? then ins[0].time else d)
  }

  /** The retry counter stays within 0..3 whatever the calls, so the post-increment
      can never wrap around. */
  lemma {:induction false} RunKeepsInv(c: Config, s: State, ins: seq<Input>)
    requires Inv(s)
    ensures Run(c, s, ins).Completed? ==> Inv(Run(c, s, ins).step.next)
    decreases |ins|
  {
    if ins != [] {
      var o := Apply(c, s, ins[0]);
      if o.Completed? {
        RunKeepsInv(c, o.step.next, ins[1..]);
      }
    }
  }

  /** The recorded duration is the last progress value the recorder reported: no other
      call, not even a reset, changes it. */
  lemma {:induction false} RunDurationIsLastProgress(c: Config, s: State, ins: seq<Input>)
    ensures Run(c, s, ins).Completed? ==>
      Run(c, s, ins).step.next.recordDuration == LastProgress(ins, s.recordDuration)
    decreases |ins|
  {
    if ins != [] {
      var o := Apply(c, s, ins[0]);
      if o.Completed? {
        RunDurationIsLastProgress(c, o.step.next, ins[1..]);
      }
    }
  }

  /** Confirming a held video, after any sequence of calls, hands back a video result
      whose duration is the last progress value reported. */
  lemma GrantedVideoCarriesLastProgress(c: Config, s: State, ins: seq<Input>, io: SaveOutcome)
    requires Run(c, s, ins).Completed?
    requires Run(c, s, ins).step.next.videoFile.Some?
    ensures Granted(Run(c, s, ins).step.next, io).Completed?
    ensures var cmds := Granted(Run(c, s, ins).step.next, io).step.commands;
      |cmds| == 1 && cmds[0].SetResult? &&
      !cmds[0].meta.isPicture && cmds[0].meta.duration == LastProgress(ins, s.recordDuration)
  {
    RunDurationIsLastProgress(c, s, ins);
  }

  /** `n` playback failures in a row. */
  function Failures(n: nat): (r: seq<Input>)
    ensures |r| == n && forall k :: 0 <= k < n ==> r[k] == PlaybackFailed
  {
    seq(n, _ => PlaybackFailed)
  }

  /** `n` restarts of the player on `uri`. */
  function Restarts(uri: Option<Uri>, n: nat): (r: seq<Command>)
    ensures |r| == n && forall k :: 0 <= k < n ==> r[k] == StartVideoPlayer(uri)
  {
    seq(n, _ => StartVideoPlayer(uri))
  }

  /** While the counter has room, each playback failure restarts the player on the held
      video and changes nothing but the counter. */
  lemma {:induction false} RetriesBeforeExhaustion(c: Config, s: State, n: nat)
    requires Inv(s) && n <= MaxTryAgain - s.countTryAgain
    ensures Run(c, s, Failures(n)) ==
      Completed(Step(s.(countTryAgain := s.countTryAgain + n), Restarts(s.videoUri, n)))
    decreases n
  {
    if n > 0 {
      var first := VideoPlayFailed(s);
      assert Failures(n)[1..] == Failures(n - 1);
      RetriesBeforeExhaustion(c, first.next, n - 1);
      assert [StartVideoPlayer(s.videoUri)] + Restarts(s.videoUri, n - 1) == Restarts(s.videoUri, n);
    }
  }

  /** At most three automatic restarts: from any reachable counter value, the failures
      that still have room restart the player, and the next one takes the record-failed
      path, which releases the video, resets the counter and returns to the preview. */
  lemma ExhaustionTakesRecordFailure(c: Config, s: State)
    requires Inv(s)
    ensures var k := MaxTryAgain - s.countTryAgain;
      0 <= k <= MaxTryAgain &&
      Run(c, s, Failures(k + 1)) ==
        Completed(Step(RecordFailure(s).next, Restarts(s.videoUri, k) + RecordFailure(s).commands))
    ensures var k := MaxTryAgain - s.countTryAgain;
      Cleared(Run(c, s, Failures(k + 1)).step.next) &&
      Run(c, s, Failures(k + 1)).step.next.status == CameraPreview
  {
    var k := MaxTryAgain - s.countTryAgain;
    var full := s.(countTryAgain := MaxTryAgain);
    RetriesBeforeExhaustion(c, s, k);
    assert Failures(k + 1) == Failures(k) + [PlaybackFailed];
    RunAppend(c, s, Failures(k), [PlaybackFailed]);
    assert VideoPlayFailed(full) == RecordFailure(full);
    assert RecordFailure(full) == RecordFailure(s);
    assert Restarts(s.videoUri, k) + RecordFailure(s).commands + [] ==
           Restarts(s.videoUri, k) + RecordFailure(s).commands;
  }

  /** Running two sequences of calls one after the other is running their concatenation. */
  lemma {:induction false} RunAppend(c: Config, s: State, xs: seq<Input>, ys: seq<Input>)
    ensures Run(c, s, xs + ys) ==
      match Run(c, s, xs)
      case NullPointerThrown => NullPointerThrown
      case Completed(a) =>
        match Run(c, a.next, ys)
        case NullPointerThrown => NullPointerThrown
        case Completed(b) => Completed(Step(b.next, a.commands + b.commands))
    decreases |xs|
  {
    if xs == [] {
      assert xs + ys == ys;
      match Run(c, s, ys)
      case NullPointerThrown =>
      case Completed(b) => assert [] + b.commands == b.commands;
    } else {
      assert (xs + ys)[0] == xs[0];
      assert (xs + ys)[1..] == xs[1..] + ys;
      match Apply(c, s, xs[0])
      case NullPointerThrown =>
      case Completed(first) =>
        RunAppend(c, first.next, xs[1..], ys);
        match Run(c, first.next, xs[1..])
        case NullPointerThrown =>
        case Completed(a) =>
          match Run(c, a.next, ys)
          case NullPointerThrown =>
          case Completed(b) =>
            assert first.commands + (a.commands + b.commands) == (first.commands + a.commands) + b.commands;
    }
  }

  /** Every return to the camera preview made by the presenter releases the captured
      picture and video, except when saving the picture failed: that path keeps them. */
  lemma CameraPreviewReleasesCapture(c: Config, s: State, i: Input)
    requires !i.ViewStatusSet?
    requires Apply(c, s, i).Completed? && SetStatus(CameraPreview) in Apply(c, s, i).step.commands
    ensures i.PermissionGranted? || Cleared(Apply(c, s, i).step.next)
    ensures i.PermissionGranted? ==>
      Apply(c, s, i).step.next.fetchedBitmap == s.fetchedBitmap &&
      Apply(c, s, i).step.next.countTryAgain == s.countTryAgain
  {
  }

  /** The exception that CameraPreviewReleasesCapture allows does happen: whenever a
      picture is held, no video is held and saving it throws, the grant returns to the
      camera preview still holding that picture, so the capture is not released. */
  lemma PictureSaveFailureKeepsPicture(c: Config, s: State)
    requires s.fetchedBitmap.Some? && !HasVideo(s)
    ensures var r := Apply(c, s, PermissionGranted(SaveThrew));
      r.Completed? && SetStatus(CameraPreview) in r.step.commands &&
      r.step.next.status == CameraPreview && r.step.next.fetchedBitmap == s.fetchedBitmap &&
      !Cleared(r.step.next)
  {
  }

  /** Rejecting a freshly recorded video deletes exactly that video and stops the player. */
  lemma DenyAfterRecordingDeletesIt(c: Config, s: State, uri: Uri, file: Option<File>)
    ensures var r := Run(c, s, [RecorderCompleted(uri, file), PermissionDenied]);
      r.Completed? && Cleared(r.step.next) && r.step.next.status == CameraPreview &&
      r.step.commands == [SetStatus(VideoPlay), StartVideoPlayer(Some(uri)), SetStatus(CameraPreview),
                          DeleteVideo(Some(uri), file), StopVideoPlayer]
  {
    var ins := [RecorderCompleted(uri, file), PermissionDenied];
    var first := RecordComplete(s, uri, file);
    assert ins[1..] == [PermissionDenied];
    assert [PermissionDenied][1..] == [];
  }

  /** Destroying the view once it has marked a recorded video as picked keeps that
      video: the recorder is cancelled, but the video is neither deleted nor released and
      the player is not stopped. */
  lemma {:induction false} DestroyWhenPickedKeepsMedia(c: Config, s: State, uri: Uri, file: Option<File>)
    ensures var r := Run(c, s, [RecorderCompleted(uri, file), ViewStatusSet(Picked), ViewDestroying]);
      r.Completed? &&
      r.step.next == s.(videoUri := Some(uri), videoFile := file, status := Picked) &&
      r.step.commands == [SetStatus(VideoPlay), StartVideoPlayer(Some(uri)), SetStatus(Picked), RecorderCancel]
  {
    var recorded := RecordComplete(s, uri, file).next;
    var picked := recorded.(status := Picked);
    assert [ViewDestroying][1..] == [];
    assert Run(c, picked, [ViewDestroying]) == Completed(Step(picked, [RecorderCancel]));
    var tail := [ViewStatusSet(Picked), ViewDestroying];
    assert tail[1..] == [ViewDestroying];
    assert Run(c, recorded, tail) == Completed(Step(picked, [SetStatus(Picked), RecorderCancel]));
    var ins := [RecorderCompleted(uri, file), ViewStatusSet(Picked), ViewDestroying];
    assert ins[1..] == tail;
  }
}
