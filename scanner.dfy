/**
 * `QrScannerLib`: the live scanner's state and its event handlers. The
 * browser is replaced by fields and by methods for the events it delivers:
 * the `<video>` element's attributes, the messages posted to the worker, the
 * animation frames requested, the `onDecode` calls made, the `getUserMedia`
 * requests and the timers armed to stop the camera.
 */
module Scanner {
  import opened Wrappers
  import opened Geometry
  import opened ScanLoop
  import opened Camera

  /** Exceptions thrown out of the scanner's callbacks, in the order they were thrown. */
  datatype Error =
      /** "Couldn't start camera": every candidate of a start was rejected. */
    | CouldNotStartCamera
      /** The stop timer fired while the video has no stream or the stream has no track. */
    | NoTrackToStop
      /** `_scanFrame` read the pixels of a canvas of width 0 (`getImageData` with a zero-sized rectangle). */
    | IndexSizeException

  class QrScannerLib {
    /** The `<video>` element: its frame size, `paused`, `ended` and `srcObject`. */
    var video: Video
    var srcObject: Option<Stream>
    /** The canvas's width, fixed at construction; frames are drawn onto `canvasSize` x `canvasSize`. */
    const canvasSize: nat
    var sourceRectSize: nat
    /** Messages posted to the worker, in order. */
    var outbox: seq<Message>
    /** Animation frames requested by `_handleWorkerMessage` and not yet run. */
    var pendingRescans: nat
    /** The payloads `onDecode` was called with, in order. */
    var decoded: seq<Payload>
    /** One entry per `active = true` (or direct `_cameraOn`) call: its chain of `getUserMedia` requests. */
    var starts: seq<CameraStart>
    /** `_offTimeout`: the handle of the latest stop timer. */
    var offTimeout: Option<nat>
    /** The browser's stop timers that are armed, by handle, and the next handle it gives out. */
    var armedStops: set<nat>
    var nextTimer: nat
    /** Tracks stopped by a stop timer, in order. */
    var stoppedTracks: seq<TrackId>
    var errors: seq<Error>

    /** Every worker message handled so far, and the animation frames that ran. */
    ghost var replies: seq<Reply>
    ghost var rescansRun: nat

    /**
     * `onDecode` has been called with exactly the data of the non-null
     * `qrResult` messages, in order; every `qrResult` requested exactly one
     * animation frame; every frame posted covers the whole canvas; timer
     * handles are given out fresh.
     */
    ghost predicate Valid()
      reads this
    {
      decoded == FoundPayloads(replies) &&
      pendingRescans + rescansRun == ResultCount(replies) &&
      (forall i | 0 <= i < |outbox| && outbox[i].Decode? :: outbox[i].width == canvasSize && outbox[i].height == canvasSize) &&
      (forall t | t in armedStops :: t < nextTimer) &&
      (offTimeout.Some? ==> offTimeout.value < nextTimer)
    }

    /** `new QrScannerLib(video, canvas, onDecode)`: the source square starts as large as the canvas. */
    constructor (video: Video, srcObject: Option<Stream>, canvasSize: nat)
      ensures Valid()
      ensures this.video == video && this.srcObject == srcObject && this.canvasSize == canvasSize
      ensures sourceRectSize == canvasSize
      ensures outbox == [] && pendingRescans == 0 && decoded == [] && starts == []
      ensures offTimeout == None && armedStops == {} && stoppedTracks == [] && errors == []
    {
      this.video := video;
      this.srcObject := srcObject;
      this.canvasSize := canvasSize;
      sourceRectSize := canvasSize;
      outbox, pendingRescans, decoded, starts := [], 0, [], [];
      offTimeout, armedStops, nextTimer, stoppedTracks, errors := None, {}, 0, [], [];
      replies, rescansRun := [], 0;
    }

    /** The browser changes the video's frame size or playback state. */
    method VideoChanged(width: nat, height: nat, paused: bool, ended: bool)
      requires Valid()
      modifies this`video
      ensures Valid()
      ensures video == Video(width, height, paused, ended)
    {
      video := Video(width, height, paused, ended);
    }

    /** `_updateSourceRect`, run on `resize` and `canplay`: two thirds of the frame's smaller side, rounded. */
    method UpdateSourceRect()
      requires Valid()
      modifies this`sourceRectSize
      ensures Valid()
      ensures sourceRectSize == SourceRectSize(SmallestDimension(video.width, video.height))
      ensures sourceRectSize <= video.width && sourceRectSize <= video.height
    {
      var smallestDimension := SmallestDimension(video.width, video.height);
      sourceRectSize := SourceRectSize(smallestDimension);
    }

    /**
     * `_scanFrame`, run on `play` and by each animation frame: posts one
     * centred frame unless paused or ended; on a canvas of width 0 reading the
     * pixels throws instead, and nothing is posted.
     */
    method ScanFrame()
      requires Valid()
      modifies this`outbox, this`errors
      ensures Valid()
      ensures outbox == old(outbox) + ScanPosts(video, sourceRectSize, canvasSize)
      ensures errors == old(errors) + if ScanThrows(video, canvasSize) then [IndexSizeException] else []
      ensures video.paused || video.ended ==> outbox == old(outbox)
      ensures !video.paused && !video.ended && canvasSize > 0 ==>
                outbox == old(outbox) + [Decode(CropOf(video.width, video.height, sourceRectSize), canvasSize, canvasSize)]
    {
      if video.paused || video.ended {
        return;
      }
      var x2 := video.width - sourceRectSize;
      var y2 := video.height - sourceRectSize;
      if canvasSize == 0 {
        errors := errors + [IndexSizeException];
        return;
      }
      outbox := outbox + [Decode(Crop(x2, y2, sourceRectSize), canvasSize, canvasSize)];
    }

    /**
     * `_handleWorkerMessage`: a `qrResult` requests one animation frame and,
     * when its data is not null, calls `onDecode` with it; any other message
     * does nothing.
     */
    method HandleWorkerMessage(reply: Reply)
      requires Valid()
      modifies this`pendingRescans, this`decoded, this`replies
      ensures Valid()
      ensures replies == old(replies) + [reply]
      ensures pendingRescans == old(pendingRescans) + React(reply).rescans
      ensures decoded == old(decoded) + React(reply).callbacks
    {
      ResultCountAppend(replies, reply);
      FoundPayloadsAppend(replies, reply);
      replies := replies + [reply];
      if !IsResult(reply) {
        return;
      }
      pendingRescans := pendingRescans + 1;
      if reply.data.None? {
        return;
      }
      decoded := decoded + [reply.data.value];
    }

    /** An animation frame: one pending request, if any, runs `_scanFrame`. */
    method AnimationFrame()
      requires Valid()
      modifies this`pendingRescans, this`rescansRun, this`outbox, this`errors
      ensures Valid()
      ensures old(pendingRescans) == 0 ==>
                pendingRescans == 0 && outbox == old(outbox) && rescansRun == old(rescansRun) && errors == old(errors)
      ensures old(pendingRescans) > 0 ==>
                pendingRescans == old(pendingRescans) - 1 && rescansRun == old(rescansRun) + 1 &&
                outbox == old(outbox) + ScanPosts(video, sourceRectSize, canvasSize) &&
                errors == old(errors) + if ScanThrows(video, canvasSize) then [IndexSizeException] else []
    {
      if pendingRescans > 0 {
        pendingRescans := pendingRescans - 1;
        rescansRun := rescansRun + 1;
        ScanFrame();
      }
    }

    /** `setGrayscaleWeights`: posts the weights to the worker. */
    method SetGrayscaleWeights(red: real, green: real, blue: real)
      requires Valid()
      modifies this`outbox
      ensures Valid()
      ensures outbox == old(outbox) + [GrayscaleWeights(red, green, blue)]
    {
      outbox := outbox + [GrayscaleWeights(red, green, blue)];
    }

    /** The armed timers once `clearTimeout(this._offTimeout)` ran. */
    function ClearedStops(): (armed: set<nat>)
      reads this
      ensures armed <= armedStops
      ensures offTimeout.Some? ==> offTimeout.value !in armed && armed + ({offTimeout.value} * armedStops) == armedStops
      ensures offTimeout.None? ==> armed == armedStops
    {
      if offTimeout.Some? then armedStops - {offTimeout.value} else armedStops
    }

    /** `_cameraOn(settingsToTry)`: cancels the latest stop timer and starts a new chain of requests. */
    method CameraOn(settingsToTry: Option<seq<Constraint>>)
      requires Valid()
      modifies this`armedStops, this`starts
      ensures Valid()
      ensures armedStops == old(ClearedStops())
      ensures starts == old(starts) + [Begin(settingsToTry)]
    {
      armedStops := ClearedStops();
      starts := starts + [Begin(settingsToTry)];
    }

    /**
     * `_cameraOff`: pauses the video at once and arms a 3000 ms timer that
     * will stop the stream's first track; only this latest handle is kept.
     */
    method CameraOff()
      requires Valid()
      modifies this`video, this`offTimeout, this`armedStops, this`nextTimer
      ensures Valid()
      ensures video == old(video).(paused := true)
      ensures offTimeout == Some(old(nextTimer)) && old(nextTimer) !in old(armedStops)
      ensures armedStops == old(armedStops) + {old(nextTimer)}
      ensures nextTimer == old(nextTimer) + 1
    {
      video := video.(paused := true);
      offTimeout := Some(nextTimer);
      armedStops := armedStops + {nextTimer};
      nextTimer := nextTimer + 1;
    }

    /** The `active` setter. */
    method SetActive(active: bool)
      requires Valid()
      modifies this`video, this`offTimeout, this`armedStops, this`nextTimer, this`starts
      ensures Valid()
      ensures active ==>
                armedStops == old(ClearedStops()) && starts == old(starts) + [Begin(None)] &&
                video == old(video) && offTimeout == old(offTimeout) && nextTimer == old(nextTimer)
      ensures !active ==>
                video == old(video).(paused := true) && offTimeout == Some(old(nextTimer)) &&
                armedStops == old(armedStops) + {old(nextTimer)} && nextTimer == old(nextTimer) + 1 &&
                starts == old(starts)
    {
      if active {
        CameraOn(None);
      } else {
        CameraOff();
      }
    }

    /**
     * The pending `getUserMedia` request of start `i` was rejected: with
     * candidates left `_cameraOn` is called again (clearing the latest stop
     * timer once more) and requests the next; otherwise "Couldn't start camera"
     * is thrown. An index without a pending request is ignored.
     */
    method UserMediaRejected(i: nat)
      requires Valid()
      modifies this`armedStops, this`starts, this`errors
      ensures Valid()
      ensures i < |old(starts)| && old(starts)[i].status.Requesting? ==>
                starts == old(starts)[i := OnRejected(old(starts)[i])] &&
                (old(starts)[i].settingsToTry != [] ==> armedStops == old(ClearedStops()) && errors == old(errors)) &&
                (old(starts)[i].settingsToTry == [] ==> armedStops == old(armedStops) && errors == old(errors) + [CouldNotStartCamera])
      ensures !(i < |old(starts)| && old(starts)[i].status.Requesting?) ==>
                starts == old(starts) && armedStops == old(armedStops) && errors == old(errors)
    {
      if i < |starts| && starts[i].status.Requesting? {
        if starts[i].settingsToTry != [] {
          armedStops := ClearedStops();
        } else {
          errors := errors + [CouldNotStartCamera];
        }
        starts := starts[i := OnRejected(starts[i])];
      }
    }

    /** The pending request of start `i` gave a stream: it becomes the video's `srcObject`. */
    method UserMediaResolved(i: nat, stream: Stream)
      requires Valid()
      modifies this`starts, this`srcObject
      ensures Valid()
      ensures i < |old(starts)| && old(starts)[i].status.Requesting? ==>
                starts == old(starts)[i := OnResolved(old(starts)[i], stream)] && srcObject == Some(stream)
      ensures !(i < |old(starts)| && old(starts)[i].status.Requesting?) ==>
                starts == old(starts) && srcObject == old(srcObject)
    {
      if i < |starts| && starts[i].status.Requesting? {
        starts := starts[i := OnResolved(starts[i], stream)];
        srcObject := Some(stream);
      }
    }

    /** Stop timer `t` fires, if it is still armed: it stops the first track of the current stream. */
    method StopTimerFires(t: nat)
      requires Valid()
      modifies this`armedStops, this`stoppedTracks, this`errors
      ensures Valid()
      ensures armedStops == old(armedStops) - {t}
      ensures t !in old(armedStops) ==> stoppedTracks == old(stoppedTracks) && errors == old(errors)
      ensures t in old(armedStops) && srcObject.Some? && srcObject.value.tracks != [] ==>
                stoppedTracks == old(stoppedTracks) + [srcObject.value.tracks[0]] && errors == old(errors)
      ensures t in old(armedStops) && !(srcObject.Some? && srcObject.value.tracks != []) ==>
                stoppedTracks == old(stoppedTracks) && errors == old(errors) + [NoTrackToStop]
    {
      if t in armedStops {
        armedStops := armedStops - {t};
        if srcObject.Some? && srcObject.value.tracks != [] {
          stoppedTracks := stoppedTracks + [srcObject.value.tracks[0]];
        } else {
          errors := errors + [NoTrackToStop];
        }
      }
    }
  }

  /**
   * Debounce: `active = false` followed by `active = true` before the timer
   * fires leaves the armed timers as they were, so the current stream's track
   * is never stopped, even when the cancelled timer's moment comes. The
   * camera is not simply kept, though: `active = true` still makes a fresh
   * `getUserMedia` request, whose stream will replace `srcObject` once it
   * arrives.
   */
  method OffThenOnCancelsStop(s: QrScannerLib)
    requires s.Valid()
    modifies s
    ensures s.Valid()
    ensures s.armedStops == old(s.armedStops)
    ensures s.starts == old(s.starts) + [Begin(None)] && s.srcObject == old(s.srcObject)
    ensures s.stoppedTracks == old(s.stoppedTracks) && s.errors == old(s.errors)
    ensures s.video.paused
  {
    s.SetActive(false);
    var t := s.offTimeout.value;
    s.SetActive(true);
    s.StopTimerFires(t);
  }

  /** `active = false` left alone: when its timer fires, exactly the stream's first track is stopped, once. */
  method OffAloneStopsOnce(s: QrScannerLib, stream: Stream)
    requires s.Valid() && s.srcObject == Some(stream) && stream.tracks != []
    modifies s
    ensures s.stoppedTracks == old(s.stoppedTracks) + [stream.tracks[0]]
  {
    s.SetActive(false);
    var t := s.offTimeout.value;
    s.StopTimerFires(t);
    s.StopTimerFires(t);
  }

  /**
   * Only the latest stop timer is tracked: two `active = false` and one
   * `active = true` leave the first timer armed, and it stops the track.
   */
  method OnCancelsOnlyLatestTimer(s: QrScannerLib, stream: Stream)
    requires s.Valid() && s.srcObject == Some(stream) && stream.tracks != []
    modifies s
    ensures s.stoppedTracks == old(s.stoppedTracks) + [stream.tracks[0]]
  {
    s.SetActive(false);
    var first := s.offTimeout.value;
    s.SetActive(false);
    s.SetActive(true);
    s.StopTimerFires(first);
  }

  /**
   * Fallback with the default candidates when only the third succeeds: the
   * first two are requested and rejected in order, the third is requested and
   * its stream bound to the video, and nothing is thrown.
   */
  method ThirdCandidateStarts(s: QrScannerLib, stream: Stream)
    requires s.Valid()
    modifies s
    ensures |s.starts| == |old(s.starts)| + 1
    ensures s.starts[|old(s.starts)|] == CameraStart(AsRequests(DEFAULT_SETTINGS), [], Streaming(stream))
    ensures s.srcObject == Some(stream) && s.errors == old(s.errors)
  {
    s.SetActive(true);
    var i := |s.starts| - 1;
    DefaultFallback();
    assert Rejections(Begin(None), 1) == Rejections(OnRejected(Begin(None)), 0);
    s.UserMediaRejected(i);
    assert Rejections(Begin(None), 2) == Rejections(OnRejected(OnRejected(Begin(None))), 0);
    s.UserMediaRejected(i);
    s.UserMediaResolved(i, stream);
  }

  /**
   * Every `active = true` issues a new request, even while one is pending: two
   * calls in a row start two chains.
   */
  method ActivateTwiceRequestsTwice(s: QrScannerLib)
    requires s.Valid()
    modifies s
    ensures s.starts == old(s.starts) + [Begin(None), Begin(None)]
  {
    s.SetActive(true);
    s.SetActive(true);
  }

  /** A second `play` posts a second frame although the first has not been answered. */
  method TwoPlaysPostTwoFrames(s: QrScannerLib)
    requires s.Valid() && !s.video.paused && !s.video.ended && s.canvasSize > 0
    modifies s
    ensures |s.outbox| == |old(s.outbox)| + 2 && s.outbox[|old(s.outbox)|].Decode? && s.outbox[|old(s.outbox)| + 1].Decode?
  {
    s.ScanFrame();
    s.ScanFrame();
  }
}
