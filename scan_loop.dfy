/**
 * The pure part of the live scan loop: what one `_scanFrame` call posts to the
 * decoding worker, what one worker message makes `_handleWorkerMessage` do, and
 * what a whole history of worker messages adds up to.
 */
module ScanLoop {
  import opened Wrappers
  import opened Geometry

  /** A decoded QR code's content, opaque to the scanner. */
  type Payload = string

  /** A message from the worker: `event.data.type` and `event.data.data` (`None` for `null`). */
  datatype Reply = Reply(kind: string, data: Option<Payload>)

  /** The worker's answer to a `decode` request. */
  predicate IsResult(r: Reply)
  {
    r.kind == "qrResult"
  }

  /** A message posted to the worker. */
  datatype Message =
      /**
       * `{type: 'decode', data: imageData}`: the `crop` of the video is drawn
       * onto the whole `width` x `height` canvas, whose pixels are posted.
       */
    | Decode(crop: Crop, width: nat, height: nat)
      /** `{type: 'grayscaleWeights', data: {red, green, blue}}`. */
    | GrayscaleWeights(red: real, green: real, blue: real)

  /** The attributes of the `<video>` element that `_scanFrame` reads. */
  datatype Video = Video(width: nat, height: nat, paused: bool, ended: bool)

  /**
   * Whether `_scanFrame` throws: on a canvas of width 0, `getImageData(0, 0, 0, 0)`
   * raises an `IndexSizeError` before anything is posted. A paused or ended
   * video returns before reaching it.
   */
  predicate ScanThrows(video: Video, canvasSize: nat)
  {
    !video.paused && !video.ended && canvasSize == 0
  }

  /**
   * What one `_scanFrame` call posts: nothing while the video is paused or has
   * ended, or when reading the empty canvas throws; otherwise exactly one
   * `decode` request for the centred square of the last computed size, drawn
   * over the whole canvas.
   */
  function ScanPosts(video: Video, sourceRectSize: nat, canvasSize: nat): (posts: seq<Message>)
    ensures video.paused || video.ended ==> posts == []
    ensures ScanThrows(video, canvasSize) ==> posts == []
    ensures !video.paused && !video.ended && canvasSize > 0 ==>
              |posts| == 1 && posts[0].Decode? &&
              posts[0].crop.size == sourceRectSize && Centred(posts[0].crop, video.width, video.height) &&
              posts[0].width == canvasSize && posts[0].height == canvasSize
  {
    if video.paused || video.ended || canvasSize == 0 then []
    else [Decode(CropOf(video.width, video.height, sourceRectSize), canvasSize, canvasSize)]
  }

  /** What `_handleWorkerMessage` does for one message: animation frames requested and `onDecode` calls. */
  datatype Reaction = Reaction(rescans: nat, callbacks: seq<Payload>)

  /**
   * A message that is not a `qrResult` does nothing. A `qrResult` requests
   * exactly one animation frame (the next scan), whatever its data; `onDecode`
   * is called once, with the data, exactly when the data is not null.
   */
  function React(r: Reply): (e: Reaction)
    ensures !IsResult(r) ==> e == Reaction(0, [])
    ensures IsResult(r) ==> e.rescans == 1
    ensures |e.callbacks| <= 1
    ensures e.callbacks != [] <==> IsResult(r) && r.data.Some?
    ensures forall p | p in e.callbacks :: r.data == Some(p)
  {
    if !IsResult(r) then Reaction(0, [])
    else if r.data.None? then Reaction(1, [])
    else Reaction(1, [r.data.value])
  }

  /** The number of `qrResult` messages in a history of worker messages. */
  function ResultCount(rs: seq<Reply>): nat
  {
    if rs == [] then 0
    else (if IsResult(rs[0]) then 1 else 0) + ResultCount(rs[1..])
  }

  /** The data of the `qrResult` messages whose data is not null, in the order they came. */
  function FoundPayloads(rs: seq<Reply>): seq<Payload>
  {
    if rs == [] then []
    else (if IsResult(rs[0]) && rs[0].data.Some? then [rs[0].data.value] else []) + FoundPayloads(rs[1..])
  }

  /** Handling one more message adds its animation-frame requests to the history's count. */
  lemma {:induction false} ResultCountAppend(rs: seq<Reply>, r: Reply)
    ensures ResultCount(rs + [r]) == ResultCount(rs) + React(r).rescans
  {
    if rs != [] {
      assert (rs + [r])[1..] == rs[1..] + [r];
      ResultCountAppend(rs[1..], r);
    }
  }

  /** Handling one more message adds its `onDecode` calls to the history's payloads. */
  lemma {:induction false} FoundPayloadsAppend(rs: seq<Reply>, r: Reply)
    ensures FoundPayloads(rs + [r]) == FoundPayloads(rs) + React(r).callbacks
  {
    if rs == [] {
      assert FoundPayloads([r]) == React(r).callbacks + FoundPayloads([]);
    } else {
      assert (rs + [r])[1..] == rs[1..] + [r];
      FoundPayloadsAppend(rs[1..], r);
    }
  }

  /** Every `onDecode` call comes with a rescan: there are never more callbacks than `qrResult` messages. */
  lemma {:induction false} CallbacksNeverExceedRescans(rs: seq<Reply>)
    ensures |FoundPayloads(rs)| <= ResultCount(rs)
  {
    if rs != [] {
      CallbacksNeverExceedRescans(rs[1..]);
    }
  }

  /** Each payload handed to `onDecode` is the data of some `qrResult` message of the history. */
  lemma {:induction false} CallbackPayloadsCameFromResults(rs: seq<Reply>, p: Payload)
    requires p in FoundPayloads(rs)
    ensures exists i :: 0 <= i < |rs| && IsResult(rs[i]) && rs[i].data == Some(p)
  {
    if IsResult(rs[0]) && rs[0].data == Some(p) {
    } else {
      CallbackPayloadsCameFromResults(rs[1..], p);
      var i :| 0 <= i < |rs[1..]| && IsResult(rs[1..][i]) && rs[1..][i].data == Some(p);
      assert rs[i + 1] == rs[1..][i];
    }
  }

  /** When every result is null, `onDecode` is never called, while each result still rescans. */
  lemma {:induction false} NullResultsNeverCallBack(rs: seq<Reply>)
    requires forall i | 0 <= i < |rs| :: rs[i].data.None?
    ensures FoundPayloads(rs) == []
    ensures (forall i | 0 <= i < |rs| :: IsResult(rs[i])) ==> ResultCount(rs) == |rs|
  {
    if rs != [] {
      NullResultsNeverCallBack(rs[1..]);
    }
  }

  /** Messages of other types leave both the rescan count and the callbacks untouched. */
  lemma {:induction false} ForeignMessagesIgnored(rs: seq<Reply>)
    requires forall i | 0 <= i < |rs| :: !IsResult(rs[i])
    ensures ResultCount(rs) == 0 && FoundPayloads(rs) == []
  {
    if rs != [] {
      ForeignMessagesIgnored(rs[1..]);
    }
  }
}
