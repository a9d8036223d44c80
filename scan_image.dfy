/**
 * `scanImage`, the one-shot decode: a race between a 3000 ms timer, the
 * worker's `error` and `message` events and the `_loadImage` promise. The
 * browser's callbacks arrive as a sequence of events; the promise settles on
 * the first event that settles it, and later calls of `resolve`/`reject` do
 * nothing.
 */
module OneShot {
  import opened Wrappers
  import opened ScanLoop
  import opened ImageLoad

  datatype Event =
      /**
       * The `_loadImage` promise resolved with an image of this size: its pixels
       * are posted to the worker, or, for an image with no pixels, `_getImageData`
       * throws and `.catch(reject)` rejects.
       */
    | LoadResolved(image: Dims)
      /**
       * The `_loadImage` promise rejected (a load error or an unsupported input):
       * `.catch(reject)` passes its reason on.
       */
    | LoadRejected
      /** The timer set with `setTimeout(reject, 3000)` fired. */
    | TimeoutFired
      /** `worker.onerror`. */
    | WorkerError
      /** `worker.onmessage`. */
    | WorkerMessage(reply: Reply)

  /** The value a rejected call rejects with. */
  datatype Reason =
      /** `undefined`: `setTimeout(reject, 3000)`, `reject()` on a null result, and `_awaitImageLoad`'s `reject()`. */
    | NoReason
      /** The string `'Unsupported image type.'` of `_loadImage`. */
    | UnsupportedImageType
      /** The worker's `ErrorEvent`, through `worker.onerror = reject`. */
    | WorkerErrorEvent
      /** The `IndexSizeError` that `getImageData` throws in `_getImageData` for a loaded image element with a zero side. */
    | IndexSizeException
      /**
       * The `InvalidStateError` that `drawImage` throws in `_getImageData` for a
       * canvas (or a closed bitmap) with a zero side, before `getImageData` runs.
       */
    | InvalidStateException
      /** The `ReferenceError` of `instanceof ImageBitmap` where that global is missing (as written). */
    | ReferenceException

  /** How the returned promise settled. */
  datatype Settlement = Resolved(payload: Payload) | Rejected(reason: Reason)

  /**
   * What the promise `_loadImage` returns rejects with, should it reject: the
   * unsupported-type message, or nothing for an image that failed to load (a
   * `Ready` plan never rejects).
   */
  function LoadRejection(plan: LoadPlan): (why: Reason)
    ensures why == UnsupportedImageType <==> plan.Unsupported?
    ensures why == UnsupportedImageType || why == NoReason
  {
    if plan.Unsupported? then UnsupportedImageType else NoReason
  }

  /**
   * What `_getImageData` throws for a loaded image with a zero side: a canvas
   * or bitmap used as it is makes `drawImage` throw; an image element is drawn
   * as nothing, and `getImageData` then throws.
   */
  function EmptyImageRejection(plan: LoadPlan): (why: Reason)
    ensures why == InvalidStateException <==> plan.Ready?
    ensures why == InvalidStateException || why == IndexSizeException
  {
    if plan.Ready? then InvalidStateException else IndexSizeException
  }

  /**
   * The state of one call: the promise (`None` while pending), whether the
   * timer is still armed, the sizes of the images posted to the worker, and
   * what `_loadImage` made of the input, which fixes the reasons of a load
   * rejection and of a zero-sized image.
   */
  datatype Shot = Shot(settled: Option<Settlement>, timeoutArmed: bool, posted: seq<Dims>, plan: LoadPlan)

  /** In every reachable state the timer is disarmed only after the promise settled. */
  predicate Consistent(s: Shot)
  {
    !s.timeoutArmed ==> s.settled.Some?
  }

  /**
   * The synchronous part of the executor: the timer is armed and the worker
   * created; a `_loadImage` that throws rejects the promise at once, with the
   * exception thrown.
   */
  function Start(plan: LoadPlan): (s: Shot)
    ensures Consistent(s) && s.timeoutArmed && s.posted == []
    ensures s.settled == if plan.ThrowsReferenceException? then Some(Rejected(ReferenceException)) else None
    ensures s.plan == plan
  {
    Shot(if plan.ThrowsReferenceException? then Some(Rejected(ReferenceException)) else None, true, [], plan)
  }

  /**
   * What an event settles a pending promise with, if it settles it at all,
   * for an input that `_loadImage` treated as `plan`.
   */
  function SettlesAs(plan: LoadPlan, e: Event): Option<Settlement>
  {
    match e
    case LoadResolved(image) => if HasPixels(image) then None else Some(Rejected(EmptyImageRejection(plan)))
    case LoadRejected => Some(Rejected(LoadRejection(plan)))
    case TimeoutFired => Some(Rejected(NoReason))
    case WorkerError => Some(Rejected(WorkerErrorEvent))
    case WorkerMessage(r) =>
      if !IsResult(r) then None
      else if r.data.Some? then Some(Resolved(r.data.value))
      else Some(Rejected(NoReason))
  }

  /** `resolve` or `reject`: only the first call settles the promise. */
  function Settle(s: Shot, o: Settlement): Shot
  {
    if s.settled.None? then s.(settled := Some(o)) else s
  }

  /**
   * One event. A loaded image is posted even when the promise already settled,
   * and one without pixels rejects instead;
   * a message that is not a `qrResult` is ignored; a `qrResult` clears the timer;
   * the timer fires only while armed; a settled promise stays as it is.
   */
  function Step(s: Shot, e: Event): (t: Shot)
    ensures e.LoadResolved? && HasPixels(e.image) ==> t == s.(posted := s.posted + [e.image])
    ensures e.LoadResolved? && !HasPixels(e.image) ==> t.posted == s.posted && t.timeoutArmed == s.timeoutArmed
    ensures !(e.LoadResolved? && HasPixels(e.image)) ==> t.posted == s.posted
    ensures e.WorkerMessage? && !IsResult(e.reply) ==> t == s
    ensures e.WorkerMessage? && IsResult(e.reply) ==> !t.timeoutArmed
    ensures t.timeoutArmed ==> s.timeoutArmed
    ensures s.settled.Some? ==> t.settled == s.settled
    ensures Consistent(s) && s.settled.None? ==> t.settled == SettlesAs(s.plan, e)
    ensures t.plan == s.plan
    ensures Consistent(s) ==> Consistent(t)
  {
    match e
    case LoadResolved(image) =>
      if HasPixels(image) then s.(posted := s.posted + [image]) else Settle(s, Rejected(EmptyImageRejection(s.plan)))
    case LoadRejected => Settle(s, Rejected(LoadRejection(s.plan)))
    case TimeoutFired => if s.timeoutArmed then Settle(s, Rejected(NoReason)).(timeoutArmed := false) else s
    case WorkerError => Settle(s, Rejected(WorkerErrorEvent))
    case WorkerMessage(r) =>
      if !IsResult(r) then s
      else Settle(s.(timeoutArmed := false), if r.data.Some? then Resolved(r.data.value) else Rejected(NoReason))
  }

  /** The state after a sequence of events. */
  function Run(s: Shot, events: seq<Event>): Shot
    decreases |events|
  {
    if events == [] then s else Run(Step(s, events[0]), events[1..])
  }

  /**
   * `scanImage` for an input that `_loadImage` treats as `plan`, after the
   * given events: a throwing `_loadImage` rejects at once with its exception;
   * otherwise the first settling event decides, a load rejection carrying
   * `LoadRejection(plan)` and a zero-sized image `EmptyImageRejection(plan)`.
   * Every loaded image with pixels is posted, whether or not the call has
   * settled.
   */
  function ScanImage(plan: LoadPlan, events: seq<Event>): (r: Shot)
    ensures plan.ThrowsReferenceException? ==> r.settled == Some(Rejected(ReferenceException))
    ensures !plan.ThrowsReferenceException? ==> r.settled == FirstSettlement(plan, events)
    ensures r.posted == PostedImages(events)
    ensures Consistent(r)
  {
    RunDecides(Start(plan), events);
    RunPosts(Start(plan), events);
    Run(Start(plan), events)
  }

  /** The images of the load events that have pixels, in order: what the worker is sent. */
  function PostedImages(events: seq<Event>): seq<Dims>
  {
    if events == [] then []
    else (if events[0].LoadResolved? && HasPixels(events[0].image) then [events[0].image] else []) + PostedImages(events[1..])
  }

  /** Running events appends exactly the images with pixels they load to what was posted. */
  lemma {:induction false} RunPosts(s: Shot, events: seq<Event>)
    ensures Run(s, events).posted == s.posted + PostedImages(events)
    decreases |events|
  {
    if events != [] {
      RunPosts(Step(s, events[0]), events[1..]);
    }
  }

  /** The settlement of the first event that would settle a pending promise, for an input treated as `plan`. */
  function FirstSettlement(plan: LoadPlan, events: seq<Event>): Option<Settlement>
  {
    if events == [] then None
    else if SettlesAs(plan, events[0]).Some? then SettlesAs(plan, events[0])
    else FirstSettlement(plan, events[1..])
  }

  /** The race is decided by the first settling event; a promise that has settled never changes. */
  lemma {:induction false} RunDecides(s: Shot, events: seq<Event>)
    requires Consistent(s)
    ensures Run(s, events).settled == if s.settled.Some? then s.settled else FirstSettlement(s.plan, events)
    ensures Consistent(Run(s, events))
    decreases |events|
  {
    if events != [] {
      RunDecides(Step(s, events[0]), events[1..]);
    }
  }

  /** Once the timer is disarmed it stays disarmed: a cleared timeout never fires. */
  lemma {:induction false} DisarmedStaysDisarmed(s: Shot, events: seq<Event>)
    requires !s.timeoutArmed
    ensures !Run(s, events).timeoutArmed
    decreases |events|
  {
    if events != [] {
      DisarmedStaysDisarmed(Step(s, events[0]), events[1..]);
    }
  }

  /** Events before the first settling one do not decide the race. */
  lemma {:induction false} FirstSettlementAfter(plan: LoadPlan, pre: seq<Event>, e: Event, post: seq<Event>)
    requires forall i | 0 <= i < |pre| :: SettlesAs(plan, pre[i]).None?
    requires SettlesAs(plan, e).Some?
    ensures FirstSettlement(plan, pre + [e] + post) == SettlesAs(plan, e)
  {
    if pre == [] {
      assert ([] + [e] + post)[0] == e;
    } else {
      assert (pre + [e] + post)[1..] == pre[1..] + [e] + post;
      FirstSettlementAfter(plan, pre[1..], e, post);
    }
  }

  /**
   * Whatever the input, once `_loadImage` has not thrown, the first settling
   * event decides the outcome and every later event is ignored.
   */
  lemma FirstSettlingEventWins(plan: LoadPlan, pre: seq<Event>, e: Event, post: seq<Event>)
    requires !plan.ThrowsReferenceException?
    requires forall i | 0 <= i < |pre| :: SettlesAs(plan, pre[i]).None?
    requires SettlesAs(plan, e).Some?
    ensures ScanImage(plan, pre + [e] + post).settled == SettlesAs(plan, e)
  {
    RunDecides(Start(plan), pre + [e] + post);
    FirstSettlementAfter(plan, pre, e, post);
  }

  /** If the timer fires before any result, the call rejects with no reason. */
  lemma TimeoutFirstRejects(plan: LoadPlan, pre: seq<Event>, post: seq<Event>)
    requires !plan.ThrowsReferenceException?
    requires forall i | 0 <= i < |pre| :: SettlesAs(plan, pre[i]).None?
    ensures ScanImage(plan, pre + [TimeoutFired] + post).settled == Some(Rejected(NoReason))
  {
    FirstSettlingEventWins(plan, pre, TimeoutFired, post);
  }

  /**
   * If the load promise rejects first, the call rejects with its reason: the
   * unsupported-type message for an unsupported input, no reason for an image
   * that failed to load.
   */
  lemma LoadFailureFirstRejects(plan: LoadPlan, pre: seq<Event>, post: seq<Event>)
    requires !plan.ThrowsReferenceException?
    requires forall i | 0 <= i < |pre| :: SettlesAs(plan, pre[i]).None?
    ensures plan.Unsupported? ==> ScanImage(plan, pre + [LoadRejected] + post).settled == Some(Rejected(UnsupportedImageType))
    ensures plan.AwaitElement? || plan.AwaitNewImage? ==>
              ScanImage(plan, pre + [LoadRejected] + post).settled == Some(Rejected(NoReason))
  {
    FirstSettlingEventWins(plan, pre, LoadRejected, post);
  }

  /** If the worker reports an error first, the call rejects with the worker's error event. */
  lemma WorkerErrorFirstRejects(plan: LoadPlan, pre: seq<Event>, post: seq<Event>)
    requires !plan.ThrowsReferenceException?
    requires forall i | 0 <= i < |pre| :: SettlesAs(plan, pre[i]).None?
    ensures ScanImage(plan, pre + [WorkerError] + post).settled == Some(Rejected(WorkerErrorEvent))
  {
    FirstSettlingEventWins(plan, pre, WorkerError, post);
  }

  /**
   * If a `qrResult` comes first, the call resolves with its data, or rejects
   * with no reason when the data is null; the timer is cleared and never
   * fires afterwards.
   */
  lemma ResultFirstDecides(plan: LoadPlan, pre: seq<Event>, r: Reply, post: seq<Event>)
    requires !plan.ThrowsReferenceException?
    requires forall i | 0 <= i < |pre| :: SettlesAs(plan, pre[i]).None?
    requires IsResult(r)
    ensures ScanImage(plan, pre + [WorkerMessage(r)] + post).settled ==
              Some(if r.data.Some? then Resolved(r.data.value) else Rejected(NoReason))
    ensures !ScanImage(plan, pre + [WorkerMessage(r)] + post).timeoutArmed
  {
    FirstSettlingEventWins(plan, pre, WorkerMessage(r), post);
    RunSplit(Start(plan), pre + [WorkerMessage(r)], post);
    RunSplit(Start(plan), pre, [WorkerMessage(r)]);
    var afterResult := Run(Start(plan), pre + [WorkerMessage(r)]);
    assert afterResult == Step(Run(Start(plan), pre), WorkerMessage(r));
    DisarmedStaysDisarmed(afterResult, post);
  }

  /** Running two sequences of events one after the other. */
  lemma {:induction false} RunSplit(s: Shot, a: seq<Event>, b: seq<Event>)
    ensures Run(s, a + b) == Run(Run(s, a), b)
    decreases |a|
  {
    if a == [] {
      assert [] + b == b;
    } else {
      assert (a + b)[1..] == a[1..] + b;
      RunSplit(Step(s, a[0]), a[1..], b);
    }
  }

  /**
   * As written, where `ImageBitmap` is not defined, scanning anything but a
   * canvas rejects with the `ReferenceError` before any event, whatever follows.
   */
  lemma MissingImageBitmapRejects(input: ImageInput, events: seq<Event>)
    requires !input.CanvasInput?
    ensures ScanImage(LoadImageAsWritten(Platform(false), input), events).settled == Some(Rejected(ReferenceException))
  {
    RunDecides(Start(ThrowsReferenceException), events);
  }

  /** The worker answers only images it was sent: a `qrResult` never comes before the first posted image. */
  predicate WorkerAnswersPosts(events: seq<Event>)
  {
    forall i | 0 <= i < |events| && events[i].WorkerMessage? && IsResult(events[i].reply) ::
      exists j :: 0 <= j < i && events[j].LoadResolved? && HasPixels(events[j].image)
  }

  /** In a sequence without `qrResult` messages every settling event rejects. */
  lemma {:induction false} NoResultMeansReject(plan: LoadPlan, events: seq<Event>)
    requires forall i | 0 <= i < |events| :: !(events[i].WorkerMessage? && IsResult(events[i].reply))
    ensures FirstSettlement(plan, events).Some? ==> FirstSettlement(plan, events).value.Rejected?
    ensures (exists i :: 0 <= i < |events| && events[i].LoadRejected?) ==> FirstSettlement(plan, events).Some?
  {
    if events != [] {
      NoResultMeansReject(plan, events[1..]);
      if exists i :: 0 <= i < |events| && events[i].LoadRejected? {
        var i :| 0 <= i < |events| && events[i].LoadRejected?;
        if i > 0 {
          assert events[1..][i - 1].LoadRejected?;
        }
      }
    }
  }

  /** The first event that would settle a pending promise is the rejection of the load. */
  predicate LoadRejectsFirst(plan: LoadPlan, events: seq<Event>)
  {
    exists i :: 0 <= i < |events| && events[i].LoadRejected? && forall j | 0 <= j < i :: SettlesAs(plan, events[j]).None?
  }

  /**
   * Only the load can reject with the unsupported-type message: the race
   * settles with it exactly when the load's rejection is the first settling event.
   */
  lemma {:induction false} UnsupportedReasonFromLoad(events: seq<Event>)
    ensures FirstSettlement(Unsupported, events) == Some(Rejected(UnsupportedImageType)) <==>
              LoadRejectsFirst(Unsupported, events)
  {
    var unsupported := Unsupported;
    if events != [] {
      UnsupportedReasonFromLoad(events[1..]);
      if SettlesAs(unsupported, events[0]).None? {
        if LoadRejectsFirst(unsupported, events) {
          var i :| 0 <= i < |events| && events[i].LoadRejected? && forall j | 0 <= j < i :: SettlesAs(unsupported, events[j]).None?;
          assert i > 0;
          assert events[1..][i - 1] == events[i];
          forall j | 0 <= j < i - 1
            ensures SettlesAs(unsupported, events[1..][j]).None?
          {
            assert events[1..][j] == events[j + 1];
          }
          assert LoadRejectsFirst(unsupported, events[1..]);
        }
        if LoadRejectsFirst(unsupported, events[1..]) {
          var k :| 0 <= k < |events[1..]| && events[1..][k].LoadRejected? &&
                   forall j | 0 <= j < k :: SettlesAs(unsupported, events[1..][j]).None?;
          assert events[k + 1] == events[1..][k];
          forall j | 0 <= j < k + 1
            ensures SettlesAs(unsupported, events[j]).None?
          {
            if j > 0 {
              assert events[j] == events[1..][j - 1];
            }
          }
          assert LoadRejectsFirst(unsupported, events);
        }
      } else if events[0].LoadRejected? {
        assert LoadRejectsFirst(unsupported, events);
      }
    }
  }

  /**
   * An unsupported input never resolves: its load promise never delivers an
   * image, so the worker never answers, and once the rejection of the load
   * arrives the call has rejected. It rejects with the unsupported-type
   * message exactly when that rejection is the first settling event.
   */
  lemma UnsupportedNeverResolves(platform: Platform, input: ImageInput, events: seq<Event>)
    requires LoadImage(platform, input).Unsupported?
    requires forall i | 0 <= i < |events| :: !events[i].LoadResolved?
    requires WorkerAnswersPosts(events)
    ensures ScanImage(LoadImage(platform, input), events).settled.Some? ==>
              ScanImage(LoadImage(platform, input), events).settled.value.Rejected?
    ensures (exists i :: 0 <= i < |events| && events[i].LoadRejected?) ==>
              ScanImage(LoadImage(platform, input), events).settled.Some? &&
              ScanImage(LoadImage(platform, input), events).settled.value.Rejected?
    ensures ScanImage(LoadImage(platform, input), events).settled == Some(Rejected(UnsupportedImageType)) <==>
              LoadRejectsFirst(Unsupported, events)
  {
    RunDecides(Start(Unsupported), events);
    NoResultMeansReject(Unsupported, events);
    UnsupportedReasonFromLoad(events);
  }

  /**
   * If the image loads but has a zero side, the call rejects before anything
   * is posted, whatever follows: with the `InvalidStateError` of `drawImage`
   * for a canvas or bitmap, with the `IndexSizeError` of `getImageData` for an
   * image element.
   */
  lemma EmptyImageRejects(plan: LoadPlan, pre: seq<Event>, image: Dims, post: seq<Event>)
    requires !plan.ThrowsReferenceException?
    requires forall i | 0 <= i < |pre| :: SettlesAs(plan, pre[i]).None?
    requires !HasPixels(image)
    ensures plan.Ready? ==> ScanImage(plan, pre + [LoadResolved(image)] + post).settled == Some(Rejected(InvalidStateException))
    ensures plan.AwaitElement? || plan.AwaitNewImage? ==>
              ScanImage(plan, pre + [LoadResolved(image)] + post).settled == Some(Rejected(IndexSizeException))
  {
    FirstSettlingEventWins(plan, pre, LoadResolved(image), post);
  }

  /**
   * After the call timed out, an image that finishes loading is still posted
   * to the never-terminated worker; one without pixels throws and is not.
   */
  lemma LateLoadStillPosts(plan: LoadPlan, image: Dims)
    requires !plan.ThrowsReferenceException?
    ensures ScanImage(plan, [TimeoutFired, LoadResolved(image)]) ==
              Shot(Some(Rejected(NoReason)), false, if HasPixels(image) then [image] else [], plan)
  {
    var timedOut := Step(Start(plan), TimeoutFired);
    assert timedOut == Shot(Some(Rejected(NoReason)), false, [], plan);
    assert [TimeoutFired, LoadResolved(image)][1..] == [LoadResolved(image)];
    assert Run(timedOut, [LoadResolved(image)]) == Run(Step(timedOut, LoadResolved(image)), []);
  }

  /** A timeout and an unsupported input are told apart by the reason they reject with. */
  lemma UnsupportedIsNotTimeout(platform: Platform)
    ensures ScanImage(LoadImage(platform, OtherInput), [LoadRejected]).settled == Some(Rejected(UnsupportedImageType))
    ensures ScanImage(LoadImage(platform, OtherInput), [TimeoutFired]).settled == Some(Rejected(NoReason))
    ensures ScanImage(Ready, [WorkerError]).settled == Some(Rejected(WorkerErrorEvent))
  {
    LoadFailureFirstRejects(LoadImage(platform, OtherInput), [], []);
    TimeoutFirstRejects(LoadImage(platform, OtherInput), [], []);
    WorkerErrorFirstRejects(Ready, [], []);
    assert [] + [LoadRejected] + [] == [LoadRejected];
    assert [] + [TimeoutFired] + [] == [TimeoutFired];
    assert [] + [WorkerError] + [] == [WorkerError];
  }
}
