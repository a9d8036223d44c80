# QrScannerLib, modelled in Dafny

This project models the controller inside `QrScannerLib`, the browser QR-code scanner. The
controller does five things:

- It crops the centre of each video frame.
- It posts the frame to a decoding worker.
- It handles the worker's answers and re-arms for the next frame.
- It starts and stops the camera. Starting falls back through a list of candidate constraints. Stopping is debounced by a timer.
- It decodes a single still image (`scanImage`).

Canvas, Worker, `getUserMedia`, timers and DOM events are replaced by fields, explicit events and
effect logs. Everything runs as a sequence of discrete events.

Modules:

- `Geometry` — the crop square's size and offsets, in integers. `Math.round(2/3·m)` is `(4m+3)/6`. The offsets are kept doubled, because `(w − s)/2` can be a half-integer.
- `ScanLoop` — the messages posted to the worker and the worker's replies. It also holds what one `_scanFrame` posts, what one worker message causes, and what a history of messages adds up to.
- `Camera` — one chain of camera start attempts. `settingsToTry` is consumed by `shift()`, with one `getUserMedia` request per candidate and the next candidate only after a rejection. It also defines the default candidate list.
- `ImageLoad` — how `_loadImage` dispatches on its input's kind, the blob-URL obligations, and the class `ImageLoadWait`. That class models the `onload`/`onerror` handler life cycle of `_awaitImageLoad`.
- `OneShot` — `scanImage` as a fold over events. The events are load resolved or rejected, timeout, worker error and worker message. The promise settles on the first event that settles it.
- `Scanner` — the class `QrScannerLib`. Its fields hold the video's state, the current crop size, the worker outbox, the pending animation-frame requests (rescans) and the `onDecode` log. They also hold the camera's start chains, the `_offTimeout` slot, the armed stop timers, the stopped tracks and the thrown errors. Its methods are the event handlers. A ghost history of worker messages lets `Valid()` state what `onDecode` was called with. Client methods at the end play out the debounce and fallback scenarios.

Browser events become methods or parameters:

- The `play` event is a call of `ScanFrame`.
- `resize` and `canplay` are calls of `UpdateSourceRect`.
- An animation frame is `AnimationFrame`.
- A worker message is `HandleWorkerMessage`.
- A settled `getUserMedia` request is `UserMediaRejected` or `UserMediaResolved`.
- A timer firing is `StopTimerFires`.
- Changes the browser makes to the video are `VideoChanged`.
- Whether the page defines `ImageBitmap` is a `Platform` parameter.

Some guarantees a reader might expect are not made by the code. The model follows the code, and a member shows each gap:

- A second `play` posts a second frame while the first is unanswered. At most one decode is not guaranteed to be in flight (`TwoPlaysPostTwoFrames`).
- Every `active = true` issues a new `getUserMedia` request. Activation is not idempotent (`ActivateTwiceRequestsTwice`).
- The blob URL of a file is revoked only when its image loads, not when loading fails (`UnrevokedUrls`).
- `scanImage` never terminates its worker. An image that loads after the timeout is still posted (`LateLoadStillPosts`).
- An image or canvas with a zero side makes `_getImageData` throw, so `scanImage` rejects without posting (`EmptyImageRejects`). For a canvas or bitmap, `drawImage` throws an `InvalidStateError`. For an image element, `drawImage` draws nothing and `getImageData` throws an `IndexSizeError`. A canvas of width 0 makes every `_scanFrame` of a playing video throw before it posts (`ScanFrame`).
- A timeout, a null result and an image that fails to load reject with no reason, so "not found" and "timed out" are not distinguished (`TimeoutFirstRejects`, `ResultFirstDecides`, `LoadFailureFirstRejects`). The worker's error event, the message `'Unsupported image type.'` and the thrown exceptions are reasons (`UnsupportedIsNotTimeout`, `EmptyImageRejects`, `MissingImageBitmapRejects`).

## Model

| member | source | states |
|---|---|---|
| `Geometry.SmallestDimension` | src/qr-scanner-lib.js:20 | the result is the smaller of the video's width and height |
| `Geometry.SourceRectSize` | src/qr-scanner-lib.js:21 | the square's size `s` is the integer nearest to 2m/3 (`6s−3 ≤ 4m < 6s+3`) and never exceeds `m` |
| `Geometry.SourceRectSizeIsMathRound` | src/qr-scanner-lib.js:21 | the integer formula is `Math.round` of the real number 2m/3: `s ≤ 2m/3 + ½ < s + 1` |
| `Geometry.NearestIsUnique` | src/qr-scanner-lib.js:21 | any integer within one half of 2m/3 equals the computed size, so the rounding is unambiguous |
| `Geometry.NeverHalfway` | src/qr-scanner-lib.js:21 | 2m/3 is never an integer plus one half, so `Math.round`'s tie rule never applies |
| `Geometry.CropOf` | src/qr-scanner-lib.js:26-27 | the crop `x0 = (w−s)/2`, `y0 = (h−s)/2` (doubled) has the given size and equal margins on both sides |
| `Geometry.FreshCropInsideFrame` | src/qr-scanner-lib.js:19-27 | a crop of the size `_updateSourceRect` computes is centred and lies inside the frame, with a margin on every side when the smaller side exceeds 1 |
| `Geometry.InsideFrameIff` | src/qr-scanner-lib.js:26-28 | the crop lies in the frame exactly when its size is at most the smaller side |
| `ScanLoop.ScanPosts` | src/qr-scanner-lib.js:24-34 | nothing is posted when the video is paused or ended, or when `getImageData` on a canvas of width 0 throws; otherwise exactly one `decode` with the centred crop of the current size, drawn over the whole `canvasSize × canvasSize` canvas |
| `ScanLoop.React` | src/qr-scanner-lib.js:36-44 | a non-`qrResult` message has no effect; a `qrResult` schedules exactly one rescan, null data or not; `onDecode` fires exactly when the data is non-null, with that data |
| `ScanLoop.ResultCountAppend` | src/qr-scanner-lib.js:39-40 | handling one more message adds exactly its rescans to the count of `qrResult` messages |
| `ScanLoop.FoundPayloadsAppend` | src/qr-scanner-lib.js:42-43 | handling one more message appends exactly its `onDecode` calls to the payloads of the history |
| `ScanLoop.CallbacksNeverExceedRescans` | src/qr-scanner-lib.js:39-43 | over any history, the callbacks never outnumber the `qrResult` messages (each callback comes with a rescan) |
| `ScanLoop.CallbackPayloadsCameFromResults` | src/qr-scanner-lib.js:42-43 | every payload given to `onDecode` is the data of some `qrResult` message of the history |
| `ScanLoop.NullResultsNeverCallBack` | src/qr-scanner-lib.js:39-42 | a history of null results never calls `onDecode`, and when all are `qrResult` messages each one still schedules a rescan |
| `ScanLoop.ForeignMessagesIgnored` | src/qr-scanner-lib.js:39 | a history of messages other than `qrResult` schedules no rescan and calls nothing |
| `Camera.Head` | src/qr-scanner-lib.js:66 | `shift()` gives `undefined` exactly for an empty list, and otherwise the list's first candidate |
| `Camera.Begin` | src/qr-scanner-lib.js:53-67 | a start makes exactly one request, for the first candidate (the default list when none is given; `undefined` for an empty list) and keeps the rest |
| `Camera.OnRejected` | src/qr-scanner-lib.js:69-75 | a rejection with candidates left requests exactly the next candidate; with none left the start fails (the "Couldn't start camera" error) and requests nothing |
| `Camera.OnResolved` | src/qr-scanner-lib.js:68 | a resolved request binds its stream and makes no further request |
| `Camera.RejectionsTryInOrder` | src/qr-scanner-lib.js:65-75 | while candidates remain, `k` rejections request the next `k` candidates in their order |
| `Camera.Fallback` | src/qr-scanner-lib.js:64-75 | after `k` rejections the first `k+1` candidates were requested in order; the start fails exactly when all candidates were rejected |
| `Camera.DefaultFallback` | src/qr-scanner-lib.js:55-75 | the defaults are requested as min-width 1024, then min-width 768, then any width, all `environment`; failure only after the third rejection |
| `ImageLoad.LoadImageAsWritten` | src/qr-scanner-lib.js:127-150 | as written, a canvas is used directly, and where `ImageBitmap` is undefined every argument that is not a canvas makes `_loadImage` throw |
| `ImageLoad.MissingImageBitmapThrows` | src/qr-scanner-lib.js:128-129 | a URL string throws as written but loads under the corrected guard |
| `ImageLoad.LoadImage` | src/qr-scanner-lib.js:127-150 | canvases and (where defined) bitmaps are used directly; image elements are awaited; files, URLs and strings become a new image, a file through a blob URL; everything else is rejected as unsupported; nothing throws |
| `ImageLoad.AsWrittenAgreesWithBitmaps` | src/qr-scanner-lib.js:128-149 | where `ImageBitmap` exists, the code as written and the corrected guard agree on every input |
| `ImageLoad.UnrevokedUrls` | src/qr-scanner-lib.js:136-145 | a blob URL remains unrevoked exactly when a file's image failed to load |
| `ImageLoad.FileUrlRevokedOnlyOnLoad` | src/qr-scanner-lib.js:136-145 | a file input leaves no URL behind after a successful load and one after a failed load |
| `ImageLoad.ImageLoadWait.constructor` | src/qr-scanner-lib.js:153-170 | a complete image with non-zero natural width resolves at once without handlers; any other image installs both handlers and waits |
| `ImageLoad.ImageLoadWait.FireLoad` | src/qr-scanner-lib.js:159-163 | `load` clears both handlers and resolves a pending wait; a settled wait keeps its outcome |
| `ImageLoad.ImageLoadWait.FireError` | src/qr-scanner-lib.js:164-168 | `error` clears both handlers and rejects a pending wait; a settled wait keeps its outcome |
| `ImageLoad.SettledWaitIgnoresEvents` | src/qr-scanner-lib.js:159-168 | once the wait has settled, later `load` and `error` events change nothing |
| `OneShot.Start` | src/qr-scanner-lib.js:91-106 | the timer is armed and nothing is posted; the call is already rejected, with the `ReferenceError`, exactly when `_loadImage` throws; a later load rejection will carry `LoadRejection(plan)` |
| `OneShot.LoadRejection` | src/qr-scanner-lib.js:147-148 | the load promise rejects with `'Unsupported image type.'` exactly for an unsupported input, and otherwise with no reason (`_awaitImageLoad`'s `reject()`, src:167) |
| `OneShot.EmptyImageRejection` | src/qr-scanner-lib.js:117-123 | a zero-sided canvas or bitmap used as it is makes `drawImage` throw an `InvalidStateError`; a zero-sided image element is drawn as nothing and `getImageData` throws an `IndexSizeError` |
| `OneShot.Step` | src/qr-scanner-lib.js:92-123 | a loaded image with pixels is posted even after settlement; one with a zero side posts nothing and settles a pending call as rejected with `EmptyImageRejection(plan)` (`_getImageData` throws into `.catch(reject)`); non-`qrResult` messages change nothing; a `qrResult` clears the timer; the first settling event settles a pending call, with its reason, and a settled call stays settled |
| `OneShot.ScanImage` | src/qr-scanner-lib.js:90-114 | a throwing `_loadImage` rejects at once with its `ReferenceError`; otherwise the call settles as the first settling event (`FirstSettlement`), a load rejection carrying `LoadRejection(plan)` and a zero-sized image `EmptyImageRejection(plan)`; the worker is sent exactly the loaded images that have pixels (`PostedImages`) |
| `OneShot.RunPosts` | src/qr-scanner-lib.js:106-111 | after any events, what was posted grows by exactly the loaded images with pixels, in order, settled or not |
| `OneShot.RunDecides` | src/qr-scanner-lib.js:90-114 | after any events, the outcome is the settlement of the first settling event (independent reference `FirstSettlement`), and a settled call never changes |
| `OneShot.DisarmedStaysDisarmed` | src/qr-scanner-lib.js:99 | a cleared timeout stays cleared and never fires |
| `OneShot.FirstSettlingEventWins` | src/qr-scanner-lib.js:90-114 | whatever comes after it, the first settling event decides the outcome |
| `OneShot.TimeoutFirstRejects` | src/qr-scanner-lib.js:92 | a timeout before any result rejects the call with no reason |
| `OneShot.LoadFailureFirstRejects` | src/qr-scanner-lib.js:112 | a load failure before any result rejects the call with `'Unsupported image type.'` for an unsupported input and with no reason for an image that failed to load |
| `OneShot.WorkerErrorFirstRejects` | src/qr-scanner-lib.js:94 | a worker error before any result rejects the call with the worker's error event |
| `OneShot.ResultFirstDecides` | src/qr-scanner-lib.js:95-105 | a first `qrResult` resolves with non-null data or rejects with no reason on null, and the timeout never fires afterwards |
| `OneShot.MissingImageBitmapRejects` | src/qr-scanner-lib.js:106-112 | as written, without `ImageBitmap` every non-canvas scan rejects with the `ReferenceError`, whatever the events |
| `OneShot.UnsupportedNeverResolves` | src/qr-scanner-lib.js:106-112 | an unsupported input never resolves, rejects once its load rejection arrives, and rejects with `'Unsupported image type.'` exactly when that rejection is the first settling event |
| `OneShot.UnsupportedReasonFromLoad` | src/qr-scanner-lib.js:112-148 | over any events, the call settles with `'Unsupported image type.'` exactly when the load's rejection is the first settling event |
| `OneShot.UnsupportedIsNotTimeout` | src/qr-scanner-lib.js:92-112 | an unsupported input, a timeout and a worker error reject with three different reasons |
| `OneShot.LateLoadStillPosts` | src/qr-scanner-lib.js:106-123 | an image with pixels that loads after the timeout is still posted to the worker, one without pixels is not, and the call stays rejected |
| `OneShot.EmptyImageRejects` | src/qr-scanner-lib.js:106-123 | an image with a zero side loading before any settling event rejects the call whatever follows: with the `InvalidStateError` of `drawImage` for a canvas or bitmap, with the `IndexSizeError` of `getImageData` for an image element |
| `Scanner.QrScannerLib.constructor` | src/qr-scanner-lib.js:2-17 | the source square starts as large as the canvas; nothing has been posted, requested or called |
| `Scanner.QrScannerLib.UpdateSourceRect` | src/qr-scanner-lib.js:19-22 | the square becomes `round(2/3 · min(w,h))`, at most both sides |
| `Scanner.QrScannerLib.ScanFrame` | src/qr-scanner-lib.js:24-34 | the outbox grows by exactly `ScanPosts`: nothing when paused or ended, else one full-canvas `decode` of the centred crop; on a canvas of width 0 an `IndexSizeError` is thrown instead |
| `Scanner.QrScannerLib.HandleWorkerMessage` | src/qr-scanner-lib.js:36-44 | rescans and `onDecode` calls grow by exactly `React`; `Valid()` keeps `onDecode`'s log equal to the non-null results' data |
| `Scanner.QrScannerLib.AnimationFrame` | src/qr-scanner-lib.js:40 | a pending rescan runs `_scanFrame` once, with its posts and its error; with none pending nothing happens |
| `Scanner.QrScannerLib.ClearedStops` | src/qr-scanner-lib.js:54 | `clearTimeout(this._offTimeout)` disarms exactly the latest stop timer, if it is armed, and no other |
| `Scanner.QrScannerLib.SetGrayscaleWeights` | src/qr-scanner-lib.js:83-88 | exactly one `grayscaleWeights` message with the three weights is posted |
| `Scanner.QrScannerLib.SetActive` | src/qr-scanner-lib.js:46-51 | `true` behaves as `_cameraOn()` with the defaults, `false` as `_cameraOff()` |
| `Scanner.QrScannerLib.CameraOn` | src/qr-scanner-lib.js:53-67 | the latest stop timer is cancelled first and a new start chain with one request begins |
| `Scanner.QrScannerLib.CameraOff` | src/qr-scanner-lib.js:78-81 | the video is paused at once and a fresh stop timer is armed and stored as the only tracked handle |
| `Scanner.QrScannerLib.UserMediaRejected` | src/qr-scanner-lib.js:69-75 | the chain advances by `OnRejected`; a retry cancels the latest stop timer again; exhaustion throws "Couldn't start camera" |
| `Scanner.QrScannerLib.UserMediaResolved` | src/qr-scanner-lib.js:68 | the stream becomes the video's `srcObject` |
| `Scanner.QrScannerLib.StopTimerFires` | src/qr-scanner-lib.js:80 | an armed timer stops the current stream's first track once (or throws when there is none); a cancelled one does nothing |
| `Scanner.OffThenOnCancelsStop` | src/qr-scanner-lib.js:46-81 | off then on before the timer fires leaves the armed timers as before, so no track is stopped; `srcObject` is unchanged but a fresh default request chain has begun |
| `Scanner.OffAloneStopsOnce` | src/qr-scanner-lib.js:78-81 | off left alone stops exactly the stream's first track, exactly once |
| `Scanner.OnCancelsOnlyLatestTimer` | src/qr-scanner-lib.js:80 | after two offs, one on cancels only the latest timer; the earlier one still stops the track |
| `Scanner.ThirdCandidateStarts` | src/qr-scanner-lib.js:53-75 | when only the third default candidate succeeds, all three were requested in order, its stream is bound and nothing is thrown |
| `Scanner.ActivateTwiceRequestsTwice` | src/qr-scanner-lib.js:46-48 | two `active = true` in a row start two request chains |
| `Scanner.TwoPlaysPostTwoFrames` | src/qr-scanner-lib.js:14 | two `play` events post two frames with no answer in between |

## Left out

- Pixel work is left out. `drawImage` scaling and the contents `getImageData` returns are not modelled. A posted image is only its dimensions; of the errors `drawImage` and `getImageData` throw, only those for a zero-sized source or rectangle are modelled (`InvalidStateError`, `IndexSizeError`), and a `SecurityError` from reading a tainted canvas is not.
- Worker creation, buffer transfer in `postMessage` and the worker's decoding are left out. The worker's answers arrive as explicit events.
- `requestAnimationFrame` timing, the real `setTimeout` durations and real asynchrony are left out. Everything is one sequence of discrete events, so the 3000 ms delays appear only as timer events.
- The internals of `getUserMedia` are left out, and so is the binding of a stream's playback to the `play` event. The environment changes the video through `VideoChanged`, and `play` is a call of `ScanFrame`.
- `instanceof` and `typeof` checks are replaced by the `ImageInput` tags and the `Platform` flag.
- `Math.round` on floating point is replaced by the exact integer formula. This gives the same value for every side length below 2^32, which covers every `videoWidth`/`videoHeight` (an `unsigned long`). For far larger sides the rounding error of the double `2/3·m` could make the two differ.
- The load events of a `scanImage` trace are not forced to agree with the input's load plan. Only `UnsupportedNeverResolves` assumes that a load that cannot resolve does not resolve, and that the worker answers only after an image was posted.
- ImageLoad.ImageLoadWait.constructor: it models one `_awaitImageLoad` call per image. A second call on the same image, which replaces the handlers and leaves the first promise pending forever, is not modelled.

## Findings

| source | as written | input that shows it | evidently intended | confidence | as-written member | corrected member |
|---|---|---|---|---|---|---|
| src/qr-scanner-lib.js:129 | `typeof('ImageBitmap')!=='undefined'` takes the type of a string literal. That is always `'string'`, so `instanceof ImageBitmap` is evaluated for every non-canvas input | a page with no global `ImageBitmap` calls `scanImage("code.png")`. `_loadImage` throws a ReferenceError and the call rejects instead of loading the image | `typeof ImageBitmap !== 'undefined'`, so the bitmap test is skipped where the type does not exist | medium, not executed | `ImageLoad.LoadImageAsWritten` (exhibited by `ImageLoad.MissingImageBitmapThrows` and `OneShot.MissingImageBitmapRejects`) | `ImageLoad.LoadImage` |
