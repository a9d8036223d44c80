/**
 * One chain of camera start attempts, as the `_cameraOn` calls of one
 * `active = true` see it: the candidate list `settingsToTry` is consumed with
 * `shift()`, one `getUserMedia` request per candidate, and the next candidate is
 * tried only when the current request is rejected.
 */
module Camera {
  import opened Wrappers

  type TrackId = nat

  /** A `MediaStream`, seen only through its tracks. */
  datatype Stream = Stream(tracks: seq<TrackId>)

  /** The `video` constraints of one `getUserMedia` request: `{facingMode, width: {min}}`. */
  datatype Constraint = Constraint(facingMode: string, minWidth: Option<nat>)

  /** The candidates `_cameraOn` tries when it is given none: rear camera at least 1024, then 768 pixels wide, then any width. */
  const DEFAULT_SETTINGS: seq<Constraint> := [
    Constraint("environment", Some(1024)),
    Constraint("environment", Some(768)),
    Constraint("environment", None)
  ]

  datatype StartStatus =
      /** The latest `getUserMedia` request has not settled. */
    | Requesting
      /** The latest request gave this stream, now the video's `srcObject`. */
    | Streaming(stream: Stream)
      /** Every candidate was rejected: "Couldn't start camera" was thrown. */
    | Failed

  /**
   * `requests` holds the `video` constraint of every `getUserMedia` call made so
   * far, in order (`None` when `shift()` of an empty list gave `undefined`);
   * `settingsToTry` holds the candidates not yet tried.
   */
  datatype CameraStart = CameraStart(requests: seq<Option<Constraint>>, settingsToTry: seq<Constraint>, status: StartStatus)

  /** What `settingsToTry.shift()` returns. */
  function Head(list: seq<Constraint>): (h: Option<Constraint>)
    ensures h.None? <==> list == []
    ensures h.Some? ==> h.value == list[0] && h.value in list
  {
    if list == [] then None else Some(list[0])
  }

  /** The constraints of one request per candidate, in the candidates' order. */
  function AsRequests(list: seq<Constraint>): (rs: seq<Option<Constraint>>)
    ensures |rs| == |list| && forall i | 0 <= i < |list| :: rs[i] == Some(list[i])
  {
    if list == [] then [] else [Some(list[0])] + AsRequests(list[1..])
  }

  /**
   * `_cameraOn(settingsToTry)` from outside: a missing list stands for the
   * defaults (an empty array is truthy, so it stays); the first candidate is
   * shifted off and requested.
   */
  function Begin(settingsToTry: Option<seq<Constraint>>): (c: CameraStart)
    ensures c.status == Requesting && |c.requests| == 1
    ensures settingsToTry.None? ==> c.requests == [Some(DEFAULT_SETTINGS[0])] && c.settingsToTry == DEFAULT_SETTINGS[1..]
    ensures settingsToTry.Some? && settingsToTry.value != [] ==>
              c.requests == [Some(settingsToTry.value[0])] && c.settingsToTry == settingsToTry.value[1..]
    ensures settingsToTry == Some([]) ==> c.requests == [None] && c.settingsToTry == []
  {
    var list := if settingsToTry.Some? then settingsToTry.value else DEFAULT_SETTINGS;
    CameraStart([Head(list)], if list == [] then [] else list[1..], Requesting)
  }

  /**
   * The pending request was rejected: if candidates remain, `_cameraOn` is
   * called again and requests the next one; otherwise the chain fails.
   */
  function OnRejected(c: CameraStart): (r: CameraStart)
    requires c.status.Requesting?
    ensures c.settingsToTry != [] ==>
              r.status == Requesting && r.requests == c.requests + [Some(c.settingsToTry[0])] &&
              r.settingsToTry == c.settingsToTry[1..]
    ensures c.settingsToTry == [] ==> r.status == Failed && r.requests == c.requests && r.settingsToTry == []
  {
    if c.settingsToTry != [] then CameraStart(c.requests + [Some(c.settingsToTry[0])], c.settingsToTry[1..], Requesting)
    else c.(status := Failed)
  }

  /** The pending request gave a stream; no request follows. */
  function OnResolved(c: CameraStart, stream: Stream): (r: CameraStart)
    requires c.status.Requesting?
    ensures r.status == Streaming(stream) && r.requests == c.requests && r.settingsToTry == c.settingsToTry
  {
    c.(status := Streaming(stream))
  }

  /** The chain after `k` more rejections of its pending request (it stops once it is no longer requesting). */
  function Rejections(c: CameraStart, k: nat): CameraStart
    decreases k
  {
    if k == 0 || !c.status.Requesting? then c else Rejections(OnRejected(c), k - 1)
  }

  /** While candidates remain, each rejection requests the next one, in order. */
  lemma {:induction false} RejectionsTryInOrder(c: CameraStart, k: nat)
    requires c.status.Requesting? && k <= |c.settingsToTry|
    ensures Rejections(c, k) == CameraStart(c.requests + AsRequests(c.settingsToTry[..k]), c.settingsToTry[k..], Requesting)
    decreases k
  {
    if k == 0 {
      assert c.settingsToTry[..0] == [];
      assert c.requests + [] == c.requests;
    } else {
      var next := OnRejected(c);
      RejectionsTryInOrder(next, k - 1);
      assert next.settingsToTry[..k - 1] == c.settingsToTry[1..k];
      assert next.settingsToTry[k - 1..] == c.settingsToTry[k..];
      assert AsRequests(c.settingsToTry[..k]) == [Some(c.settingsToTry[0])] + AsRequests(c.settingsToTry[1..k]);
      assert c.requests + [Some(c.settingsToTry[0])] + AsRequests(c.settingsToTry[1..k])
          == c.requests + AsRequests(c.settingsToTry[..k]);
    }
  }

  /**
   * For a non-empty candidate list: after `k` rejections the chain has made
   * exactly `k + 1` requests, for the first `k + 1` candidates in order, as long as
   * `k` is less than the number of candidates; it fails ("Couldn't start camera")
   * exactly when all of them were rejected.
   */
  lemma Fallback(list: seq<Constraint>, k: nat)
    requires list != []
    ensures k < |list| ==> Rejections(Begin(Some(list)), k) == CameraStart(AsRequests(list[..k + 1]), list[k + 1..], Requesting)
    ensures k >= |list| ==> Rejections(Begin(Some(list)), k) == CameraStart(AsRequests(list), [], Failed)
    ensures Rejections(Begin(Some(list)), k).status == Failed <==> k >= |list|
  {
    var c := Begin(Some(list));
    var n := |list| - 1;
    assert c.requests == AsRequests(list[..1]);
    assert list[..1] + list[1..][..n] == list;
    if k < |list| {
      RejectionsTryInOrder(c, k);
      assert list[1..][..k] == list[1..k + 1];
      assert list[..1] + list[1..k + 1] == list[..k + 1];
      AsRequestsAppend(list[..1], list[1..k + 1]);
    } else {
      RejectionsTryInOrder(c, n);
      AsRequestsAppend(list[..1], list[1..][..n]);
      var last := Rejections(c, n);
      assert last.settingsToTry == [];
      RejectionsStopAtFailure(OnRejected(last), k - n - 1);
      RejectionsSplit(c, n, k - n);
    }
  }

  /** Requests for two candidate lists one after the other. */
  lemma {:induction false} AsRequestsAppend(a: seq<Constraint>, b: seq<Constraint>)
    ensures AsRequests(a + b) == AsRequests(a) + AsRequests(b)
  {
    if a != [] {
      assert (a + b)[1..] == a[1..] + b;
      AsRequestsAppend(a[1..], b);
    }
  }

  /** A chain that no longer requests is not changed by further rejections. */
  lemma {:induction false} RejectionsStopAtFailure(c: CameraStart, k: nat)
    requires !c.status.Requesting?
    ensures Rejections(c, k) == c
  {
  }

  /** `j + k` rejections are `j` rejections followed by `k` more. */
  lemma {:induction false} RejectionsSplit(c: CameraStart, j: nat, k: nat)
    ensures Rejections(c, j + k) == Rejections(Rejections(c, j), k)
    decreases j
  {
    if j > 0 && c.status.Requesting? {
      RejectionsSplit(OnRejected(c), j - 1, k);
    } else if j > 0 {
      RejectionsStopAtFailure(c, j + k);
      RejectionsStopAtFailure(c, k);
    }
  }

  /**
   * `active = true` with the default list: a request for the rear camera at
   * least 1024 pixels wide, then at least 768, then any width, each only after
   * the one before it was rejected; failure after the third rejection.
   */
  lemma DefaultFallback()
    ensures Begin(None).requests == [Some(Constraint("environment", Some(1024)))]
    ensures Rejections(Begin(None), 1).requests ==
              [Some(Constraint("environment", Some(1024))), Some(Constraint("environment", Some(768)))]
    ensures Rejections(Begin(None), 2) == CameraStart(AsRequests(DEFAULT_SETTINGS), [], Requesting)
    ensures Rejections(Begin(None), 3).status == Failed
    ensures forall k | k < 3 :: Rejections(Begin(None), k).status == Requesting
  {
    assert Begin(None) == Begin(Some(DEFAULT_SETTINGS));
    Fallback(DEFAULT_SETTINGS, 0);
    Fallback(DEFAULT_SETTINGS, 1);
    Fallback(DEFAULT_SETTINGS, 2);
    Fallback(DEFAULT_SETTINGS, 3);
    assert DEFAULT_SETTINGS[..3] == DEFAULT_SETTINGS;
  }
}
