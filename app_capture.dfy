/** The capture page of the second client (src/pages): the same capture and
    recognition flow as the web client, a `stopCamera` that always marks the
    camera inactive, and an `initCamera` that asks for the rear camera first
    and falls back, once, to any camera. Timers, the polling for a late
    video element and the `oncanplay` handler are not part of this model;
    what they would do is left open (`cameraLoading` stays true). */
module AppCapture {
  import opened Records
  import opened Recognition
  import Text
  import WebStorage

  /** The media constraints `initCamera` requests. */
  datatype Constraints =
    | FacingEnvironment      // { video: { facingMode: 'environment' }, audio: false }
    | AnyVideo               // { video: true, audio: false }

  /** The rear camera is asked for exactly on the first attempt. */
  function ConstraintsFor(retryWithoutFacingMode: bool): (r: Constraints)
    ensures r == FacingEnvironment <==> !retryWithoutFacingMode
  {
    if retryWithoutFacingMode then AnyVideo else FacingEnvironment
  }

  /** What playback came to once a stream was attached: `play()` (directly or
      from `onloadeddata`) started, both attempts were rejected, or neither
      has settled yet. */
  datatype Playback = Started | PlayFailed(message: string) | Pending

  /** What one request for a stream came to. */
  datatype Acquire =
    | Unsupported            // no `navigator.mediaDevices.getUserMedia`
    | Rejected(message: string)
    | Obtained(playback: Playback)

  const UnsupportedMessage := "Camera access is not supported by this browser"

  function AcquireErrorMessage(a: Acquire): string
    requires !a.Obtained?
  {
    if a.Unsupported? then UnsupportedMessage else a.message
  }

  /** The acquisition-error branch retries only on the first attempt, and
      only for errors that look like a constraint problem. */
  predicate RetryAfterAcquireError(retryWithoutFacingMode: bool, message: string) {
    !retryWithoutFacingMode
    && (Text.Contains(message, "facingMode") || Text.Contains(message, "constraint"))
  }

  /** The retry test holds exactly on the first attempt for a message in
      which "facingMode" or "constraint" occurs at some position. */
  lemma RetryAfterAcquireErrorIff(retryWithoutFacingMode: bool, message: string)
    ensures RetryAfterAcquireError(retryWithoutFacingMode, message) <==>
      && !retryWithoutFacingMode
      && ((exists i: nat :: Text.OccursAt(message, "facingMode", i))
          || (exists i: nat :: Text.OccursAt(message, "constraint", i)))
  {
    Text.ContainsIff(message, "facingMode");
    Text.ContainsIff(message, "constraint");
  }

  /** Whether an attempt leads to `initCamera(true)`: an acquisition error
      that looks like a constraint problem, or (with the video element
      mounted) failed playback, in both cases only on the first attempt.
      So the retry itself never falls back again, and neither does a stream
      with no element to play it. */
  predicate FallsBack(retryWithoutFacingMode: bool, videoMounted: bool, a: Acquire)
    ensures FallsBack(retryWithoutFacingMode, videoMounted, a) ==> !retryWithoutFacingMode
    ensures a.Obtained? && !videoMounted ==> !FallsBack(retryWithoutFacingMode, videoMounted, a)
    ensures a == Obtained(Started) || a == Obtained(Pending) ==>
      !FallsBack(retryWithoutFacingMode, videoMounted, a)
  {
    match a
    case Obtained(p) => videoMounted && p.PlayFailed? && !retryWithoutFacingMode
    case _ => RetryAfterAcquireError(retryWithoutFacingMode, AcquireErrorMessage(a))
  }

  /** The error an attempt that does not fall back leaves behind: none
      exactly when a stream was obtained and did not fail to play in a
      mounted element; an acquisition error after "Error accessing camera: ",
      a playback error after "Error starting video: ". */
  function ErrorAfter(a: Acquire, videoMounted: bool): (r: Option<string>)
    ensures r.None? <==> a.Obtained? && !(videoMounted && a.playback.PlayFailed?)
    ensures !a.Obtained? ==>
      r.Some? && Text.IsPrefix("Error accessing camera: ", r.value) && r.value[24..] == AcquireErrorMessage(a)
    ensures a.Obtained? && r.Some? ==>
      Text.IsPrefix("Error starting video: ", r.value) && r.value[22..] == a.playback.message
  {
    match a
    case Obtained(p) =>
      if videoMounted && p.PlayFailed? then Some("Error starting video: " + p.message) else None
    case _ => Some("Error accessing camera: " + AcquireErrorMessage(a))
  }

  class CapturePage {
    var cameraActive: bool
    var cameraLoading: bool
    var capturedImage: Option<string>
    var loading: bool
    var error: Option<string>
    var successMessage: Option<string>
    var plateResult: Option<PlateResult>
    /** `videoRef.current !== null`: the hidden video element is mounted. */
    var videoMounted: bool
    /** `videoRef.current.srcObject` holds a stream. */
    var streamAttached: bool
    const store: WebStorage.LocalStorage

    /** A stream can only be attached to a mounted element. */
    ghost predicate Valid()
      reads this
    {
      streamAttached ==> videoMounted
    }

    constructor (store: WebStorage.LocalStorage)
      ensures Valid() && this.store == store
      ensures !cameraActive && !cameraLoading && capturedImage == None && !loading
      ensures error == None && successMessage == None && plateResult == None
      ensures !videoMounted && !streamAttached
    {
      this.store := store;
      cameraActive, cameraLoading, capturedImage, loading := false, false, None, false;
      error, successMessage, plateResult := None, None, None;
      videoMounted, streamAttached := false, false;
    }

    /** React assigning `videoRef` as the element is mounted or unmounted. */
    method SetVideoMounted(mounted: bool)
      requires Valid()
      modifies this`videoMounted, this`streamAttached
      ensures Valid() && videoMounted == mounted
      ensures streamAttached == (mounted && old(streamAttached))
    {
      videoMounted := mounted;
      if !mounted {
        streamAttached := false;
      }
    }

    /** `stopCamera`: detaches any stream and always marks the camera
        inactive. */
    method StopCamera()
      requires Valid()
      modifies this`streamAttached, this`cameraActive
      ensures Valid() && !streamAttached && !cameraActive
    {
      if videoMounted && streamAttached {
        streamAttached := false;
      }
      cameraActive := false;
    }

    /** One pass of `initCamera(retryWithoutFacingMode)` once the device has
        answered with `acquired`: the state it leaves, and whether it ends by
        stopping the camera and calling `initCamera(true)`. */
    method Attempt(retryWithoutFacingMode: bool, acquired: Acquire) returns (fallBack: bool)
      requires Valid()
      modifies this`cameraLoading, this`error, this`cameraActive, this`streamAttached
      ensures Valid()
      ensures fallBack == FallsBack(retryWithoutFacingMode, videoMounted, acquired)
      ensures !fallBack ==>
        && error == ErrorAfter(acquired, videoMounted)
        && cameraLoading == (acquired.Obtained? && !(videoMounted && !acquired.playback.Pending?))
        && cameraActive == (if videoMounted && acquired == Obtained(Started) then true else old(cameraActive))
        && streamAttached == (if videoMounted && acquired.Obtained? then true else old(streamAttached))
    {
      cameraLoading := true;
      error := None;
      fallBack := false;
      match acquired {
        case Obtained(playback) =>
          if videoMounted {
            streamAttached := true;
            match playback {
              case Started =>
                cameraActive := true;
                cameraLoading := false;
              case PlayFailed(message) =>
                if !retryWithoutFacingMode {
                  fallBack := true;
                } else {
                  error := Some("Error starting video: " + message);
                  cameraLoading := false;
                }
              case Pending =>
            }
          }
        case _ =>
          var message := AcquireErrorMessage(acquired);
          if RetryAfterAcquireError(retryWithoutFacingMode, message) {
            fallBack := true;
          } else {
            error := Some("Error accessing camera: " + message);
            cameraLoading := false;
          }
      }
    }

    /** `initCamera(retryWithoutFacingMode)`, with the device's answer to each
        constraint set given by `device`. `attempts` lists the constraints
        requested, in order: the rear camera first unless this already is
        the retry, and at most one fallback to any camera, after which the
        camera has been stopped. The state left behind is that of the last
        attempt. */
    method InitCamera(retryWithoutFacingMode: bool, device: Constraints -> Acquire)
      returns (attempts: seq<Constraints>)
      requires Valid()
      modifies this`cameraLoading, this`error, this`cameraActive, this`streamAttached
      ensures Valid()
      ensures 1 <= |attempts| <= 2
      ensures attempts[0] == ConstraintsFor(retryWithoutFacingMode)
      ensures |attempts| == 2 <==> FallsBack(retryWithoutFacingMode, videoMounted, device(attempts[0]))
      ensures |attempts| == 2 ==> attempts[1] == AnyVideo
      ensures var last := device(attempts[|attempts| - 1]);
        var retried := |attempts| == 2;
        && error == ErrorAfter(last, videoMounted)
        && cameraLoading == (last.Obtained? && !(videoMounted && !last.playback.Pending?))
        && cameraActive == (if videoMounted && last == Obtained(Started) then true
                            else if retried then false else old(cameraActive))
        && streamAttached == (if videoMounted && last.Obtained? then true
                              else if retried then false else old(streamAttached))
    {
      var constraints := ConstraintsFor(retryWithoutFacingMode);
      attempts := [constraints];
      var fallBack := Attempt(retryWithoutFacingMode, device(constraints));
      if fallBack {
        StopCamera();
        attempts := attempts + [AnyVideo];
        var again := Attempt(true, device(AnyVideo));
        assert !again;
      }
    }

    /** `captureImage`: with both the video and the canvas mounted and a 2d
        context available, keeps the drawn frame and stops the camera;
        otherwise changes nothing. */
    method CaptureImage(canvasMounted: bool, hasContext: bool, frame: string)
      requires Valid()
      modifies this`capturedImage, this`streamAttached, this`cameraActive
      ensures Valid()
      ensures var taken := videoMounted && canvasMounted && hasContext;
        && (taken ==> capturedImage == Some(frame) && !cameraActive && !streamAttached)
        && (!taken ==> capturedImage == old(capturedImage)
                       && streamAttached == old(streamAttached) && cameraActive == old(cameraActive))
    {
      if !videoMounted || !canvasMounted {
        return;
      }
      if hasContext {
        capturedImage := Some(frame);
        StopCamera();
      }
    }

    /** `resetCapture`: drops the still and the last result, then restarts
        the camera with `initCamera()`, that is from the rear-camera attempt,
        and ends in the state that call leaves. */
    method ResetCapture(device: Constraints -> Acquire) returns (attempts: seq<Constraints>)
      requires Valid()
      modifies this`capturedImage, this`plateResult, this`cameraLoading, this`error,
        this`cameraActive, this`streamAttached
      ensures Valid()
      ensures capturedImage == None && plateResult == None
      ensures 1 <= |attempts| <= 2
      ensures attempts[0] == FacingEnvironment
      ensures |attempts| == 2 <==> FallsBack(false, videoMounted, device(FacingEnvironment))
      ensures |attempts| == 2 ==> attempts[1] == AnyVideo
      ensures var last := device(attempts[|attempts| - 1]);
        var retried := |attempts| == 2;
        && error == ErrorAfter(last, videoMounted)
        && cameraLoading == (last.Obtained? && !(videoMounted && !last.playback.Pending?))
        && cameraActive == (if videoMounted && last == Obtained(Started) then true
                            else if retried then false else old(cameraActive))
        && streamAttached == (if videoMounted && last.Obtained? then true
                              else if retried then false else old(streamAttached))
    {
      capturedImage := None;
      plateResult := None;
      attempts := InitCamera(false, device);
    }

    /** `processImage`, as on the web client: nothing happens without a
        still; without an endpoint only the error is set; otherwise, once
        the request has settled, `loading` is false and either the plate was
        appended, shown and announced, or an error was set and storage is
        untouched. */
    method ProcessImage(reply: Reply, id: string, now: int)
      modifies this`loading, this`error, this`plateResult, this`successMessage, store`plates
      ensures capturedImage == old(capturedImage) && cameraActive == old(cameraActive)
      ensures !Truthy(old(capturedImage)) ==>
        && loading == old(loading) && error == old(error) && plateResult == old(plateResult)
        && successMessage == old(successMessage) && store.plates == old(store.plates)
      ensures Truthy(old(capturedImage)) && !Truthy(old(store.apiEndpoint)) ==>
        && error == Some(FailureText(NotConfigured))
        && loading == old(loading) && plateResult == old(plateResult)
        && successMessage == old(successMessage) && store.plates == old(store.plates)
      ensures Truthy(old(capturedImage)) && Truthy(old(store.apiEndpoint)) ==>
        var outcome := Recognize(old(store.apiEndpoint), reply, id, now);
        && !loading
        && (outcome.Recognized? ==>
              && store.plates == Some(old(store.plates).GetOr([]) + [outcome.plate])
              && plateResult == Some(outcome.plate)
              && successMessage == Some(SuccessMessage)
              && error == None)
        && (outcome.Failed? ==>
              && store.plates == old(store.plates)
              && error == Some(CaptureErrorText(outcome.failure))
              && plateResult == old(plateResult)
              && successMessage == old(successMessage))
    {
      if !Truthy(capturedImage) {
        return;
      }
      var apiEndpoint := store.apiEndpoint;
      if !Truthy(apiEndpoint) {
        error := Some(FailureText(NotConfigured));
        return;
      }
      loading := true;
      error := None;
      match Recognize(apiEndpoint, reply, id, now) {
        case Recognized(result) =>
          plateResult := Some(result);
          store.SavePlate(result);
          successMessage := Some(SuccessMessage);
        case Failed(failure) =>
          error := Some(CaptureErrorText(failure));
      }
      loading := false;
    }
  }
}
