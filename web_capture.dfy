/** The capture page of the web client (numberplate-app): camera on/off,
    still capture, and sending the still to the recognition service. Each
    React state variable is a field; a handler is a method that sets them in
    the order the source does. The camera, the canvas and the network are
    abstracted as the outcomes they produce. */
module WebCapture {
  import opened Records
  import opened Recognition
  import Text
  import WebStorage

  /** What `getUserMedia` came to. */
  datatype CameraOutcome =
    | Unsupported            // no `navigator.mediaDevices.getUserMedia`
    | Rejected(message: string)
    | Granted                // a stream was obtained

  const UnsupportedMessage := "Camera access is not supported by this browser"

  /** The camera error: a fixed prefix, then the rejection's message or, in
      a browser without `getUserMedia`, the unsupported text. */
  function CameraErrorText(o: CameraOutcome): (r: string)
    requires !o.Granted?
    ensures Text.IsPrefix("Error accessing camera: ", r)
    ensures r[24..] == if o.Unsupported? then UnsupportedMessage else o.message
  {
    "Error accessing camera: " + (if o.Unsupported? then UnsupportedMessage else o.message)
  }

  class CapturePage {
    var cameraActive: bool
    var capturedImage: Option<string>
    var loading: bool
    var error: Option<string>
    var successMessage: Option<string>
    var plateResult: Option<PlateResult>
    /** `videoRef.current !== null`: the video element is mounted. */
    var videoMounted: bool
    /** `videoRef.current.srcObject` holds a stream. */
    var streamAttached: bool
    const store: WebStorage.LocalStorage

    /** The page's initial state; nothing is mounted yet. */
    constructor (store: WebStorage.LocalStorage)
      ensures this.store == store
      ensures !cameraActive && capturedImage == None && !loading
      ensures error == None && successMessage == None && plateResult == None
      ensures !videoMounted && !streamAttached
    {
      this.store := store;
      cameraActive, capturedImage, loading := false, None, false;
      error, successMessage, plateResult := None, None, None;
      videoMounted, streamAttached := false, false;
    }

    /** React assigning `videoRef` as the video element is mounted or
        unmounted; the stream is attached to the element, so unmounting
        drops it. */
    method SetVideoMounted(mounted: bool)
      modifies this`videoMounted, this`streamAttached
      ensures videoMounted == mounted
      ensures streamAttached == (mounted && old(streamAttached))
    {
      videoMounted := mounted;
      if !mounted {
        streamAttached := false;
      }
    }

    /** `initCamera`: clears the error, then either reports the camera error,
        or attaches the stream and activates the camera, which it does only
        when the video element is mounted. */
    method InitCamera(outcome: CameraOutcome)
      modifies this`error, this`streamAttached, this`cameraActive
      ensures error == if outcome.Granted? then None else Some(CameraErrorText(outcome))
      ensures outcome.Granted? && videoMounted ==> streamAttached && cameraActive
      ensures !(outcome.Granted? && videoMounted) ==>
        streamAttached == old(streamAttached) && cameraActive == old(cameraActive)
    {
      error := None;
      match outcome
      case Granted =>
        if videoMounted {
          streamAttached := true;
          cameraActive := true;
        }
      case _ =>
        error := Some(CameraErrorText(outcome));
    }

    /** `stopCamera`: only when a stream is attached to a mounted video
        element are its tracks stopped, the stream detached and the camera
        marked inactive. */
    method StopCamera()
      modifies this`streamAttached, this`cameraActive
      ensures old(videoMounted && streamAttached) ==> !streamAttached && !cameraActive
      ensures !old(videoMounted && streamAttached) ==>
        streamAttached == old(streamAttached) && cameraActive == old(cameraActive)
    {
      if videoMounted && streamAttached {
        streamAttached := false;
        cameraActive := false;
      }
    }

    /** `captureImage`: with both the video and the canvas mounted and a 2d
        context available, keeps the drawn frame (`frame`, the data URL) and
        stops the camera; otherwise changes nothing. */
    method CaptureImage(canvasMounted: bool, hasContext: bool, frame: string)
      modifies this`capturedImage, this`streamAttached, this`cameraActive
      ensures var taken := videoMounted && canvasMounted && hasContext;
        && capturedImage == (if taken then Some(frame) else old(capturedImage))
        && (taken && old(streamAttached) ==> !streamAttached && !cameraActive)
        && (!(taken && old(streamAttached)) ==>
              streamAttached == old(streamAttached) && cameraActive == old(cameraActive))
    {
      if !videoMounted || !canvasMounted {
        return;
      }
      if hasContext {
        capturedImage := Some(frame);
        StopCamera();
      }
    }

    /** `resetCapture`: drops the still and the last result, then restarts
        the camera. */
    method ResetCapture(outcome: CameraOutcome)
      modifies this`capturedImage, this`plateResult, this`error, this`streamAttached, this`cameraActive
      ensures capturedImage == None && plateResult == None
      ensures error == if outcome.Granted? then None else Some(CameraErrorText(outcome))
      ensures outcome.Granted? && videoMounted ==> streamAttached && cameraActive
      ensures !(outcome.Granted? && videoMounted) ==>
        streamAttached == old(streamAttached) && cameraActive == old(cameraActive)
    {
      capturedImage := None;
      plateResult := None;
      InitCamera(outcome);
    }

    /** `processImage`: nothing happens without a still; without an endpoint
        only the error is set. Otherwise the request is made and, when it
        has settled, `loading` is false again and exactly one of two things
        has happened: the recognised plate was appended to the stored list,
        shown and announced, or an error was set and storage is untouched. */
    method ProcessImage(reply: Reply, id: string, now: int)
      modifies this`loading, this`error, this`plateResult, this`successMessage, store`plates
      ensures capturedImage == old(capturedImage) && cameraActive == old(cameraActive)
      ensures !Truthy(old(capturedImage)) ==>
        && loading == old(loading) && error == old(error) && plateResult == old(plateResult)
        && successMessage == old(successMessage) && store.plates == old(store.plates)
      ensures Truthy(old(capturedImage)) && !Truthy(old(store.apiEndpoint)) ==>
        && error == Some(FailureText(NotConfigured))
        && loading == old(loading) && plateResult == old(plateResult)
        && successMessage == old(successMessage) && store.plates == old(store.plates)
      ensures Truthy(old(capturedImage)) && Truthy(old(store.apiEndpoint)) ==>
        var outcome := Recognize(old(store.apiEndpoint), reply, id, now);
        && !loading
        && (outcome.Recognized? ==>
              && store.plates == Some(old(store.plates).GetOr([]) + [outcome.plate])
              && plateResult == Some(outcome.plate)
              && successMessage == Some(SuccessMessage)
              && error == None)
        && (outcome.Failed? ==>
              && store.plates == old(store.plates)
              && error == Some(CaptureErrorText(outcome.failure))
              && plateResult == old(plateResult)
              && successMessage == old(successMessage))
    {
      if !Truthy(capturedImage) {
        return;
      }
      var apiEndpoint := store.apiEndpoint;
      if !Truthy(apiEndpoint) {
        error := Some(FailureText(NotConfigured));
        return;
      }
      loading := true;
      error := None;
      match Recognize(apiEndpoint, reply, id, now) {
        case Recognized(result) =>
          plateResult := Some(result);
          store.SavePlate(result);
          successMessage := Some(SuccessMessage);
        case Failed(failure) =>
          error := Some(CaptureErrorText(failure));
      }
      loading := false;
    }
  }
}
