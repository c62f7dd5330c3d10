/**
 * `Visage.onKeypress` (visage.py): the keypress-to-command dispatch of the
 * demo application. The capture and window managers it drives are abstract:
 * each of their command methods only records the request it received.
 */
module Visage {

  import opened Wrappers

  const SpaceKey := 32
  const TabKey := 9
  const EscapeKey := 27

  const ScreenshotFilename := "screenshot.png"
  const ScreencastFilename := "screencast.avi"

  /** Requests `onKeypress` makes of the capture manager. */
  datatype CaptureRequest =
    | WriteImage(filename: string)
    | StartWritingVideo(videoFilename: string)
    | StopWritingVideo

  /** Requests `onKeypress` makes of the window manager. */
  datatype WindowRequest = DestroyWindow

  /** A request addressed to one of the two managers. */
  datatype Command =
    | ToCapture(capture: CaptureRequest)
    | ToWindow(window: WindowRequest)

  /** The command a keypress issues, given whether video is being written. */
  function Dispatch(keycode: int, isWritingVideo: bool): (r: Option<Command>)
    ensures keycode == SpaceKey ==> r == Some(ToCapture(WriteImage(ScreenshotFilename)))
    ensures keycode == TabKey && !isWritingVideo ==>
              r == Some(ToCapture(StartWritingVideo(ScreencastFilename)))
    ensures keycode == TabKey && isWritingVideo ==> r == Some(ToCapture(StopWritingVideo))
    // Esc is the one key that reaches the window manager
    ensures (r.Some? && r.value.ToWindow?) <==> keycode == EscapeKey
    ensures r.Some? && r.value.ToWindow? ==> r.value.window == DestroyWindow
    // every other key issues nothing
    ensures r.None? <==> keycode != SpaceKey && keycode != TabKey && keycode != EscapeKey
  {
    if keycode == SpaceKey then
      Some(ToCapture(WriteImage(ScreenshotFilename)))
    else if keycode == TabKey then
      if !isWritingVideo then Some(ToCapture(StartWritingVideo(ScreencastFilename)))
      else Some(ToCapture(StopWritingVideo))
    else if keycode == EscapeKey then
      Some(ToWindow(DestroyWindow))
    else
      None
  }

  /** The requests a command sends to the capture manager (at most one). */
  function CaptureRequests(c: Option<Command>): (r: seq<CaptureRequest>)
    ensures |r| <= 1
    ensures |r| == 1 <==> c.Some? && c.value.ToCapture?
    ensures |r| == 1 ==> r[0] == c.value.capture
  {
    if c.Some? && c.value.ToCapture? then [c.value.capture] else []
  }

  /** The requests a command sends to the window manager (at most one). */
  function WindowRequests(c: Option<Command>): (r: seq<WindowRequest>)
    ensures |r| <= 1
    ensures |r| == 1 <==> c.Some? && c.value.ToWindow?
    ensures |r| == 1 ==> r[0] == c.value.window
  {
    if c.Some? && c.value.ToWindow? then [c.value.window] else []
  }

  /** Only Tab looks at whether video is being written. */
  lemma DispatchReadsFlagOnlyForTab(keycode: int)
    requires keycode != TabKey
    ensures Dispatch(keycode, true) == Dispatch(keycode, false)
  {
  }

  /** One Tab press issues exactly one of start and stop, whichever the flag calls for. */
  lemma TabChoosesStartOrStop(isWritingVideo: bool)
    ensures Dispatch(TabKey, isWritingVideo).Some?
    ensures Dispatch(TabKey, isWritingVideo).value.ToCapture?
    ensures Dispatch(TabKey, isWritingVideo).value.capture.StartWritingVideo? <==> !isWritingVideo
    ensures Dispatch(TabKey, isWritingVideo).value.capture.StopWritingVideo? <==> isWritingVideo
  {
  }

  /** A keypress sends at most one request to the two managers together. */
  lemma AtMostOneRequest(keycode: int, isWritingVideo: bool)
    ensures |CaptureRequests(Dispatch(keycode, isWritingVideo))| +
            |WindowRequests(Dispatch(keycode, isWritingVideo))| <= 1
  {
  }

  /** The capture manager as `onKeypress` sees it. */
  class CaptureManagerPort {
    var isWritingVideo: bool
    var requests: seq<CaptureRequest>

    constructor (isWritingVideo: bool)
      ensures this.isWritingVideo == isWritingVideo && requests == []
    {
      this.isWritingVideo := isWritingVideo;
      requests := [];
    }

    method WriteImage(filename: string)
      modifies this`requests
      ensures requests == old(requests) + [CaptureRequest.WriteImage(filename)]
    {
      requests := requests + [CaptureRequest.WriteImage(filename)];
    }

    method StartWritingVideo(filename: string)
      modifies this`requests
      ensures requests == old(requests) + [CaptureRequest.StartWritingVideo(filename)]
    {
      requests := requests + [CaptureRequest.StartWritingVideo(filename)];
    }

    method StopWritingVideo()
      modifies this`requests
      ensures requests == old(requests) + [CaptureRequest.StopWritingVideo]
    {
      requests := requests + [CaptureRequest.StopWritingVideo];
    }
  }

  /** The window manager as `onKeypress` sees it. */
  class WindowManagerPort {
    var requests: seq<WindowRequest>

    constructor ()
      ensures requests == []
    {
      requests := [];
    }

    method DestroyWindow()
      modifies this`requests
      ensures requests == old(requests) + [WindowRequest.DestroyWindow]
    {
      requests := requests + [WindowRequest.DestroyWindow];
    }
  }

  class Visage {
    const captureManager: CaptureManagerPort
    const windowManager: WindowManagerPort

    constructor (captureManager: CaptureManagerPort, windowManager: WindowManagerPort)
      ensures this.captureManager == captureManager && this.windowManager == windowManager
    {
      this.captureManager := captureManager;
      this.windowManager := windowManager;
    }

    /** Handles one keypress: space takes a screenshot, Tab starts or stops a screencast, Esc quits. */
    method OnKeypress(keycode: int)
      modifies captureManager`requests, windowManager`requests
      ensures captureManager.requests ==
                old(captureManager.requests) +
                CaptureRequests(Dispatch(keycode, old(captureManager.isWritingVideo)))
      ensures windowManager.requests ==
                old(windowManager.requests) +
                WindowRequests(Dispatch(keycode, old(captureManager.isWritingVideo)))
    {
      if keycode == SpaceKey {
        captureManager.WriteImage(ScreenshotFilename);
      } else if keycode == TabKey {
        if !captureManager.isWritingVideo {
          captureManager.StartWritingVideo(ScreencastFilename);
        } else {
          captureManager.StopWritingVideo();
        }
      } else if keycode == EscapeKey {
        windowManager.DestroyWindow();
      }
    }
  }
}
