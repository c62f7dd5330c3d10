/**
 * The capture-session state of `CaptureManager` (managers.py): what its
 * constructor initialises and how the `channel` property reads and updates it.
 */
module Managers {

  import opened Wrappers

  /** An image handed out by the capture device; its pixels are not inspected. */
  datatype Frame = Frame(pixels: seq<int>)

  /** Stands for the capture device object (a `cv2.VideoCapture`). */
  datatype CaptureDevice = CaptureDevice(index: int)

  /** Stands for the window manager that previews frames. */
  datatype WindowManagerRef = WindowManagerRef(name: string)

  /** Stands for an open video writer. */
  datatype VideoWriterRef = VideoWriterRef(path: string)

  /** A snapshot of every field of a capture manager. */
  datatype Session = Session(
    previewWindowManager: Option<WindowManagerRef>,
    shouldMirrorPreview: bool,
    capture: CaptureDevice,
    channel: int,
    enteredFrame: bool,
    frame: Option<Frame>,
    imageFilename: Option<string>,
    videoFilename: Option<string>,
    videoEncoding: Option<string>,
    videoWriter: Option<VideoWriterRef>,
    startTime: Option<real>,
    framesElapsed: nat,
    fpsEstimate: Option<real>)

  /** A session in which nothing has been captured, requested or timed yet. */
  predicate IsFresh(s: Session) {
    s.channel == 0 && !s.enteredFrame && s.frame.None? &&
    s.imageFilename.None? && s.videoFilename.None? &&
    s.videoEncoding.None? && s.videoWriter.None? &&
    s.startTime.None? && s.framesElapsed == 0 && s.fpsEstimate.None?
  }

  /** The session after assigning `value` to the `channel` property. */
  function WithChannel(s: Session, value: int): (r: Session)
    ensures r.channel == value
    // a real change of channel invalidates the cached frame
    ensures s.channel != value ==> r.frame.None?
    // assigning the current channel is a no-op
    ensures s.channel == value ==> r == s
    // no field other than the channel and the cached frame is touched
    ensures r.(channel := s.channel, frame := s.frame) == s
  {
    if s.channel != value then s.(channel := value, frame := None) else s
  }

  /** Assigning the same channel twice has the effect of assigning it once. */
  lemma WithChannelIdempotent(s: Session, value: int)
    ensures WithChannel(WithChannel(s, value), value) == WithChannel(s, value)
  {
  }

  /** The cached frame survives an assignment exactly when there was none or the channel stays. */
  lemma WithChannelKeepsFrameIff(s: Session, value: int)
    ensures WithChannel(s, value).frame == s.frame <==> s.channel == value || s.frame.None?
  {
  }

  class CaptureManager {
    var previewWindowManager: Option<WindowManagerRef>
    var shouldMirrorPreview: bool
    var capture: CaptureDevice
    var channel: int
    var enteredFrame: bool
    var frame: Option<Frame>
    var imageFilename: Option<string>
    var videoFilename: Option<string>
    var videoEncoding: Option<string>
    var videoWriter: Option<VideoWriterRef>
    var startTime: Option<real>
    var framesElapsed: nat
    var fpsEstimate: Option<real>

    ghost function State(): Session
      reads this
    {
      Session(previewWindowManager, shouldMirrorPreview, capture, channel,
              enteredFrame, frame, imageFilename, videoFilename, videoEncoding,
              videoWriter, startTime, framesElapsed, fpsEstimate)
    }

    /** A manager over `capture`; by default it has no preview window and does not mirror. */
    constructor (capture: CaptureDevice,
                 previewWindowManager: Option<WindowManagerRef> := None,
                 shouldMirrorPreview: bool := false)
      ensures IsFresh(State())
      ensures this.capture == capture
      ensures this.previewWindowManager == previewWindowManager
      ensures this.shouldMirrorPreview == shouldMirrorPreview
    {
      this.previewWindowManager := previewWindowManager;
      this.shouldMirrorPreview := shouldMirrorPreview;
      this.capture := capture;
      channel := 0;
      enteredFrame := false;
      frame := None;
      imageFilename := None;
      videoFilename := None;
      videoEncoding := None;
      videoWriter := None;
      startTime := None;
      framesElapsed := 0;
      fpsEstimate := None;
    }

    /** The `channel` property's getter. */
    method GetChannel() returns (c: int)
      ensures c == channel
    {
      c := channel;
    }

    /** The `channel` property's setter. */
    method SetChannel(value: int)
      modifies this`channel, this`frame
      ensures State() == WithChannel(old(State()), value)
    {
      if channel != value {
        channel := value;
        frame := None;
      }
    }
  }

  /** Constructing with only a capture device takes the defaults for the other two arguments. */
  method CreateWithDefaults(capture: CaptureDevice) returns (m: CaptureManager)
    ensures fresh(m)
    ensures IsFresh(m.State()) && m.capture == capture
    ensures m.previewWindowManager.None? && !m.shouldMirrorPreview
  {
    m := new CaptureManager(capture);
  }
}
