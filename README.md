# Visage capture core in Dafny

A model of three small exact pieces of the Visage webcam demo:

- the session state of `CaptureManager` (managers.py): the fields its
  constructor initialises and the `channel` property, whose setter throws away
  the cached frame only when the channel really changes (module `Managers`);
- the keypress handler `Visage.onKeypress` (visage.py): space takes a
  screenshot to `screenshot.png`, Tab starts or stops a screencast to
  `screencast.avi` depending on whether video is being written, Esc destroys
  the window, and every other key does nothing (module `Visage`);
- `createCurveFunc` (utils.py): no curve for a missing list or for fewer than
  two control points, linear interpolation for two or three points, cubic for
  four or more, the points unzipped into parallel input and output lists, and
  bounds errors disabled (module `Utils`).

`CaptureManager` is a class whose fields mirror the Python attributes
(`_channel` becomes `channel`, and so on). Its ghost function `State()` takes a
`Session` snapshot of all of them. `SetChannel` is proved against the pure
function `WithChannel`, and the lemmas about the setter are stated over that
function. Python's `None` is `Option.None` (module `Wrappers`). Python 2's
`long(0)` frame counter is a `nat`.

`onKeypress` calls capture-manager and window-manager methods whose bodies
are not part of this model. `CaptureManagerPort` and `WindowManagerPort`
stand for those managers: each command method only appends the request it
received to a `requests` log, and `isWritingVideo` is a flag that the port
holds. `OnKeypress` is proved to append exactly the requests the pure
function `Dispatch` chooses. The source calls `startwritingVideo` with a
lower-case `w` (visage.py:43), so in Python the method lookup would fail. The
model treats that call as the intended start-video request.

The interpolator that `createCurveFunc` returns (scipy's `interp1d`) is
modelled as a `CurveSpec` descriptor: the two lists, the kind, and the
`bounds_error` flag the interpolator is built with.

## Model

| member | source | states |
|---|---|---|
| `Managers.CaptureManager.constructor` | managers.py:7-24 | the preview window manager, the mirror flag and the capture device are stored as passed; channel 0, not entered, no cached frame, image filename, video filename, encoding or writer, no start time, zero frames elapsed, no FPS estimate |
| `Managers.CreateWithDefaults` | managers.py:7 | constructing with only a capture device gives no preview window manager and no mirroring |
| `Managers.CaptureManager.GetChannel` | managers.py:26-28 | the getter returns the current channel and changes nothing |
| `Managers.CaptureManager.SetChannel` | managers.py:30-34 | the new state is `WithChannel` of the old one, and only the channel and cached-frame fields may be written |
| `Managers.WithChannel` | managers.py:30-34 | afterwards the channel is the assigned value; a different value clears the cached frame; the current value leaves the whole session unchanged; no field other than channel and frame differs |
| `Managers.WithChannelIdempotent` | managers.py:30-34 | assigning the same channel twice has the effect of assigning it once |
| `Managers.WithChannelKeepsFrameIff` | managers.py:32-34 | the cached frame is kept exactly when the channel stays the same or there was no frame |
| `Visage.Dispatch` | visage.py:38-49 | 32 writes an image to `screenshot.png`; 9 starts a video to `screencast.avi` when not writing and stops it when writing; a window command is issued exactly for 27 and is destroy-window; no command exactly for keys other than 32, 9 and 27 |
| `Visage.CaptureRequests` | visage.py:38-46 | a command sends at most one request to the capture manager, exactly when it is addressed to it |
| `Visage.WindowRequests` | visage.py:48-49 | a command sends at most one request to the window manager, exactly when it is addressed to it |
| `Visage.DispatchReadsFlagOnlyForTab` | visage.py:38-49 | for every key but Tab the command does not depend on whether video is being written |
| `Visage.TabChoosesStartOrStop` | visage.py:41-46 | one Tab press issues a capture request that is a start exactly when not writing and a stop exactly when writing |
| `Visage.AtMostOneRequest` | visage.py:38-49 | one keypress sends at most one request to the two managers together |
| `Visage.Visage.OnKeypress` | visage.py:29-49 | the capture manager's and window manager's request logs grow by exactly the requests `Dispatch` chooses for the key and the current recording flag; nothing else changes |
| `Visage.CaptureManagerPort.WriteImage` | visage.py:39 | records one write-image request with the given filename |
| `Visage.CaptureManagerPort.StartWritingVideo` | visage.py:43 | records one start-video request with the given filename |
| `Visage.CaptureManagerPort.StopWritingVideo` | visage.py:46 | records one stop-video request |
| `Visage.WindowManagerPort.DestroyWindow` | visage.py:49 | records one destroy-window request |
| `Utils.Unzip` | utils.py:19 | both lists have one entry per point, and entry `i` is the first and second component of point `i` |
| `Utils.Zip` | utils.py:19 | pairs entry `i` of the inputs with entry `i` of the outputs |
| `Utils.ZipUnzip` | utils.py:19 | zipping the unzipped lists gives back the points |
| `Utils.UnzipZip` | utils.py:19 | unzipping zipped lists gives back both lists |
| `Utils.CreateCurveFunc` | utils.py:9-28 | `None` exactly when the list is missing or has fewer than 2 points; otherwise the lists are the unzipped points, the kind is linear for fewer than 4 points and cubic from 4, never quadratic, and bounds errors are off |
| `Utils.CurvePointsRecovered` | utils.py:19-28 | for two or more points a curve is returned and its control points can be zipped back into the input |

## Left out

- The rest of `CaptureManager` (`enterFrame`, `exitFrame`, `frame`, `writeImage`, `isWritingVideo`, starting and stopping video, FPS estimation, the video writer) and all of `WindowManager`, both of which managers.py also defines: their bodies are not modelled, and `onKeypress` reaches them only through the request-logging ports.
- Visage.CaptureManagerPort.StartWritingVideo, Visage.CaptureManagerPort.StopWritingVideo: they do not change `isWritingVideo`, and `DestroyWindow` does not change any window state, because what the real methods do to that state is not visible.
- `Visage.__init__` and `Visage.run` (visage.py:7-26): camera opening, window creation and the event-polling loop are device and GUI I/O. So the fact that the loop runs only while the window exists is not modelled, nor the masking of key codes by the window manager. The `Visage` constructor here takes the two managers as arguments.
- The clock (`time`) and the capture device object: the start time and FPS estimate are only optional `real` fields, and the device is an opaque `CaptureDevice` handle.
- scipy's `interp1d`: its interpolation arithmetic is floating point, so the model returns the `CurveSpec` descriptor of the call instead of a function. The descriptor stands for the call being made, not for its success: an exception `interp1d` may raise while building the interpolator (utils.py:28) is not modelled.
- Managers.CaptureManager.constructor: the capture device is always present; Python stores whatever object it is passed, including `None`, which the model's `CaptureDevice` type cannot express.
- Utils.CreateCurveFunc: control points are typed pairs, so the Python failure of `zip(*points)` on points that do not have exactly two components is not modelled.
- app.py and filters.py: wxPython layout and OpenCV floating-point colour filters.
