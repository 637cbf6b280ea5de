# Object tracking app: the marking and tracking session, in Dafny

The app loads a local MP4 video. The user drags a rectangle (the marker) over a paused frame. The app then follows the marked object frame by frame with OpenCV's CamShift and draws its rotated box over the video. This project models the part of the app that is plain program logic:

- **`Tracker`** models the `ObjectTracker` component as the class `ObjectTracker`. Its fields are the playback flags, the drawing flag, the marker's start and end points, the validity flag and the tracking flag. There is one method per event handler. The marker effect (the `useEffect` on the end point) runs at the end of every handler that gives the marker a new end point. It sees the flags as that handler left them, because React batches the setters of one handler. `startTracking` returns a new `TrackingLoop`. That object stands for the `processVideo` closure: its search window, its OpenCV buffers and whether a call is scheduled for the next animation frame. `ProcessVideo` is one such call.
- **`Marker`** holds the pure geometry: the validity rule (start and end differ in x *and* in y), the validity flag the effect leaves, and the normalised first search window.
- **`TimeFormat`** holds `formatTime` and `zeroPrefix` on whole seconds. `ParseClock` reads a rendering back, and the round trip shows that the rendering determines the position.
- **`FileDropZone`** holds the accept/reject decision of `handleFiles`.
- **`App`** holds the error-message list: adding a message, and the timer that removes messages by id. The timer firing is the explicit call `ExpireErrorMessage(id)`. The class `AppState` also holds the chosen video file.

What is proved:

- The marker invariant: a valid marker is non-degenerate, and a marker being drawn is never valid. Every handler keeps it.
- After a mouse-up the marker is valid exactly when start and end differ in both coordinates. A drag from (5,5) to (5,9) stays invalid, so "start tracking" is not offered.
- Reset and start-tracking do exactly what their handlers set.
- The first search window is the bounding box of the marker. Its extent is positive exactly for a valid marker.
- A loop step whose guard holds deletes each buffer exactly once and stops rescheduling. An exception also stops rescheduling, but it leaves the buffers allocated.
- `formatTime` is injective and has the right field arithmetic. 3725 seconds render as `01:02:05`.
- The file decision accepts exactly a single `video/mp4` file, and passes that file on unchanged.
- Expiry filters by id, keeps the order of the remaining messages, and undoes the matching add.

Facts about the code that the model keeps:

- The `catch` of `processVideo` (ObjectTracker.jsx:352-354) only logs the error. It neither deletes the OpenCV buffers nor resets `isTracking`. So after an exception the buffers stay allocated, and `isTracking` stays true until the marker is reset.
- `FileDropZone` only writes refusals to the console. It never calls the `addErrorMessage` prop that App passes it, so `AppState.HandleFiles` leaves the error list untouched.
- Only the media type `video/mp4` is accepted.
- There is no session-state enum. The state is the set of boolean flags, and the model keeps those flags. After the video ends, the loop stops, but the marker stays valid, so "Start Tracking Again" is offered. Starting again rewinds the video to 0.
- `handleVideoSeek` compares the seek bar's string value with the numeric duration using `!==`. That comparison is never false, so the model's seek always clears the ended flag.

## Model

| member | source | states |
|---|---|---|
| `TimeFormat.Decimal` | src/ObjectTracker/ObjectTracker.jsx:142 | a number is rendered as decimal digits whose value is the number: one digit below 10, two digits from 10 to 99, and a leading zero only for 0 |
| `TimeFormat.LeadingZero` | src/ObjectTracker/ObjectTracker.jsx:137 | prefixing "0" does not change the value a digit string denotes |
| `TimeFormat.ZeroPrefix` | src/ObjectTracker/ObjectTracker.jsx:136-138 | `zeroPrefix` yields digits denoting the same number, at least two of them, exactly two below 100, starting with 0 exactly when the number is below 10 |
| `TimeFormat.Split` | src/ObjectTracker/ObjectTracker.jsx:139-141 | the hour, minute and second fields have minutes and seconds below 60 and add up to the position (hr*3600 + min*60 + sec = t) |
| `TimeFormat.SplitOfSeconds` | src/ObjectTracker/ObjectTracker.jsx:139-141 | every clock with minutes and seconds below 60 is the split of its own number of seconds, so the split is the only such decomposition |
| `TimeFormat.FormatTime` | src/ObjectTracker/ObjectTracker.jsx:135-143 | the rendering has at least 8 characters, and exactly 8 for positions under 100 hours |
| `TimeFormat.ParseClock` | src/ObjectTracker/ObjectTracker.jsx:142 | reading back the "h:mm:ss" layout succeeds only when there are two colons, placed before the last two two-character fields |
| `TimeFormat.ParseFormatTime` | src/ObjectTracker/ObjectTracker.jsx:135-143 | reading the rendering of t gives back t div 3600, (t mod 3600) div 60 and t mod 60, so minutes and seconds are two digits and the hours field is at least two |
| `TimeFormat.FormatTimeInjective` | src/ObjectTracker/ObjectTracker.jsx:135-143 | two positions with the same rendering are equal |
| `TimeFormat.FormatTimeOfClock` | src/ObjectTracker/ObjectTracker.jsx:135-143 | every clock reading with minutes and seconds below 60 is read back from the rendering of its number of seconds |
| `TimeFormat.FormatTimeExample` | src/ObjectTracker/ObjectTracker.jsx:135-143 | 3725 seconds render as "01:02:05" |
| `Marker.NonDegenerate` | src/ObjectTracker/ObjectTracker.jsx:65-68 | a marker counts as a rectangle exactly when start and end differ in x and in y, that is, exactly when its four corners are pairwise distinct |
| `Marker.EffectValidity` | src/ObjectTracker/ObjectTracker.jsx:65-81 | after the effect a valid marker is non-degenerate; once drawing is over the marker is valid exactly when it differs in x and in y; while drawing the flag never turns true |
| `Marker.InitialWindow` | src/ObjectTracker/ObjectTracker.jsx:228-233 | the first search window has non-negative extent, its edges are the marker's x and y coordinates, and its width and height are positive exactly for a non-degenerate marker |
| `Marker.InitialWindowIsBoundingBox` | src/ObjectTracker/ObjectTracker.jsx:228-233 | the first search window covers both marker corners and lies inside every rectangle that covers them |
| `Marker.InitialWindowIgnoresDragDirection` | src/ObjectTracker/ObjectTracker.jsx:228-233 | dragging in the opposite direction, or along the other diagonal, gives the same window |
| `Tracker.ObjectTracker.constructor` | src/ObjectTracker/ObjectTracker.jsx:21-35 | the initial state: nothing playing, ended, drawn, valid or tracked; both points at (0,0); times 0 |
| `Tracker.ObjectTracker.MarkerEffect` | src/ObjectTracker/ObjectTracker.jsx:59-83 | the validity flag becomes the effect's value on the current points and drawing flag; nothing else changes |
| `Tracker.ObjectTracker.HandleVideoPlayToggle` | src/ObjectTracker/ObjectTracker.jsx:86-90 | the playing flag flips and nothing else changes |
| `Tracker.ObjectTracker.HandleVideoTimeUpdate` | src/ObjectTracker/ObjectTracker.jsx:93-96 | the displayed time becomes the video's position |
| `Tracker.ObjectTracker.HandleVideoLoadedMetadata` | src/ObjectTracker/ObjectTracker.jsx:99-115 | the duration becomes the video's duration |
| `Tracker.ObjectTracker.HandleVideoEnded` | src/ObjectTracker/ObjectTracker.jsx:118-121 | the video is no longer playing and is ended; nothing else changes |
| `Tracker.ObjectTracker.HandleVideoSeek` | src/ObjectTracker/ObjectTracker.jsx:124-132 | the video position becomes the seek value and the ended flag is cleared |
| `Tracker.ObjectTracker.HandleMouseDown` | src/ObjectTracker/ObjectTracker.jsx:146-157 | while playing nothing changes; otherwise drawing starts with start = end = the mouse position and the marker invalid; the invariant is kept |
| `Tracker.ObjectTracker.HandleMouseMove` | src/ObjectTracker/ObjectTracker.jsx:160-168 | unless drawing nothing changes; otherwise only the end point moves and the marker stays invalid |
| `Tracker.ObjectTracker.HandleMouseUp` | src/ObjectTracker/ObjectTracker.jsx:171-181 | unless drawing nothing changes; otherwise drawing ends at the mouse position and the marker is valid exactly when start and end differ in x and in y |
| `Tracker.ObjectTracker.HandleResetMark` | src/ObjectTracker/ObjectTracker.jsx:184-192 | the end point collapses onto the unchanged start point; validity and tracking are cleared; playback pauses |
| `Tracker.ObjectTracker.StartTracking` | src/ObjectTracker/ObjectTracker.jsx:195-233 | tracking and playing are set; an ended video is un-ended and rewound to 0; a fresh scheduled loop holds all buffers, and its window is the normalised marker with positive extent |
| `Tracker.TrackingLoop.constructor` | src/ObjectTracker/ObjectTracker.jsx:283-290 | a new loop holds every session buffer, none deleted, is scheduled, and starts from the given window |
| `Tracker.TrackingLoop.Delete` | src/ObjectTracker/ObjectTracker.jsx:300-304 | only a live, never-deleted buffer is deleted; it leaves the live set and its deletion count becomes one |
| `Tracker.TrackingLoop.ProcessVideo` | src/ObjectTracker/ObjectTracker.jsx:293-355 | when the video has ended or the marker is invalid: tracking off, every buffer deleted exactly once, no reschedule; otherwise the window becomes CamShift's and the loop reschedules, unless an exception stops it without rescheduling or deleting |
| `Tracker.DegenerateMarkerScenario` | src/ObjectTracker/ObjectTracker.jsx:171-181 | a drag from (5,5) to (5,9) leaves the marker invalid and start tracking not offered |
| `Tracker.EndOfStreamScenario` | src/ObjectTracker/ObjectTracker.jsx:293-306 | marking (2,2)-(6,6) and starting tracking gives the search window (2,2,4,4); with a CamShift step that leaves the window unchanged (a static patch) the window stays so; after the video ends the next step stops tracking, stops rescheduling, leaves no buffer live and offers tracking again |
| `Tracker.ResetWhileTrackingScenario` | src/ObjectTracker/ObjectTracker.jsx:184-192 | a reset while tracking pauses playback, and the next step stops the loop and deletes every buffer |
| `FileDropZone.HandleFiles` | src/FileDropZone/FileDropZone.jsx:8-16 | a file goes to `setVideoFile` exactly when there is one file of type "video/mp4", and it is that file; otherwise the single-file message is logged for several files and the MP4-only message for one file of another type |
| `FileDropZone.AcceptsExactlyOneMp4` | src/FileDropZone/FileDropZone.jsx:9-14 | the outcome is `setVideoFile(f)` exactly for the list [f] with f of type "video/mp4" |
| `FileDropZone.TwoMp4FilesRefused` | src/FileDropZone/FileDropZone.jsx:9-10 | the count is checked first, so two MP4 files are refused as too many |
| `App.Without` | src/App.jsx:27-29 | the filtered list is no longer than the original, holds exactly the messages whose id differs, and equals the original when no message has the id |
| `App.WithoutAppend` | src/App.jsx:27-29 | filtering distributes over concatenation, so the kept messages keep their order |
| `App.ExpireUndoesAdd` | src/App.jsx:18-29 | adding a message with a fresh id and expiring that id gives back the original list |
| `App.SameMillisecondExpiresTogether` | src/App.jsx:17-29 | two messages added in the same millisecond are removed by one expiry |
| `App.WithoutIdempotent` | src/App.jsx:27-29 | expiring an id twice is the same as expiring it once |
| `App.WithoutCommutes` | src/App.jsx:26-30 | expiries of two ids give the same list in either order |
| `App.AppState.constructor` | src/App.jsx:10-12 | no video file, no messages, no timers |
| `App.AppState.AddErrorMessage` | src/App.jsx:15-31 | the message `{id, text}` is appended after the existing ones and one removal timer for its id is started; every shown message has a pending timer |
| `App.AppState.ExpireErrorMessage` | src/App.jsx:26-30 | the list becomes the filtered list for that id and the timer is no longer pending; every shown message still has a pending timer |
| `App.AppState.HandleFiles` | src/App.jsx:47-51 | with no file chosen yet, the video file becomes the dropped file exactly when it is the only file and of type "video/mp4"; the error list is left alone |

## Left out

- The OpenCV.js calls: frame capture, colour conversion, the saturation/value mask, the 180-bin hue histogram and its min-max normalisation, back-projection, CamShift and the rotated-box corners (ObjectTracker.jsx:219-326). They belong to a foreign library and compute on floating-point images. CamShift's effect on the window is the function parameter `camShift` of `ProcessVideo`. Its constants (180 bins, mask (30,30,0)-(180,180,180), range 0-255, 10 iterations, epsilon 1) are recorded as data only.
- The matrices that `startTracking` creates and deletes before the loop starts (roi, hsvRoi, mask, low, high, hsvRoiVec), and the `VideoCapture` object, which is never deleted. An exception from `startTracking` itself is not modelled either; for example, `frame.roi` throws on a window outside the frame. That call is outside any try/catch.
- Canvas work: clearing and stroking the marker rectangle, drawing the tracking polygon with `Math.round` of float corners, and resizing the canvas to the video's aspect ratio (lines 62-74, 105-114, 329-348). This is drawing and float arithmetic. The pointer conversion `Math.floor(clientX - rect.left)` (lines 150-154) is left out too: mouse positions are given as integer points.
- `requestAnimationFrame` and React's render and effect timing. `ProcessVideo` is the scheduled call itself, and it reads the tracker's current ended and validity flags. This treats the ref mirrors of lines 43-56 as always current.
- The DOM `play()`, `pause()` and position setting on the video element, and the browser advancing the position during playback. Only the flags and the `videoPosition` field stay.
- Console logging: the `catch` branch's `console.log` and the drop zone's messages. The messages are kept as the `Log` outcome.
- `TimeFormat.FormatTime`: whole seconds only. `parseInt` of a fractional position goes through JavaScript's number-to-string conversion, which switches to exponential notation for very small and very large values.
- `Tracker.ObjectTracker.HandleVideoSeek`: positions are whole seconds, while the seek bar and the video deliver fractional ones.
- `Tracker.ObjectTracker.HandleVideoTimeUpdate`: the current time is a whole number of seconds, while the video reports fractional ones.
- `Tracker.ObjectTracker.HandleVideoLoadedMetadata`: the duration is a whole number of seconds; fractional durations, and the NaN or Infinity a video element can report, are not modelled.
- `App.AppState.AddErrorMessage`: appends to the current list. The source's `setErrorMessages([...errorMessages, …])` uses the list captured when the handler was created, so two adds before a re-render would lose one. That stale capture is not modelled.
- `Date.getTime()` ids and the 3000 ms `setTimeout` (App.jsx:17, 26). The id is a parameter, and the timer firing is the call `ExpireErrorMessage`.
- The page reload of the "New File" button (ObjectTracker.jsx:438). It is browser I/O.
- JSX rendering (ObjectTracker.jsx:361-482, App.jsx:33-56). Only the button conditions at ObjectTracker.jsx:447 and 463 are used, as preconditions of `HandleResetMark` and `StartTracking`, and the drop zone being shown only without a file (App.jsx:47) is used as a precondition of `AppState.HandleFiles`.
- `FileDropZone.HandleFiles` requires a non-empty list. The source reads `files[0].type` of an empty list and throws a TypeError.
