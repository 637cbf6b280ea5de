/**
  The ObjectTracker component (src/ObjectTracker/ObjectTracker.jsx): the
  session state its handlers update, and the per-frame tracking loop that
  `startTracking` creates. React's state setters become field updates; the
  marker effect (lines 59-83) runs at the end of every handler that gives
  the marker a new end point, on the flags as that handler left them.
*/
module Tracker {
  import opened Marker

  /** The OpenCV matrices a tracking loop keeps across frames and deletes when it stops (lines 300-304). */
  datatype Buffer = Frame | BackProjection | HsvVector | RoiHistogram | Hsv

  const SessionBuffers: set<Buffer> := {Frame, BackProjection, HsvVector, RoiHistogram, Hsv}

  /*
    Fixed parameters of the colour model and of CamShift (lines 245-246,
    265-266, 277-281). They are recorded as data: the OpenCV calls that use
    them are outside the model.
  */
  const HueBins := 180
  const HueRange := (0, 180)
  const MaskLow := (30, 30, 0)
  const MaskHigh := (180, 180, 180)
  const NormalisedRange := (0, 255)
  const CamShiftMaxIterations := 10
  const CamShiftEpsilon := 1

  /** Where an exception interrupts one iteration of the loop: before or after CamShift returned. */
  datatype Fault = NoFault | FaultBeforeCamShift | FaultAfterCamShift

  class ObjectTracker {
    var isVideoPlaying: bool
    var isVideoEnded: bool
    var videoCurrentTime: nat
    var videoDuration: nat
    /** The video element's own playback position, which seeking and rewinding set. */
    var videoPosition: nat
    var isDrawingMarker: bool
    var markerStartPoint: Point
    var markerEndPoint: Point
    var isValidMarker: bool
    var isTracking: bool

    /**
      A valid marker is non-degenerate, and a marker being drawn is never
      valid.
    */
    ghost predicate Valid()
      reads this
    {
      && (isValidMarker ==> NonDegenerate(markerStartPoint, markerEndPoint))
      && (isDrawingMarker ==> !isValidMarker)
    }

    /** The initial state of the component (lines 21-35). */
    constructor ()
      ensures Valid()
      ensures !isVideoPlaying && !isVideoEnded
      ensures videoCurrentTime == 0 && videoDuration == 0 && videoPosition == 0
      ensures !isDrawingMarker && !isValidMarker && !isTracking
      ensures markerStartPoint == Point(0, 0) && markerEndPoint == Point(0, 0)
    {
      isVideoPlaying, isVideoEnded := false, false;
      videoCurrentTime, videoDuration, videoPosition := 0, 0, 0;
      isDrawingMarker := false;
      markerStartPoint, markerEndPoint := Point(0, 0), Point(0, 0);
      isValidMarker, isTracking := false, false;
    }

    /** The marker effect (lines 59-83), run after the end point was given a new value. */
    method MarkerEffect()
      modifies this`isValidMarker
      ensures isValidMarker == EffectValidity(markerStartPoint, markerEndPoint, isDrawingMarker, old(isValidMarker))
    {
      if markerStartPoint.x != markerEndPoint.x && markerStartPoint.y != markerEndPoint.y {
        if !isDrawingMarker {
          isValidMarker := true;
        }
      } else {
        isValidMarker := false;
      }
    }

    /** `handleVideoPlayToggle` (lines 86-90), without the DOM play/pause call. */
    method HandleVideoPlayToggle()
      requires Valid()
      modifies this`isVideoPlaying
      ensures Valid()
      ensures isVideoPlaying == !old(isVideoPlaying)
    {
      isVideoPlaying := !isVideoPlaying;
    }

    /** `handleVideoTimeUpdate` (lines 93-96): the displayed time follows the video. */
    method HandleVideoTimeUpdate()
      requires Valid()
      modifies this`videoCurrentTime
      ensures Valid()
      ensures videoCurrentTime == videoPosition
    {
      videoCurrentTime := videoPosition;
    }

    /** `handleVideoLoadedMetadata` (lines 99-115), without the canvas resizing. */
    method HandleVideoLoadedMetadata(duration: nat)
      requires Valid()
      modifies this`videoDuration
      ensures Valid()
      ensures videoDuration == duration
    {
      videoDuration := duration;
    }

    /** `handleVideoEnded` (lines 118-121). */
    method HandleVideoEnded()
      requires Valid()
      modifies this`isVideoPlaying, this`isVideoEnded
      ensures Valid()
      ensures !isVideoPlaying && isVideoEnded
    {
      isVideoPlaying := false;
      isVideoEnded := true;
    }

    /**
      `handleVideoSeek` (lines 124-132). The seek bar delivers a string, which
      `!==` never finds equal to the numeric duration, so a seek always clears
      the ended flag.
    */
    method HandleVideoSeek(newTime: nat)
      requires Valid()
      modifies this`videoPosition, this`isVideoEnded
      ensures Valid()
      ensures videoPosition == newTime && !isVideoEnded
    {
      videoPosition := newTime;
      isVideoEnded := false;
    }

    /**
      `handleMouseDownOnCanvas` (lines 146-157) and the effect it triggers:
      ignored while the video plays; otherwise a drag starts at `p`, with a
      marker collapsed to `p` and therefore invalid.
    */
    method HandleMouseDown(p: Point)
      requires Valid()
      modifies this`isDrawingMarker, this`markerStartPoint, this`markerEndPoint, this`isValidMarker
      ensures Valid()
      ensures old(isVideoPlaying) ==> unchanged(this)
      ensures !old(isVideoPlaying) ==>
        isDrawingMarker && markerStartPoint == p && markerEndPoint == p && !isValidMarker
    {
      if isVideoPlaying {
        return;
      }
      isDrawingMarker := true;
      markerStartPoint, markerEndPoint := p, p;
      MarkerEffect();
    }

    /**
      `handleMouseMoveOnCanvas` (lines 160-168) and the effect it triggers:
      ignored unless drawing; otherwise only the end point moves, and the
      marker stays invalid.
    */
    method HandleMouseMove(p: Point)
      requires Valid()
      modifies this`markerEndPoint, this`isValidMarker
      ensures Valid()
      ensures !old(isDrawingMarker) ==> unchanged(this)
      ensures old(isDrawingMarker) ==>
        markerEndPoint == p && markerStartPoint == old(markerStartPoint) && !isValidMarker
    {
      if !isDrawingMarker {
        return;
      }
      markerEndPoint := p;
      MarkerEffect();
    }

    /**
      `handleMouseUpOnCanvas` (lines 171-181) and the effect it triggers:
      ignored unless drawing; otherwise drawing ends at `p`, and the marker
      is valid exactly when it differs from the start in both x and y.
    */
    method HandleMouseUp(p: Point)
      requires Valid()
      modifies this`isDrawingMarker, this`markerEndPoint, this`isValidMarker
      ensures Valid()
      ensures !old(isDrawingMarker) ==> unchanged(this)
      ensures old(isDrawingMarker) ==>
        && !isDrawingMarker && markerEndPoint == p && markerStartPoint == old(markerStartPoint)
        && (isValidMarker <==> NonDegenerate(markerStartPoint, p))
    {
      if !isDrawingMarker {
        return;
      }
      isDrawingMarker := false;
      markerEndPoint := p;
      MarkerEffect();
    }

    /**
      `handleResetMark` (lines 184-192), offered only with a valid marker
      (line 447): the marker collapses onto its start point, becomes invalid,
      tracking is switched off and playback pauses.
    */
    method HandleResetMark()
      requires Valid() && isValidMarker
      modifies this`markerEndPoint, this`isValidMarker, this`isTracking, this`isVideoPlaying
      ensures Valid()
      ensures markerEndPoint == markerStartPoint
      ensures !isValidMarker && !isTracking && !isVideoPlaying
    {
      markerEndPoint := markerStartPoint;
      isValidMarker := false;
      isTracking := false;
      isVideoPlaying := false;
      MarkerEffect();
    }

    /**
      `startTracking` (lines 195-233, 358), offered only with a valid marker
      while not tracking (line 463): tracking and playback are switched on,
      an ended video is rewound to 0, and a new loop is scheduled with its
      own buffers and the normalised marker as its search window.
    */
    method StartTracking() returns (loop: TrackingLoop)
      requires Valid() && isValidMarker && !isTracking
      modifies this`isTracking, this`isVideoEnded, this`videoPosition, this`isVideoPlaying
      ensures Valid()
      ensures isTracking && isVideoPlaying && !isVideoEnded
      ensures videoPosition == if old(isVideoEnded) then 0 else old(videoPosition)
      ensures fresh(loop) && loop.Valid() && loop.scheduled
      ensures loop.live == SessionBuffers
      ensures loop.trackWindow == InitialWindow(markerStartPoint, markerEndPoint)
      ensures loop.trackWindow.width > 0 && loop.trackWindow.height > 0
    {
      isTracking := true;
      if isVideoEnded {
        isVideoEnded := false;
        videoPosition := 0;
      }
      isVideoPlaying := true;
      loop := new TrackingLoop(InitialWindow(markerStartPoint, markerEndPoint));
    }
  }

  /**
    One tracking session started by `startTracking`: the state its
    `processVideo` closure keeps across frames.
  */
  class TrackingLoop {
    var trackWindow: Window
    /** The session buffers not yet deleted. */
    var live: set<Buffer>
    /** A call of `processVideo` is waiting for the next animation frame. */
    var scheduled: bool
    /** How often each buffer has been deleted. */
    ghost var deleted: multiset<Buffer>

    /**
      The buffers are all live or all deleted, each deleted at most once,
      and a scheduled loop still holds all of them.
    */
    ghost predicate Valid()
      reads this
    {
      && (live == SessionBuffers || live == {})
      && (forall b :: deleted[b] == if b in live then 0 else 1)
      && (scheduled ==> live == SessionBuffers)
    }

    constructor (window: Window)
      ensures Valid()
      ensures trackWindow == window && live == SessionBuffers && scheduled
      ensures forall b :: deleted[b] == 0
    {
      trackWindow := window;
      live := SessionBuffers;
      scheduled := true;
      deleted := multiset{};
      forall b: Buffer ensures b in SessionBuffers {
        match b
        case Frame =>
        case BackProjection =>
        case HsvVector =>
        case RoiHistogram =>
        case Hsv =>
      }
    }

    /** `buffer.delete()`: only a buffer that is still live may be deleted. */
    method Delete(b: Buffer)
      requires b in live && deleted[b] == 0
      modifies this`live, this`deleted
      ensures live == old(live) - {b}
      ensures deleted == old(deleted) + multiset{b}
    {
      live := live - {b};
      deleted := deleted + multiset{b};
    }

    /**
      One call of `processVideo` (lines 293-355), reading the ended and
      validity flags of `tracker` as they are now. When the video has ended
      or the marker is not valid, tracking is switched off, every buffer is
      deleted exactly once and nothing is rescheduled. Otherwise the window
      moves to where `camShift` (CamShift on this frame's back-projection)
      takes it and the loop reschedules itself, unless an exception stops it
      first: then nothing is rescheduled, and the buffers stay live and the
      tracking flag stays as it was.
    */
    method ProcessVideo(tracker: ObjectTracker, camShift: Window -> Window, fault: Fault)
      requires Valid() && scheduled
      modifies this, tracker`isTracking
      ensures Valid()
      ensures tracker.isVideoEnded || !tracker.isValidMarker ==>
        && !tracker.isTracking && !scheduled && trackWindow == old(trackWindow)
        && live == {} && (forall b :: deleted[b] == 1)
      ensures !tracker.isVideoEnded && tracker.isValidMarker ==>
        && tracker.isTracking == old(tracker.isTracking)
        && live == SessionBuffers && deleted == old(deleted)
        && scheduled == (fault == NoFault)
        && trackWindow == if fault == FaultBeforeCamShift then old(trackWindow) else camShift(old(trackWindow))
    {
      scheduled := false;
      if tracker.isVideoEnded || !tracker.isValidMarker {
        tracker.isTracking := false;
        Delete(Frame);
        Delete(BackProjection);
        Delete(HsvVector);
        Delete(RoiHistogram);
        Delete(Hsv);
        return;
      }
      if fault == FaultBeforeCamShift {
        return;
      }
      trackWindow := camShift(trackWindow);
      if fault == FaultAfterCamShift {
        return;
      }
      scheduled := true;
    }
  }

  /**
    A marker dragged from (5,5) to (5,9) is degenerate in x: it is invalid
    and "start tracking" is not offered.
  */
  method DegenerateMarkerScenario() returns (valid: bool, startOffered: bool)
    ensures !valid && !startOffered
  {
    var tracker := new ObjectTracker();
    tracker.HandleMouseDown(Point(5, 5));
    tracker.HandleMouseMove(Point(5, 7));
    tracker.HandleMouseUp(Point(5, 9));
    valid := tracker.isValidMarker;
    var tracking := tracker.isTracking;
    startOffered := valid && !tracking;
  }

  /**
    Marking (2,2)-(6,6) and starting tracking gives the 4x4 search window
    at (2,2) (`initialWindow`, read right after the start). The CamShift
    step passed in here is the identity, standing for a patch that does not
    move, so the window after the later steps (`window`) is still that one;
    this says nothing about CamShift on moving content. Once the video
    ends, the next iteration stops: tracking is off, nothing is
    rescheduled, every buffer has been deleted, and tracking can be started
    again from the beginning of the video.
  */
  method EndOfStreamScenario() returns (initialWindow: Window, window: Window, tracking: bool,
                                        rescheduled: bool, remaining: set<Buffer>,
                                        startAgainOffered: bool)
    ensures initialWindow == Window(2, 2, 4, 4)
    ensures window == initialWindow
    ensures !tracking && !rescheduled && remaining == {} && startAgainOffered
  {
    var tracker := new ObjectTracker();
    tracker.HandleMouseDown(Point(2, 2));
    tracker.HandleMouseUp(Point(6, 6));
    var loop := tracker.StartTracking();
    initialWindow := loop.trackWindow;
    var staticPatch := (w: Window) => w;
    loop.ProcessVideo(tracker, staticPatch, NoFault);
    loop.ProcessVideo(tracker, staticPatch, NoFault);
    tracker.HandleVideoEnded();
    loop.ProcessVideo(tracker, staticPatch, NoFault);
    window := loop.trackWindow;
    tracking := tracker.isTracking;
    rescheduled := loop.scheduled;
    remaining := loop.live;
    var valid := tracker.isValidMarker;
    startAgainOffered := valid && !tracking;
  }

  /**
    Resetting the mark while tracking pauses playback at once, and the next
    iteration stops the loop and deletes its buffers.
  */
  method ResetWhileTrackingScenario() returns (playing: bool, tracking: bool, rescheduled: bool,
                                               remaining: set<Buffer>)
    ensures !playing && !tracking && !rescheduled && remaining == {}
  {
    var tracker := new ObjectTracker();
    tracker.HandleMouseDown(Point(10, 20));
    tracker.HandleMouseMove(Point(30, 25));
    tracker.HandleMouseUp(Point(40, 60));
    var loop := tracker.StartTracking();
    loop.ProcessVideo(tracker, (w: Window) => Window(w.x + 1, w.y, w.width, w.height), NoFault);
    tracker.HandleResetMark();
    loop.ProcessVideo(tracker, (w: Window) => w, NoFault);
    playing := tracker.isVideoPlaying;
    tracking := tracker.isTracking;
    rescheduled := loop.scheduled;
    remaining := loop.live;
  }
}
