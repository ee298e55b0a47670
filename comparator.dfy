/** The VideoComparison widget: split position, playback flag, canvas
    size, readiness listeners and the self-rescheduling draw loop.

    The media element, the container's layout width and the pointer's
    coordinates are outside the widget; each operation that reads them
    takes them as parameters.  requestAnimationFrame is modelled by
    `pendingFrames`, the number of drawFrame callbacks queued for the next
    display refresh.  `Tick` is one of those callbacks running; a refresh
    runs every callback queued before it (Playback.Refresh).
 */
module Comparator {
  import opened SplitGeometry
  import Playback

  /** The defaults of a canvas's width and height attributes. */
  const DefaultCanvasWidth: nat := 300
  const DefaultCanvasHeight: nat := 150

  /** Assigning a non-negative number to a canvas's width or height: the
      WebIDL unsigned long conversion keeps the integer part modulo 2^32,
      and the reflected attribute stores that value when it is at most
      2^31 - 1, and the attribute's default otherwise. */
  function CanvasDimension(x: real, fallback: nat): (n: nat)
    requires x >= 0.0
    ensures x < 2147483648.0 ==> n as real <= x < n as real + 1.0
    ensures 2147483648.0 <= x < 4294967296.0 ==> n == fallback
    ensures n <= 0x7FFF_FFFF || n == fallback
  {
    var v := x.Floor % 0x1_0000_0000;
    if v <= 0x7FFF_FFFF then v else fallback
  }

  class VideoComparison {
    /** Split position; stored as computed, clamped only where it is used. */
    var position: real
    var isPlaying: bool
    /** Read by playWhenReady, never assigned, so it stays falsy. */
    var readyStateListenerAttached: bool
    /** Number of readystatechange listeners added to the document. */
    var listeners: nat
    var canvasWidth: nat
    var canvasHeight: nat
    /** drawFrame callbacks queued with requestAnimationFrame. */
    var pendingFrames: nat
    /** The playbackRate the constructor gives the video. */
    var playbackRate: real
    /** Whether video.play() was called more recently than video.pause(). */
    ghost var mediaPlaying: bool

    /** The flag and the queued frames as a state of the playback machine. */
    ghost function State(): Playback.Loop
      reads this
    {
      Playback.Loop(isPlaying, pendingFrames)
    }

    /** The media plays exactly while the widget says it does, and a
        playing widget always has a frame queued. */
    ghost predicate Valid()
      reads this
    {
      mediaPlaying == isPlaying && Playback.Alive(State())
    }

    /** The canvas attributes hold the dimensions resize() computes. */
    ghost predicate SizedFor(m: Media, containerWidth: real)
      reads this
      requires m.videoWidth > 0.0 && m.videoHeight >= 0.0 && containerWidth >= 0.0
    {
      var s := CanvasSize(m, containerWidth);
      canvasWidth == CanvasDimension(s.width, DefaultCanvasWidth)
        && canvasHeight == CanvasDimension(s.height, DefaultCanvasHeight)
    }

    /** The constructor: position 0.5, not playing, half-speed video, no
        listener and no frame queued; the canvas keeps the size the page
        gave it. */
    constructor (initialWidth: nat, initialHeight: nat)
      ensures Valid() && Playback.SingleLoop(State())
      ensures position == 0.5 && !isPlaying && !readyStateListenerAttached
      ensures listeners == 0 && pendingFrames == 0 && playbackRate == 0.5
      ensures canvasWidth == initialWidth && canvasHeight == initialHeight
    {
      position := 0.5;
      isPlaying := false;
      readyStateListenerAttached := false;
      listeners := 0;
      canvasWidth, canvasHeight := initialWidth, initialHeight;
      pendingFrames := 0;
      playbackRate := 0.5;
      mediaPlaying := false;
    }

    /** resize(): size the canvas to the container's width and the height
        that keeps one half-frame's aspect ratio. */
    method Resize(m: Media, containerWidth: real)
      requires m.videoWidth > 0.0 && m.videoHeight >= 0.0 && containerWidth >= 0.0
      modifies this`canvasWidth, this`canvasHeight
      ensures SizedFor(m, containerWidth)
    {
      var s := CanvasSize(m, containerWidth);
      canvasWidth := CanvasDimension(s.width, DefaultCanvasWidth);
      canvasHeight := CanvasDimension(s.height, DefaultCanvasHeight);
    }

    /** play(): resize first; if already playing, stop there; otherwise
        mark playing, start the media and queue the first frame. */
    method Play(m: Media, containerWidth: real)
      requires Valid()
      requires m.videoWidth > 0.0 && m.videoHeight >= 0.0 && containerWidth >= 0.0
      modifies this
      ensures Valid() && SizedFor(m, containerWidth)
      ensures State() == Playback.Step(old(State()), Playback.PlayCall)
      ensures position == old(position) && listeners == old(listeners)
      ensures readyStateListenerAttached == old(readyStateListenerAttached)
      ensures playbackRate == old(playbackRate)
    {
      Resize(m, containerWidth);
      if isPlaying {
        return;
      }
      isPlaying := true;
      mediaPlaying := true;
      pendingFrames := pendingFrames + 1;
    }

    /** pause(): stop the media and clear the flag.  The queued frame, if
        any, stays queued; it will see the flag and not reschedule. */
    method Pause()
      requires Valid()
      modifies this`isPlaying, this`mediaPlaying
      ensures Valid() && State() == Playback.Step(old(State()), Playback.PauseCall)
    {
      mediaPlaying := false;
      isPlaying := false;
    }

    /** playWhenReady(): play now if the media can play; otherwise, unless
        the flag says a listener is attached, add one more readystatechange
        listener to the document. */
    method PlayWhenReady(m: Media, containerWidth: real)
      requires Valid() && containerWidth >= 0.0
      requires CanPlay(m) ==> m.videoWidth > 0.0 && m.videoHeight >= 0.0
      modifies this
      ensures Valid()
      ensures CanPlay(m) ==> (SizedFor(m, containerWidth) && listeners == old(listeners)
        && State() == Playback.Step(old(State()), Playback.PlayCall))
      ensures !CanPlay(m) ==> (State() == old(State())
        && canvasWidth == old(canvasWidth) && canvasHeight == old(canvasHeight)
        && listeners == old(listeners) + (if old(readyStateListenerAttached) then 0 else 1))
      ensures position == old(position) && playbackRate == old(playbackRate)
      ensures readyStateListenerAttached == old(readyStateListenerAttached)
    {
      if CanPlay(m) {
        Play(m, containerWidth);
      } else if !readyStateListenerAttached {
        listeners := listeners + 1;
      }
    }

    /** The document fires readystatechange: every attached listener, in
        turn, calls play() if the media can play by then.  Play is
        idempotent after the first call, so the effect is one play() or
        none. */
    method ReadyStateChange(m: Media, containerWidth: real)
      requires Valid() && containerWidth >= 0.0
      requires CanPlay(m) ==> m.videoWidth > 0.0 && m.videoHeight >= 0.0
      modifies this
      ensures Valid() && listeners == old(listeners)
      ensures listeners > 0 && CanPlay(m) ==> (SizedFor(m, containerWidth)
        && State() == Playback.Step(old(State()), Playback.PlayCall))
      ensures !(listeners > 0 && CanPlay(m)) ==> (State() == old(State())
        && canvasWidth == old(canvasWidth) && canvasHeight == old(canvasHeight))
      ensures position == old(position) && playbackRate == old(playbackRate)
      ensures readyStateListenerAttached == old(readyStateListenerAttached)
    {
      var i := 0;
      while i < listeners
        invariant 0 <= i <= listeners == old(listeners)
        invariant Valid()
        invariant i > 0 && CanPlay(m) ==> (SizedFor(m, containerWidth)
          && State() == Playback.Step(old(State()), Playback.PlayCall))
        invariant !(i > 0 && CanPlay(m)) ==> (State() == old(State())
          && canvasWidth == old(canvasWidth) && canvasHeight == old(canvasHeight))
        invariant position == old(position) && playbackRate == old(playbackRate)
        invariant readyStateListenerAttached == old(readyStateListenerAttached)
      {
        if CanPlay(m) {
          Play(m, containerWidth);
        }
        i := i + 1;
      }
    }

    /** mousemove: the pointer's page x normalised against the canvas's
        bounding rectangle, stored without clamping. */
    method TrackLocation(pageX: real, bcr: BoundingRect)
      requires bcr.width > 0.0
      modifies this`position
      ensures position == Normalize(pageX, bcr)
    {
      position := Normalize(pageX, bcr);
    }

    /** touchstart/touchmove: as TrackLocation with the first touch.  With
        no touch point, reading touches[0].pageX throws and the handler
        stops before it stores the position; `stored` says whether it did. */
    method TrackLocationTouch(touchPageXs: seq<real>, bcr: BoundingRect) returns (stored: bool)
      requires bcr.width > 0.0
      modifies this`position
      ensures stored == (|touchPageXs| > 0)
      ensures position == if stored then Normalize(touchPageXs[0], bcr) else old(position)
    {
      stored := |touchPageXs| > 0;
      if stored {
        position := Normalize(touchPageXs[0], bcr);
      }
    }

    /** mouseout: back to the middle, whatever the position was. */
    method MouseOut()
      modifies this`position
      ensures position == 0.5
    {
      position := 0.5;
    }

    /** One queued drawFrame callback runs: it draws the frame for the
        current position and queues the next one exactly when the widget is
        still playing. */
    method Tick(m: Media, containerWidth: real) returns (frame: Frame, reschedule: bool)
      requires Valid() && pendingFrames > 0
      requires m.videoWidth > 0.0 && containerWidth >= 0.0
      modifies this`pendingFrames
      ensures Valid()
      ensures frame == DrawFrame(m, containerWidth, position)
      ensures reschedule == isPlaying
      ensures State() == Playback.Step(old(State()), Playback.AnimationFrame)
    {
      pendingFrames := pendingFrames - 1;
      frame := DrawFrame(m, containerWidth, position);
      reschedule := isPlaying;
      if reschedule {
        pendingFrames := pendingFrames + 1;
      }
    }

    /** One display refresh: every drawFrame callback queued before it runs
        once, in turn, each drawing the frame for the current position. */
    method Refresh(m: Media, containerWidth: real) returns (frames: seq<Frame>)
      requires Valid()
      requires m.videoWidth > 0.0 && containerWidth >= 0.0
      modifies this`pendingFrames
      ensures Valid()
      ensures State() == Playback.Refresh(old(State()))
      ensures |frames| == old(pendingFrames)
      ensures forall i :: 0 <= i < |frames| ==> frames[i] == DrawFrame(m, containerWidth, position)
    {
      ghost var s0 := State();
      var queued := pendingFrames;
      frames := [];
      while |frames| < queued
        invariant |frames| <= queued
        invariant Valid()
        invariant State() == Playback.Run(s0, Playback.Frames(|frames|))
        invariant pendingFrames >= queued - |frames|
        invariant forall i :: 0 <= i < |frames| ==> frames[i] == DrawFrame(m, containerWidth, position)
      {
        Playback.RunFramesSnoc(s0, |frames|);
        var frame, again := Tick(m, containerWidth);
        frames := frames + [frame];
      }
    }

    /** play() with the second loop closed off: a loop is started only when
        no drawFrame is still queued from before the last pause(); that
        queued frame will see the flag and carry on as the loop. */
    method PlayOneLoop(m: Media, containerWidth: real)
      requires Valid() && Playback.SingleLoop(State())
      requires m.videoWidth > 0.0 && m.videoHeight >= 0.0 && containerWidth >= 0.0
      modifies this
      ensures Valid() && Playback.SingleLoop(State()) && SizedFor(m, containerWidth)
      ensures State() == Playback.StepOneLoop(old(State()), Playback.PlayCall)
      ensures position == old(position) && listeners == old(listeners)
      ensures readyStateListenerAttached == old(readyStateListenerAttached)
      ensures playbackRate == old(playbackRate)
    {
      Resize(m, containerWidth);
      if isPlaying {
        return;
      }
      isPlaying := true;
      mediaPlaying := true;
      if pendingFrames == 0 {
        pendingFrames := 1;
      }
    }

    /** playWhenReady() with its flag kept: the listener is added at most
        once. */
    method PlayWhenReadyOnce(m: Media, containerWidth: real)
      requires Valid() && containerWidth >= 0.0
      requires CanPlay(m) ==> m.videoWidth > 0.0 && m.videoHeight >= 0.0
      requires listeners <= 1 && (listeners == 1 <==> readyStateListenerAttached)
      modifies this
      ensures Valid()
      ensures listeners <= 1 && (listeners == 1 <==> readyStateListenerAttached)
      ensures CanPlay(m) ==> (SizedFor(m, containerWidth) && listeners == old(listeners)
        && State() == Playback.Step(old(State()), Playback.PlayCall))
      ensures !CanPlay(m) ==> (State() == old(State()) && listeners == 1
        && canvasWidth == old(canvasWidth) && canvasHeight == old(canvasHeight))
      ensures position == old(position) && playbackRate == old(playbackRate)
    {
      if CanPlay(m) {
        Play(m, containerWidth);
      } else if !readyStateListenerAttached {
        listeners := listeners + 1;
        readyStateListenerAttached := true;
      }
    }
  }

  /** Once paused, a widget with a single loop runs at most one more
      drawFrame callback: after it nothing is queued. */
  method LastFrameAfterPause(c: VideoComparison, m: Media, containerWidth: real)
    returns (reschedule: bool)
    requires c.Valid() && Playback.SingleLoop(c.State()) && c.pendingFrames > 0
    requires m.videoWidth > 0.0 && containerWidth >= 0.0
    modifies c
    ensures !reschedule && c.pendingFrames == 0 && !c.isPlaying
  {
    c.Pause();
    var frame;
    frame, reschedule := c.Tick(m, containerWidth);
  }

  /** pause() then play() before the queued frame runs, as a quick hide and
      show of the tab does: the old frame is still queued when play() sees
      the flag down and queues another.  The next refresh runs both, both
      re-queue, and every refresh draws twice from then on. */
  method RestartWithinFrame(m: Media, containerWidth: real) returns (loops: nat, drawn: nat)
    requires m.videoWidth > 0.0 && m.videoHeight >= 0.0 && containerWidth >= 0.0
    ensures loops == 2 && drawn == 2
  {
    var c := new VideoComparison(300, 150);
    c.Play(m, containerWidth);
    c.Pause();
    c.Play(m, containerWidth);
    Playback.RefreshWhilePlaying(c.State());
    var frames := c.Refresh(m, containerWidth);
    loops, drawn := c.pendingFrames, |frames|;
  }

  /** The same sequence with PlayOneLoop keeps a single loop: the next
      refresh draws once and leaves one frame queued. */
  method RestartWithinFrameOneLoop(m: Media, containerWidth: real) returns (loops: nat, drawn: nat)
    requires m.videoWidth > 0.0 && m.videoHeight >= 0.0 && containerWidth >= 0.0
    ensures loops == 1 && drawn == 1
  {
    var c := new VideoComparison(300, 150);
    c.PlayOneLoop(m, containerWidth);
    c.Pause();
    c.PlayOneLoop(m, containerWidth);
    Playback.RefreshWhilePlaying(c.State());
    var frames := c.Refresh(m, containerWidth);
    loops, drawn := c.pendingFrames, |frames|;
  }

  /** Two calls of playWhenReady() before the media can play add two
      listeners, although the flag is there to prevent it. */
  method ListenersAccumulate(m: Media) returns (added: nat)
    requires !CanPlay(m)
    ensures added == 2
  {
    var c := new VideoComparison(300, 150);
    c.PlayWhenReady(m, 0.0);
    c.PlayWhenReady(m, 0.0);
    added := c.listeners;
  }

  /** The same calls with PlayWhenReadyOnce add one listener. */
  method ListenersAccumulateOnce(m: Media) returns (added: nat)
    requires !CanPlay(m)
    ensures added == 1
  {
    var c := new VideoComparison(300, 150);
    c.PlayWhenReadyOnce(m, 0.0);
    c.PlayWhenReadyOnce(m, 0.0);
    added := c.listeners;
  }
}
