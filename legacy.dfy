/** The older free-function variant, playVids(videoId): the same split
    compositing on a canvas sized to one half-frame, with the position in a
    closure variable, a stricter readiness gate and a draw loop that never
    stops.
 */
module Legacy {
  import opened SplitGeometry

  /** playVids starts only at HAVE_ENOUGH_DATA: readyState > 3. */
  predicate LegacyCanPlay(m: Media)
  {
    m.readyState > HaveFutureData
  }

  /** The legacy gate is strictly stronger than playWhenReady's: the two
      disagree exactly at readyState 3, HAVE_FUTURE_DATA. */
  lemma LegacyGateStricter(m: Media)
    ensures LegacyCanPlay(m) ==> CanPlay(m)
    ensures CanPlay(m) && !LegacyCanPlay(m) <==> m.readyState == 3
  {
  }

  /** One frame of the legacy drawLoop on a canvas vidWidth x vidHeight:
      the left half copied 1:1, then the source column shifted into the
      right half and drawn at the same x. */
  function LegacyFrame(vidWidth: real, vidHeight: real, position: real): Frame
  {
    var col := SplitColumn(vidWidth, position);
    Frame(Blit(Rect(0.0, 0.0, vidWidth, vidHeight), Rect(0.0, 0.0, vidWidth, vidHeight)),
          Blit(Rect(col.start + vidWidth, 0.0, col.width, vidHeight), Rect(col.start, 0.0, col.width, vidHeight)),
          vidWidth * position)
  }

  /** The legacy frame is the comparator's frame for a container exactly
      one half-frame wide: the canvas then has the half-frame's own height
      and every rectangle coincides. */
  lemma LegacyMatchesComparator(m: Media, position: real)
    requires m.videoWidth > 0.0
    ensures LegacyFrame(HalfWidth(m), m.videoHeight, position) == DrawFrame(m, HalfWidth(m), position)
  {
    CanvasHeightUnique(m, HalfWidth(m), m.videoHeight);
  }

  /** The state playVids keeps in its closures. */
  class LegacyMerge {
    /** The handlers and the loop exist only if the gate passed. */
    const started: bool
    /** Half-frame width and height, read once when playVids runs. */
    const vidWidth: real
    const vidHeight: real
    var position: real
    var pendingFrames: nat
    ghost var mediaPlaying: bool

    /** playVids(videoId): read the dimensions once; if the media is past
        HAVE_FUTURE_DATA, start it, attach the pointer handlers and queue
        the first frame; otherwise do nothing more. */
    constructor PlayVids(m: Media)
      ensures started == LegacyCanPlay(m)
      ensures position == 0.5 && vidWidth == HalfWidth(m) && vidHeight == m.videoHeight
      ensures mediaPlaying == started
      ensures pendingFrames == if started then 1 else 0
    {
      started := LegacyCanPlay(m);
      vidWidth := HalfWidth(m);
      vidHeight := m.videoHeight;
      position := 0.5;
      mediaPlaying := LegacyCanPlay(m);
      pendingFrames := if LegacyCanPlay(m) then 1 else 0;
    }

    /** mousemove: normalise and store, unclamped; without the handler
        (gate not passed) the event changes nothing. */
    method TrackLocation(pageX: real, bcr: BoundingRect)
      requires bcr.width > 0.0
      modifies this`position
      ensures position == if started then Normalize(pageX, bcr) else old(position)
    {
      if started {
        position := Normalize(pageX, bcr);
      }
    }

    /** touchstart/touchmove with the first touch; with no touch point the
        handler throws before storing the position. */
    method TrackLocationTouch(touchPageXs: seq<real>, bcr: BoundingRect)
      requires bcr.width > 0.0
      modifies this`position
      ensures position == if started && |touchPageXs| > 0 then Normalize(touchPageXs[0], bcr) else old(position)
    {
      if started && |touchPageXs| > 0 {
        position := Normalize(touchPageXs[0], bcr);
      }
    }

    /** The queued drawLoop callback runs: it queues the next one
        unconditionally, so the number of queued frames never drops and the
        loop runs as long as the page does. */
    method Tick() returns (frame: Frame, reschedule: bool)
      requires pendingFrames > 0
      ensures reschedule
      ensures frame == LegacyFrame(vidWidth, vidHeight, position)
    {
      reschedule := true;
      frame := LegacyFrame(vidWidth, vidHeight, position);
    }
  }
}
