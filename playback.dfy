/** The playback state machine behind VideoComparison: the isPlaying flag
    and the number of drawFrame callbacks queued with requestAnimationFrame.
    play() and pause() move between Paused and Playing; each display
    refresh runs every callback queued before it, and each of them re-queues
    itself only while the widget is playing.
 */
module Playback {

  /** The flag and the number of queued frames. */
  datatype Loop = Loop(isPlaying: bool, pendingFrames: nat)

  /** What can happen to the loop: a play() call, a pause() call, or one
      queued drawFrame running. */
  datatype Event = PlayCall | PauseCall | AnimationFrame

  /** A playing widget has a frame queued: the loop cannot die while
      playing. */
  predicate Alive(s: Loop)
  {
    s.isPlaying ==> s.pendingFrames >= 1
  }

  /** At most one draw loop exists. */
  predicate SingleLoop(s: Loop)
  {
    s.pendingFrames <= 1
  }

  /** One event as the source handles it.  play() queues a frame whenever
      the flag was down; pause() only lowers the flag; a frame, when one is
      queued, re-queues itself iff the flag is up. */
  function Step(s: Loop, e: Event): Loop
  {
    match e
    case PlayCall => if s.isPlaying then s else Loop(true, s.pendingFrames + 1)
    case PauseCall => Loop(false, s.pendingFrames)
    case AnimationFrame =>
      if s.pendingFrames == 0 || s.isPlaying then s else Loop(false, s.pendingFrames - 1)
  }

  /** The state after a sequence of events. */
  function Run(s: Loop, es: seq<Event>): Loop
    decreases |es|
  {
    if es == [] then s else Run(Step(s, es[0]), es[1..])
  }

  /** play() is idempotent, so is pause(), and pause() then play() plays
      again with a frame queued. */
  lemma StepLaws(s: Loop)
    ensures Step(Step(s, PlayCall), PlayCall) == Step(s, PlayCall)
    ensures Step(Step(s, PauseCall), PauseCall) == Step(s, PauseCall)
    ensures Step(Step(s, PauseCall), PlayCall).isPlaying
    ensures Step(Step(s, PauseCall), PlayCall).pendingFrames >= 1
  {
  }

  /** Every event keeps a live loop alive. */
  lemma StepKeepsAlive(s: Loop, e: Event)
    requires Alive(s)
    ensures Alive(Step(s, e))
  {
  }

  /** Whatever happens, a live loop stays alive. */
  lemma {:induction false} RunKeepsAlive(s: Loop, es: seq<Event>)
    requires Alive(s)
    ensures Alive(Run(s, es))
    decreases |es|
  {
    if es != [] {
      StepKeepsAlive(s, es[0]);
      RunKeepsAlive(Step(s, es[0]), es[1..]);
    }
  }

  /** Without a pause() the widget keeps playing and keeps the same number
      of loops running: the draw loop continues while isPlaying. */
  lemma {:induction false} PlayingContinues(s: Loop, es: seq<Event>)
    requires s.isPlaying
    requires forall i :: 0 <= i < |es| ==> es[i] != PauseCall
    ensures Run(s, es) == s
    decreases |es|
  {
    if es != [] {
      PlayingContinues(Step(s, es[0]), es[1..]);
    }
  }

  /** Once paused, each drawFrame callback that runs retires itself: after
      as many callbacks as were queued, nothing is queued and no more run. */
  lemma {:induction false} PausedDrains(s: Loop, es: seq<Event>)
    requires !s.isPlaying
    requires forall i :: 0 <= i < |es| ==> es[i] == AnimationFrame
    ensures !Run(s, es).isPlaying
    ensures Run(s, es).pendingFrames == if |es| >= s.pendingFrames then 0 else s.pendingFrames - |es|
    decreases |es|
  {
    if es != [] {
      PausedDrains(Step(s, es[0]), es[1..]);
    }
  }

  /** n drawFrame callbacks running one after another. */
  function Frames(n: nat): (es: seq<Event>)
    ensures |es| == n
    ensures forall i :: 0 <= i < n ==> es[i] == AnimationFrame
  {
    if n == 0 then [] else [AnimationFrame] + Frames(n - 1)
  }

  /** One display refresh: every callback queued before it runs once, and
      what they queue waits for the next refresh.  A running callback
      re-queues at most itself, so running as many callbacks as were queued
      is exactly the refresh. */
  function Refresh(s: Loop): Loop
  {
    Run(s, Frames(s.pendingFrames))
  }

  /** Running one more callback after k of them: the refresh can be run
      one callback at a time. */
  lemma {:induction false} RunFramesSnoc(s: Loop, k: nat)
    ensures Run(s, Frames(k + 1)) == Step(Run(s, Frames(k)), AnimationFrame)
    decreases k
  {
    if k > 0 {
      RunFramesSnoc(Step(s, AnimationFrame), k - 1);
    }
  }

  /** After pause(), the next refresh runs every queued callback once more
      and leaves nothing queued, however many loops were running. */
  lemma RefreshAfterPause(s: Loop)
    ensures Refresh(Step(s, PauseCall)) == Loop(false, 0)
  {
    PausedDrains(Step(s, PauseCall), Frames(s.pendingFrames));
  }

  /** While playing, a refresh leaves the state as it found it: every loop
      draws once and re-queues itself. */
  lemma RefreshWhilePlaying(s: Loop)
    requires s.isPlaying
    ensures Refresh(s) == s
  {
    PlayingContinues(s, Frames(s.pendingFrames));
  }

  /** play() as corrected: when the flag is down it queues a frame only if
      none is still queued from before the last pause(). */
  function StepOneLoop(s: Loop, e: Event): Loop
  {
    match e
    case PlayCall =>
      if s.isPlaying then s else Loop(true, if s.pendingFrames == 0 then 1 else s.pendingFrames)
    case _ => Step(s, e)
  }

  function RunOneLoop(s: Loop, es: seq<Event>): Loop
    decreases |es|
  {
    if es == [] then s else RunOneLoop(StepOneLoop(s, es[0]), es[1..])
  }

  /** With the corrected play(), a single live loop stays single and live
      whatever happens. */
  lemma {:induction false} RunOneLoopKeepsSingle(s: Loop, es: seq<Event>)
    requires Alive(s) && SingleLoop(s)
    ensures Alive(RunOneLoop(s, es)) && SingleLoop(RunOneLoop(s, es))
    decreases |es|
  {
    if es != [] {
      RunOneLoopKeepsSingle(StepOneLoop(s, es[0]), es[1..]);
    }
  }
}
