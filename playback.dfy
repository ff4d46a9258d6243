/** The controller `runInBrowser` returns (src/janim.ts): a small state
    machine over `playing`, `currentT`, `lastTimestamp` and the output
    resolution. The canvas and `requestAnimationFrame` are not modelled;
    whether a frame callback is pending is a field, and each render is
    recorded with the time and resolution it was drawn at. */
module Playback {
  import opened Common

  /** One call of the animation function: scene time and the output
      resolution the logical canvas was scaled to. */
  datatype Render = Render(t: real, resW: real, resH: real)

  /** Where `seek(t)` lands: t clamped into [0, duration]. */
  function SeekTarget(t: real, duration: real): (r: real)
    ensures duration >= 0.0 ==> 0.0 <= r <= duration
    ensures 0.0 <= t <= duration ==> r == t
    ensures t <= 0.0 ==> r == 0.0
    ensures 0.0 <= duration <= t ==> r == duration
  {
    Max(0.0, Min(t, duration))
  }

  /** The time after a frame callback at `timestamp` (milliseconds): it
      moves on by the elapsed seconds only when a previous timestamp is
      known, and never beyond `duration`. */
  function Advance(currentT: real, last: Option<real>, timestamp: real, duration: real): (r: real)
    ensures last.None? ==> r == currentT
    ensures last.Some? ==> r <= duration
    ensures last.Some? && currentT + (timestamp - last.value) / 1000.0 <= duration ==>
              r == currentT + (timestamp - last.value) / 1000.0
    ensures last.Some? && currentT + (timestamp - last.value) / 1000.0 >= duration ==> r == duration
    ensures 0.0 <= currentT <= duration && (last.Some? ==> last.value <= timestamp) ==>
              0.0 <= r <= duration && currentT <= r
  {
    match last
    case None => currentT
    case Some(prev) => Min(currentT + (timestamp - prev) / 1000.0, duration)
  }

  /** The time after a run of frame callbacks at the given timestamps. */
  function AfterFrames(currentT: real, last: Option<real>, stamps: seq<real>, duration: real): real
    decreases |stamps|
  {
    if stamps == [] then currentT
    else AfterFrames(Advance(currentT, last, stamps[0], duration), Some(stamps[0]), stamps[1..], duration)
  }

  /** Timestamps as `requestAnimationFrame` hands them out: never going
      back, also relative to the last one seen. */
  predicate Nondecreasing(last: Option<real>, stamps: seq<real>)
  {
    (last.Some? && |stamps| > 0 ==> last.value <= stamps[0]) &&
    forall i, j :: 0 <= i < j < |stamps| ==> stamps[i] <= stamps[j]
  }

  /** Starting inside [0, duration], any run of frames with non-decreasing
      timestamps keeps time inside [0, duration] and never moves it back. */
  lemma {:induction false} FramesStayInRange(currentT: real, last: Option<real>, stamps: seq<real>, duration: real)
    requires 0.0 <= currentT <= duration
    requires Nondecreasing(last, stamps)
    ensures currentT <= AfterFrames(currentT, last, stamps, duration) <= duration
    decreases |stamps|
  {
    if stamps != [] {
      var next := Advance(currentT, last, stamps[0], duration);
      assert Nondecreasing(Some(stamps[0]), stamps[1..]) by {
        forall i, j | 0 <= i < j < |stamps[1..]|
          ensures stamps[1..][i] <= stamps[1..][j]
        {
          assert stamps[1..][i] == stamps[i + 1] && stamps[1..][j] == stamps[j + 1];
        }
        if |stamps| > 1 {
          assert stamps[0] <= stamps[1];
        }
      }
      FramesStayInRange(next, Some(stamps[0]), stamps[1..], duration);
    }
  }

  lemma {:induction false} SeekClampsExamples(duration: real)
    requires duration >= 0.0
    ensures SeekTarget(-5.0, duration) == 0.0
    ensures SeekTarget(duration + 100.0, duration) == duration
  {
  }

  class Controller {
    const duration: real
    const width: real
    const height: real
    var resW: real
    var resH: real
    var playing: bool
    var currentT: real
    var lastTimestamp: Option<real>
    /** A frame callback has been requested and not cancelled. */
    var framePending: bool
    /** Every render so far, oldest first. */
    var renders: seq<Render>

    /** A frame is pending exactly while playing, and the time lies within
        [0, duration] (for a configured duration that is not negative). */
    predicate Valid()
      reads this
    {
      && framePending == playing
      && (0.0 <= duration ==> 0.0 <= currentT <= duration)
    }

    /** Starts playing from time 0 at the configured resolution and
        requests the first frame. */
    constructor (configDuration: real, configWidth: real, configHeight: real)
      ensures Valid()
      ensures duration == configDuration && width == configWidth && height == configHeight
      ensures resW == configWidth && resH == configHeight
      ensures playing && currentT == 0.0 && lastTimestamp.None?
      ensures renders == []
    {
      duration := configDuration;
      width := configWidth;
      height := configHeight;
      resW := configWidth;
      resH := configHeight;
      playing := true;
      currentT := 0.0;
      lastTimestamp := None;
      framePending := true;
      renders := [];
    }

    /** Whether the animation is playing: under the invariant, exactly
        when a frame callback is pending. */
    function IsPlaying(): (r: bool)
      reads this
      ensures Valid() ==> (r <==> framePending)
    {
      playing
    }

    /** The current time, which the invariant keeps within [0, duration]. */
    function CurrentTime(): (r: real)
      reads this
      requires Valid()
      ensures 0.0 <= duration ==> 0.0 <= r <= duration
    {
      currentT
    }

    /** The frame callback: advance time, render, stop at the end, and ask
        for the next frame only while still playing. */
    method Frame(timestamp: real)
      requires Valid()
      requires lastTimestamp.Some? ==> lastTimestamp.value <= timestamp
      modifies this
      ensures Valid()
      ensures currentT == Advance(old(currentT), old(lastTimestamp), timestamp, duration)
      ensures lastTimestamp == Some(timestamp)
      ensures renders == old(renders) + [Render(currentT, resW, resH)]
      ensures playing == (old(playing) && currentT < duration)
      ensures currentT >= duration ==> !playing
      ensures resW == old(resW) && resH == old(resH)
      ensures 0.0 <= duration ==> old(currentT) <= currentT
    {
      if lastTimestamp.Some? {
        var dt := (timestamp - lastTimestamp.value) / 1000.0;
        currentT := Min(currentT + dt, duration);
      }
      lastTimestamp := Some(timestamp);
      renders := renders + [Render(currentT, resW, resH)];
      if currentT >= duration {
        playing := false;
      }
      framePending := playing;
    }

    /** Resume; a finished animation restarts from 0. Already playing:
        nothing changes. */
    method Play()
      requires Valid()
      modifies this
      ensures Valid()
      ensures old(playing) ==> currentT == old(currentT) && lastTimestamp == old(lastTimestamp)
      ensures !old(playing) ==> lastTimestamp.None?
      ensures !old(playing) && old(currentT) >= duration ==> currentT == 0.0
      ensures !old(playing) && old(currentT) < duration ==> currentT == old(currentT)
      ensures playing
      ensures renders == old(renders) && resW == old(resW) && resH == old(resH)
    {
      if playing {
        return;
      }
      if currentT >= duration {
        currentT := 0.0;
      }
      playing := true;
      lastTimestamp := None;
      framePending := true;
    }

    /** Stop and cancel the pending frame. */
    method Pause()
      requires Valid()
      modifies this
      ensures Valid()
      ensures !playing && !framePending && lastTimestamp.None?
      ensures currentT == old(currentT)
      ensures renders == old(renders) && resW == old(resW) && resH == old(resH)
    {
      playing := false;
      lastTimestamp := None;
      framePending := false;
    }

    /** Jump to `t`, clamped into [0, duration], and render once. */
    method Seek(t: real)
      requires Valid()
      modifies this
      ensures Valid()
      ensures currentT == SeekTarget(t, duration)
      ensures lastTimestamp.None?
      ensures playing == old(playing)
      ensures renders == old(renders) + [Render(currentT, resW, resH)]
      ensures resW == old(resW) && resH == old(resH)
    {
      currentT := Max(0.0, Min(t, duration));
      lastTimestamp := None;
      renders := renders + [Render(currentT, resW, resH)];
    }

    /** Change the output resolution; re-render at once only when paused,
        since a playing animation renders on its next frame anyway. */
    method SetResolution(w: real, h: real)
      requires Valid()
      modifies this
      ensures Valid()
      ensures resW == w && resH == h
      ensures playing == old(playing) && currentT == old(currentT) && lastTimestamp == old(lastTimestamp)
      ensures renders == if playing then old(renders) else old(renders) + [Render(currentT, w, h)]
    {
      resW := w;
      resH := h;
      if !playing {
        renders := renders + [Render(currentT, resW, resH)];
      }
    }
  }
}
