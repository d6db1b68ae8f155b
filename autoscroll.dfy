/** The teleprompter's autoscroll engine.

    While it runs, the engine is a chain of animation-frame callbacks. Each frame
    measures the time since the previous one (at most 100 ms), adds
    speed * dt / 1000 pixels to a fractional accumulator, moves the stage down by
    the whole pixels collected, and then either asks for another frame or, at the
    bottom, switches the run flag off.

    The browser is explicit here: the timestamps are parameters, and the pending
    `requestAnimationFrame` callback is the boolean `scheduled` (set by asking for a
    frame, cleared by `cancelAnimationFrame` and by the callback firing). Time and
    the accumulator are real numbers. */
module Autoscroll {
  import opened SpeedControl

  /** The longest elapsed time, in milliseconds, one frame is allowed to use. */
  const MaxFrameDt: real := 100.0

  /** `Math.min(now - prev, 100)`: the elapsed time a frame uses. It never exceeds
      100 ms, however long the real gap was, and is the real gap when that is shorter. */
  function ElapsedMs(prev: real, now: real): (dt: real)
    ensures dt <= MaxFrameDt && dt <= now - prev
    ensures dt == now - prev || dt == MaxFrameDt
  {
    if now - prev < MaxFrameDt then now - prev else MaxFrameDt
  }

  /** The pixels that `speed` pixels per second cover in `dt` milliseconds: never
      negative for a forward step of time, and at most speed / 10 in one frame. */
  function Feed(speed: int, dt: real): (px: real)
    ensures 0 <= speed && 0.0 <= dt ==> 0.0 <= px
    ensures 0 <= speed && dt <= MaxFrameDt ==> px <= speed as real / 10.0
  {
    speed as real * dt / 1000.0
  }

  /** The whole pixels taken out of the accumulator: its floor once it holds a
      pixel or more, leaving a fraction in [0, 1) behind; nothing below one pixel. */
  function StepOf(carry: real): (step: nat)
    ensures carry < 1.0 ==> step == 0
    ensures carry >= 1.0 ==> 1 <= step && 0.0 <= carry - step as real < 1.0
  {
    if carry >= 1.0 then carry.Floor else 0
  }

  /** The furthest offset the stage can show. */
  function Bound(max: int): nat {
    if max < 0 then 0 else max
  }

  /** Where the stage ends up after being scrolled down `step` pixels from `offset`
      when the largest offset is `max`: `min(offset + step, max)`, never below 0. */
  function ScrollBy(offset: int, step: nat, max: int): (r: int)
    ensures 0 <= r <= Bound(max)
    ensures 0 <= offset + step <= max ==> r == offset + step
    ensures 0 <= offset <= Bound(max) ==> offset <= r
    ensures 0 <= offset && offset + step > max ==> r == Bound(max)
  {
    var target := if offset + step > max then max else offset + step;
    if target < 0 then 0 else target
  }

  /** The state of one autoscroll loop: the stage offset (`scrollTop`), the
      fractional accumulator, the previous timestamp, the run flag, and whether a
      frame callback is pending. */
  datatype Loop = Loop(offset: int, carry: real, prev: real, running: bool, scheduled: bool)

  /** What every frame and every restart keep: the offset is inside the stage, the
      accumulator holds less than one pixel, and a frame is pending only while running. */
  predicate Inv(l: Loop, max: int) {
    0 <= l.offset <= Bound(max) && l.carry < 1.0 && (l.scheduled ==> l.running)
  }

  /** The pixels a frame at `now` adds to the accumulator. */
  function FrameFeed(l: Loop, speed: int, now: real): real {
    if l.running then Feed(speed, ElapsedMs(l.prev, now)) else 0.0
  }

  /** The whole pixels a frame at `now` scrolls by. */
  function FrameStep(l: Loop, speed: int, now: real): nat {
    if l.running then StepOf(l.carry + FrameFeed(l, speed, now)) else 0
  }

  /** One invocation of the frame callback at timestamp `now`, with the current
      speed and largest offset `max`. */
  function FrameOf(l: Loop, speed: int, max: int, now: real): (r: Loop)
    // a frame that finds the run flag off returns at once and changes nothing;
    // `scheduled` is then already false, as `Inv` says
    ensures !l.running ==> r == l
    // otherwise it moves the baseline and reschedules exactly when it is not at the bottom
    ensures l.running ==> r.prev == now && r.running == (r.offset < max) && r.scheduled == (r.offset < max)
    // the accumulator loses exactly the pixels stepped, and keeps less than one
    ensures r.carry == l.carry + FrameFeed(l, speed, now) - FrameStep(l, speed, now) as real
    ensures l.running ==> r.carry < 1.0
    ensures Inv(l, max) ==> Inv(r, max) && l.offset <= r.offset
    // a frame that keeps running moved the stage by the full step
    ensures Inv(l, max) && r.running ==> r.offset == l.offset + FrameStep(l, speed, now)
    // every running frame, the last one included, moves by the step, bounded by max
    ensures Inv(l, max) && l.running ==> r.offset == ScrollBy(l.offset, FrameStep(l, speed, now), max)
  {
    if !l.running then l
    else
      var acc := l.carry + Feed(speed, ElapsedMs(l.prev, now));
      var step := StepOf(acc);
      var offset := if step > 0 then ScrollBy(l.offset, step, max) else l.offset;
      var more := offset < max;
      Loop(offset, acc - step as real, now, more, more)
  }

  /** The effect that runs when the speed or the run flag changes: its cleanup
      cancels the pending frame, and, if the flag is on, it starts a fresh loop with
      an empty accumulator and `now` as baseline. The offset is left alone. */
  function Restarted(l: Loop, now: real): (r: Loop)
    ensures r.offset == l.offset && r.running == l.running && r.scheduled == l.running
    ensures l.running ==> r.carry == 0.0 && r.prev == now
    ensures !l.running ==> r.carry == l.carry && r.prev == l.prev
  {
    if l.running then Loop(l.offset, 0.0, now, true, true) else l.(scheduled := false)
  }

  /** The loop after frames at the timestamps `nows`, in order: each frame that
      reschedules itself is followed by the next. The invariant holds throughout,
      the offset never goes back, and a stopped loop stays as it is. */
  function Run(l: Loop, speed: int, max: int, nows: seq<real>): (r: Loop)
    ensures Inv(l, max) ==> Inv(r, max) && l.offset <= r.offset
    ensures !l.running ==> r == l
    decreases |nows|
  {
    if nows == [] then l else Run(FrameOf(l, speed, max, nows[0]), speed, max, nows[1..])
  }

  /** The pixels stepped over the frames at `nows`. */
  function Stepped(l: Loop, speed: int, max: int, nows: seq<real>): (px: int)
    ensures 0 <= px
    ensures !l.running ==> px == 0
    decreases |nows|
  {
    if nows == [] then 0
    else FrameStep(l, speed, nows[0]) + Stepped(FrameOf(l, speed, max, nows[0]), speed, max, nows[1..])
  }

  /** The sum of speed * dt / 1000 over the frames at `nows` that ran. */
  function Fed(l: Loop, speed: int, max: int, nows: seq<real>): (px: real)
    ensures !l.running ==> px == 0.0
    ensures 0 <= speed && NonDecreasingFrom(l.prev, nows) ==> 0.0 <= px
    decreases |nows|
  {
    if nows == [] then 0.0
    else FrameFeed(l, speed, nows[0]) + Fed(FrameOf(l, speed, max, nows[0]), speed, max, nows[1..])
  }

  /** The timestamps never go back, starting from `t`. */
  predicate NonDecreasingFrom(t: real, nows: seq<real>)
    decreases |nows|
  {
    nows == [] || (t <= nows[0] && NonDecreasingFrom(nows[0], nows[1..]))
  }

  /** `n` frames `period` milliseconds apart, the first one `period` after `t`. */
  function Uniform(t: real, period: real, n: nat): seq<real>
    decreases n
  {
    if n == 0 then [] else [t + period] + Uniform(t + period, period, n - 1)
  }

  /** Once the run flag is off, further frames change nothing and step nothing. */
  lemma {:induction false} StoppedStaysStopped(l: Loop, speed: int, max: int, nows: seq<real>)
    requires !l.running
    ensures Run(l, speed, max, nows) == l
    ensures Stepped(l, speed, max, nows) == 0 && Fed(l, speed, max, nows) == 0.0
    decreases |nows|
  {
    if nows != [] {
      StoppedStaysStopped(l, speed, max, nows[1..]);
    }
  }

  /** Accumulator conservation: the pixels stepped plus what is left in the
      accumulator are what was in it plus the sum of speed * dt / 1000. */
  lemma {:induction false} Conservation(l: Loop, speed: int, max: int, nows: seq<real>)
    ensures Stepped(l, speed, max, nows) as real + Run(l, speed, max, nows).carry
         == l.carry + Fed(l, speed, max, nows)
    decreases |nows|
  {
    if nows != [] {
      Conservation(FrameOf(l, speed, max, nows[0]), speed, max, nows[1..]);
    }
  }

  /** With time never going back and a non-negative speed, the accumulator stays
      in [0, 1) after every frame. */
  lemma {:induction false} CarryStaysFractional(l: Loop, speed: int, max: int, nows: seq<real>)
    requires 0.0 <= l.carry < 1.0 && 0 <= speed && NonDecreasingFrom(l.prev, nows)
    ensures 0.0 <= Run(l, speed, max, nows).carry < 1.0
    decreases |nows|
  {
    if nows != [] {
      if l.running {
        var dt := ElapsedMs(l.prev, nows[0]);
        assert 0.0 <= Feed(speed, dt) by {
          assert 0.0 <= dt;
          assert 0.0 <= speed as real * dt;
        }
        CarryStaysFractional(FrameOf(l, speed, max, nows[0]), speed, max, nows[1..]);
      } else {
        StoppedStaysStopped(l, speed, max, nows);
      }
    }
  }

  /** While the loop keeps running, the stage has moved by exactly the pixels stepped. */
  lemma {:induction false} OffsetTracksSteps(l: Loop, speed: int, max: int, nows: seq<real>)
    requires Inv(l, max) && Run(l, speed, max, nows).running
    ensures Run(l, speed, max, nows).offset == l.offset + Stepped(l, speed, max, nows)
    decreases |nows|
  {
    if nows != [] {
      var next := FrameOf(l, speed, max, nows[0]);
      if !next.running {
        StoppedStaysStopped(next, speed, max, nows[1..]);
      }
      OffsetTracksSteps(next, speed, max, nows[1..]);
    }
  }

  /** Starting from an empty accumulator, while the loop keeps running with time
      never going back, the stage has moved by the sum of speed * dt / 1000 rounded
      down: never more than that sum, and less than one pixel short of it. */
  lemma ScrolledWithinOnePixel(l: Loop, speed: int, max: int, nows: seq<real>)
    requires Inv(l, max) && l.carry == 0.0 && 0 <= speed && NonDecreasingFrom(l.prev, nows)
    requires Run(l, speed, max, nows).running
    ensures var moved := (Run(l, speed, max, nows).offset - l.offset) as real;
            Fed(l, speed, max, nows) - 1.0 < moved <= Fed(l, speed, max, nows)
  {
    Conservation(l, speed, max, nows);
    CarryStaysFractional(l, speed, max, nows);
    OffsetTracksSteps(l, speed, max, nows);
  }

  /** With nothing to scroll, the first frame stops the loop where it is. */
  lemma NothingToScroll(l: Loop, speed: int, max: int, now: real)
    requires Inv(l, max) && l.running && max <= 0
    ensures FrameOf(l, speed, max, now).offset == 0
    ensures !FrameOf(l, speed, max, now).running && !FrameOf(l, speed, max, now).scheduled
  {
  }

  /** Pausing and resuming makes no jump: a frame right at the resume time leaves
      the stage where it was paused (unless nothing was left to scroll, it keeps going). */
  lemma ResumeWithoutJump(l: Loop, speed: int, max: int, now: real)
    requires Inv(l, max) && !l.running
    ensures var resumed := Restarted(l.(running := true), now);
            var r := FrameOf(resumed, speed, max, now);
            r.offset == l.offset && r.carry == 0.0 && r.running == (l.offset < max)
  {
  }

  /** Speed 10 on a 1000-pixel document in a 700-pixel stage, frames 100 ms apart,
      from offset k: the loop reaches offset 300 and switches itself off. */
  lemma {:induction false} TenPixelsPerSecondFrom(k: nat, t: real)
    requires k < 300
    ensures Run(Loop(k, 0.0, t, true, true), 10, 1000 - 700, Uniform(t, 100.0, 300 - k))
         == Loop(300, 0.0, t + 100.0 * (300 - k) as real, false, false)
    decreases 300 - k
  {
    var l := Loop(k, 0.0, t, true, true);
    var nows := Uniform(t, 100.0, 300 - k);
    assert nows[0] == t + 100.0 && nows[1..] == Uniform(t + 100.0, 100.0, 300 - k - 1);
    assert ElapsedMs(t, t + 100.0) == 100.0;
    assert Feed(10, 100.0) == 1.0;
    assert StepOf(0.0 + 1.0) == 1;
    var next := FrameOf(l, 10, 300, t + 100.0);
    assert next == Loop(k + 1, 0.0, t + 100.0, k + 1 < 300, k + 1 < 300);
    if k + 1 < 300 {
      TenPixelsPerSecondFrom(k + 1, t + 100.0);
    }
  }

  /** The same document with frames 50 ms apart, from offset k: each frame feeds
      half a pixel, so every other frame leaves half a pixel in the accumulator and
      the next one scrolls by one; the loop reaches offset 300 and switches itself off. */
  lemma {:induction false} HalfPixelFramesFrom(k: nat, t: real)
    requires k < 300
    ensures Run(Loop(k, 0.0, t, true, true), 10, 1000 - 700, Uniform(t, 50.0, 2 * (300 - k)))
         == Loop(300, 0.0, t + 100.0 * (300 - k) as real, false, false)
    decreases 300 - k
  {
    var l := Loop(k, 0.0, t, true, true);
    var nows := Uniform(t, 50.0, 2 * (300 - k));
    var rest := Uniform(t + 100.0, 50.0, 2 * (300 - k - 1));
    assert nows[0] == t + 50.0 && nows[1..] == Uniform(t + 50.0, 50.0, 2 * (300 - k) - 1);
    assert nows[1..][0] == t + 100.0 && nows[1..][1..] == rest;
    assert Feed(10, 50.0) == 0.5;
    var half := FrameOf(l, 10, 300, t + 50.0);
    assert half == Loop(k, 0.5, t + 50.0, true, true);
    assert StepOf(0.5 + 0.5) == 1;
    var next := FrameOf(half, 10, 300, t + 100.0);
    assert next == Loop(k + 1, 0.0, t + 100.0, k + 1 < 300, k + 1 < 300);
    assert Run(l, 10, 300, nows) == Run(next, 10, 300, rest);
    if k + 1 < 300 {
      HalfPixelFramesFrom(k + 1, t + 100.0);
    }
  }

  /** From the top with 50 ms frames: 600 frames, 30 seconds in all, end at
      offset 300 with the run flag off and the accumulator empty. */
  lemma HalfPixelFramesReachBottom(t: real)
    ensures Run(Loop(0, 0.0, t, true, true), 10, 1000 - 700, Uniform(t, 50.0, 600))
         == Loop(300, 0.0, t + 30000.0, false, false)
  {
    HalfPixelFramesFrom(0, t);
  }

  /** The same document from the top: 300 frames, 30 seconds in all, end at
      offset 300 = 1000 - 700 with the run flag off. */
  lemma TenPixelsPerSecondReachesBottom(t: real)
    ensures Run(Loop(0, 0.0, t, true, true), 10, 1000 - 700, Uniform(t, 100.0, 300))
         == Loop(300, 0.0, t + 30000.0, false, false)
  {
    TenPixelsPerSecondFrom(0, t);
  }

  /** The teleprompter stage and its autoscroll loop. */
  class Teleprompter {
    var offset: int        // the stage's scrollTop
    var scrollHeight: int
    var clientHeight: int
    var speed: int         // pixels per second
    var running: bool      // the run flag, read live by every frame
    var scheduled: bool    // a frame callback is pending
    var prev: real         // timestamp of the previous frame
    var carry: real        // fractional pixels not yet scrolled

    /** `scrollHeight - clientHeight`, the largest offset the stage allows: never past
        the content, and nothing to scroll once the viewport is as tall as the content. */
    function MaxOffset(): (max: int)
      reads this
      ensures 0 <= clientHeight ==> max <= scrollHeight
      ensures scrollHeight <= clientHeight ==> Bound(max) == 0
    {
      scrollHeight - clientHeight
    }

    function State(): Loop
      reads this
    {
      Loop(offset, carry, prev, running, scheduled)
    }

    /** The invariant, short of the rule that a frame is pending only while running. */
    ghost predicate Settled()
      reads this
    {
      0 <= clientHeight && 0 <= scrollHeight &&
      SpeedMin <= speed <= SpeedMax &&
      0 <= offset <= Bound(MaxOffset()) && carry < 1.0
    }

    ghost predicate Valid()
      reads this
    {
      Settled() && Inv(State(), MaxOffset())
    }

    /** The page as it first appears: at the top, speed 10, paused. */
    constructor (scrollHeight: nat, clientHeight: nat)
      ensures Valid()
      ensures this.scrollHeight == scrollHeight && this.clientHeight == clientHeight
      ensures speed == SpeedMin && State() == Loop(0, 0.0, 0.0, false, false)
    {
      this.scrollHeight := scrollHeight;
      this.clientHeight := clientHeight;
      offset := 0;
      speed := SpeedMin;
      running := false;
      scheduled := false;
      prev := 0.0;
      carry := 0.0;
    }

    /** The frame callback, invoked at timestamp `now`. */
    method Frame(now: real)
      requires Valid()
      modifies this
      ensures Valid()
      ensures State() == FrameOf(old(State()), old(speed), old(MaxOffset()), now)
      ensures speed == old(speed) && scrollHeight == old(scrollHeight) && clientHeight == old(clientHeight)
    {
      if !running {
        return;
      }
      ghost var before := State();
      scheduled := false;
      var dt := now - prev;
      if dt > MaxFrameDt {
        dt := MaxFrameDt;
      }
      assert dt == ElapsedMs(before.prev, now);
      prev := now;
      var max := scrollHeight - clientHeight;
      carry := carry + Feed(speed, dt);
      assert carry == before.carry + FrameFeed(before, speed, now);
      var step := if carry >= 1.0 then carry.Floor else 0;
      assert step == FrameStep(before, speed, now);
      if step > 0 {
        var target := offset + step;
        if target > max {
          target := max;
        }
        if target < 0 {
          target := 0;
        }
        offset := target;
        carry := carry - step as real;
      }
      if offset < max {
        scheduled := true;
      } else {
        // switching the flag off re-runs the effect, which only cancels (nothing is pending)
        running := false;
      }
    }

    /** The effect's cleanup followed by the effect itself, after the run flag or
        the speed has changed. */
    method Restart(now: real)
      requires Settled()
      modifies this
      ensures Valid()
      ensures State() == Restarted(old(State()), now)
      ensures speed == old(speed) && scrollHeight == old(scrollHeight) && clientHeight == old(clientHeight)
    {
      scheduled := false;
      if running {
        prev := now;
        carry := 0.0;
        scheduled := true;
      }
    }

    /** The play/pause button at time `now`: flips the run flag, which re-runs the effect. */
    method ToggleRunning(now: real)
      requires Valid()
      modifies this
      ensures Valid()
      ensures State() == Restarted(old(State()).(running := !old(running)), now)
      ensures speed == old(speed) && scrollHeight == old(scrollHeight) && clientHeight == old(clientHeight)
    {
      running := !running;
      Restart(now);
    }

    /** `setSpeedClamped(v)` at time `now`. The effect re-runs only when the stored
        speed actually changes. */
    method ChangeSpeed(v: JsNumber, now: real)
      requires Valid() && !v.NaN?
      modifies this
      ensures Valid()
      ensures speed == ClampedSpeed(v)
      ensures State() == if speed == old(speed) then old(State()) else Restarted(old(State()), now)
      ensures scrollHeight == old(scrollHeight) && clientHeight == old(clientHeight)
    {
      var s := ClampedSpeed(v);
      if s != speed {
        speed := s;
        Restart(now);
      }
    }

    /** The "+" button at time `now`. */
    method IncreaseSpeed(now: real)
      requires Valid()
      modifies this
      ensures Valid()
      ensures speed == IncSpeed(old(speed))
      ensures State() == if speed == old(speed) then old(State()) else Restarted(old(State()), now)
      ensures scrollHeight == old(scrollHeight) && clientHeight == old(clientHeight)
    {
      ChangeSpeed(Finite((speed + SpeedStep) as real), now);
    }

    /** The "-" button at time `now`. */
    method DecreaseSpeed(now: real)
      requires Valid()
      modifies this
      ensures Valid()
      ensures speed == DecSpeed(old(speed))
      ensures State() == if speed == old(speed) then old(State()) else Restarted(old(State()), now)
      ensures scrollHeight == old(scrollHeight) && clientHeight == old(clientHeight)
    {
      ChangeSpeed(Finite((speed - SpeedStep) as real), now);
    }

    /** The reset button: back to the top; the loop, the flag and the accumulator are untouched. */
    method ResetScroll()
      requires Valid()
      modifies this
      ensures Valid()
      ensures State() == old(State()).(offset := 0)
      ensures speed == old(speed) && scrollHeight == old(scrollHeight) && clientHeight == old(clientHeight)
    {
      offset := 0;
    }

    /** The reader scrolls the stage by hand (wheel, scrollbar, keys) to offset `to`.
        The loop goes on from there at its next frame, since every frame reads the
        live offset; the flag, the pending frame and the accumulator are untouched. */
    method UserScroll(to: int)
      requires Valid() && 0 <= to <= Bound(MaxOffset())
      modifies this
      ensures Valid()
      ensures State() == old(State()).(offset := to)
      ensures speed == old(speed) && scrollHeight == old(scrollHeight) && clientHeight == old(clientHeight)
    {
      offset := to;
    }

    /** The stage's content or viewport changes size (the text is edited, the editor
        panel is shown or hidden); the browser pulls the offset back inside the new stage. */
    method Resize(scrollHeight: nat, clientHeight: nat)
      requires Valid()
      modifies this
      ensures Valid()
      ensures this.scrollHeight == scrollHeight && this.clientHeight == clientHeight
      ensures offset == if old(offset) <= Bound(MaxOffset()) then old(offset) else Bound(MaxOffset())
      ensures State() == old(State()).(offset := offset) && speed == old(speed)
    {
      this.scrollHeight := scrollHeight;
      this.clientHeight := clientHeight;
      var bound := Bound(scrollHeight - clientHeight);
      if offset > bound {
        offset := bound;
      }
    }
  }
}
