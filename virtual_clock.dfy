/** The shared virtual clock (src/context/TimeContext.jsx): an hour on a 24-hour dial
    that runs at one virtual day per 240 real seconds while it is playing. Frame
    timestamps are milliseconds, as `requestAnimationFrame` delivers them. */
module VirtualClock {
  import opened JsNumber

  /** `DAY_DURATION_SECONDS`. */
  const DaySeconds: real := 240.0

  /** `(24 / DAY_DURATION_SECONDS) * ((now - last) / 1000)`: virtual hours for the
      milliseconds between two frames, one hour per ten real seconds. */
  function HoursToAdd(last: real, now: real): (h: real)
    ensures h == (now - last) / 10000.0
    ensures last <= now ==> h >= 0.0
    ensures now == last + 10000.0 ==> h == 1.0
    ensures now == last + DaySeconds * 1000.0 ==> h == 24.0
  {
    (24.0 / DaySeconds) * ((now - last) / 1000.0)
  }

  /** The hour after one frame: `(prev + hoursToAdd) % 24` while playing, unchanged
      while paused. */
  function Advance(time: real, isPlaying: bool, lastTick: real, now: real): real
  {
    if isPlaying then Rem(time + HoursToAdd(lastTick, now), 24.0) else time
  }

  /** A paused frame leaves the hour as it is; a playing frame moves any non-negative
      hour forward onto the dial [0,24), so it also brings a reading of 24 back onto the
      dial, and without a wrap it adds exactly the elapsed hours. */
  lemma AdvanceOnDial(time: real, isPlaying: bool, lastTick: real, now: real)
    requires 0.0 <= time && lastTick <= now
    ensures !isPlaying ==> Advance(time, isPlaying, lastTick, now) == time
    ensures isPlaying ==> 0.0 <= Advance(time, isPlaying, lastTick, now) < 24.0
    ensures isPlaying && time + HoursToAdd(lastTick, now) < 24.0 ==>
      Advance(time, isPlaying, lastTick, now) == time + HoursToAdd(lastTick, now)
  {
    if isPlaying {
      var a := time + HoursToAdd(lastTick, now);
      var k := Trunc(a / 24.0);
      assert a == 24.0 * k as real + Rem(a, 24.0);
      if a < 24.0 {
        DivMul(a, 24.0);
        assert k == 0;
      }
    }
  }

  /** Two readings on the dial that differ by a whole number of days are the same reading. */
  lemma SameOnDial(r: real, s: real, m: int)
    requires 0.0 <= r < 24.0 && 0.0 <= s < 24.0 && r - s == 24.0 * m as real
    ensures r == s
  {
    assert m >= 1 ==> 24.0 * m as real >= 24.0;
    assert m <= -1 ==> 24.0 * m as real <= -24.0;
  }

  /** Frame-rate independence: two playing frames at `now1` and then `now2` leave the
      dial where one frame at `now2` would. */
  lemma {:induction false} FramesCompose(time: real, last: real, now1: real, now2: real)
    requires 0.0 <= time && last <= now1 <= now2
    ensures Advance(Advance(time, true, last, now1), true, now1, now2) == Advance(time, true, last, now2)
  {
    var h1, h2 := HoursToAdd(last, now1), HoursToAdd(now1, now2);
    var a1 := time + h1;
    var r1 := Rem(a1, 24.0);
    var k1 := Trunc(a1 / 24.0);
    assert a1 == 24.0 * k1 as real + r1;
    var a2 := r1 + h2;
    var r2 := Rem(a2, 24.0);
    var k2 := Trunc(a2 / 24.0);
    assert a2 == 24.0 * k2 as real + r2;
    var a := time + HoursToAdd(last, now2);
    var r := Rem(a, 24.0);
    var k := Trunc(a / 24.0);
    assert a == 24.0 * k as real + r;
    assert HoursToAdd(last, now2) == h1 + h2;
    assert r2 - r == 24.0 * (k - k1 - k2) as real;
    SameOnDial(r2, r, k - k1 - k2);
  }

  /** The clock the provider shares: the hour, whether it plays, and the timestamp of the
      last animation frame. */
  class Clock {
    var time: real
    var isPlaying: bool
    var lastTick: real

    /** Mounting: noon, playing, last frame at the mount timestamp. */
    constructor(now: real)
      ensures time == 12.0 && isPlaying && lastTick == now
    {
      time := 12.0;
      isPlaying := true;
      lastTick := now;
    }

    /** The reading is on the dial. */
    predicate Valid()
      reads this
    {
      0.0 <= time < 24.0
    }

    /** `tick(now)`: advance while playing, and record the frame timestamp either way. A
        playing tick puts any non-negative reading on the dial, 24 included; a paused one
        keeps a reading on the dial there. */
    method Tick(now: real)
      modifies this
      ensures time == Advance(old(time), old(isPlaying), old(lastTick), now)
      ensures isPlaying == old(isPlaying) && lastTick == now
      ensures old(time) >= 0.0 && old(lastTick) <= now && (old(isPlaying) || old(Valid())) ==> Valid()
    {
      if isPlaying {
        var delta := (now - lastTick) / 1000.0;
        var hoursToAdd := (24.0 / DaySeconds) * delta;
        assert hoursToAdd == HoursToAdd(lastTick, now);
        time := Rem(time + hoursToAdd, 24.0);
      }
      if old(time) >= 0.0 && old(lastTick) <= now {
        AdvanceOnDial(old(time), old(isPlaying), old(lastTick), now);
      }
      lastTick := now;
    }

    /** `setTime`. */
    method SetTime(t: real)
      modifies this
      ensures time == t && isPlaying == old(isPlaying) && lastTick == old(lastTick)
    {
      time := t;
    }

    /** `setIsPlaying`. */
    method SetPlaying(b: bool)
      modifies this
      ensures isPlaying == b && time == old(time) && lastTick == old(lastTick)
    {
      isPlaying := b;
    }
  }

  /** Resuming does not jump: the frames seen while paused keep the timestamp current, so
      the first playing frame after `now1` adds only the hours since `now1`. */
  lemma ResumeWithoutJump(time: real, last: real, now1: real, now2: real)
    requires 0.0 <= time && last <= now1 <= now2 && time + HoursToAdd(now1, now2) < 24.0
    ensures Advance(Advance(time, false, last, now1), true, now1, now2) == time + (now2 - now1) / 10000.0
  {
    AdvanceOnDial(time, true, now1, now2);
  }
}
