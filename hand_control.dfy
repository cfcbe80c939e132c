/** Hand control of the clock (src/components/common/GodModeController.jsx): each
    camera frame turns the wrist angle into a rate that winds an unwrapped hour
    accumulator, publishes that hour wrapped onto the dial, and classifies the hand as
    open or a fist. The hand landmarks, `atan2` and `hypot` are inputs. */
module HandControl {
  import opened JsNumber
  import opened Wrappers
  import VirtualClock

  /** `Math.PI / 2`, the largest wrist tilt taken into account. */
  const Limit: real := PI / 2.0

  /** The tilt, in radians, below which the hand does not move the clock. */
  const Deadzone: real := 0.2

  /** Hours per frame for each radian beyond the deadzone. */
  const Gain: real := 0.1

  /** The largest rate a clamped angle can produce. */
  const MaxSpeed: real := (Limit - Deadzone) * Gain

  /** No detection for this many milliseconds hands the clock back to autoplay. */
  const ResumeAfter: real := 3000.0

  /** The deadzone rate control: no motion within 0.2 rad of upright, otherwise a rate
      proportional to the excess tilt. The rate is zero exactly within the deadzone, has
      the sign of the tilt outside it, and for a clamped angle never exceeds `MaxSpeed`. */
  function RotationSpeed(angle: real): (speed: real)
    ensures speed == 0.0 <==> -Deadzone <= angle <= Deadzone
    ensures speed > 0.0 <==> angle > Deadzone
    ensures speed < 0.0 <==> angle < -Deadzone
    ensures -Limit <= angle <= Limit ==> -MaxSpeed <= speed <= MaxSpeed
  {
    if angle > Deadzone then (angle - Deadzone) * Gain
    else if angle < -Deadzone then (angle + Deadzone) * Gain
    else 0.0
  }

  /** Tilting the other way gives the opposite rate, and more tilt never gives less rate. */
  lemma SpeedSymmetricMonotone(a: real, b: real)
    ensures RotationSpeed(-a) == -RotationSpeed(a)
    ensures a <= b ==> RotationSpeed(a) <= RotationSpeed(b)
  {
  }

  /** `((t % 24) + 24) % 24` with JavaScript's sign-of-dividend remainder. */
  function WrapTime(t: real): (r: real)
    ensures 0.0 <= r < 24.0
  {
    Rem(Rem(t, 24.0) + 24.0, 24.0)
  }

  /** The mathematical (floored) residue of `t` modulo 24, as a reference definition. */
  function FloorMod24(t: real): (r: real)
    ensures 0.0 <= r < 24.0
  {
    DivMul(t, 24.0);
    t - 24.0 * (t / 24.0).Floor as real
  }

  /** The double remainder is the floored residue: it lands on the dial and differs from
      `t` by a whole number of days, for negative `t` as well. */
  lemma {:induction false} WrapIsResidue(t: real)
    ensures WrapTime(t) == FloorMod24(t)
  {
    var r1 := Rem(t, 24.0);
    var k1 := Trunc(t / 24.0);
    assert t == 24.0 * k1 as real + r1;
    var r2 := Rem(r1 + 24.0, 24.0);
    var k2 := Trunc((r1 + 24.0) / 24.0);
    assert r1 + 24.0 == 24.0 * k2 as real + r2;
    var f := (t / 24.0).Floor;
    DivMul(t, 24.0);
    assert r2 - FloorMod24(t) == 24.0 * (f - k1 - k2 + 1) as real;
    VirtualClock.SameOnDial(r2, FloorMod24(t), f - k1 - k2 + 1);
  }

  /** Consequences: a reading on the dial is kept, and a whole day more or less gives the
      same reading. */
  lemma WrapProperties(t: real)
    ensures 0.0 <= t < 24.0 ==> WrapTime(t) == t
    ensures WrapTime(t + 24.0) == WrapTime(t) && WrapTime(t - 24.0) == WrapTime(t)
  {
    WrapIsResidue(t);
    WrapIsResidue(t + 24.0);
    WrapIsResidue(t - 24.0);
    DivMul(t, 24.0);
    DivMul(t + 24.0, 24.0);
    DivMul(t - 24.0, 24.0);
    var f := (t / 24.0).Floor;
    assert (t + 24.0) / 24.0 == t / 24.0 + 1.0;
    assert (t - 24.0) / 24.0 == t / 24.0 - 1.0;
    if 0.0 <= t < 24.0 {
      assert f == 0;
    }
  }

  /** A 2D hand landmark in normalised image coordinates. */
  datatype Landmark = Landmark(x: real, y: real)

  /** The finger-tip and knuckle landmark indices of the index, middle, ring and little
      fingers in the 21-point hand model. */
  const Tips: seq<nat> := [8, 12, 16, 20]
  const Mcps: seq<nat> := [5, 9, 13, 17]

  predicate IsHand(hand: seq<Landmark>)
  {
    |hand| == 21
  }

  /** Finger `i` is extended when its tip is more than 1.5 times as far from the wrist as
      its knuckle. */
  predicate Extended(hand: seq<Landmark>, hypot: (real, real) -> real, i: nat)
    requires IsHand(hand) && i < 4
  {
    FromWrist(hand, hypot, Tips[i]) > FromWrist(hand, hypot, Mcps[i]) * 1.5
  }

  /** `Math.hypot` of the offset of landmark `j` from the wrist. */
  function FromWrist(hand: seq<Landmark>, hypot: (real, real) -> real, j: nat): real
    requires IsHand(hand) && j < 21
  {
    Apply2(hypot, hand[j].x - hand[0].x, hand[j].y - hand[0].y)
  }

  /** The number of extended fingers among the first `n`. */
  function ExtendedAmong(hand: seq<Landmark>, hypot: (real, real) -> real, n: nat): (c: nat)
    requires IsHand(hand) && n <= 4
    ensures c <= n
    ensures c == 0 <==> forall i :: 0 <= i < n ==> !Extended(hand, hypot, i)
    ensures c == n <==> forall i :: 0 <= i < n ==> Extended(hand, hypot, i)
  {
    if n == 0 then 0
    else ExtendedAmong(hand, hypot, n - 1) + (if Extended(hand, hypot, n - 1) then 1 else 0)
  }

  /** The `extendedCount` loop over the four fingers. */
  method CountExtended(hand: seq<Landmark>, hypot: (real, real) -> real) returns (extendedCount: nat)
    requires IsHand(hand)
    ensures extendedCount == ExtendedAmong(hand, hypot, 4)
    ensures extendedCount <= 4
  {
    extendedCount := 0;
    for i := 0 to 4
      invariant extendedCount == ExtendedAmong(hand, hypot, i)
    {
      var tipDist := FromWrist(hand, hypot, Tips[i]);
      var mcpDist := FromWrist(hand, hypot, Mcps[i]);
      if tipDist > mcpDist * 1.5 {
        extendedCount := extendedCount + 1;
      }
    }
  }

  /** A hand is open when at least three fingers are extended. */
  predicate IsHandOpen(extendedCount: nat)
  {
    extendedCount >= 3
  }

  /** A hand with every finger extended is open; a fist, with no finger extended, is not. */
  lemma OpenHands(hand: seq<Landmark>, hypot: (real, real) -> real)
    requires IsHand(hand)
    ensures (forall i :: 0 <= i < 4 ==> Extended(hand, hypot, i)) ==> IsHandOpen(ExtendedAmong(hand, hypot, 4))
    ensures (forall i :: 0 <= i < 4 ==> !Extended(hand, hypot, i)) ==> !IsHandOpen(ExtendedAmong(hand, hypot, 4))
  {
  }

  /** The god-mode flags the particle scene reads (src/context/GodModeContext.jsx). */
  class GodMode {
    var isGodModeActive: bool
    var handRotation: real
    var isExploding: bool

    constructor()
      ensures !isGodModeActive && handRotation == 0.0 && !isExploding
    {
      isGodModeActive := false;
      handRotation := 0.0;
      isExploding := false;
    }
  }

  /** The controller's own state: the dialog and camera flags and its two timing refs. */
  class Controller {
    const clock: VirtualClock.Clock
    const shared: GodMode
    var isOpen: bool
    var webcamAllowed: bool
    /** `lastTimeRef`: the unwrapped hour the hand winds. */
    var lastTime: real
    /** `lastDetectionRef`: when a hand was last seen, in milliseconds. */
    var lastDetection: real

    constructor(clock: VirtualClock.Clock, shared: GodMode)
      ensures this.clock == clock && this.shared == shared
      ensures !isOpen && !webcamAllowed && lastTime == 12.0 && lastDetection == 0.0
    {
      this.clock := clock;
      this.shared := shared;
      isOpen := false;
      webcamAllowed := false;
      lastTime := 12.0;
      lastDetection := 0.0;
    }

    /** The hand button: stops god mode when it is on, otherwise toggles the dialog. */
    method ClickHandButton()
      modifies this, clock, shared
      ensures old(shared.isGodModeActive) ==>
        (!webcamAllowed && !shared.isGodModeActive && clock.isPlaying
         && !shared.isExploding && shared.handRotation == 0.0 && isOpen == old(isOpen))
      ensures !old(shared.isGodModeActive) ==>
        (isOpen == !old(isOpen) && webcamAllowed == old(webcamAllowed) && unchanged(shared) && unchanged(clock))
      ensures lastTime == old(lastTime) && lastDetection == old(lastDetection)
    {
      if shared.isGodModeActive {
        StopGodMode();
      } else {
        isOpen := !isOpen;
      }
    }

    /** `startGodMode`: camera on, god mode on, dialog closed, clock paused, and the
        detection timer restarted at `now`. The detection loop then runs frame by frame. */
    method StartGodMode(now: real)
      modifies this, clock, shared
      ensures webcamAllowed && shared.isGodModeActive && !isOpen && !clock.isPlaying
      ensures lastDetection == now && lastTime == old(lastTime)
      ensures clock.time == old(clock.time) && clock.lastTick == old(clock.lastTick)
      ensures shared.isExploding == old(shared.isExploding) && shared.handRotation == old(shared.handRotation)
    {
      webcamAllowed := true;
      shared.isGodModeActive := true;
      isOpen := false;
      clock.SetPlaying(false);
      lastDetection := now;
    }

    /** `stopGodMode`: camera off, god mode off, autoplay on, no explosion, rotation 0. */
    method StopGodMode()
      modifies this, clock, shared
      ensures !webcamAllowed && !shared.isGodModeActive && clock.isPlaying
      ensures !shared.isExploding && shared.handRotation == 0.0
      ensures isOpen == old(isOpen) && lastTime == old(lastTime) && lastDetection == old(lastDetection)
      ensures clock.time == old(clock.time) && clock.lastTick == old(clock.lastTick)
    {
      webcamAllowed := false;
      shared.isGodModeActive := false;
      clock.SetPlaying(true);
      shared.isExploding := false;
      shared.handRotation := 0.0;
    }

    /** The branch of `detectHands` that sees a hand: the clock pauses, the wrist-to-knuckle
        angle winds the unwrapped hour, the dial shows it wrapped into [0, 24), and a hand
        with fewer than three extended fingers sets off the explosion. */
    method TrackHand(now: real, h: seq<Landmark>, atan2: (real, real) -> real, hypot: (real, real) -> real)
      requires IsHand(h)
      modifies this`lastDetection, this`lastTime, clock, shared`isExploding
      ensures
        var angle := Clamp(-Limit, Limit, Apply2(atan2, h[9].x - h[0].x, -(h[9].y - h[0].y)));
        && lastDetection == now && !clock.isPlaying
        && lastTime == old(lastTime) + RotationSpeed(angle)
        && clock.time == WrapTime(lastTime) && clock.Valid()
        && shared.isExploding == !IsHandOpen(ExtendedAmong(h, hypot, 4))
        && clock.lastTick == old(clock.lastTick)
    {
      lastDetection := now;
      clock.SetPlaying(false);
      var wrist := h[0];
      var middleMcp := h[9];
      var dx := middleMcp.x - wrist.x;
      var dy := middleMcp.y - wrist.y;
      var angleRad := Clamp(-Limit, Limit, Apply2(atan2, dx, -dy));
      assert angleRad == Clamp(-Limit, Limit, Apply2(atan2, h[9].x - h[0].x, -(h[9].y - h[0].y)));
      var speed := RotationSpeed(angleRad);
      lastTime := lastTime + speed;
      var finalTime := WrapTime(lastTime);
      clock.SetTime(finalTime);
      var extendedCount := CountExtended(h, hypot);
      shared.isExploding := !IsHandOpen(extendedCount);
    }

    /** One run of `detectHands` at time `now`. `ready` says whether the video and the
        landmark model are available; `hand` is the first detected hand, if any. */
    method DetectHands(now: real, ready: bool, hand: Option<seq<Landmark>>,
                       atan2: (real, real) -> real, hypot: (real, real) -> real)
      requires hand.Some? ==> IsHand(hand.value)
      modifies this, clock, shared
      ensures !ready ==> unchanged(this) && unchanged(clock) && unchanged(shared)
      ensures ready && hand.Some? ==>
        var h := hand.value;
        var angle := Clamp(-Limit, Limit, Apply2(atan2, h[9].x - h[0].x, -(h[9].y - h[0].y)));
        && lastDetection == now && !clock.isPlaying
        && lastTime == old(lastTime) + RotationSpeed(angle)
        && clock.time == WrapTime(lastTime) && clock.Valid()
        && shared.isExploding == !IsHandOpen(ExtendedAmong(h, hypot, 4))
        && shared.isGodModeActive == old(shared.isGodModeActive) && shared.handRotation == old(shared.handRotation)
        && clock.lastTick == old(clock.lastTick)
      ensures ready && hand.None? && now - old(lastDetection) > ResumeAfter ==>
        clock.isPlaying && !shared.isExploding
        && clock.time == old(clock.time) && clock.lastTick == old(clock.lastTick)
        && shared.isGodModeActive == old(shared.isGodModeActive) && shared.handRotation == old(shared.handRotation)
      ensures ready && hand.None? && now - old(lastDetection) <= ResumeAfter ==>
        unchanged(clock) && unchanged(shared)
      ensures ready && hand.None? ==> unchanged(this)
      ensures isOpen == old(isOpen) && webcamAllowed == old(webcamAllowed)
    {
      if !ready {
        return;
      }
      if hand.Some? {
        TrackHand(now, hand.value, atan2, hypot);
      } else if now - lastDetection > ResumeAfter {
        clock.SetPlaying(true);
        shared.isExploding := false;
      }
    }
  }
}
