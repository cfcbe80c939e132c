/** The morph state machine of the 3D scene (src/components/canvas/ThreeParticleCanvas.jsx):
    which shape the particles are sent to, the explode / hang / implode sequence that hides
    a swap between two shapes, the per-frame uniforms, and dragging the virtual clock
    across the window. */
module ShapeMorph {
  import opened JsNumber
  import opened Wrappers
  import opened ShapeBuffers
  import VirtualClock
  import Theme

  /** `transitionState`. */
  datatype Phase = Idle | Exploding | Hang | Imploding

  /** The frames a hang lasts past its first: the swap happens once the counter exceeds 20. */
  const HangFrames: int := 20

  /** The contact section cycles between these two icons. */
  const ContactShapes: seq<string> := ["EMAIL", "LI"]

  /** The shape key a section asks for: `contact` stands for the icon the contact timer is
      showing, every other key stands for itself. */
  function ResolveKey(targetShape: string, contactIndex: nat): (key: string)
    requires contactIndex < |ContactShapes|
    ensures key != "contact"
    ensures targetShape == "contact" ==> key == (if contactIndex == 0 then "EMAIL" else "LI")
    ensures targetShape != "contact" ==> key == targetShape
  {
    if targetShape == "contact" then ContactShapes[contactIndex] else targetShape
  }

  /** One tick of the contact timer: `(prev + 1) % contactShapes.length`. */
  function NextContact(i: nat): (j: nat)
    requires i < |ContactShapes|
    ensures j < |ContactShapes| && j != i
  {
    (i + 1) % |ContactShapes|
  }

  /** The contact timer alternates the two icons: every tick changes the key and two ticks
      bring it back. */
  lemma ContactAlternates(i: nat)
    requires i < |ContactShapes|
    ensures ResolveKey("contact", NextContact(i)) != ResolveKey("contact", i)
    ensures NextContact(NextContact(i)) == i
  {
  }

  // ---------------------------------------------------------------------------
  // One animation frame, as values

  /** The animated part of the scene: the transition phase, `uExplode`, the hang counter and
      `uMorph`. */
  datatype Anim = Anim(phase: Phase, explode: real, hangTimer: int, morph: real)

  /** The values every reachable frame keeps: the explosion in [0, 2], the morph in [0, 1],
      and a hang counter that has not passed 20 during a hang. */
  predicate AnimOk(a: Anim)
  {
    && 0.0 <= a.explode <= 2.0
    && 0.0 <= a.morph <= 1.0
    && (a.phase.Hang? ==> 0 <= a.hangTimer <= HangFrames)
  }

  /** The state machine's part of a frame: rise towards 1.2 and hang once past 1.1; count
      the hang frames; fall towards 0 by 3% a frame and settle once below 0.01; at rest fall
      by 10% a frame. */
  function Transition(a: Anim): Anim
  {
    match a.phase
    case Exploding =>
      var e := Lerp(a.explode, 1.2, 0.1);
      if a.explode > 1.1 then Anim(Hang, e, 0, a.morph) else a.(explode := e)
    case Hang =>
      var t := a.hangTimer + 1;
      if t > HangFrames then a.(phase := Imploding, hangTimer := t) else a.(hangTimer := t)
    case Imploding =>
      if a.explode < 0.01 then a.(phase := Idle, explode := 0.0) else a.(explode := Lerp(a.explode, 0.0, 0.03))
    case Idle =>
      a.(explode := Lerp(a.explode, 0.0, 0.1))
  }

  /** `uMorph`'s goal: 0 (the planet) on the sphere section or while the hand controls the
      scene, 1 (the shape) otherwise. */
  function TargetMorph(targetShape: string, godMode: bool): real
  {
    if targetShape == "sphere" || godMode then 0.0 else 1.0
  }

  /** The whole animated part of one frame: the transition, then the hand's pull of the
      explosion towards 2, then the morph's 5% step towards its goal. */
  function FrameAnim(a: Anim, targetShape: string, godMode: bool, handExploding: bool): Anim
  {
    var b := Transition(a);
    var e := if handExploding then Lerp(b.explode, 2.0, 0.1) else b.explode;
    b.(explode := e, morph := Lerp(a.morph, TargetMorph(targetShape, godMode), 0.05))
  }

  /** The frame on which the staged shape is copied into the target buffers. */
  predicate Swaps(a: Anim)
  {
    a.phase.Hang? && a.hangTimer + 1 > HangFrames
  }

  /** Every frame keeps the explosion in [0, 2], the morph in [0, 1] and the hang counter
      in range; the morph moves 5% of the way to its goal. */
  lemma FrameKeepsBounds(a: Anim, targetShape: string, godMode: bool, handExploding: bool)
    requires AnimOk(a)
    ensures AnimOk(FrameAnim(a, targetShape, godMode, handExploding))
    ensures var g := TargetMorph(targetShape, godMode);
      FrameAnim(a, targetShape, godMode, handExploding).morph - g == 0.95 * (a.morph - g)
  {
    var b := Transition(a);
    LerpBetween(a.explode, 1.2, 0.1);
    LerpBetween(a.explode, 0.0, 0.03);
    LerpBetween(a.explode, 0.0, 0.1);
    LerpBetween(b.explode, 2.0, 0.1);
    LerpBetween(a.morph, TargetMorph(targetShape, godMode), 0.05);
  }

  /** A frame never starts an explosion: only a change of shape does. */
  lemma FrameNeverExplodes(a: Anim, targetShape: string, godMode: bool, handExploding: bool)
    requires !a.phase.Exploding?
    ensures !FrameAnim(a, targetShape, godMode, handExploding).phase.Exploding?
  {
  }

  /** While exploding (and the hand does not interfere) the gap to 1.2 shrinks by 10% a
      frame, and the phase moves on exactly when the value was past 1.1. */
  lemma ExplodingRises(a: Anim, targetShape: string, godMode: bool)
    requires a.phase.Exploding?
    ensures var b := FrameAnim(a, targetShape, godMode, false);
      && 1.2 - b.explode == 0.9 * (1.2 - a.explode)
      && (b.phase.Hang? <==> a.explode > 1.1)
      && (b.phase.Hang? ==> b.hangTimer == 0)
      && (!b.phase.Hang? ==> b.phase.Exploding?)
  {
  }

  /** While imploding the value falls by 3% a frame, and the scene comes to rest, exactly
      at 0, on the frame that starts below 0.01. */
  lemma ImplodingFalls(a: Anim, targetShape: string, godMode: bool)
    requires a.phase.Imploding?
    ensures var b := FrameAnim(a, targetShape, godMode, false);
      && (a.explode < 0.01 ==> b.phase.Idle? && b.explode == 0.0)
      && (a.explode >= 0.01 ==> b.phase.Imploding? && b.explode == 0.97 * a.explode)
  {
  }

  /** `n` frames with the same inputs. */
  function Run(a: Anim, n: nat, targetShape: string, godMode: bool, handExploding: bool): Anim
  {
    if n == 0 then a else FrameAnim(Run(a, n - 1, targetShape, godMode, handExploding), targetShape, godMode, handExploding)
  }

  /** A hang lasts 21 frames: the counter goes up by one a frame, and the frame that takes
      it past 20 starts the implosion. */
  lemma {:induction false} HangDuration(a: Anim, n: nat, targetShape: string, godMode: bool, handExploding: bool)
    requires a.phase.Hang? && 0 <= a.hangTimer <= HangFrames && a.hangTimer + n <= HangFrames + 1
    ensures var b := Run(a, n, targetShape, godMode, handExploding);
      && b.hangTimer == a.hangTimer + n
      && (b.phase.Hang? <==> a.hangTimer + n <= HangFrames)
      && (!b.phase.Hang? ==> b.phase.Imploding?)
  {
    if n > 0 {
      HangDuration(a, n - 1, targetShape, godMode, handExploding);
      var b := Run(a, n - 1, targetShape, godMode, handExploding);
      assert b.phase.Hang?;
      assert Run(a, n, targetShape, godMode, handExploding) == FrameAnim(b, targetShape, godMode, handExploding);
    }
  }

  /** `0.9^24 < 0.08`, by squaring `0.9^3` three times.
      The rate is a parameter fixed by the precondition rather than a literal, so that the
      solver unfolds `Pow` only as far as the proof asks instead of evaluating it eagerly. */
  lemma PowBound(x: real)
    requires x == 0.9
    ensures Pow(x, 24) < 0.08
  {
    assert Pow(x, 3) == x * (x * (x * 1.0));
    PowSplit(x, 3, 3);
    PowSplit(x, 6, 6);
    PowSplit(x, 12, 12);
  }

  /** While it lasts, an explosion started at `e >= 0` is within `1.2 * 0.9^n` of its peak
      after `n` frames. */
  lemma {:induction false} ExplodingGap(a: Anim, n: nat, targetShape: string, godMode: bool)
    requires a.phase.Exploding? && 0.0 <= a.explode <= 1.2
    ensures var b := Run(a, n, targetShape, godMode, false);
      b.phase.Exploding? ==> 0.0 <= 1.2 - b.explode <= 1.2 * Pow(0.9, n)
  {
    if n > 0 {
      ExplodingGap(a, n - 1, targetShape, godMode);
      var b := Run(a, n - 1, targetShape, godMode, false);
      if !b.phase.Exploding? {
        FrameNeverExplodes(b, targetShape, godMode, false);
      } else {
        ExplodingRises(b, targetShape, godMode);
      }
    }
  }

  /** Without the hand, an explosion from rest reaches its hang within 25 frames. */
  lemma ExplosionEnds(a: Anim, targetShape: string, godMode: bool)
    requires a.phase.Exploding? && 0.0 <= a.explode <= 1.2
    ensures !Run(a, 25, targetShape, godMode, false).phase.Exploding?
  {
    ExplodingGap(a, 24, targetShape, godMode);
    var b := Run(a, 24, targetShape, godMode, false);
    PowBound(0.9);
    if b.phase.Exploding? {
      ExplodingRises(b, targetShape, godMode);
    } else {
      FrameNeverExplodes(b, targetShape, godMode, false);
    }
  }

  /** Nonnegative bounds on two powers bound the power of the summed exponents. */
  lemma PowProductBound(r: real, m: nat, n: nat, bm: real, bn: real)
    requires 0.0 <= Pow(r, m) <= bm && 0.0 <= Pow(r, n) <= bn
    ensures 0.0 <= Pow(r, m + n) <= bm * bn
  {
    PowSplit(r, m, n);
    var p, q := Pow(r, m), Pow(r, n);
    MulNonneg(p, q);
    MulNonneg(bm - p, q);
    MulNonneg(bm, bn - q);
  }

  /** `0.97^12 < 0.694`, by squaring `0.97^3` twice.
      The rate is a parameter fixed by the precondition rather than a literal, so that the
      solver unfolds `Pow` only as far as the proof asks instead of evaluating it eagerly. */
  lemma DecayBound12(x: real)
    requires x == 0.97
    ensures 0.0 <= Pow(x, 12) <= 0.694
  {
    assert Pow(x, 3) == x * (x * (x * 1.0)) == 0.912673;
    PowSplit(x, 3, 3);
    assert Pow(x, 6) == 0.912673 * 0.912673;
    PowSplit(x, 6, 6);
  }

  /** `0.97^180 < 0.005`, from `0.97^12` by doubling and summing the exponents.
      The rate is a parameter fixed by the precondition rather than a literal, so that the
      solver unfolds `Pow` only as far as the proof asks instead of evaluating it eagerly. */
  lemma DecayBound(x: real)
    requires x == 0.97
    ensures 0.0 <= Pow(x, 180) < 0.005
  {
    DecayBound12(x);
    PowProductBound(x, 12, 12, 0.694, 0.694);
    PowProductBound(x, 24, 24, 0.49, 0.49);
    PowProductBound(x, 48, 48, 0.2401, 0.2401);
    PowProductBound(x, 96, 48, 0.05764801, 0.2401);
    PowProductBound(x, 144, 24, 0.0138413, 0.49);
    PowProductBound(x, 168, 12, 0.0067823, 0.694);
  }

  /** While it lasts, an implosion from at most 2 is below `2 * 0.97^n` after `n` frames;
      once the scene is at rest it stays at rest. */
  lemma {:induction false} ImplodingGap(a: Anim, n: nat, targetShape: string, godMode: bool)
    requires a.phase.Imploding? && 0.0 <= a.explode <= 2.0
    ensures var b := Run(a, n, targetShape, godMode, false);
      b.phase.Idle? || (b.phase.Imploding? && 0.0 <= b.explode <= 2.0 * Pow(0.97, n))
  {
    if n > 0 {
      ImplodingGap(a, n - 1, targetShape, godMode);
      var b := Run(a, n - 1, targetShape, godMode, false);
      assert Run(a, n, targetShape, godMode, false) == FrameAnim(b, targetShape, godMode, false);
      if b.phase.Imploding? {
        ImplodingFalls(b, targetShape, godMode);
      }
    }
  }

  /** Without the hand, an implosion from any value a frame keeps (at most 2) comes to rest
      within 181 frames, which closes the cycle rest, explosion, hang, implosion, rest. */
  lemma ImplosionEnds(a: Anim, targetShape: string, godMode: bool)
    requires a.phase.Imploding? && 0.0 <= a.explode <= 2.0
    ensures Run(a, 181, targetShape, godMode, false).phase.Idle?
  {
    ImplodingGap(a, 180, targetShape, godMode);
    var b := Run(a, 180, targetShape, godMode, false);
    DecayBound(0.97);
    assert Run(a, 181, targetShape, godMode, false) == FrameAnim(b, targetShape, godMode, false);
    if b.phase.Imploding? {
      ImplodingFalls(b, targetShape, godMode);
    }
  }

  // ---------------------------------------------------------------------------
  // The particle system

  /** The particle system's mutable state: the target buffers the shader reads (`aTarget`,
      `aIsSecondary`), the shape table, the staged shape of a pending swap, the transition
      refs and the uniforms the model covers. */
  class ParticleSystem {
    const target: array<real>
    const secondary: array<real>
    var shapes: map<string, ShapeData>
    var shapesReady: bool
    var contactIndex: nat
    var prevKey: string
    var currentKey: string
    /** `nextShapeBuffer` and `nextSecondaryBuffer`, which are set and cleared together. */
    var staged: Option<ShapeData>
    var phase: Phase
    var hangTimer: int
    var explode: real
    var morph: real
    var uTime: real
    var rotationY: real

    /** `shapesRef.current[key] || shapesRef.current.sphere`. */
    function Lookup(key: string): (d: ShapeData)
      requires "sphere" in shapes
      reads this`shapes
      ensures key in shapes ==> d == shapes[key]
      ensures key !in shapes ==> d == shapes["sphere"]
    {
      if key in shapes then shapes[key] else shapes["sphere"]
    }

    function CurrentAnim(): Anim
      reads this
    {
      Anim(phase, explode, hangTimer, morph)
    }

    /** The buffers are sized and distinct; every shape is sized and the sphere is always
        there; a pending explosion or hang carries the current key's shape, which is never the
        sphere; and whenever the scene is at rest or imploding onto a shape, the target
        buffers hold exactly that shape. */
    predicate Consistent()
      reads this`shapes, this`shapesReady, this`contactIndex, this`currentKey, this`staged, this`phase
      reads target, secondary
    {
      && target.Length == 3 * ParticleCount && secondary.Length == ParticleCount && target != secondary
      && "sphere" in shapes && (forall k :: k in shapes ==> Sized(shapes[k]))
      && contactIndex < |ContactShapes|
      && (!shapesReady ==> currentKey == "sphere" && phase.Idle?)
      && (phase.Exploding? || phase.Hang? ==> currentKey != "sphere" && staged == Some(Lookup(currentKey)))
      && ((phase.Idle? || phase.Imploding?) && currentKey != "sphere" ==>
            target[..] == Lookup(currentKey).pos && secondary[..] == Lookup(currentKey).sec)
    }

    /** The consistent state with the animated values in their bounds. */
    predicate Valid()
      reads this, target, secondary
    {
      Consistent() && AnimOk(CurrentAnim())
    }

    /** Mounting: zeroed target buffers, only the sphere's (all-zero) shape, both keys on the
        sphere, at rest. */
    constructor()
      ensures Valid() && fresh(target) && fresh(secondary)
      ensures target[..] == Blank().pos && secondary[..] == Blank().sec
      ensures shapes == map["sphere" := Blank()] && !shapesReady && contactIndex == 0
      ensures prevKey == "sphere" && currentKey == "sphere" && staged == None
      ensures CurrentAnim() == Anim(Idle, 0.0, 0, 0.0) && uTime == 0.0 && rotationY == 0.0
    {
      target := new real[3 * ParticleCount](_ => 0.0);
      secondary := new real[ParticleCount](_ => 0.0);
      shapes := map["sphere" := Blank()];
      shapesReady := false;
      contactIndex := 0;
      prevKey := "sphere";
      currentKey := "sphere";
      staged := None;
      phase := Idle;
      hangTimer := 0;
      explode := 0.0;
      morph := 0.0;
      uTime := 0.0;
      rotationY := 0.0;
      new;
      assert target[..] == Blank().pos;
      assert secondary[..] == Blank().sec;
    }

    /** `initShapes`: lay the scanned text and icons out over the 8000 slots, each with the
        bug icon in the spare slots, and mark the shapes ready. It runs once, from the mount
        effect. */
    method InitShapes(bug: seq<Point3>, mb: seq<Point3>, code: seq<Point3>, email: seq<Point3>, li: seq<Point3>)
      requires Valid() && !shapesReady
      modifies this
      ensures Valid() && shapesReady
      ensures shapes.Keys == old(shapes.Keys) + {"MB", "CODE", "EMAIL", "LI"}
      ensures forall k :: k in old(shapes) && k !in {"MB", "CODE", "EMAIL", "LI"} ==> shapes[k] == old(shapes[k])
      ensures LaidOut(shapes["MB"], mb, bug) && LaidOut(shapes["CODE"], code, bug)
      ensures LaidOut(shapes["EMAIL"], email, bug) && LaidOut(shapes["LI"], li, bug)
      ensures currentKey == old(currentKey) && CurrentAnim() == old(CurrentAnim()) && staged == old(staged)
      ensures contactIndex == old(contactIndex) && prevKey == old(prevKey)
      ensures uTime == old(uTime) && rotationY == old(rotationY)
    {
      var dMb := Layout(mb, bug);
      var dCode := Layout(code, bug);
      var dEmail := Layout(email, bug);
      var dLi := Layout(li, bug);
      shapes := shapes["MB" := dMb]["CODE" := dCode]["EMAIL" := dEmail]["LI" := dLi];
      shapesReady := true;
    }

    /** The contact timer's tick, every 4000 ms while the contact section is shown. */
    method ContactTick()
      requires Valid()
      modifies this
      ensures Valid() && contactIndex == NextContact(old(contactIndex))
      ensures shapes == old(shapes) && shapesReady == old(shapesReady) && currentKey == old(currentKey)
      ensures prevKey == old(prevKey) && staged == old(staged) && CurrentAnim() == old(CurrentAnim())
      ensures uTime == old(uTime) && rotationY == old(rotationY)
    {
      contactIndex := (contactIndex + 1) % |ContactShapes|;
    }

    /** The contact effect on a new section: any section but contact resets the timer's
        icon to the first. */
    method TargetShapeChanged(targetShape: string)
      requires Valid()
      modifies this
      ensures Valid() && contactIndex == (if targetShape == "contact" then old(contactIndex) else 0)
      ensures shapes == old(shapes) && shapesReady == old(shapesReady) && currentKey == old(currentKey)
      ensures prevKey == old(prevKey) && staged == old(staged) && CurrentAnim() == old(CurrentAnim())
      ensures uTime == old(uTime) && rotationY == old(rotationY)
    {
      if targetShape != "contact" {
        contactIndex := 0;
      }
    }

    /** Copy a shape into the target buffers (`array.set`). */
    method Load(d: ShapeData)
      requires target.Length == 3 * ParticleCount && secondary.Length == ParticleCount && target != secondary
      requires Sized(d)
      modifies target, secondary
      ensures target[..] == d.pos && secondary[..] == d.sec
    {
      forall k | 0 <= k < target.Length {
        target[k] := d.pos[k];
      }
      forall k | 0 <= k < secondary.Length {
        secondary[k] := d.sec[k];
      }
    }

    /** The key-change effect. Before the shapes are ready, or when the resolved key is the
        current one, nothing happens. Otherwise the key moves on and: leaving the sphere
        loads the new shape straight into the target buffers; going from one shape to another
        stages the new shape and starts an explosion; going back to the sphere only returns
        to rest (the morph uniform takes the particles home). */
    method KeyChanged(targetShape: string)
      requires Valid()
      modifies this, target, secondary
      ensures Valid()
      ensures var key := ResolveKey(targetShape, old(contactIndex));
        (!old(shapesReady) || key == old(currentKey)) ==>
          (&& unchanged(this) && unchanged(target) && unchanged(secondary))
      ensures var key := ResolveKey(targetShape, old(contactIndex));
        (old(shapesReady) && key != old(currentKey)) ==>
          (&& prevKey == old(currentKey) && currentKey == key
           && (old(currentKey) == "sphere" ==>
                 target[..] == Lookup(key).pos && secondary[..] == Lookup(key).sec
                 && phase == Idle && staged == old(staged))
           && (old(currentKey) != "sphere" && key != "sphere" ==>
                 unchanged(target) && unchanged(secondary) && phase == Exploding && staged == Some(Lookup(key)))
           && (old(currentKey) != "sphere" && key == "sphere" ==>
                 unchanged(target) && unchanged(secondary) && phase == Idle && staged == old(staged)))
      ensures shapes == old(shapes) && shapesReady == old(shapesReady) && contactIndex == old(contactIndex)
      ensures explode == old(explode) && hangTimer == old(hangTimer) && morph == old(morph)
      ensures uTime == old(uTime) && rotationY == old(rotationY)
    {
      if !shapesReady {
        return;
      }
      var newKey := ResolveKey(targetShape, contactIndex);
      if newKey == currentKey {
        return;
      }
      prevKey := currentKey;
      currentKey := newKey;
      var nextData := Lookup(newKey);
      if prevKey == "sphere" {
        Load(nextData);
        phase := Idle;
      } else if currentKey != "sphere" {
        staged := Some(nextData);
        phase := Exploding;
      } else {
        phase := Idle;
      }
    }

    /** One `useFrame` callback `delta` seconds after the last, with the clock at `time`. */
    method Frame(delta: real, time: real, targetShape: string, godMode: bool, handExploding: bool)
      requires Valid()
      modifies this, target, secondary
      ensures Valid()
      ensures CurrentAnim() == FrameAnim(old(CurrentAnim()), targetShape, godMode, handExploding)
      ensures uTime == old(uTime) + delta && rotationY == time / 24.0 * PI * 2.0
      ensures Swaps(old(CurrentAnim())) ==>
        (&& old(staged).Some? && staged == None
         && target[..] == old(staged).value.pos && secondary[..] == old(staged).value.sec)
      ensures !Swaps(old(CurrentAnim())) ==>
        (&& staged == old(staged) && unchanged(target) && unchanged(secondary))
      ensures shapes == old(shapes) && shapesReady == old(shapesReady) && contactIndex == old(contactIndex)
      ensures prevKey == old(prevKey) && currentKey == old(currentKey)
    {
      FrameKeepsBounds(CurrentAnim(), targetShape, godMode, handExploding);
      uTime := uTime + delta;
      var dayProgress := time / 24.0;
      rotationY := dayProgress * PI * 2.0;
      var targetMorph := TargetMorph(targetShape, godMode);
      ghost var before := CurrentAnim();
      Transit();
      PullAndMorph(handExploding, targetMorph);
      assert CurrentAnim() == FrameAnim(before, targetShape, godMode, handExploding);
    }

    /** The hand's pull of the explosion towards 2 and the morph's step towards its goal. */
    method PullAndMorph(handExploding: bool, targetMorph: real)
      requires Consistent()
      modifies this`explode, this`morph
      ensures Consistent()
      ensures explode == (if handExploding then Lerp(old(explode), 2.0, 0.1) else old(explode))
      ensures morph == Lerp(old(morph), targetMorph, 0.05)
    {
      if handExploding {
        explode := Lerp(explode, 2.0, 0.1);
      }
      morph := Lerp(morph, targetMorph, 0.05);
    }

    /** The state machine's part of a frame; on the last hang frame the staged shape is
        copied into the target buffers and cleared. */
    method Transit()
      requires Consistent()
      modifies this, target, secondary
      ensures Consistent()
      ensures CurrentAnim() == Transition(old(CurrentAnim()))
      ensures Swaps(old(CurrentAnim())) ==>
        (&& old(staged).Some? && staged == None
         && target[..] == old(staged).value.pos && secondary[..] == old(staged).value.sec)
      ensures !Swaps(old(CurrentAnim())) ==>
        (&& staged == old(staged) && unchanged(target) && unchanged(secondary))
      ensures shapes == old(shapes) && shapesReady == old(shapesReady) && contactIndex == old(contactIndex)
      ensures prevKey == old(prevKey) && currentKey == old(currentKey)
      ensures uTime == old(uTime) && rotationY == old(rotationY)
    {
      var currentExplode := explode;
      if phase == Exploding {
        explode := Lerp(currentExplode, 1.2, 0.1);
        if currentExplode > 1.1 {
          phase := Hang;
          hangTimer := 0;
        }
      } else if phase == Hang {
        hangTimer := hangTimer + 1;
        if hangTimer > HangFrames {
          if staged.Some? {
            Load(staged.value);
            staged := None;
          }
          phase := Imploding;
        }
      } else if phase == Imploding {
        explode := Lerp(currentExplode, 0.0, 0.03);
        if currentExplode < 0.01 {
          explode := 0.0;
          phase := Idle;
        }
      } else {
        explode := Lerp(currentExplode, 0.0, 0.1);
      }
    }
  }

  /** A shape change followed by frames: once a swap has happened the scene implodes onto
      the newly selected shape, which is what the target buffers then hold. */
  lemma SwapShowsCurrentShape(s: ParticleSystem)
    requires s.Valid() && s.phase.Imploding? && s.currentKey != "sphere"
    ensures s.target[..] == s.Lookup(s.currentKey).pos
  {
  }

  // ---------------------------------------------------------------------------
  // Dragging the clock

  /** `(deltaX / window.innerWidth) * 24`: a full window width is a whole day. */
  function HoursDelta(deltaX: real, innerWidth: real): (h: real)
    requires innerWidth > 0.0
    ensures -innerWidth <= deltaX <= innerWidth ==> -24.0 <= h <= 24.0
    ensures deltaX == innerWidth ==> h == 24.0
    ensures deltaX == 0.0 ==> h == 0.0
  {
    RatioBounds(deltaX, innerWidth);
    deltaX / innerWidth * 24.0
  }

  /** The drag handler's new hour as written: add 24 below 0, reduce modulo 24 above 24. */
  function DragTimeAsWritten(startTime: real, hoursDelta: real): real
  {
    var newTime := startTime + hoursDelta;
    var t := if newTime < 0.0 then newTime + 24.0 else newTime;
    if t > 24.0 then Rem(t, 24.0) else t
  }

  /** Half a window to the right of a drag that started at noon gives hour 24, which is off
      the dial and makes the theme lookup extrapolate its colours out of range. */
  lemma DragReachesTwentyFour()
    ensures HoursDelta(500.0 - 0.0, 1000.0) == 12.0
    ensures DragTimeAsWritten(12.0, HoursDelta(500.0 - 0.0, 1000.0)) == 24.0
    ensures !(DragTimeAsWritten(12.0, 12.0) < 24.0)
    ensures !Theme.IsRgb(Theme.AutoPalette(DragTimeAsWritten(12.0, 12.0)).accent)
  {
    Theme.HourTwentyFourExtrapolates();
  }

  /** As written, a drag from a reading within [0,24] by at most a window width stays
      within [0,24], and ends on 24, off the dial, exactly when the plain sum is 24. */
  lemma DragTimeAsWrittenRange(startTime: real, hoursDelta: real)
    requires 0.0 <= startTime <= 24.0 && -24.0 <= hoursDelta <= 24.0
    ensures 0.0 <= DragTimeAsWritten(startTime, hoursDelta) <= 24.0
    ensures DragTimeAsWritten(startTime, hoursDelta) == 24.0 <==> startTime + hoursDelta == 24.0
  {
    var s := startTime + hoursDelta;
    if s > 24.0 {
      var k := Trunc(s / 24.0);
      assert s == 24.0 * k as real + Rem(s, 24.0);
      DivMul(s, 24.0);
      assert k == 1 || k == 2;
    }
  }

  /** The drag handler's new hour with the reduction applied from 24 on. */
  function DragTime(startTime: real, hoursDelta: real): real
  {
    var newTime := startTime + hoursDelta;
    var t := if newTime < 0.0 then newTime + 24.0 else newTime;
    if t >= 24.0 then Rem(t, 24.0) else t
  }

  /** A drag from a reading on the dial by at most a window width stays on the dial, a whole
      number of days (-1, 0 or 1) from the plain sum. */
  lemma DragTimeOnDial(startTime: real, hoursDelta: real)
    requires 0.0 <= startTime < 24.0 && -24.0 <= hoursDelta <= 24.0
    ensures 0.0 <= DragTime(startTime, hoursDelta) < 24.0
    ensures var t, s := DragTime(startTime, hoursDelta), startTime + hoursDelta;
      t == s || t == s + 24.0 || t == s - 24.0
  {
    var s := startTime + hoursDelta;
    if s >= 24.0 {
      var k := Trunc(s / 24.0);
      assert s == 24.0 * k as real + Rem(s, 24.0);
      DivMul(s, 24.0);
      assert k == 1;
    }
  }

  /** The two versions differ only where the plain sum is exactly 24. */
  lemma DragFixOnlyAtTwentyFour(startTime: real, hoursDelta: real)
    ensures DragTime(startTime, hoursDelta) != DragTimeAsWritten(startTime, hoursDelta) ==>
      startTime + hoursDelta == 24.0
  {
  }

  /** `dragRef`: whether the pointer is down, where and at which hour the drag started. */
  class Drag {
    const clock: VirtualClock.Clock
    var isDown: bool
    var startX: real
    var startTime: real

    constructor(clock: VirtualClock.Clock)
      ensures this.clock == clock && !isDown && startX == 0.0 && startTime == 0.0
    {
      this.clock := clock;
      isDown := false;
      startX := 0.0;
      startTime := 0.0;
    }

    /** `handlePointerDown`: remember the pointer and the hour, and pause the clock. */
    method PointerDown(clientX: real)
      modifies this, clock
      ensures isDown && startX == clientX && startTime == old(clock.time)
      ensures !clock.isPlaying && clock.time == old(clock.time) && clock.lastTick == old(clock.lastTick)
    {
      isDown := true;
      startX := clientX;
      startTime := clock.time;
      clock.SetPlaying(false);
    }

    /** `handlePointerMove`: while the pointer is down, set the clock to the start hour plus
        the hours the pointer has travelled, wrapped as the handler writes it. From a start
        hour on the dial and a pointer inside the window the reading stays within [0,24],
        and it is 24, off the dial, exactly when the plain sum is 24. */
    method PointerMove(clientX: real, innerWidth: real)
      requires innerWidth > 0.0
      modifies clock
      ensures !isDown ==> unchanged(clock)
      ensures isDown ==>
        (&& clock.time == DragTimeAsWritten(startTime, HoursDelta(clientX - startX, innerWidth))
         && clock.isPlaying == old(clock.isPlaying) && clock.lastTick == old(clock.lastTick))
      ensures (isDown && 0.0 <= startTime <= 24.0 && 0.0 <= startX <= innerWidth
               && 0.0 <= clientX <= innerWidth) ==>
        && 0.0 <= clock.time <= 24.0
        && (clock.time == 24.0 <==> startTime + HoursDelta(clientX - startX, innerWidth) == 24.0)
    {
      if !isDown {
        return;
      }
      var deltaX := clientX - startX;
      var hoursDelta := HoursDelta(deltaX, innerWidth);
      var newTime := startTime + hoursDelta;
      if newTime < 0.0 {
        newTime := newTime + 24.0;
      }
      if newTime > 24.0 {
        newTime := Rem(newTime, 24.0);
      }
      if 0.0 <= startTime <= 24.0 && 0.0 <= startX <= innerWidth && 0.0 <= clientX <= innerWidth {
        DragTimeAsWrittenRange(startTime, hoursDelta);
      }
      clock.SetTime(newTime);
    }

    /** `handlePointerUp`: release, and let the clock play again. */
    method PointerUp()
      modifies this, clock
      ensures !isDown && startX == old(startX) && startTime == old(startTime)
      ensures clock.isPlaying && clock.time == old(clock.time) && clock.lastTick == old(clock.lastTick)
    {
      isDown := false;
      clock.SetPlaying(true);
    }
  }
}
