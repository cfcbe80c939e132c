/** The 2D particle field of the hero section (src/components/canvas/ParticleCanvas.jsx):
    1500 particles that each frame move a fixed fraction of the way toward a point of
    the current text shape, or drift home with a little jitter when there is no shape.
    The rasterised text arrives as RGBA bytes and the `Math.random` draws as inputs. */
module AttractionField {
  import opened JsNumber
  import PixelGrid

  /** `PARTICLE_COUNT`, `RETURN_SPEED`, `DISPERSE_SPEED`. */
  const ParticleCount: nat := 1500
  const ReturnSpeed: real := 0.1
  const DisperseSpeed: real := 0.05
  /** The scan step and the alpha level a text pixel must exceed. */
  const ScanGap: nat := 6
  const AlphaThreshold: int := 128
  /** The home jitter is `(Math.random() - 0.5) * 0.2` per axis. */
  const JitterScale: real := 0.2

  datatype ParticleShape = Circle | Square

  /** A particle: position, unused velocity, size, colour, outline and home position. */
  datatype Particle = Particle(x: real, y: real, vx: real, vy: real, size: real, color: string,
                               shape: ParticleShape, originX: real, originY: real)

  /** The eight draws of `init` for one particle, in the source's order. */
  datatype InitDraw = InitDraw(x: real, y: real, vx: real, vy: real, size: real, shape: real,
                               originX: real, originY: real)

  // ---------------------------------------------------------------------------
  // Text sampling

  /** The grid points `scanText` keeps: on the 6-pixel grid and with alpha above 128. */
  predicate TextPixel(data: seq<int>, w: nat, h: nat, c: PixelGrid.Cell)
    requires |data| == w * h * 4
  {
    PixelGrid.Kept(data, w, h, ScanGap, 3, AlphaThreshold, c)
  }

  /** A text pixel is a grid point whose alpha byte `(y * w + x) * 4 + 3` exceeds 128. */
  lemma TextPixelMeans(data: seq<int>, w: nat, h: nat, c: PixelGrid.Cell)
    requires |data| == w * h * 4
    ensures TextPixel(data, w, h, c) <==>
      c.x < w && c.y < h && c.x % 6 == 0 && c.y % 6 == 0
      && (PixelGrid.ByteIndexInBounds(w, h, c.x, c.y, 3); data[(c.y * w + c.x) * 4 + 3] > 128)
  {
  }

  /** `scanText` over the RGBA bytes of the rendered text: every kept grid point, each once,
      in row-major order (the random reordering that follows is not modelled). */
  method ScanText(data: seq<int>, w: nat, h: nat) returns (points: seq<PixelGrid.Cell>)
    requires |data| == w * h * 4
    ensures forall c :: c in points <==> TextPixel(data, w, h, c)
    ensures forall i, j :: 0 <= i < j < |points| ==> PixelGrid.Before(points[i], points[j])
  {
    points := PixelGrid.Scan(data, w, h, ScanGap, 3, AlphaThreshold);
  }

  // ---------------------------------------------------------------------------
  // The per-particle step

  /** The point particle `i` is attracted to: `targetPoints[i % targetPoints.length]`. */
  function TargetIndex(i: nat, n: nat): (k: nat)
    requires n > 0
    ensures k < n
    ensures i < n ==> k == i
  {
    i % n
  }

  /** With fewer points than particles the points are shared round-robin: particles `i`
      and `i + n` go to the same point. */
  lemma TargetsWrap(i: nat, n: nat)
    requires n > 0
    ensures TargetIndex(i + n, n) == TargetIndex(i, n)
  {
    PixelGrid.ModUnique(i + n, n, i / n + 1, i % n);
  }

  /** `hasTarget`: the shape is not `'none'` and has at least one point. */
  predicate HasTarget(targetShape: string, targetPoints: seq<PixelGrid.Cell>)
  {
    |targetPoints| > 0 && targetShape != "none"
  }

  /** `p.x += (targetX - p.x) * speed`. */
  function Approach(x: real, target: real, speed: real): (r: real)
    ensures r - target == (1.0 - speed) * (x - target)
  {
    x + (target - x) * speed
  }

  /** One frame of particle `i`: toward its text point at rate 0.1 when there is a target,
      else toward home at rate 0.05 plus the jitter draws `jx`, `jy`. */
  function Step(p: Particle, i: nat, targetPoints: seq<PixelGrid.Cell>, hasTarget: bool, jx: real, jy: real): Particle
    requires hasTarget ==> |targetPoints| > 0
  {
    if hasTarget then
      var t := targetPoints[TargetIndex(i, |targetPoints|)];
      p.(x := Approach(p.x, t.x as real, ReturnSpeed), y := Approach(p.y, t.y as real, ReturnSpeed))
    else
      p.(x := Approach(p.x, p.originX, DisperseSpeed) + (jx - 0.5) * JitterScale,
         y := Approach(p.y, p.originY, DisperseSpeed) + (jy - 0.5) * JitterScale)
  }

  /** With a target, the offset to the target point shrinks to 0.9 of itself on each axis,
      the particle never overshoots it, and nothing but the position changes. */
  lemma AttractionContracts(p: Particle, i: nat, targetPoints: seq<PixelGrid.Cell>, jx: real, jy: real)
    requires |targetPoints| > 0
    ensures var t := targetPoints[i % |targetPoints|];
      var q := Step(p, i, targetPoints, true, jx, jy);
      && q.x - t.x as real == 0.9 * (p.x - t.x as real)
      && q.y - t.y as real == 0.9 * (p.y - t.y as real)
      && (p.x <= t.x as real ==> p.x <= q.x <= t.x as real)
      && (t.x as real <= p.x ==> t.x as real <= q.x <= p.x)
      && (p.y <= t.y as real ==> p.y <= q.y <= t.y as real)
      && (t.y as real <= p.y ==> t.y as real <= q.y <= p.y)
      && q.(x := p.x, y := p.y) == p
  {
    var t := targetPoints[i % |targetPoints|];
    LerpBetween(p.x, t.x as real, ReturnSpeed);
    LerpBetween(p.y, t.y as real, ReturnSpeed);
  }

  /** The squared distance to the target point is scaled by 0.81 each frame, so it never grows. */
  lemma DistanceShrinks(p: Particle, i: nat, targetPoints: seq<PixelGrid.Cell>, jx: real, jy: real)
    requires |targetPoints| > 0
    ensures var t := targetPoints[i % |targetPoints|];
      var q := Step(p, i, targetPoints, true, jx, jy);
      var dx, dy := p.x - t.x as real, p.y - t.y as real;
      var ex, ey := q.x - t.x as real, q.y - t.y as real;
      && ex * ex + ey * ey == 0.81 * (dx * dx + dy * dy)
      && ex * ex + ey * ey <= dx * dx + dy * dy
  {
    var t := targetPoints[i % |targetPoints|];
    var dx, dy := p.x - t.x as real, p.y - t.y as real;
    AttractionContracts(p, i, targetPoints, jx, jy);
    SquareNonneg(dx);
    SquareNonneg(dy);
  }

  lemma SquareNonneg(d: real)
    ensures d * d >= 0.0
  {
    if d < 0.0 {
      MulNonneg(-d, -d);
    } else {
      MulNonneg(d, d);
    }
  }

  /** Without a target, the particle closes 5% of the way home and then moves by a jitter
      of at most 0.1 per axis; with unit draws the jitter lies in [-0.1, 0.1). */
  lemma HomeContracts(p: Particle, i: nat, targetPoints: seq<PixelGrid.Cell>, jx: real, jy: real)
    requires Unit(jx) && Unit(jy)
    ensures var q := Step(p, i, targetPoints, false, jx, jy);
      var ox := q.x - p.originX - 0.95 * (p.x - p.originX);
      var oy := q.y - p.originY - 0.95 * (p.y - p.originY);
      && -0.1 <= ox < 0.1 && -0.1 <= oy < 0.1
      && q.(x := p.x, y := p.y) == p
  {
  }

  /** `n` frames of attraction toward a fixed coordinate. */
  function ApproachMany(x: real, target: real, speed: real, n: nat): real
    decreases n
  {
    if n == 0 then x else ApproachMany(Approach(x, target, speed), target, speed, n - 1)
  }

  /** After `n` frames the offset to the target is `(1 - speed)^n` times the initial offset:
      the particle converges geometrically. */
  lemma {:induction false} ApproachManyGeometric(x: real, target: real, speed: real, n: nat)
    ensures ApproachMany(x, target, speed, n) - target == Pow(1.0 - speed, n) * (x - target)
    decreases n
  {
    if n > 0 {
      var x1 := Approach(x, target, speed);
      ApproachManyGeometric(x1, target, speed, n - 1);
      var r, p, e := 1.0 - speed, Pow(1.0 - speed, n - 1), x - target;
      calc {
        ApproachMany(x, target, speed, n) - target;
        ApproachMany(x1, target, speed, n - 1) - target;
        p * (x1 - target);
        { assert x1 - target == r * e; }
        p * (r * e);
        (r * p) * e;
        Pow(r, n) * e;
      }
    }
  }

  /** A convex rate keeps every frame between the start and the target. */
  lemma {:induction false} ApproachManyBetween(x: real, target: real, speed: real, n: nat)
    requires 0.0 <= speed <= 1.0
    ensures x <= target ==> x <= ApproachMany(x, target, speed, n) <= target
    ensures target <= x ==> target <= ApproachMany(x, target, speed, n) <= x
    decreases n
  {
    if n > 0 {
      var x1 := Approach(x, target, speed);
      LerpBetween(x, target, speed);
      ApproachManyBetween(x1, target, speed, n - 1);
    }
  }

  // ---------------------------------------------------------------------------
  // The component

  /** Particle `i` as `init` creates it on a `w` x `h` canvas. */
  function NewParticle(i: nat, w: real, h: real, d: InitDraw): (p: Particle)
    ensures p.color == (if i % 2 == 0 then "#52525b" else "#a1a1aa")
    ensures Unit(d.originX) && Unit(d.originY) && Unit(d.size) && w >= 0.0 && h >= 0.0 ==>
      0.0 <= p.originX <= w && 0.0 <= p.originY <= h && 1.0 <= p.size < 4.0
  {
    Scaled(d.originX, w);
    Scaled(d.originY, h);
    assert Unit(d.originX) && Unit(d.originY) && Unit(d.size) && w >= 0.0 && h >= 0.0 ==>
      0.0 <= d.originX * w <= w && 0.0 <= d.originY * h <= h && 1.0 <= d.size * 3.0 + 1.0 < 4.0;
    Particle(d.x * w, d.y * h, (d.vx - 0.5) * 0.5, (d.vy - 0.5) * 0.5, d.size * 3.0 + 1.0,
             if i % 2 == 0 then "#52525b" else "#a1a1aa",
             if d.shape > 0.5 then Circle else Square,
             d.originX * w, d.originY * h)
  }

  /** `Math.random() * extent` lies in [0, extent] for a non-negative extent. */
  lemma Scaled(r: real, extent: real)
    ensures Unit(r) && extent >= 0.0 ==> 0.0 <= r * extent <= extent
  {
    if Unit(r) && extent >= 0.0 {
      MulNonneg(r, extent);
      MulNonneg(1.0 - r, extent);
    }
  }

  class Field {
    var particles: array<Particle>
    /** `shapePointsRef`: the sampled points of each text shape. */
    var shapePoints: map<string, seq<PixelGrid.Cell>>

    /** Mounting, before `init` runs: no particles and three empty shapes. */
    constructor()
      ensures particles.Length == 0 && fresh(particles)
      ensures shapePoints == map["none" := [], "MB" := [], "WD" := []]
    {
      particles := new Particle[0];
      shapePoints := map["none" := [], "MB" := [], "WD" := []];
    }

    /** The pool-building part of `init` (also run on every resize): exactly 1500 new
        particles replace the old pool. */
    method Init(w: real, h: real, draws: seq<InitDraw>)
      requires |draws| == ParticleCount
      modifies this
      ensures fresh(particles) && particles.Length == ParticleCount
      ensures forall i :: 0 <= i < ParticleCount ==> particles[i] == NewParticle(i, w, h, draws[i])
      ensures shapePoints == old(shapePoints)
    {
      var newParticles := new Particle[ParticleCount];
      for i := 0 to ParticleCount
        invariant forall k :: 0 <= k < i ==> newParticles[k] == NewParticle(k, w, h, draws[k])
        invariant shapePoints == old(shapePoints)
      {
        newParticles[i] := NewParticle(i, w, h, draws[i]);
      }
      particles := newParticles;
    }

    /** The scanning part of `init`: the sampled points of the rendered "MB" and "WD", each
        kept grid point exactly once (in scan order, since the shuffle is not modelled), so
        the stored length is the number of text pixels. */
    method LoadShapes(mb: seq<int>, wd: seq<int>, w: nat, h: nat)
      requires |mb| == w * h * 4 && |wd| == w * h * 4
      modifies this
      ensures particles == old(particles)
      ensures shapePoints.Keys == old(shapePoints).Keys + {"MB", "WD"}
      ensures forall k :: k in shapePoints && k != "MB" && k != "WD" ==> shapePoints[k] == old(shapePoints)[k]
      ensures forall c :: c in shapePoints["MB"] <==> TextPixel(mb, w, h, c)
      ensures forall c :: c in shapePoints["WD"] <==> TextPixel(wd, w, h, c)
      ensures forall i, j :: 0 <= i < j < |shapePoints["MB"]| ==> shapePoints["MB"][i] != shapePoints["MB"][j]
      ensures forall i, j :: 0 <= i < j < |shapePoints["WD"]| ==> shapePoints["WD"][i] != shapePoints["WD"][j]
      ensures forall i, j :: 0 <= i < j < |shapePoints["MB"]| ==> PixelGrid.Before(shapePoints["MB"][i], shapePoints["MB"][j])
      ensures forall i, j :: 0 <= i < j < |shapePoints["WD"]| ==> PixelGrid.Before(shapePoints["WD"][i], shapePoints["WD"][j])
    {
      var mbPoints := ScanText(mb, w, h);
      var wdPoints := ScanText(wd, w, h);
      shapePoints := shapePoints["MB" := mbPoints]["WD" := wdPoints];
    }

    /** `shapePointsRef.current[targetShape] || []`. */
    function TargetPoints(targetShape: string): (pts: seq<PixelGrid.Cell>)
      reads this
      ensures targetShape !in shapePoints ==> pts == []
    {
      if targetShape in shapePoints then shapePoints[targetShape] else []
    }

    /** One run of `animate`: every particle takes one `Step` in place, particle `i` using
        the jitter draws `jitter[i]`. */
    method Animate(targetShape: string, jitter: seq<(real, real)>)
      requires |jitter| == particles.Length
      modifies particles
      ensures var pts := TargetPoints(targetShape);
        forall i :: 0 <= i < particles.Length ==>
          particles[i] == Step(old(particles[i]), i, pts, HasTarget(targetShape, pts), jitter[i].0, jitter[i].1)
    {
      var targetPoints := TargetPoints(targetShape);
      var hasTarget := |targetPoints| > 0 && targetShape != "none";
      for i := 0 to particles.Length
        invariant forall k :: 0 <= k < i ==>
          particles[k] == Step(old(particles[k]), k, targetPoints, hasTarget, jitter[k].0, jitter[k].1)
        invariant forall k :: i <= k < particles.Length ==> particles[k] == old(particles[k])
      {
        var p := particles[i];
        var targetX, targetY, speed := p.originX, p.originY, DisperseSpeed;
        if hasTarget {
          var targetIndex := i % |targetPoints|;
          var target := targetPoints[targetIndex];
          targetX, targetY, speed := target.x as real, target.y as real, ReturnSpeed;
        }
        p := p.(x := p.x + (targetX - p.x) * speed, y := p.y + (targetY - p.y) * speed);
        if !hasTarget {
          p := p.(x := p.x + (jitter[i].0 - 0.5) * JitterScale, y := p.y + (jitter[i].1 - 0.5) * JitterScale);
        }
        particles[i] := p;
      }
    }

    /** A shape key the field does not know, `'none'`, or a shape with no points sends every
        particle home; a known shape with points attracts them. */
    lemma TargetSelection(targetShape: string)
      ensures HasTarget(targetShape, TargetPoints(targetShape)) <==>
        targetShape != "none" && targetShape in shapePoints && |shapePoints[targetShape]| > 0
    {
    }
  }
}
