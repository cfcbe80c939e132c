/** The particle data of the 3D scene (src/components/canvas/ThreeParticleCanvas.jsx):
    the generated planet and rings, the raster scan that turns a rendered text or icon
    into scene points, and `fillBuffer`, which lays the points of a shape out over the
    fixed pool of 8000 particle slots. `sqrt`, `cos`, `sin`, the pixel bytes and the
    `Math.random` draws are inputs. */
module ShapeBuffers {
  import opened JsNumber
  import PixelGrid

  /** `PARTICLE_COUNT` and `GLOBE_RADIUS`. */
  const ParticleCount: nat := 8000
  const GlobeRadius: real := 20.0
  /** `Math.floor(PARTICLE_COUNT * 0.6)`: the particles of the planet; the rest form rings. */
  const SphereCount: nat := 4800

  /** The scan keeps pixels whose red byte exceeds 50 (every pixel is visited: the gap is 1). */
  const RedThreshold: int := 50
  /** The off-screen canvas is drawn at 0.2 of the window; scene units per canvas pixel. */
  const SceneScale: real := 5.0 * 0.08
  /** The tail of a shape shows the secondary shape moved by (+40, -30). */
  const SecondaryOffsetX: real := 40.0
  const SecondaryOffsetY: real := -30.0

  /** A point of the 3D scene. */
  datatype Point3 = Point3(x: real, y: real, z: real)

  lemma SphereCountIsSixtyPercent()
    ensures SphereCount == (ParticleCount as real * 0.6).Floor
  {
  }

  // ---------------------------------------------------------------------------
  // Scanning a rendered shape

  /** The scene point of canvas pixel `c` on an `sw` x `sh` canvas for a window `w` pixels
      wide: centred, y up, z 0, and moved 25 units right on windows wider than 1024. */
  function ToScene(c: PixelGrid.Cell, sw: nat, sh: nat, w: real): (p: Point3)
    ensures p.z == 0.0
    ensures p.x == (c.x as real - sw as real / 2.0) * SceneScale + (if w > 1024.0 then 25.0 else 0.0)
    ensures p.y == -(c.y as real - sh as real / 2.0) * SceneScale
  {
    Point3((c.x as real - sw as real / 2.0) * (1.0 / 0.2) * 0.08 + (if w > 1024.0 then 25.0 else 0.0),
           -(c.y as real - sh as real / 2.0) * (1.0 / 0.2) * 0.08,
           0.0)
  }

  /** Distinct pixels give distinct scene points. */
  lemma ToSceneInjective(c1: PixelGrid.Cell, c2: PixelGrid.Cell, sw: nat, sh: nat, w: real)
    ensures ToScene(c1, sw, sh, w) == ToScene(c2, sw, sh, w) ==> c1 == c2
  {
  }

  /** A lit pixel: its red byte exceeds 50. */
  predicate Lit(data: seq<int>, sw: nat, sh: nat, c: PixelGrid.Cell)
    requires |data| == sw * sh * 4
  {
    PixelGrid.Kept(data, sw, sh, 1, 0, RedThreshold, c)
  }

  /** Every pixel is on the grid of step 1, so lit means inside the canvas with red above 50. */
  lemma LitMeans(data: seq<int>, sw: nat, sh: nat, c: PixelGrid.Cell)
    requires |data| == sw * sh * 4
    ensures Lit(data, sw, sh, c) <==> c.x < sw && c.y < sh && PixelGrid.ByteAt(data, sw, sh, 0, c.x, c.y) > 50
  {
  }

  /** `scan`: the scene points of the lit pixels, one per lit pixel (the random reordering
      that follows is not modelled). */
  method ScanShape(data: seq<int>, sw: nat, sh: nat, w: real) returns (points: seq<Point3>)
    requires |data| == sw * sh * 4
    ensures forall c :: ToScene(c, sw, sh, w) in points <==> Lit(data, sw, sh, c)
    ensures forall p :: p in points ==> exists c :: Lit(data, sw, sh, c) && p == ToScene(c, sw, sh, w)
    ensures forall i :: 0 <= i < |points| ==> points[i].z == 0.0
    ensures forall i, j :: 0 <= i < j < |points| ==> points[i] != points[j]
  {
    var cells := PixelGrid.Scan(data, sw, sh, 1, 0, RedThreshold);
    points := [];
    for k := 0 to |cells|
      invariant |points| == k
      invariant forall i :: 0 <= i < k ==> points[i] == ToScene(cells[i], sw, sh, w)
    {
      points := points + [ToScene(cells[k], sw, sh, w)];
    }
    forall c
      ensures ToScene(c, sw, sh, w) in points <==> Lit(data, sw, sh, c)
    {
      if ToScene(c, sw, sh, w) in points {
        var i :| 0 <= i < |points| && points[i] == ToScene(c, sw, sh, w);
        ToSceneInjective(cells[i], c, sw, sh, w);
      }
      if Lit(data, sw, sh, c) {
        var i :| 0 <= i < |cells| && cells[i] == c;
        assert points[i] == ToScene(c, sw, sh, w);
      }
    }
    forall p | p in points
      ensures exists c :: Lit(data, sw, sh, c) && p == ToScene(c, sw, sh, w)
    {
      var i :| 0 <= i < |points| && points[i] == p;
      assert cells[i] in cells;
    }
    forall i, j | 0 <= i < j < |points|
      ensures points[i] != points[j]
    {
      ToSceneInjective(cells[i], cells[j], sw, sh, w);
    }
  }

  // ---------------------------------------------------------------------------
  // fillBuffer

  /** The position `fillBuffer` gives slot `i`: the main shape's own point while there is
      one, then the secondary shape repeated round-robin and moved by (+40, -30), or the
      origin when there is no secondary shape. */
  function SlotPoint(main: seq<Point3>, secondary: seq<Point3>, i: nat): Point3
  {
    if i < |main| then main[i]
    else if |secondary| > 0 then
      var b := secondary[(i - |main|) % |secondary|];
      Point3(b.x + SecondaryOffsetX, b.y + SecondaryOffsetY, b.z)
    else Point3(0.0, 0.0, 0.0)
  }

  /** The secondary flag of slot `i`: 1 exactly on the slots that show the secondary shape. */
  function SlotFlag(main: seq<Point3>, secondary: seq<Point3>, i: nat): (f: real)
    ensures f == 1.0 <==> i >= |main| && |secondary| > 0
    ensures f == 0.0 || f == 1.0
  {
    if i < |main| then 0.0 else if |secondary| > 0 then 1.0 else 0.0
  }

  /** A shape's buffers as the scene keeps them: 3 x 8000 target coordinates and 8000
      secondary flags. */
  datatype ShapeData = ShapeData(pos: seq<real>, sec: seq<real>)

  predicate Sized(d: ShapeData)
  {
    |d.pos| == 3 * ParticleCount && |d.sec| == ParticleCount
  }

  /** The sphere's entry: all zeros, so every particle falls back to its generated place. */
  function Blank(): (d: ShapeData)
    ensures Sized(d)
  {
    ShapeData(seq(3 * ParticleCount, _ => 0.0), seq(ParticleCount, _ => 0.0))
  }

  /** `d` is the layout of `main` with `secondary` filling the remaining slots. */
  predicate LaidOut(d: ShapeData, main: seq<Point3>, secondary: seq<Point3>)
  {
    && Sized(d)
    && (forall i :: 0 <= i < ParticleCount ==>
         d.pos[3 * i] == SlotPoint(main, secondary, i).x && d.pos[3 * i + 1] == SlotPoint(main, secondary, i).y
         && d.pos[3 * i + 2] == SlotPoint(main, secondary, i).z)
    && (forall i :: 0 <= i < ParticleCount ==> d.sec[i] == SlotFlag(main, secondary, i))
  }

  /** `fillBuffer(main, secondary)`: a fresh 3 x 8000 position buffer and an 8000-entry flag
      buffer, laid out slot by slot. */
  method FillBuffer(main: seq<Point3>, secondary: seq<Point3>) returns (pos: array<real>, sec: array<real>)
    ensures fresh(pos) && fresh(sec)
    ensures LaidOut(ShapeData(pos[..], sec[..]), main, secondary)
  {
    pos := new real[3 * ParticleCount];
    sec := new real[ParticleCount];
    for i := 0 to ParticleCount
      invariant forall k :: 0 <= k < i ==>
        var p := SlotPoint(main, secondary, k);
        pos[3 * k] == p.x && pos[3 * k + 1] == p.y && pos[3 * k + 2] == p.z
      invariant forall k :: 0 <= k < i ==> sec[k] == SlotFlag(main, secondary, k)
    {
      if i < |main| {
        pos[i * 3] := main[i].x;
        pos[i * 3 + 1] := main[i].y;
        pos[i * 3 + 2] := main[i].z;
        sec[i] := 0.0;
      } else if |secondary| > 0 {
        var bugIdx := (i - |main|) % |secondary|;
        var bug := secondary[bugIdx];
        var offsetX := 40.0;
        var offsetY := -30.0;
        pos[i * 3] := bug.x + offsetX;
        pos[i * 3 + 1] := bug.y + offsetY;
        pos[i * 3 + 2] := bug.z;
        sec[i] := 1.0;
      } else {
        pos[i * 3] := 0.0;
        pos[i * 3 + 1] := 0.0;
        pos[i * 3 + 2] := 0.0;
        sec[i] := 0.0;
      }
    }
    assert pos.Length == 3 * ParticleCount;
  }

  /** The contents of the two buffers `fillBuffer` returns. */
  method Layout(main: seq<Point3>, secondary: seq<Point3>) returns (d: ShapeData)
    ensures LaidOut(d, main, secondary)
  {
    var pos, sec := FillBuffer(main, secondary);
    d := ShapeData(pos[..], sec[..]);
  }

  /** The slots below `min(8000, |main|)` hold the main points in order, unflagged. */
  lemma MainPrefix(main: seq<Point3>, secondary: seq<Point3>, i: nat)
    requires i < ParticleCount && i < |main|
    ensures SlotPoint(main, secondary, i) == main[i] && SlotFlag(main, secondary, i) == 0.0
  {
  }

  /** The tail reads the secondary shape in bounds and repeats it with period
      `|secondary|`, each copy moved by (+40, -30) and flagged. */
  lemma {:induction false} TailWraps(main: seq<Point3>, secondary: seq<Point3>, i: nat)
    requires i >= |main| && |secondary| > 0
    ensures 0 <= (i - |main|) % |secondary| < |secondary|
    ensures SlotPoint(main, secondary, i + |secondary|) == SlotPoint(main, secondary, i)
    ensures i - |main| < |secondary| ==>
      SlotPoint(main, secondary, i) == Point3(secondary[i - |main|].x + 40.0, secondary[i - |main|].y - 30.0,
                                              secondary[i - |main|].z)
    ensures SlotFlag(main, secondary, i) == 1.0
  {
    var n := |secondary|;
    var d := i - |main|;
    PixelGrid.ModUnique(d + n, n, d / n + 1, d % n);
  }

  /** Without a secondary shape the tail collapses to the origin, unflagged. */
  lemma EmptySecondaryTail(main: seq<Point3>, i: nat)
    requires i >= |main|
    ensures SlotPoint(main, [], i) == Point3(0.0, 0.0, 0.0) && SlotFlag(main, [], i) == 0.0
  {
  }

  // ---------------------------------------------------------------------------
  // The generated planet and rings

  /** The golden angle `PI * (3 - sqrt(5))` of the planet spiral. */
  function GoldenAngle(sqrt: real -> real): real
  {
    PI * (3.0 - Apply(sqrt, 5.0))
  }

  /** The unit-sphere height of planet particle `i`: `1 - (i / (sphereCount - 1)) * 2`,
      running from the north pole to the south pole. */
  function ShellY(i: nat): (y: real)
    requires i < SphereCount
    ensures -1.0 <= y <= 1.0
    ensures i == 0 ==> y == 1.0
    ensures i == SphereCount - 1 ==> y == -1.0
  {
    RatioBounds(i as real, (SphereCount - 1) as real);
    1.0 - (i as real / (SphereCount - 1) as real) * 2.0
  }

  /** The argument of `Math.sqrt(1 - y * y)` is never negative, and at most 1. */
  lemma ShellRadiusArgument(i: nat)
    requires i < SphereCount
    ensures 0.0 <= 1.0 - ShellY(i) * ShellY(i) <= 1.0
  {
    UnitSquare(ShellY(i));
  }

  /** For `y` in [-1,1], `1 - y * y` lies in [0,1]: the square of `|y| <= 1` is at most `|y|`. */
  lemma UnitSquare(y: real)
    requires -1.0 <= y <= 1.0
    ensures 0.0 <= 1.0 - y * y <= 1.0
  {
    var a := if y >= 0.0 then y else -y;
    var p := a * a;
    assert p == y * y;
    MulNonneg(a, a);
    MulNonneg(a, 1.0 - a);
    calc {
      a * (1.0 - a);
      a * 1.0 - a * a;
      a - p;
    }
    assert 0.0 <= p <= a <= 1.0;
  }

  /** Planet particle `i` on the spiral of radius 20. */
  function SpherePoint(i: nat, sqrt: real -> real, cos: real -> real, sin: real -> real): Point3
    requires i < SphereCount
  {
    var y := ShellY(i);
    var rAtY := Apply(sqrt, 1.0 - y * y);
    var theta := GoldenAngle(sqrt) * i as real;
    Point3(Apply(cos, theta) * rAtY * GlobeRadius, y * GlobeRadius, Apply(sin, theta) * rAtY * GlobeRadius)
  }

  lemma ScaledSquare(a: real, b: real)
    ensures (a * b * GlobeRadius) * (a * b * GlobeRadius) == 400.0 * ((a * a) * (b * b))
  {
  }

  /** Where `sqrt` squares back and `cos^2 + sin^2 = 1`, every planet particle lies on the
      sphere of radius 20. */
  lemma SphereRadius(i: nat, sqrt: real -> real, cos: real -> real, sin: real -> real)
    requires i < SphereCount
    requires var a := 1.0 - ShellY(i) * ShellY(i); Apply(sqrt, a) * Apply(sqrt, a) == a
    requires var t := GoldenAngle(sqrt) * i as real;
      Apply(cos, t) * Apply(cos, t) + Apply(sin, t) * Apply(sin, t) == 1.0
    ensures var p := SpherePoint(i, sqrt, cos, sin);
      p.x * p.x + p.y * p.y + p.z * p.z == GlobeRadius * GlobeRadius
  {
    var y := ShellY(i);
    var r := Apply(sqrt, 1.0 - y * y);
    var theta := GoldenAngle(sqrt) * i as real;
    var c, s := Apply(cos, theta), Apply(sin, theta);
    var p := SpherePoint(i, sqrt, cos, sin);
    ScaledSquare(c, r);
    ScaledSquare(s, r);
    assert (c * c) * (r * r) + (s * s) * (r * r) == (c * c + s * s) * (r * r);
    assert p.y * p.y == 400.0 * (y * y);
  }

  /** The three draws of one ring particle: angle, distance and size. */
  datatype RingDraw = RingDraw(angle: real, dist: real, size: real)

  /** The orbit angle `r * PI * 2` of a ring particle. */
  function RingAngle(d: RingDraw): (angle: real)
    ensures Unit(d.angle) ==> 0.0 <= angle < 2.0 * PI
  {
    d.angle * PI * 2.0
  }

  /** The orbit distance `20 * (1.8 + r * 2.5)`: the rings lie between 36 and 86, outside
      the planet. */
  function RingDist(d: RingDraw): (dist: real)
    ensures Unit(d.dist) ==> GlobeRadius < 36.0 <= dist < 86.0
  {
    GlobeRadius * (1.8 + d.dist * 2.5)
  }

  /** The angular speed `20 / dist`: inner particles orbit faster, the whole ring between
      20/86 and 20/36. */
  function RingSpeed(d: RingDraw): (speed: real)
    requires Unit(d.dist)
    ensures 20.0 / 86.0 < speed <= 20.0 / 36.0
    ensures speed * RingDist(d) == GlobeRadius
  {
    var dist := RingDist(d);
    SpeedBounds(dist);
    GlobeRadius / dist
  }

  lemma SpeedBounds(dist: real)
    requires 36.0 <= dist < 86.0
    ensures 20.0 / 86.0 < 20.0 / dist <= 20.0 / 36.0
  {
    var s := 20.0 / dist;
    DivMul(20.0, dist);
    assert s * dist == 20.0;
    MulPos(s, 86.0 - dist);
    MulNonneg(s, dist - 36.0);
  }

  /** A nearer orbit is a faster one. */
  lemma InnerOrbitsFaster(d1: RingDraw, d2: RingDraw)
    requires Unit(d1.dist) && Unit(d2.dist) && d1.dist < d2.dist
    ensures RingSpeed(d1) > RingSpeed(d2)
  {
    var s1, s2 := RingSpeed(d1), RingSpeed(d2);
    var r1, r2 := RingDist(d1), RingDist(d2);
    assert s1 * r1 == s2 * r2;
    assert r1 < r2;
    MulPos(s2, r2 - r1);
    if s1 <= s2 {
      MulNonneg(s2 - s1, r1);
      assert false;
    }
  }

  /** The resting place of a ring particle: on its orbit in the plane y = 0. */
  function RingPoint(d: RingDraw, cos: real -> real, sin: real -> real): (p: Point3)
    ensures p.y == 0.0
  {
    var angle := RingAngle(d);
    var dist := RingDist(d);
    Point3(Apply(cos, angle) * dist, 0.0, Apply(sin, angle) * dist)
  }

  /** Where `cos^2 + sin^2 = 1` at the drawn angle, a ring particle rests at its orbit
      distance from the axis. */
  lemma RingRadius(d: RingDraw, cos: real -> real, sin: real -> real)
    requires var a := RingAngle(d); Apply(cos, a) * Apply(cos, a) + Apply(sin, a) * Apply(sin, a) == 1.0
    ensures var p := RingPoint(d, cos, sin);
      p.x * p.x + p.z * p.z == RingDist(d) * RingDist(d)
  {
    var c, s, r := Apply(cos, RingAngle(d)), Apply(sin, RingAngle(d)), RingDist(d);
    assert (c * r) * (c * r) + (s * r) * (s * r) == (c * c + s * s) * (r * r);
  }

  /** The generation's inputs: the math functions, one size draw per planet particle and
      three draws per ring particle. */
  datatype Draws = Draws(sqrt: real -> real, cos: real -> real, sin: real -> real,
                         planetSizes: seq<real>, rings: seq<RingDraw>)

  predicate WellDrawn(g: Draws)
  {
    && |g.planetSizes| == SphereCount && |g.rings| == ParticleCount - SphereCount
    && forall j :: 0 <= j < |g.rings| ==> Unit(g.rings[j].dist)
  }

  /** Where particle `i` rests: on the planet for the first 4800, on a ring after. */
  function RestPoint(g: Draws, i: nat): Point3
    requires WellDrawn(g) && i < ParticleCount
  {
    if i < SphereCount then SpherePoint(i, g.sqrt, g.cos, g.sin)
    else RingPoint(g.rings[i - SphereCount], g.cos, g.sin)
  }

  /** The four `nucleusData` words of a particle: orbit angle, distance, angular speed and
      the ring flag. */
  datatype Orbit = Orbit(angle: real, dist: real, speed: real, ring: real)

  /** A planet particle has no orbit and ring flag 0; a ring particle has its drawn orbit
      and ring flag 1. */
  function OrbitOf(g: Draws, i: nat): (o: Orbit)
    requires WellDrawn(g) && i < ParticleCount
    ensures o.ring == (if i < SphereCount then 0.0 else 1.0)
    ensures i >= SphereCount ==> GlobeRadius < o.dist && o.speed * o.dist == GlobeRadius
  {
    if i < SphereCount then Orbit(0.0, 0.0, 0.0, 0.0)
    else
      var d := g.rings[i - SphereCount];
      Orbit(RingAngle(d), RingDist(d), RingSpeed(d), 1.0)
  }

  /** Entry `i` of `sizes`: `r * 0.3 + 0.1` on the planet, `r * 0.2 + 0.1` on the rings. */
  function SizeEntry(g: Draws, i: nat): (size: real)
    requires WellDrawn(g) && i < ParticleCount
    ensures i < SphereCount && Unit(g.planetSizes[i]) ==> 0.1 <= size < 0.4
    ensures i >= SphereCount && Unit(g.rings[i - SphereCount].size) ==> 0.1 <= size < 0.3
  {
    if i < SphereCount then g.planetSizes[i] * 0.3 + 0.1 else g.rings[i - SphereCount].size * 0.2 + 0.1
  }

  /** The generated attribute arrays of the scene. */
  class SceneData {
    /** `basePos` (3 per particle), `nucleusData` (4 per particle: angle, distance, speed,
        ring flag) and `sizes`. */
    const basePos: array<real>
    const nucleus: array<real>
    const sizes: array<real>

    predicate Shaped()
      reads this
    {
      && basePos.Length == 3 * ParticleCount && nucleus.Length == 4 * ParticleCount
      && sizes.Length == ParticleCount
      && basePos != nucleus && basePos != sizes && nucleus != sizes
    }

    /** The memoised data generation: three fresh zero-filled arrays, then the planet loop
        and the ring loop. Slot `i` rests at `RestPoint(g, i)` with orbit `OrbitOf(g, i)`. */
    constructor(g: Draws)
      requires WellDrawn(g)
      ensures Shaped() && fresh(basePos) && fresh(nucleus) && fresh(sizes)
      ensures forall i :: 0 <= i < ParticleCount ==>
        basePos[3 * i] == RestPoint(g, i).x && basePos[3 * i + 1] == RestPoint(g, i).y
        && basePos[3 * i + 2] == RestPoint(g, i).z
      ensures forall i :: 0 <= i < ParticleCount ==>
        nucleus[4 * i] == OrbitOf(g, i).angle && nucleus[4 * i + 1] == OrbitOf(g, i).dist
        && nucleus[4 * i + 2] == OrbitOf(g, i).speed && nucleus[4 * i + 3] == OrbitOf(g, i).ring
      ensures forall i :: 0 <= i < ParticleCount ==> sizes[i] == SizeEntry(g, i)
    {
      basePos := new real[3 * ParticleCount](_ => 0.0);
      nucleus := new real[4 * ParticleCount](_ => 0.0);
      sizes := new real[ParticleCount](_ => 0.0);
      new;
      GeneratePlanet(g);
      GenerateRings(g);
    }

    /** The planet loop: particle `i` on the spiral; its first three nucleus words keep the
        zeros they were created with, the ring flag is set to 0. */
    method GeneratePlanet(g: Draws)
      requires Shaped() && WellDrawn(g)
      requires forall k :: 0 <= k < 4 * ParticleCount ==> nucleus[k] == 0.0
      modifies basePos, nucleus, sizes
      ensures forall i :: 0 <= i < SphereCount ==>
        basePos[3 * i] == RestPoint(g, i).x && basePos[3 * i + 1] == RestPoint(g, i).y
        && basePos[3 * i + 2] == RestPoint(g, i).z
      ensures forall k :: 0 <= k < 4 * ParticleCount ==> nucleus[k] == 0.0
      ensures forall i :: 0 <= i < SphereCount ==> sizes[i] == SizeEntry(g, i)
    {
      for i := 0 to SphereCount
        invariant forall j :: 0 <= j < i ==>
          basePos[3 * j] == RestPoint(g, j).x && basePos[3 * j + 1] == RestPoint(g, j).y
          && basePos[3 * j + 2] == RestPoint(g, j).z
        invariant forall k :: 0 <= k < 4 * ParticleCount ==> nucleus[k] == 0.0
        invariant forall j :: 0 <= j < i ==> sizes[j] == SizeEntry(g, j)
      {
        SetPlanetSlot(g, i);
      }
    }

    /** One pass of the planet loop: particle `i` gets its place on the spiral, ring flag 0
        and its size; every other entry is left as it was. */
    method SetPlanetSlot(g: Draws, i: nat)
      requires Shaped() && WellDrawn(g) && i < SphereCount
      modifies basePos, nucleus, sizes
      ensures basePos[3 * i] == RestPoint(g, i).x && basePos[3 * i + 1] == RestPoint(g, i).y
        && basePos[3 * i + 2] == RestPoint(g, i).z
      ensures nucleus[4 * i + 3] == 0.0 && sizes[i] == SizeEntry(g, i)
      ensures forall k :: 0 <= k < 3 * ParticleCount && (k < 3 * i || 3 * i + 3 <= k) ==> basePos[k] == old(basePos[k])
      ensures forall k :: 0 <= k < 4 * ParticleCount && k != 4 * i + 3 ==> nucleus[k] == old(nucleus[k])
      ensures forall k :: 0 <= k < ParticleCount && k != i ==> sizes[k] == old(sizes[k])
    {
      var p := SpherePoint(i, g.sqrt, g.cos, g.sin);
      basePos[i * 3] := p.x;
      basePos[i * 3 + 1] := p.y;
      basePos[i * 3 + 2] := p.z;
      nucleus[i * 4 + 3] := 0.0;
      sizes[i] := g.planetSizes[i] * 0.3 + 0.1;
    }

    /** The ring loop, which leaves the planet's entries as they are. */
    method GenerateRings(g: Draws)
      requires Shaped() && WellDrawn(g)
      requires forall i :: 0 <= i < SphereCount ==>
        basePos[3 * i] == RestPoint(g, i).x && basePos[3 * i + 1] == RestPoint(g, i).y
        && basePos[3 * i + 2] == RestPoint(g, i).z
      requires forall k :: 0 <= k < 4 * ParticleCount ==> nucleus[k] == 0.0
      requires forall i :: 0 <= i < SphereCount ==> sizes[i] == SizeEntry(g, i)
      modifies basePos, nucleus, sizes
      ensures forall i :: 0 <= i < ParticleCount ==>
        basePos[3 * i] == RestPoint(g, i).x && basePos[3 * i + 1] == RestPoint(g, i).y
        && basePos[3 * i + 2] == RestPoint(g, i).z
      ensures forall i :: 0 <= i < ParticleCount ==>
        nucleus[4 * i] == OrbitOf(g, i).angle && nucleus[4 * i + 1] == OrbitOf(g, i).dist
        && nucleus[4 * i + 2] == OrbitOf(g, i).speed && nucleus[4 * i + 3] == OrbitOf(g, i).ring
      ensures forall i :: 0 <= i < ParticleCount ==> sizes[i] == SizeEntry(g, i)
    {
      for i := SphereCount to ParticleCount
        invariant forall k :: 0 <= k < 3 * SphereCount ==> basePos[k] == old(basePos[k])
        invariant forall k :: 0 <= k < 4 * SphereCount ==> nucleus[k] == 0.0
        invariant forall k :: 0 <= k < SphereCount ==> sizes[k] == old(sizes[k])
        invariant forall j :: SphereCount <= j < i ==>
          basePos[3 * j] == RestPoint(g, j).x && basePos[3 * j + 1] == RestPoint(g, j).y
          && basePos[3 * j + 2] == RestPoint(g, j).z
        invariant forall j :: SphereCount <= j < i ==>
          nucleus[4 * j] == OrbitOf(g, j).angle && nucleus[4 * j + 1] == OrbitOf(g, j).dist
          && nucleus[4 * j + 2] == OrbitOf(g, j).speed && nucleus[4 * j + 3] == OrbitOf(g, j).ring
        invariant forall j :: SphereCount <= j < i ==> sizes[j] == SizeEntry(g, j)
      {
        SetRingSlot(g, i);
      }
    }

    /** One pass of the ring loop: particle `i` gets its orbit, size and resting point;
        every other entry is left as it was. */
    method SetRingSlot(g: Draws, i: nat)
      requires Shaped() && WellDrawn(g) && SphereCount <= i < ParticleCount
      modifies basePos, nucleus, sizes
      ensures basePos[3 * i] == RestPoint(g, i).x && basePos[3 * i + 1] == RestPoint(g, i).y
        && basePos[3 * i + 2] == RestPoint(g, i).z
      ensures nucleus[4 * i] == OrbitOf(g, i).angle && nucleus[4 * i + 1] == OrbitOf(g, i).dist
        && nucleus[4 * i + 2] == OrbitOf(g, i).speed && nucleus[4 * i + 3] == OrbitOf(g, i).ring
      ensures sizes[i] == SizeEntry(g, i)
      ensures forall k :: 0 <= k < 3 * ParticleCount && (k < 3 * i || 3 * i + 3 <= k) ==> basePos[k] == old(basePos[k])
      ensures forall k :: 0 <= k < 4 * ParticleCount && (k < 4 * i || 4 * i + 4 <= k) ==> nucleus[k] == old(nucleus[k])
      ensures forall k :: 0 <= k < ParticleCount && k != i ==> sizes[k] == old(sizes[k])
    {
      var d := g.rings[i - SphereCount];
      var angle := RingAngle(d);
      var dist := RingDist(d);
      var speed := RingSpeed(d);
      nucleus[i * 4] := angle;
      nucleus[i * 4 + 1] := dist;
      nucleus[i * 4 + 2] := speed;
      nucleus[i * 4 + 3] := 1.0;
      sizes[i] := d.size * 0.2 + 0.1;
      var p := RingPoint(d, g.cos, g.sin);
      basePos[i * 3] := p.x;
      basePos[i * 3 + 1] := p.y;
      basePos[i * 3 + 2] := p.z;
    }
  }
}
