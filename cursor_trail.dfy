/** The cursor "rift" (src/components/common/CustomCursor.jsx): a bounded history of
    recent pointer positions, newest first, that grows while the pointer moves and
    retracts from its tail on a timer once the pointer has been idle, plus a list of
    smoke particles that fade out and are dropped. Timestamps are milliseconds and the
    `Math.random` draws of a frame are inputs. */
module CursorTrail {
  import opened JsNumber

  /** `MAX_POINTS`, `BASE_WIDTH`, `SPEED_MULTIPLIER`, `IDLE_TIMEOUT`, `CLOSE_INTERVAL`. */
  const MaxPoints: nat := 20
  const BaseWidth: real := 12.0
  const SpeedMultiplier: real := 1.2
  const IdleTimeout: real := 2500.0
  const CloseInterval: real := 60.0
  /** The width cap of a new point. */
  const MaxWidth: real := 50.0
  /** A new point is recorded only once the pointer has moved further than this. */
  const MinStep: real := 8.0

  /** A recorded pointer position with its rift width and two edge jitters. */
  datatype TrailPoint = TrailPoint(x: real, y: real, width: real, jitterL: real, jitterR: real)

  /** A smoke particle. */
  datatype Smoke = Smoke(x: real, y: real, vx: real, vy: real, life: real, decay: real, size: real)

  /** The six draws that shape one smoke particle. */
  datatype SmokeDraw = SmokeDraw(dx: real, dy: real, vx: real, vy: real, decay: real, size: real)

  /** The draws a new point consumes, in the order the source makes them: two jitters,
      the particle count, then one `SmokeDraw` per particle. */
  datatype PointDraws = PointDraws(jitterL: real, jitterR: real, count: real, first: SmokeDraw, second: SmokeDraw)

  predicate UnitSmoke(d: SmokeDraw)
  {
    Unit(d.dx) && Unit(d.dy) && Unit(d.vx) && Unit(d.vy) && Unit(d.decay) && Unit(d.size)
  }

  /** Every draw is a `Math.random()` value, in [0,1). */
  predicate UnitDraws(d: PointDraws)
  {
    Unit(d.jitterL) && Unit(d.jitterR) && Unit(d.count) && UnitSmoke(d.first) && UnitSmoke(d.second)
  }

  // ---------------------------------------------------------------------------
  // New points and smoke

  /** `Math.min(BASE_WIDTH + dist * SPEED_MULTIPLIER, 50)`: wider for faster strokes,
      never wider than 50, and never narrower than 12 for a real distance. */
  function PointWidth(dist: real): (w: real)
    ensures w <= MaxWidth
    ensures dist >= 0.0 ==> BaseWidth <= w
    ensures dist >= 0.0 && BaseWidth + dist * SpeedMultiplier <= MaxWidth ==> w >= dist
  {
    Min(BaseWidth + dist * SpeedMultiplier, MaxWidth)
  }

  /** A faster stroke is never drawn narrower. */
  lemma PointWidthMonotone(d1: real, d2: real)
    requires d1 <= d2
    ensures PointWidth(d1) <= PointWidth(d2)
  {
  }

  /** The point recorded at `(x, y)` after moving `dist`. */
  function NewPoint(x: real, y: real, dist: real, d: PointDraws): (p: TrailPoint)
    ensures p.x == x && p.y == y && p.width == PointWidth(dist)
    ensures dist >= 0.0 && UnitDraws(d) ==>
      BaseWidth <= p.width <= MaxWidth && 0.0 <= p.jitterL < p.width * 0.5 && 0.0 <= p.jitterR < p.width * 0.5
  {
    var w := PointWidth(dist);
    var p := TrailPoint(x, y, w, Jitter(d.jitterL, w), Jitter(d.jitterR, w));
    if dist >= 0.0 && UnitDraws(d) then
      JitterBelowHalf(d.jitterL, w);
      JitterBelowHalf(d.jitterR, w);
      p
    else
      p
  }

  /** A side jitter of a point: `Math.random() * width * 0.5`. */
  function Jitter(r: real, w: real): real
  {
    r * w * 0.5
  }

  /** A jitter lies in [0, width/2) for a positive width. */
  lemma JitterBelowHalf(r: real, w: real)
    requires Unit(r) && w > 0.0
    ensures 0.0 <= Jitter(r, w) < w * 0.5
  {
    MulNonneg(r, w);
    MulPos(1.0 - r, w);
  }

  /** One smoke particle spawned around `(x, y)` for a point of width `w`. */
  function NewSmoke(x: real, y: real, w: real, d: SmokeDraw): (s: Smoke)
    ensures s.life == 1.0
    ensures UnitSmoke(d) ==> 0.01 <= s.decay < 0.03 && 2.0 <= s.size < 6.0 && -1.5 < s.vy <= -0.5
  {
    Smoke(x + (d.dx - 0.5) * w, y + (d.dy - 0.5) * w, (d.vx - 0.5) * 0.5, -0.5 - d.vy,
          1.0, 0.01 + d.decay * 0.02, 2.0 + d.size * 4.0)
  }

  /** The smoke of a new point: two particles when the count draw exceeds 0.5, else one. */
  function Spawn(x: real, y: real, w: real, d: PointDraws): (s: seq<Smoke>)
    ensures |s| == (if d.count > 0.5 then 2 else 1)
    ensures forall i :: 0 <= i < |s| ==> s[i].life == 1.0
    ensures UnitDraws(d) ==> forall i :: 0 <= i < |s| ==> 0.01 <= s[i].decay < 0.03
  {
    if d.count > 0.5 then [NewSmoke(x, y, w, d.first), NewSmoke(x, y, w, d.second)]
    else [NewSmoke(x, y, w, d.first)]
  }

  /** The distance from the newest point, or 0 with no history. */
  function Dist(history: seq<TrailPoint>, x: real, y: real, hypot: (real, real) -> real): real
  {
    if |history| == 0 then 0.0 else Apply2(hypot, x - history[0].x, y - history[0].y)
  }

  /** The active phase records a point when there is none yet or the pointer moved far enough. */
  predicate Records(history: seq<TrailPoint>, x: real, y: real, hypot: (real, real) -> real)
  {
    |history| == 0 || Dist(history, x, y, hypot) > MinStep
  }

  /** The cap after an `unshift`: drop the oldest point once there are more than 20. */
  function Cap(h: seq<TrailPoint>): (r: seq<TrailPoint>)
    ensures |h| <= MaxPoints + 1 ==> |r| <= MaxPoints
    ensures |h| <= MaxPoints ==> r == h
    ensures |h| - 1 <= |r| <= |h| && r == h[..|r|]
  {
    if |h| > MaxPoints then h[..|h| - 1] else h
  }

  // ---------------------------------------------------------------------------
  // Smoke update

  /** One frame of a smoke particle: drift by its velocity and lose `decay` of life. */
  function StepSmoke(p: Smoke): (q: Smoke)
    ensures q.life == p.life - p.decay && q.vx == p.vx && q.vy == p.vy && q.decay == p.decay && q.size == p.size
  {
    p.(x := p.x + p.vx, y := p.y + p.vy, life := p.life - p.decay)
  }

  /** The particles after a frame: every particle stepped, and those whose life reached 0
      dropped, the rest in their old order. */
  function Survivors(ps: seq<Smoke>): (r: seq<Smoke>)
    ensures |r| <= |ps|
    ensures forall q :: q in r ==> q.life > 0.0
  {
    if ps == [] then []
    else
      var q := StepSmoke(ps[0]);
      (if q.life > 0.0 then [q] else []) + Survivors(ps[1..])
  }

  /** One step of the backward sweep: particle `i` is stepped in place, or spliced out
      when its life ran out. */
  lemma SweepStep(ps: seq<Smoke>, i: nat, cur: seq<Smoke>)
    requires i < |ps|
    requires cur == ps[..i + 1] + Survivors(ps[i + 1..])
    ensures i < |cur| && cur[i] == ps[i]
    ensures StepSmoke(ps[i]).life <= 0.0 ==> cur[..i] + cur[i + 1..] == ps[..i] + Survivors(ps[i..])
    ensures StepSmoke(ps[i]).life > 0.0 ==> cur[i := StepSmoke(ps[i])] == ps[..i] + Survivors(ps[i..])
  {
    assert ps[i..][1..] == ps[i + 1..];
    assert ps[..i + 1] == ps[..i] + [ps[i]];
    var rest := Survivors(ps[i + 1..]);
    assert cur == ps[..i] + [ps[i]] + rest;
    assert cur[..i] == ps[..i] && cur[i + 1..] == rest;
  }

  /** A particle survives a frame exactly when its stepped life is positive. */
  lemma {:induction false} SurvivorsMembership(ps: seq<Smoke>, q: Smoke)
    ensures q in Survivors(ps) <==> exists i :: 0 <= i < |ps| && q == StepSmoke(ps[i]) && q.life > 0.0
  {
    if ps != [] {
      SurvivorsMembership(ps[1..], q);
      if q in Survivors(ps[1..]) {
        var i :| 0 <= i < |ps[1..]| && q == StepSmoke(ps[1..][i]) && q.life > 0.0;
        assert q == StepSmoke(ps[i + 1]);
      }
      if exists i :: 0 <= i < |ps| && q == StepSmoke(ps[i]) && q.life > 0.0 {
        var i :| 0 <= i < |ps| && q == StepSmoke(ps[i]) && q.life > 0.0;
        if i > 0 {
          assert ps[1..][i - 1] == ps[i];
        }
      }
    }
  }

  /** Removal keeps the order: the survivors of two runs of particles are the survivors of
      the first followed by those of the second. */
  lemma {:induction false} SurvivorsAppend(a: seq<Smoke>, b: seq<Smoke>)
    ensures Survivors(a + b) == Survivors(a) + Survivors(b)
  {
    if a == [] {
      assert a + b == b;
    } else {
      assert (a + b)[1..] == a[1..] + b;
      SurvivorsAppend(a[1..], b);
    }
  }

  /** A particle whose life is spent leaves the list at once; one with life to spare stays. */
  lemma SurvivorsSingle(p: Smoke)
    ensures Survivors([p]) == (if p.life - p.decay > 0.0 then [StepSmoke(p)] else [])
  {
    assert [p][1..] == [];
  }

  // ---------------------------------------------------------------------------
  // Taper

  /** The denominator of the taper: the snapshotted length while closing, else the
      current length. */
  function ProgressDivisor(isIdle: bool, startClosingLength: nat, n: nat): nat
  {
    if isIdle && startClosingLength > 0 then startClosingLength else n
  }

  /** `Math.max(0, 1 - i / progressDivisor)`: a factor in [0,1] that is positive for
      every index below the divisor. */
  function TaperFactor(i: nat, divisor: nat): (f: real)
    requires divisor > 0
    ensures 0.0 <= f <= 1.0
    ensures i < divisor ==> f > 0.0
    ensures i >= divisor ==> f == 0.0
  {
    RatioBelowOne(i as real, divisor as real);
    Max(0.0, 1.0 - i as real / divisor as real)
  }

  /** For a positive denominator, `i / d` is below 1 exactly when `i` is below `d`. */
  lemma RatioBelowOne(i: real, d: real)
    requires i >= 0.0 && d > 0.0
    ensures 0.0 <= i / d
    ensures i < d <==> i / d < 1.0
  {
    var q := i / d;
    DivMul(i, d);
    assert d * q == i;
    if q < 0.0 {
      MulPos(d, -q);
    }
    Distance(d, q, 1.0);
    if q >= 1.0 {
      MulNonneg(d, q - 1.0);
    } else {
      MulPos(d, 1.0 - q);
      Distance(d, 1.0, q);
    }
  }

  /** The taper falls off along the rift: a later point is never drawn with a larger factor. */
  lemma TaperFalls(i: nat, j: nat, divisor: nat)
    requires divisor > 0 && i <= j
    ensures TaperFactor(j, divisor) <= TaperFactor(i, divisor)
  {
    assert i as real / divisor as real <= j as real / divisor as real;
  }

  /** How far the two edges of the rift lie from point `i`. */
  datatype Edge = Edge(left: real, right: real)

  /** The offset the drawing loop uses for segment `i`: tapered width plus tapered jitter. */
  function EdgeAt(p: TrailPoint, i: nat, divisor: nat): Edge
    requires divisor > 0
  {
    var f := TaperFactor(i, divisor);
    Edge(p.width * f + p.jitterL * f, p.width * f + p.jitterR * f)
  }

  /** The edge offsets of the drawing loop over the segments `points[i]`-`points[i+1]`;
      the trigonometry that turns them into screen positions is left to the canvas. */
  method TaperOffsets(points: seq<TrailPoint>, divisor: nat) returns (edges: seq<Edge>)
    requires |points| > 1 && divisor > 0
    ensures |edges| == |points| - 1
    ensures forall i :: 0 <= i < |edges| ==> edges[i] == EdgeAt(points[i], i, divisor)
  {
    edges := [];
    for i := 0 to |points| - 1
      invariant |edges| == i
      invariant forall k :: 0 <= k < i ==> edges[k] == EdgeAt(points[k], k, divisor)
    {
      var p1 := points[i];
      var progress := 1.0 - (i as real / divisor as real);
      var w := p1.width * Max(0.0, progress);
      var jL := p1.jitterL * Max(0.0, progress);
      var jR := p1.jitterR * Max(0.0, progress);
      edges := edges + [Edge(w + jL, w + jR)];
    }
  }

  /** The closing phase at time `now` takes the history `h0`, the snapshot `sc0` and the
      last drop time `lcu0` to `h`, `sc` and `lcu`: the length is snapshotted (and the drop
      clock synced) when closing begins, the oldest point is dropped when more than 60 ms
      passed since the last drop, and the snapshot is reset once the history is empty. */
  predicate ClosesFrom(h0: seq<TrailPoint>, sc0: nat, lcu0: real, now: real,
                       h: seq<TrailPoint>, sc: nat, lcu: real)
  {
    var snap := sc0 == 0;
    var sc1 := if snap then |h0| else sc0;
    var lcu1 := if snap then now else lcu0;
    && (|h0| > 0 && now - lcu1 > CloseInterval ==> h == h0[..|h0| - 1] && lcu == now && sc == sc1)
    && (|h0| > 0 && now - lcu1 <= CloseInterval ==> h == h0 && lcu == lcu1 && sc == sc1)
    && (|h0| == 0 ==> h == [] && lcu == lcu1 && sc == 0)
  }

  /** A point with a non-negative width and jitters gets edge offsets between 0 and its
      untapered width plus jitter. */
  lemma EdgeBounds(p: TrailPoint, i: nat, divisor: nat)
    requires divisor > 0 && p.width >= 0.0 && p.jitterL >= 0.0 && p.jitterR >= 0.0
    ensures 0.0 <= EdgeAt(p, i, divisor).left <= p.width + p.jitterL
    ensures 0.0 <= EdgeAt(p, i, divisor).right <= p.width + p.jitterR
  {
    var f := TaperFactor(i, divisor);
    MulNonneg(p.width, f);
    MulNonneg(p.jitterL, f);
    MulNonneg(p.jitterR, f);
    MulNonneg(p.width, 1.0 - f);
    MulNonneg(p.jitterL, 1.0 - f);
    MulNonneg(p.jitterR, 1.0 - f);
  }

  // ---------------------------------------------------------------------------
  // The component's per-frame state

  class Trail {
    var mouseX: real
    var mouseY: real
    var history: seq<TrailPoint>
    var particles: seq<Smoke>
    var lastMoveTime: real
    var isMouseInViewport: bool
    var frameCount: nat
    var startClosingLength: nat
    var lastCloseUpdate: real

    /** The history is capped, and while closing it never outgrows the snapshotted length. */
    predicate Valid()
      reads this
    {
      |history| <= MaxPoints
      && (startClosingLength == 0 || |history| <= startClosingLength)
      && startClosingLength <= MaxPoints
    }

    /** Mounting at time `now`: pointer parked off screen at (-100,-100), nothing recorded. */
    constructor(now: real)
      ensures mouseX == -100.0 && mouseY == -100.0 && history == [] && particles == []
      ensures lastMoveTime == now && isMouseInViewport && frameCount == 0
      ensures startClosingLength == 0 && lastCloseUpdate == 0.0
      ensures Valid()
    {
      mouseX, mouseY := -100.0, -100.0;
      history, particles := [], [];
      lastMoveTime := now;
      isMouseInViewport := true;
      frameCount := 0;
      startClosingLength := 0;
      lastCloseUpdate := 0.0;
    }

    /** `handleMouseMove`. */
    method MouseMove(x: real, y: real, now: real)
      modifies this
      ensures mouseX == x && mouseY == y && lastMoveTime == now && isMouseInViewport
      ensures history == old(history) && particles == old(particles) && frameCount == old(frameCount)
      ensures startClosingLength == old(startClosingLength) && lastCloseUpdate == old(lastCloseUpdate)
    {
      mouseX, mouseY := x, y;
      lastMoveTime := now;
      if !isMouseInViewport {
        isMouseInViewport := true;
      }
    }

    /** `handleMouseLeave`. */
    method MouseLeave(now: real)
      modifies this
      ensures !isMouseInViewport && lastMoveTime == now
      ensures mouseX == old(mouseX) && mouseY == old(mouseY)
      ensures history == old(history) && particles == old(particles) && frameCount == old(frameCount)
      ensures startClosingLength == old(startClosingLength) && lastCloseUpdate == old(lastCloseUpdate)
    {
      isMouseInViewport := false;
      lastMoveTime := now;
    }

    /** The closing phase of an idle frame: snapshot the length when closing begins, then
        drop the oldest point if more than 60 ms passed since the last drop; with nothing
        left, end the closing. */
    method Close(now: real)
      requires Valid()
      modifies this
      ensures Valid()
      ensures ClosesFrom(old(history), old(startClosingLength), old(lastCloseUpdate), now,
                         history, startClosingLength, lastCloseUpdate)
      ensures particles == old(particles) && mouseX == old(mouseX) && mouseY == old(mouseY)
      ensures lastMoveTime == old(lastMoveTime) && isMouseInViewport == old(isMouseInViewport)
      ensures frameCount == old(frameCount)
    {
      if startClosingLength == 0 {
        startClosingLength := |history|;
        lastCloseUpdate := now;
      }
      if |history| > 0 {
        if now - lastCloseUpdate > CloseInterval {
          history := history[..|history| - 1];
          lastCloseUpdate := now;
        }
      } else {
        startClosingLength := 0;
      }
    }

    /** The active phase: end any closing, and record the pointer as the newest point when
        it moved far enough, capping the history and spawning smoke. */
    method Record(x: real, y: real, hypot: (real, real) -> real, draws: PointDraws)
      requires Valid()
      modifies this
      ensures Valid() && startClosingLength == 0
      ensures Records(old(history), x, y, hypot) ==>
        var p := NewPoint(x, y, Dist(old(history), x, y, hypot), draws);
        && history == Cap([p] + old(history))
        && particles == old(particles) + Spawn(x, y, p.width, draws)
      ensures !Records(old(history), x, y, hypot) ==> history == old(history) && particles == old(particles)
      ensures lastCloseUpdate == old(lastCloseUpdate) && mouseX == old(mouseX) && mouseY == old(mouseY)
      ensures lastMoveTime == old(lastMoveTime) && isMouseInViewport == old(isMouseInViewport)
      ensures frameCount == old(frameCount)
    {
      startClosingLength := 0;
      var dist := Dist(history, x, y, hypot);
      if |history| == 0 || dist > MinStep {
        var p := NewPoint(x, y, dist, draws);
        history := [p] + history;
        if |history| > MaxPoints {
          history := history[..|history| - 1];
        }
        var particleCount := if draws.count > 0.5 then 2 else 1;
        var spawned := Spawn(x, y, p.width, draws);
        for i := 0 to particleCount
          invariant particles == old(particles) + spawned[..i]
          invariant history == Cap([p] + old(history)) && startClosingLength == 0
          invariant lastCloseUpdate == old(lastCloseUpdate) && mouseX == old(mouseX) && mouseY == old(mouseY)
          invariant lastMoveTime == old(lastMoveTime) && isMouseInViewport == old(isMouseInViewport)
          invariant frameCount == old(frameCount)
        {
          particles := particles + [spawned[i]];
        }
        assert spawned[..particleCount] == spawned;
      }
    }

    /** The backwards smoke loop: step every particle and `splice` out the spent ones. */
    method UpdateSmoke()
      modifies this`particles
      ensures particles == Survivors(old(particles))
      ensures history == old(history) && startClosingLength == old(startClosingLength)
      ensures lastCloseUpdate == old(lastCloseUpdate) && mouseX == old(mouseX) && mouseY == old(mouseY)
      ensures lastMoveTime == old(lastMoveTime) && isMouseInViewport == old(isMouseInViewport)
      ensures frameCount == old(frameCount)
    {
      ghost var ps := particles;
      var cur := particles;
      var i := |cur|;
      assert ps[i..] == [];
      while i > 0
        invariant 0 <= i <= |ps|
        invariant cur == ps[..i] + Survivors(ps[i..])
      {
        i := i - 1;
        SweepStep(ps, i, cur);
        var p := cur[i];
        p := p.(x := p.x + p.vx, y := p.y + p.vy);
        p := p.(life := p.life - p.decay);
        if p.life <= 0.0 {
          cur := cur[..i] + cur[i + 1..];
        } else {
          cur := cur[i := p];
        }
      }
      assert ps[0..] == ps;
      particles := cur;
    }

    /** One run of `loop` at time `now`. The pointer position is the one the last move
        event stored; `hasCanvas` says whether the canvas is mounted. */
    method Frame(now: real, hypot: (real, real) -> real, draws: PointDraws, hasCanvas: bool)
      requires Valid()
      modifies this
      ensures Valid()
      ensures frameCount == old(frameCount) + 1
      ensures var idle := now - old(lastMoveTime) > IdleTimeout;
        var skip := idle && |old(history)| == 0 && |old(particles)| == 0;
        var rec := !idle && Records(old(history), mouseX, mouseY, hypot);
        var p := NewPoint(mouseX, mouseY, Dist(old(history), mouseX, mouseY, hypot), draws);
        var mid := if rec then old(particles) + Spawn(mouseX, mouseY, p.width, draws) else old(particles);
        && (skip ==>
              history == [] && particles == [] && startClosingLength == old(startClosingLength)
              && lastCloseUpdate == old(lastCloseUpdate))
        && (idle && !skip ==>
              ClosesFrom(old(history), old(startClosingLength), old(lastCloseUpdate), now,
                         history, startClosingLength, lastCloseUpdate))
        && (!idle ==> lastCloseUpdate == old(lastCloseUpdate))
        && (rec ==> history == Cap([p] + old(history)))
        && (!skip ==> particles == (if hasCanvas then Survivors(mid) else mid))
      ensures var idle := now - old(lastMoveTime) > IdleTimeout;
        && (idle ==> |history| <= |old(history)| && history == old(history)[..|history|]
                     && |history| + 1 >= |old(history)|)
        && (!idle ==> startClosingLength == 0)
        && (!idle && Records(old(history), mouseX, mouseY, hypot) ==>
              0 < |history| <= |old(history)| + 1 && history[0].x == mouseX && history[0].y == mouseY
              && history[1..] == old(history)[..|history| - 1])
        && (!idle && !Records(old(history), mouseX, mouseY, hypot) ==> history == old(history))
      ensures mouseX == old(mouseX) && mouseY == old(mouseY)
      ensures lastMoveTime == old(lastMoveTime) && isMouseInViewport == old(isMouseInViewport)
    {
      frameCount := frameCount + 1;
      var timeSinceMove := now - lastMoveTime;
      var isIdle := timeSinceMove > IdleTimeout;
      if isIdle && |history| == 0 && |particles| == 0 {
        return;
      }
      if isIdle {
        Close(now);
      } else {
        Record(mouseX, mouseY, hypot, draws);
      }
      if hasCanvas && |particles| > 0 {
        UpdateSmoke();
      }
    }

    /** While the rift is drawn, the taper divisor exceeds every segment index, so the
        clamp at 0 never bites and every drawn segment keeps a positive width factor. */
    lemma TaperNeverClamps(isIdle: bool, i: nat)
      requires Valid() && |history| > 1 && i < |history| - 1
      ensures ProgressDivisor(isIdle, startClosingLength, |history|) > 0
      ensures TaperFactor(i, ProgressDivisor(isIdle, startClosingLength, |history|)) > 0.0
    {
    }
  }

  /** One closing step drops at most the oldest point: the new history is the old one or
      the old one without its last point. */
  lemma CloseDropsAtMostOne(h0: seq<TrailPoint>, sc0: nat, lcu0: real, now: real,
                            h: seq<TrailPoint>, sc: nat, lcu: real)
    requires ClosesFrom(h0, sc0, lcu0, now, h, sc, lcu)
    ensures |h| <= |h0| && |h| + 1 >= |h0| && h == h0[..|h|]
  {
  }

  /** Over a run of closing steps the newest points are kept and at most one point goes
      per step, so a history of `n` points needs at least `n` idle frames to empty. */
  lemma {:induction false} RetractionPace(hs: seq<seq<TrailPoint>>, scs: seq<nat>, lcus: seq<real>, nows: seq<real>)
    requires |hs| >= 1 && |scs| == |hs| && |lcus| == |hs| && |nows| + 1 == |hs|
    requires forall k :: 0 <= k < |hs| - 1 ==>
      ClosesFrom(hs[k], scs[k], lcus[k], nows[k], hs[k + 1], scs[k + 1], lcus[k + 1])
    ensures |hs[|hs| - 1]| <= |hs[0]| && hs[|hs| - 1] == hs[0][..|hs[|hs| - 1]|]
    ensures |hs[|hs| - 1]| + |hs| - 1 >= |hs[0]|
  {
    var n := |hs|;
    if n > 1 {
      RetractionPace(hs[..n - 1], scs[..n - 1], lcus[..n - 1], nows[..n - 2]);
      assert hs[..n - 1][n - 2] == hs[n - 2] && hs[..n - 1][0] == hs[0];
      CloseDropsAtMostOne(hs[n - 2], scs[n - 2], lcus[n - 2], nows[n - 2], hs[n - 1], scs[n - 1], lcus[n - 1]);
    }
  }
}
