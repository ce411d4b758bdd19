/**
 * The frame loop of eternity_background/scripts/game.py: three sprite
 * groups, a pass per frame that advances and culls every sprite, event
 * dispatch for quitting and spawning, and the frame-time update.
 */
module Game {
  import opened Geometry
  import opened Constants
  import opened Events
  import GameEngine
  import Entities

  const SCREEN_RECT: Rect := Rect(0, 0, SCREEN_W, SCREEN_H)

  // ---------------------------------------------------------------------------
  // Culling policy

  /**
   * `check_border`: a sprite is killed once its glow's bottom edge is above
   * the screen. A culled glow can no longer be seen, and a glow whose top is
   * on or below the screen's top edge is never culled.
   */
  predicate CheckBorder(imageRect: Rect)
    ensures CheckBorder(imageRect) ==> !CollideRect(imageRect, SCREEN_RECT)
    ensures imageRect.y >= 0 ==> !CheckBorder(imageRect)
  {
    imageRect.Bottom() < 0
  }

  /** A glow ending one pixel above the screen is culled; one ending on the top edge is kept. */
  lemma CheckBorderAtTopEdge(r: Rect)
    ensures r.Bottom() == -1 ==> CheckBorder(r)
    ensures r.Bottom() == 0 ==> !CheckBorder(r)
  {
  }

  /**
   * The bar pass removes a bar only when it misses the screen and its
   * centre has passed the top-left corner in both directions. Against a
   * screen at a non-negative corner, a removed bar lies wholly left of it or
   * wholly above it (or has a zero side).
   */
  predicate UpperEntityGone(rect: Rect, screen: Rect)
    ensures UpperEntityGone(rect, screen) && screen.x >= 0 && screen.y >= 0 && screen.w > 0 && screen.h > 0 ==>
              rect.w == 0 || rect.h == 0 || rect.Right() <= screen.x || rect.Bottom() <= screen.y
  {
    !CollideRect(rect, screen) && rect.CenterX() < 0 && rect.CenterY() < 0
  }

  // ---------------------------------------------------------------------------
  // Spawn placement

  /** `generate_upper_entity`: a 50-pixel bar as long as the screen diagonal, centred below right. */
  function UpperSpawnRect(): Rect
  {
    var bar := Rect(0, 0, 50, SCREEN_LENGTH_PX);
    bar.WithCenter(SCREEN_W + bar.w, SCREEN_H + bar.w)
  }

  /**
   * A new bar is centred at `(SCREEN_W + 50, SCREEN_H + 50)`. It misses the
   * screen, so a plain "off screen" test would drop it at once; the bar pass
   * keeps it.
   */
  lemma UpperSpawnIsKept()
    ensures UpperSpawnRect().w == 50 && UpperSpawnRect().h == SCREEN_LENGTH_PX
    ensures UpperSpawnRect().CenterX() == SCREEN_W + 50 && UpperSpawnRect().CenterY() == SCREEN_H + 50
    ensures !CollideRect(UpperSpawnRect(), SCREEN_RECT)
    ensures !UpperEntityGone(UpperSpawnRect(), SCREEN_RECT)
  {
    assert UpperSpawnRect() == Rect(1625, 33, 50, 1835);
  }

  /**
   * The bar pass moves a bar before it tests it. A new bar drifts left by
   * `3 * dt` pixels, so any pass with `dt` below 550 (a frame of about nine
   * seconds at the target rate) leaves its centre right of the screen's
   * left edge, and the bar stays.
   */
  lemma {:induction false} SpawnedBarSurvivesFirstPass(dt: real)
    requires 0.0 <= dt < 550.0
    ensures !UpperEntityGone(UpperSpawnRect().Move(Vec2(-3.0, -1.9).Scale(dt)), SCREEN_RECT)
  {
    assert UpperSpawnRect() == Rect(1625, 33, 50, 1835);
    assert Trunc(-3.0 * dt) > -1650;
  }

  /** `generate_rect`: a square of the drawn size and column, just below the screen. */
  function RectSpawnRect(d: RectDraw): Rect
  {
    Rect(d.x, SCREEN_H + d.size, d.size, d.size)
  }

  /** A new rectangle's glow starts below the screen, so it is neither visible nor culled. */
  lemma RectSpawnIsKept(d: RectDraw)
    ensures RectSpawnRect(d).y > SCREEN_H || d.size == 0
    ensures !CollideRect(Entities.BgRectImageRect(RectSpawnRect(d)), SCREEN_RECT)
    ensures !CheckBorder(Entities.BgRectImageRect(RectSpawnRect(d)))
  {
  }

  /**
   * `generate_particle`: the particle is re-centred on its glow after the
   * glow has been placed with its top edge at the bottom of the screen.
   */
  function ParticleSpawnPos(d: ParticleDraw): Vec2
  {
    var glow := Rect(0, 0, 6 * d.radius, 6 * d.radius).WithMidTop(Trunc(d.x as real), SCREEN_H);
    Vec2(glow.CenterX() as real, glow.CenterY() as real)
  }

  /** A new particle's glow has its top edge on the screen's bottom edge, at the drawn column. */
  lemma ParticleSpawnIsKept(d: ParticleDraw)
    ensures Entities.ParticleHaloRect(ParticleSpawnPos(d), 3 * d.radius).y == SCREEN_H
    ensures Entities.ParticleHaloRect(ParticleSpawnPos(d), 3 * d.radius).CenterX() == d.x
    ensures !CheckBorder(Entities.ParticleHaloRect(ParticleSpawnPos(d), 3 * d.radius))
  {
    var r := 3 * d.radius;
    assert (6 * d.radius) / 2 == r;
    TruncOfWhole(d.x);
    var glow := Rect(0, 0, 6 * d.radius, 6 * d.radius).WithMidTop(d.x, SCREEN_H);
    assert glow == Rect(d.x - r, SCREEN_H, 2 * r, 2 * r);
    assert ParticleSpawnPos(d) == Vec2(d.x as real, (SCREEN_H + r) as real);
    TruncOfWhole(SCREEN_H + r);
  }

  // ---------------------------------------------------------------------------
  // Events

  /** Some event of the batch asks to quit. */
  predicate QuitIn(events: seq<Event>)
  {
    events != [] && (QuitIn(events[..|events| - 1]) || GameEngine.CheckGameQuit(events[|events| - 1]))
  }

  /** The rectangle an event spawns: one for a rectangle timer event, none otherwise. */
  function RectDrawOf(e: Event): seq<RectDraw>
  {
    if e.RectTimer? then [e.rectDraw] else []
  }

  /** The particle an event spawns: one for a particle timer event, none otherwise. */
  function ParticleDrawOf(e: Event): seq<ParticleDraw>
  {
    if e.ParticleTimer? then [e.particleDraw] else []
  }

  /** The number of bars an event spawns: one for a bar timer event, none otherwise. */
  function UpperTimerOf(e: Event): nat
  {
    if e.UpperEntityTimer? then 1 else 0
  }

  /** The draws of the rectangle timer events, in order. */
  function RectDraws(events: seq<Event>): seq<RectDraw>
  {
    if events == [] then [] else RectDraws(events[..|events| - 1]) + RectDrawOf(events[|events| - 1])
  }

  /** The draws of the particle timer events, in order. */
  function ParticleDraws(events: seq<Event>): seq<ParticleDraw>
  {
    if events == [] then [] else ParticleDraws(events[..|events| - 1]) + ParticleDrawOf(events[|events| - 1])
  }

  /** The number of bar timer events. */
  function UpperTimers(events: seq<Event>): nat
  {
    if events == [] then 0 else UpperTimers(events[..|events| - 1]) + UpperTimerOf(events[|events| - 1])
  }

  ghost predicate SpawnedRect(b: Entities.BgRect, d: RectDraw)
    reads b
  {
    b.rect == RectSpawnRect(d) && b.xVel == 0.0 && b.yVel == d.yVel as real
    && b.rotationVel == d.rotationVel && b.rotation == d.rotation as real && b.width == d.width
  }

  ghost predicate SpawnedParticle(p: Entities.Particle, d: ParticleDraw)
    reads p
  {
    p.pos == ParticleSpawnPos(d) && p.movement == Vec2(0.0, d.yVel as real) && p.radius == d.radius
  }

  ghost predicate SpawnedUpperEntity(u: Entities.UpperEntity)
    reads u
  {
    u.rect == UpperSpawnRect() && u.movement == Vec2(-3.0, -1.9) && u.rotation == 0.0
  }

  /** The `k`-th rectangle of `bs` was spawned from the `k`-th draw of `ds`. */
  ghost predicate RectsSpawnedBy(bs: seq<Entities.BgRect>, ds: seq<RectDraw>)
    reads bs
  {
    |bs| == |ds| && forall k :: 0 <= k < |bs| ==> SpawnedRect(bs[k], ds[k])
  }

  /** The `k`-th particle of `ps` was spawned from the `k`-th draw of `ds`. */
  ghost predicate ParticlesSpawnedBy(ps: seq<Entities.Particle>, ds: seq<ParticleDraw>)
    reads ps
  {
    |ps| == |ds| && forall k :: 0 <= k < |ps| ==> SpawnedParticle(ps[k], ds[k])
  }

  /** `n` bars, each as `generate_upper_entity` places it. */
  ghost predicate BarsSpawned(us: seq<Entities.UpperEntity>, n: nat)
    reads us
  {
    |us| == n && forall k :: 0 <= k < |us| ==> SpawnedUpperEntity(us[k])
  }

  lemma RectsSpawnedByAppend(bs: seq<Entities.BgRect>, ds: seq<RectDraw>, bs': seq<Entities.BgRect>, ds': seq<RectDraw>)
    requires RectsSpawnedBy(bs, ds) && RectsSpawnedBy(bs', ds')
    ensures RectsSpawnedBy(bs + bs', ds + ds')
  {
  }

  lemma ParticlesSpawnedByAppend(ps: seq<Entities.Particle>, ds: seq<ParticleDraw>, ps': seq<Entities.Particle>, ds': seq<ParticleDraw>)
    requires ParticlesSpawnedBy(ps, ds) && ParticlesSpawnedBy(ps', ds')
    ensures ParticlesSpawnedBy(ps + ps', ds + ds')
  {
  }

  lemma BarsSpawnedAppend(us: seq<Entities.UpperEntity>, n: nat, us': seq<Entities.UpperEntity>, n': nat)
    requires BarsSpawned(us, n) && BarsSpawned(us', n')
    ensures BarsSpawned(us + us', n + n')
  {
  }

  lemma AppendAssoc<T>(a: seq<T>, b: seq<T>, c: seq<T>)
    ensures (a + b) + c == a + (b + c)
  {
  }

  predicate Distinct<T(==)>(s: seq<T>)
  {
    forall i, j :: 0 <= i < j < |s| ==> s[i] != s[j]
  }

  /** One frame's input: the events the queue delivers and the clock reading when `dt` is recomputed. */
  datatype Frame = Frame(events: seq<Event>, now: real)

  /** The clock readings that the frames' `get_dt` calls see, in order. */
  function Nows(frames: seq<Frame>): (r: seq<real>)
    ensures |r| == |frames|
    ensures forall k :: 0 <= k < |frames| ==> r[k] == frames[k].now
  {
    if frames == [] then [] else Nows(frames[..|frames| - 1]) + [frames[|frames| - 1].now]
  }

  /**
   * The counter's state and the `get_dt` results after the first `n` frames,
   * one `Tick` per frame.
   */
  function CounterAfter(defaultFps: int, s: GameEngine.FpsState, frames: seq<Frame>, n: nat)
    : (r: (GameEngine.FpsState, seq<GameEngine.DtResult>))
    requires n <= |frames|
    ensures |r.1| == n
  {
    if n == 0 then (s, [])
    else
      var prev := CounterAfter(defaultFps, s, frames, n - 1);
      var t := GameEngine.Tick(defaultFps, prev.0, frames[n - 1].now);
      (t.0, prev.1 + [t.1])
  }

  /** Frame by frame, the counter goes through exactly the run of `get_dt` calls at the frames' clock readings. */
  lemma {:induction false} CounterAfterIsRun(defaultFps: int, s: GameEngine.FpsState, frames: seq<Frame>, n: nat)
    requires n <= |frames|
    ensures CounterAfter(defaultFps, s, frames, n) == GameEngine.TickAll(defaultFps, s, Nows(frames[..n]))
  {
    if n > 0 {
      CounterAfterIsRun(defaultFps, s, frames, n - 1);
      assert frames[..n][..n - 1] == frames[..n - 1];
      GameEngine.TickAllSnoc(defaultFps, s, Nows(frames[..n - 1]), frames[n - 1].now);
    }
  }

  /** How `game_loop` ends: a quit event, an exception from `get_dt`, or no more input. */
  datatype LoopEnd = Quitted | Crashed(error: GameEngine.FpsError) | InputExhausted

  // ---------------------------------------------------------------------------
  // The game

  class Game {
    var rects: seq<Entities.BgRect>
    var particles: seq<Entities.Particle>
    var upperEntities: seq<Entities.UpperEntity>
    var running: bool
    const fpsCounter: GameEngine.FpsCounter
    const screenRect: Rect

    /** Each sprite group holds a sprite at most once; the counter keeps its window length. */
    ghost predicate Valid()
      reads this, fpsCounter
    {
      fpsCounter.Valid() && Distinct(rects) && Distinct(particles) && Distinct(upperEntities)
    }

    /** `Game()`: empty groups and a counter for 60 frames per second over ten samples. */
    constructor ()
      ensures Valid() && fresh(fpsCounter)
      ensures rects == [] && particles == [] && upperEntities == [] && !running
      ensures fpsCounter.defaultFps == 60 && fpsCounter.historyLength == 10
      ensures fpsCounter.State() == GameEngine.FpsState(seq(10, _ => 60.0), 60.0, 0.0, 0.0)
      ensures screenRect == SCREEN_RECT
    {
      rects := [];
      particles := [];
      upperEntities := [];
      running := false;
      fpsCounter := new GameEngine.FpsCounter(60, 10);
      screenRect := SCREEN_RECT;
    }

    /**
     * The rectangle pass of `draw()`: every rectangle is advanced once by
     * the counter's current `dt` and killed when `check_border` says so.
     * The group is walked through a snapshot, so kills take effect as one
     * removal at the end.
     */
    method DrawRects()
      requires Valid()
      modifies this`rects, rects
      ensures Valid()
      ensures forall b :: b in old(rects) ==>
                b.rect == old(b.rect).Move(b.Velocity().Scale(fpsCounter.dt))
                && b.rotation == Entities.Turned(old(b.rotation), b.rotationVel, fpsCounter.dt)
      ensures forall b :: b in rects <==> b in old(rects) && !CheckBorder(b.ImageRect())
    {
      var dt := fpsCounter.dt;
      var group := rects;
      var kept: seq<Entities.BgRect> := [];
      var i := 0;
      while i < |group|
        invariant 0 <= i <= |group| && rects == group
        invariant Distinct(kept)
        invariant forall b :: b in kept <==> b in group[..i] && !CheckBorder(b.ImageRect())
        invariant forall j :: 0 <= j < |group| ==>
                    group[j].rect
                    == (if j < i then old(group[j].rect).Move(group[j].Velocity().Scale(dt)) else old(group[j].rect))
                    && group[j].rotation
                       == (if j < i then Entities.Turned(old(group[j].rotation), group[j].rotationVel, dt)
                           else old(group[j].rotation))
      {
        var b := group[i];
        assert b !in group[..i];
        b.Update(dt);
        if !CheckBorder(b.ImageRect()) {
          kept := kept + [b];
        }
        assert group[..i + 1] == group[..i] + [b];
        i := i + 1;
      }
      assert group[..i] == group;
      rects := kept;
    }

    /** The particle pass of `draw()`: advance each particle once, then apply `check_border`. */
    method DrawParticles()
      requires Valid()
      modifies this`particles, particles
      ensures Valid()
      ensures forall p :: p in old(particles) ==>
                p.pos == old(p.pos).Add(old(p.movement).Scale(fpsCounter.dt))
                && p.movement == old(p.movement) && p.radius == old(p.radius)
      ensures forall p :: p in particles <==> p in old(particles) && !CheckBorder(p.ImageRect())
    {
      var dt := fpsCounter.dt;
      var group := particles;
      var kept: seq<Entities.Particle> := [];
      var i := 0;
      while i < |group|
        invariant 0 <= i <= |group| && particles == group
        invariant Distinct(kept)
        invariant forall p :: p in kept <==> p in group[..i] && !CheckBorder(p.ImageRect())
        invariant forall j :: 0 <= j < |group| ==>
                    group[j].movement == old(group[j].movement) && group[j].radius == old(group[j].radius)
                    && group[j].pos
                       == (if j < i then old(group[j].pos).Add(old(group[j].movement).Scale(dt)) else old(group[j].pos))
      {
        var p := group[i];
        assert p !in group[..i];
        p.Update(dt);
        if !CheckBorder(p.ImageRect()) {
          kept := kept + [p];
        }
        assert group[..i + 1] == group[..i] + [p];
        i := i + 1;
      }
      assert group[..i] == group;
      particles := kept;
    }

    /** The bar pass of `draw()`: advance each bar once, then remove it when `UpperEntityGone`. */
    method DrawUpperEntities()
      requires Valid()
      modifies this`upperEntities, upperEntities
      ensures Valid()
      ensures forall u :: u in old(upperEntities) ==>
                u.rect == old(u.rect).Move(old(u.movement).Scale(fpsCounter.dt))
                && u.movement == old(u.movement) && u.rotation == old(u.rotation)
      ensures forall u :: u in upperEntities <==> u in old(upperEntities) && !UpperEntityGone(u.rect, screenRect)
    {
      var dt := fpsCounter.dt;
      var group := upperEntities;
      var kept: seq<Entities.UpperEntity> := [];
      var i := 0;
      while i < |group|
        invariant 0 <= i <= |group| && upperEntities == group
        invariant Distinct(kept)
        invariant forall u :: u in kept <==> u in group[..i] && !UpperEntityGone(u.rect, screenRect)
        invariant forall j :: 0 <= j < |group| ==>
                    group[j].movement == old(group[j].movement) && group[j].rotation == old(group[j].rotation)
                    && group[j].rect
                       == (if j < i then old(group[j].rect).Move(old(group[j].movement).Scale(dt)) else old(group[j].rect))
      {
        var u := group[i];
        assert u !in group[..i];
        u.Update(dt);
        if !UpperEntityGone(u.rect, screenRect) {
          kept := kept + [u];
        }
        assert group[..i + 1] == group[..i] + [u];
        i := i + 1;
      }
      assert group[..i] == group;
      upperEntities := kept;
    }

    /** `generate_rect()`, with the random draws given; `b` names the new rectangle. */
    method GenerateRect(d: RectDraw) returns (ghost b: Entities.BgRect)
      requires Valid()
      modifies this`rects
      ensures Valid()
      ensures rects == old(rects) + [b] && fresh(b) && SpawnedRect(b, d)
    {
      var bgRect := new Entities.BgRect(
        RectSpawnRect(d), 0.0, d.yVel as real, d.rotationVel,
        d.rotation as real, d.width);
      rects := rects + [bgRect];
      b := bgRect;
    }

    /** `generate_particle()`, with the random draws given; `p` names the new particle. */
    method GenerateParticle(d: ParticleDraw) returns (ghost p: Entities.Particle)
      requires Valid()
      modifies this`particles
      ensures Valid()
      ensures particles == old(particles) + [p] && fresh(p) && SpawnedParticle(p, d)
    {
      var particle := new Entities.Particle(d.x as real, SCREEN_H as real, 0.0, d.yVel as real, d.radius);
      var glow := Rect(0, 0, 2 * particle.lightingRadius, 2 * particle.lightingRadius)
        .WithMidTop(Trunc(particle.pos.x), SCREEN_H);
      particle.pos := Vec2(glow.CenterX() as real, glow.CenterY() as real);
      particles := particles + [particle];
      p := particle;
    }

    /** `generate_upper_entity()`; `u` names the new bar. */
    method GenerateUpperEntity() returns (ghost u: Entities.UpperEntity)
      requires Valid()
      modifies this`upperEntities
      ensures Valid()
      ensures upperEntities == old(upperEntities) + [u] && fresh(u) && SpawnedUpperEntity(u)
    {
      var bar := new Entities.UpperEntity(Rect(0, 0, 50, SCREEN_LENGTH_PX), -3.0, -1.9, -45.0);
      bar.rect := bar.rect.WithCenter(SCREEN_W + bar.rect.w, SCREEN_H + bar.rect.w);
      upperEntities := upperEntities + [bar];
      u := bar;
    }

    /**
     * The body of `check_events()` for one event: a quit event clears
     * `running`, a timer event spawns one sprite of its kind. The new
     * sprites are named by the ghost results.
     */
    method HandleEvent(e: Event)
      returns (ghost newRect: seq<Entities.BgRect>, ghost newParticle: seq<Entities.Particle>,
               ghost newBar: seq<Entities.UpperEntity>)
      requires Valid()
      modifies this`running, this`rects, this`particles, this`upperEntities
      ensures Valid()
      ensures running == (old(running) && !GameEngine.CheckGameQuit(e))
      ensures rects == old(rects) + newRect && RectsSpawnedBy(newRect, RectDrawOf(e))
      ensures particles == old(particles) + newParticle && ParticlesSpawnedBy(newParticle, ParticleDrawOf(e))
      ensures upperEntities == old(upperEntities) + newBar && BarsSpawned(newBar, UpperTimerOf(e))
      ensures forall b :: b in newRect ==> fresh(b)
      ensures forall p :: p in newParticle ==> fresh(p)
      ensures forall u :: u in newBar ==> fresh(u)
    {
      newRect, newParticle, newBar := [], [], [];
      if GameEngine.CheckGameQuit(e) {
        running := false;
      }
      if e.RectTimer? {
        ghost var b := GenerateRect(e.rectDraw);
        newRect := [b];
      }
      if e.ParticleTimer? {
        ghost var p := GenerateParticle(e.particleDraw);
        newParticle := [p];
      }
      if e.UpperEntityTimer? {
        ghost var u := GenerateUpperEntity();
        newBar := [u];
      }
    }

    /**
     * `check_events()`: a quit event clears `running`, and each timer event
     * spawns one sprite of its own kind, appended in event order. The sprites
     * already in the groups stay, in place.
     */
    method CheckEvents(events: seq<Event>)
      returns (ghost newRects: seq<Entities.BgRect>, ghost newParticles: seq<Entities.Particle>,
               ghost newBars: seq<Entities.UpperEntity>)
      requires Valid()
      modifies this`running, this`rects, this`particles, this`upperEntities
      ensures Valid()
      ensures running == (old(running) && !QuitIn(events))
      ensures rects == old(rects) + newRects && RectsSpawnedBy(newRects, RectDraws(events))
      ensures particles == old(particles) + newParticles && ParticlesSpawnedBy(newParticles, ParticleDraws(events))
      ensures upperEntities == old(upperEntities) + newBars && BarsSpawned(newBars, UpperTimers(events))
      ensures forall b :: b in newRects ==> fresh(b)
      ensures forall p :: p in newParticles ==> fresh(p)
      ensures forall u :: u in newBars ==> fresh(u)
    {
      newRects, newParticles, newBars := [], [], [];
      var i := 0;
      while i < |events|
        invariant 0 <= i <= |events|
        invariant Valid()
        invariant running == (old(running) && !QuitIn(events[..i]))
        invariant rects == old(rects) + newRects && RectsSpawnedBy(newRects, RectDraws(events[..i]))
        invariant particles == old(particles) + newParticles
        invariant ParticlesSpawnedBy(newParticles, ParticleDraws(events[..i]))
        invariant upperEntities == old(upperEntities) + newBars && BarsSpawned(newBars, UpperTimers(events[..i]))
        invariant forall b :: b in newRects ==> fresh(b)
        invariant forall p :: p in newParticles ==> fresh(p)
        invariant forall u :: u in newBars ==> fresh(u)
      {
        assert events[..i + 1][..i] == events[..i];
        ghost var r, p, u := HandleEvent(events[i]);
        RectsSpawnedByAppend(newRects, RectDraws(events[..i]), r, RectDrawOf(events[i]));
        ParticlesSpawnedByAppend(newParticles, ParticleDraws(events[..i]), p, ParticleDrawOf(events[i]));
        BarsSpawnedAppend(newBars, UpperTimers(events[..i]), u, UpperTimerOf(events[i]));
        AppendAssoc(old(rects), newRects, r);
        AppendAssoc(old(particles), newParticles, p);
        AppendAssoc(old(upperEntities), newBars, u);
        newRects, newParticles, newBars := newRects + r, newParticles + p, newBars + u;
        i := i + 1;
      }
      assert events[..i] == events;
    }

    /** `draw()`: the three group passes in order; filling and blitting are left out. */
    method Draw()
      requires Valid()
      modifies this`rects, this`particles, this`upperEntities, rects, particles, upperEntities
      ensures Valid()
      ensures forall b :: b in old(rects) ==>
                b.rect == old(b.rect).Move(b.Velocity().Scale(fpsCounter.dt))
                && b.rotation == Entities.Turned(old(b.rotation), b.rotationVel, fpsCounter.dt)
      ensures forall b :: b in rects <==> b in old(rects) && !CheckBorder(b.ImageRect())
      ensures forall p :: p in old(particles) ==>
                p.pos == old(p.pos).Add(old(p.movement).Scale(fpsCounter.dt))
                && p.movement == old(p.movement) && p.radius == old(p.radius)
      ensures forall p :: p in particles <==> p in old(particles) && !CheckBorder(p.ImageRect())
      ensures forall u :: u in old(upperEntities) ==>
                u.rect == old(u.rect).Move(old(u.movement).Scale(fpsCounter.dt))
                && u.movement == old(u.movement) && u.rotation == old(u.rotation)
      ensures forall u :: u in upperEntities <==> u in old(upperEntities) && !UpperEntityGone(u.rect, screenRect)
    {
      DrawRects();
      DrawParticles();
      DrawUpperEntities();
    }

    /**
     * One pass of `game_loop`: draw (advance and cull), present, handle the
     * events, then recompute `dt`. Sprites that were already alive move by
     * the `dt` of the previous pass; sprites spawned now (`newRects`,
     * `newParticles`, `newBars`) follow the survivors in their groups, still
     * exactly as their spawn function placed them, and first move in the
     * next pass.
     */
    method Step(frame: Frame)
      returns (r: GameEngine.DtResult, ghost newRects: seq<Entities.BgRect>,
               ghost newParticles: seq<Entities.Particle>, ghost newBars: seq<Entities.UpperEntity>)
      requires Valid()
      modifies this`rects, this`particles, this`upperEntities, this`running
      modifies rects, particles, upperEntities, fpsCounter
      ensures Valid()
      ensures running == (old(running) && !QuitIn(frame.events))
      ensures forall b :: b in old(rects) ==>
                b.rect == old(b.rect).Move(b.Velocity().Scale(old(fpsCounter.dt)))
                && b.rotation == Entities.Turned(old(b.rotation), b.rotationVel, old(fpsCounter.dt))
                && (b in rects <==> !CheckBorder(b.ImageRect()))
      ensures forall p :: p in old(particles) ==>
                p.pos == old(p.pos).Add(old(p.movement).Scale(old(fpsCounter.dt)))
                && p.movement == old(p.movement) && p.radius == old(p.radius)
                && (p in particles <==> !CheckBorder(p.ImageRect()))
      ensures forall u :: u in old(upperEntities) ==>
                u.rect == old(u.rect).Move(old(u.movement).Scale(old(fpsCounter.dt)))
                && u.movement == old(u.movement) && u.rotation == old(u.rotation)
                && (u in upperEntities <==> !UpperEntityGone(u.rect, screenRect))
      ensures |rects| >= |newRects| && rects[|rects| - |newRects|..] == newRects
      ensures forall b :: b in rects[..|rects| - |newRects|] <==> b in old(rects) && !CheckBorder(b.ImageRect())
      ensures RectsSpawnedBy(newRects, RectDraws(frame.events)) && forall b :: b in newRects ==> fresh(b)
      ensures |particles| >= |newParticles| && particles[|particles| - |newParticles|..] == newParticles
      ensures forall p :: p in particles[..|particles| - |newParticles|] <==> p in old(particles) && !CheckBorder(p.ImageRect())
      ensures ParticlesSpawnedBy(newParticles, ParticleDraws(frame.events)) && forall p :: p in newParticles ==> fresh(p)
      ensures |upperEntities| >= |newBars| && upperEntities[|upperEntities| - |newBars|..] == newBars
      ensures forall u :: u in upperEntities[..|upperEntities| - |newBars|]
                <==> u in old(upperEntities) && !UpperEntityGone(u.rect, screenRect)
      ensures BarsSpawned(newBars, UpperTimers(frame.events)) && forall u :: u in newBars ==> fresh(u)
      ensures forall b :: b in rects ==> b in old(rects) || fresh(b)
      ensures forall p :: p in particles ==> p in old(particles) || fresh(p)
      ensures forall u :: u in upperEntities ==> u in old(upperEntities) || fresh(u)
      ensures (fpsCounter.State(), r) == GameEngine.Tick(fpsCounter.defaultFps, old(fpsCounter.State()), frame.now)
    {
      Draw();
      ghost var drawnRects, drawnParticles, drawnBars := rects, particles, upperEntities;
      newRects, newParticles, newBars := CheckEvents(frame.events);
      assert rects[..|rects| - |newRects|] == drawnRects;
      assert particles[..|particles| - |newParticles|] == drawnParticles;
      assert upperEntities[..|upperEntities| - |newBars|] == drawnBars;
      r := fpsCounter.GetDt(frame.now);
    }

    /**
     * One pass of `game_loop` as the loop itself relies on it: `running`
     * follows the frame's quit events, every sprite is an old one or a new
     * one, and the counter takes one `Tick`.
     */
    method LoopPass(frame: Frame) returns (r: GameEngine.DtResult)
      requires Valid()
      modifies this`rects, this`particles, this`upperEntities, this`running
      modifies rects, particles, upperEntities, fpsCounter
      ensures Valid()
      ensures running == (old(running) && !QuitIn(frame.events))
      ensures forall k :: 0 <= k < |rects| ==> rects[k] in old(rects) || fresh(rects[k])
      ensures forall k :: 0 <= k < |particles| ==> particles[k] in old(particles) || fresh(particles[k])
      ensures forall k :: 0 <= k < |upperEntities| ==> upperEntities[k] in old(upperEntities) || fresh(upperEntities[k])
      ensures (fpsCounter.State(), r) == GameEngine.Tick(fpsCounter.defaultFps, old(fpsCounter.State()), frame.now)
    {
      var dt, _, _, _ := Step(frame);
      r := dt;
    }

    /**
     * `run_game()`: set `running` and repeat `game_loop`'s pass while it
     * stays set, over the frames the environment supplies. The loop stops
     * after the first frame whose events ask to quit, or when `get_dt`
     * raises. The counter goes through one `get_dt` per played frame
     * (`CounterAfter`, which `CounterAfterIsRun` equates with `TickAll`);
     * every call but the last succeeds, and the last fails exactly when the
     * loop ends as `Crashed`, with that call's error.
     */
    method RunGame(frames: seq<Frame>) returns (played: nat, end: LoopEnd)
      requires Valid()
      modifies this`rects, this`particles, this`upperEntities, this`running
      modifies rects, particles, upperEntities, fpsCounter
      ensures Valid()
      ensures 0 < played <= |frames| || (played == 0 && frames == [] && end == InputExhausted)
      ensures forall k :: 0 <= k < played - 1 ==> !QuitIn(frames[k].events)
      ensures end == Quitted ==> !running && QuitIn(frames[played - 1].events)
      ensures end == InputExhausted ==> running && played == |frames|
      ensures end == InputExhausted ==> forall k :: 0 <= k < |frames| ==> !QuitIn(frames[k].events)
      ensures var run := CounterAfter(fpsCounter.defaultFps, old(fpsCounter.State()), frames, played);
              fpsCounter.State() == run.0
              && (forall k :: 0 <= k < played - 1 ==> run.1[k].Ok?)
              && (end.Crashed? <==> played > 0 && run.1[played - 1].Err?)
              && (end.Crashed? ==> run.1[played - 1] == GameEngine.Err(end.error))
    {
      ghost var counter0 := fpsCounter.State();
      ghost var results: seq<GameEngine.DtResult> := [];
      running := true;
      played := 0;
      end := InputExhausted;
      while running && played < |frames|
        invariant Valid()
        invariant played <= |frames|
        invariant (fpsCounter.State(), results) == CounterAfter(fpsCounter.defaultFps, counter0, frames, played)
        invariant forall k :: 0 <= k < |results| ==> results[k].Ok?
        invariant running <==> forall k :: 0 <= k < played ==> !QuitIn(frames[k].events)
        invariant forall k :: 0 <= k < played - 1 ==> !QuitIn(frames[k].events)
        invariant !running ==> played > 0 && QuitIn(frames[played - 1].events)
        invariant forall k :: 0 <= k < |rects| ==> rects[k] in old(rects) || fresh(rects[k])
        invariant forall k :: 0 <= k < |particles| ==> particles[k] in old(particles) || fresh(particles[k])
        invariant forall k :: 0 <= k < |upperEntities| ==>
                    upperEntities[k] in old(upperEntities) || fresh(upperEntities[k])
      {
        var r := LoopPass(frames[played]);
        assert CounterAfter(fpsCounter.defaultFps, counter0, frames, played + 1) == (fpsCounter.State(), results + [r]);
        results := results + [r];
        played := played + 1;
        if r.Err? {
          return played, Crashed(r.error);
        }
      }
      if !running {
        end := Quitted;
      }
    }
  }
}
