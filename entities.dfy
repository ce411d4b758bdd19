/**
 * The game's own sprites, eternity_background/scripts/entity.py: the large
 * rotating bars (`UpperEntity`), the falling rectangles with a glow
 * (`BgRect`) and the glowing particles (`Particle`, which overrides the
 * engine's decaying update with plain motion).
 */
module Entities {
  import opened Geometry
  import GameEngine

  // ---------------------------------------------------------------------------
  // Geometry of the glow images

  /**
   * The stroke width of a `BgRect`'s glow: three times the core's stroke,
   * or 21 when the core is filled (width 0). The glow is always an outline,
   * since width 0 would fill it, and always wider than the core's stroke.
   */
  function LightingWidth(width: int): (lw: int)
    ensures lw > 0 && lw > width
    ensures width > 0 ==> lw == 3 * width
    ensures width <= 0 ==> lw == 21
  {
    (if width > 0 then width else 7) * 3
  }

  /**
   * `BgRect.image_rect`: the glow surface, made by `rect_surf` at twice the
   * rectangle's size, placed with its centre on the rectangle's centre.
   */
  function BgRectImageRect(rect: Rect): Rect
  {
    GameEngine.RectSurfArea(rect).WithCenter(rect.CenterX(), rect.CenterY())
  }

  /**
   * The glow of a rectangle is twice its size, shares its centre and
   * therefore contains the rectangle itself.
   */
  lemma BgRectGlowContainsRect(rect: Rect)
    ensures BgRectImageRect(rect).w == 2 * rect.w && BgRectImageRect(rect).h == 2 * rect.h
    ensures BgRectImageRect(rect).CenterX() == rect.CenterX()
    ensures BgRectImageRect(rect).CenterY() == rect.CenterY()
    ensures BgRectImageRect(rect).Contains(rect)
  {
  }

  /** The rectangle of a particle's core image: a circle of `radius` drawn around `pos`. */
  function ParticleCoreRect(pos: Vec2, radius: nat): Rect
  {
    SurfaceRect(2 * radius, 2 * radius, pos)
  }

  /**
   * `Particle.image_rect`: the glow image is a circle of the glow radius
   * (three times the particle's radius), centred on the particle's position.
   */
  function ParticleHaloRect(pos: Vec2, lightingRadius: nat): (r: Rect)
    ensures r.w == 2 * lightingRadius && r.h == 2 * lightingRadius
    ensures r.CenterX() == Trunc(pos.x) && r.CenterY() == Trunc(pos.y)
  {
    SurfaceRect(2 * lightingRadius, 2 * lightingRadius, pos)
  }

  /**
   * Both images of a particle are centred on its position and the glow is
   * three times as large, so the glow drawn first encloses the core drawn
   * over it.
   */
  lemma HaloEnclosesCore(pos: Vec2, radius: nat)
    ensures ParticleHaloRect(pos, 3 * radius).Contains(ParticleCoreRect(pos, radius))
  {
    CentredRectContains(6 * radius, 6 * radius, 2 * radius, 2 * radius, Trunc(pos.x), Trunc(pos.y));
  }

  /** A bar's velocity of (-3, -1.9) pixels: at `dt == 1` truncation makes it (-3, -1). */
  lemma BarStepAtUnitDt(rect: Rect)
    ensures rect.Move(Vec2(-3.0, -1.9).Scale(1.0)) == Rect(rect.x - 3, rect.y - 1, rect.w, rect.h)
  {
    assert Trunc(-1.9) == -1;
  }

  /** The angle after turning at `speed` degrees per unit of `dt`; angles accumulate without wrapping. */
  function Turned(angle: real, speed: real, dt: real): real
  {
    angle + speed * dt
  }

  // ---------------------------------------------------------------------------
  // Sprites

  /**
   * `UpperEntity(rect, x_vel, y_vel, rotation)`: a bar that drifts with a
   * fixed velocity. The `rotation` argument only turns its image; the
   * entity's own rotation stays at the zero `Entity` gives it.
   */
  class UpperEntity {
    var rect: Rect
    var movement: Vec2
    var rotation: real

    constructor (rect: Rect, xVel: real, yVel: real, rotation: real)
      ensures this.rect == rect && movement == Vec2(xVel, yVel) && this.rotation == 0.0
    {
      this.rect := rect;
      movement := Vec2(xVel, yVel);
      this.rotation := 0.0;
    }

    /** `update(dt)`: `move(dt)`, a translation by `movement * dt`; rotation and velocity stay. */
    method Update(dt: real)
      modifies this
      ensures rect == old(rect).Move(movement.Scale(dt))
      ensures movement == old(movement) && rotation == old(rotation)
    {
      rect := rect.Move(movement.Scale(dt));
    }
  }

  /**
   * `BgRect(rect, x_vel, y_vel, rotation_vel, rotation, width)`: a
   * rectangle outline (or filled square when `width` is 0) that drifts and
   * spins, with a wider glow outline behind it.
   */
  class BgRect {
    var rect: Rect
    var rotation: real
    const xVel: real
    const yVel: real
    const rotationVel: real
    const width: int
    const lightingWidth: int

    constructor (rect: Rect, xVel: real, yVel: real, rotationVel: real, rotation: real, width: int)
      ensures this.rect == rect && this.rotation == rotation
      ensures this.xVel == xVel && this.yVel == yVel && this.rotationVel == rotationVel
      ensures this.width == width && lightingWidth == LightingWidth(width)
    {
      this.rect := rect;
      this.rotation := rotation;
      this.xVel := xVel;
      this.yVel := yVel;
      this.rotationVel := rotationVel;
      this.width := width;
      lightingWidth := LightingWidth(width);
    }

    function Velocity(): Vec2
    {
      Vec2(xVel, yVel)
    }

    function ImageRect(): Rect
      reads this
    {
      BgRectImageRect(rect)
    }

    /**
     * `update(dt)`: translate by the velocity and turn by the spin, both
     * scaled by `dt`; the angle accumulates without wrapping.
     */
    method Update(dt: real)
      modifies this
      ensures rect == old(rect).Move(Velocity().Scale(dt))
      ensures rotation == Turned(old(rotation), rotationVel, dt)
    {
      var vel := Vec2(xVel * dt, yVel * dt);
      rect := rect.Move(vel);
      rotation := rotation + rotationVel * dt;
    }
  }

  /**
   * The game's `Particle(x, y, x_vel, y_vel, radius)`: a circle with a glow
   * of three times its radius. Its `update` replaces the engine's: it only
   * moves, so the radius never shrinks and gravity never applies.
   */
  class Particle {
    var pos: Vec2
    var movement: Vec2
    var radius: nat
    const lightingRadius: nat

    constructor (x: real, y: real, xVel: real, yVel: real, radius: nat)
      ensures pos == Vec2(x, y) && movement == Vec2(xVel, yVel)
      ensures this.radius == radius && lightingRadius == 3 * radius
    {
      pos := Vec2(x, y);
      movement := Vec2(xVel, yVel);
      this.radius := radius;
      lightingRadius := 3 * radius;
    }

    function ImageRect(): Rect
      reads this
    {
      ParticleHaloRect(pos, lightingRadius)
    }

    /** `update(dt)`: the position moves by `movement * dt`; nothing else changes. */
    method Update(dt: real)
      modifies this
      ensures pos == old(pos).Add(movement.Scale(dt))
      ensures movement == old(movement) && radius == old(radius)
    {
      pos := pos.Add(movement.Scale(dt));
    }
  }
}
