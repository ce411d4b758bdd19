/**
 * The events that pygame's queue delivers to the game each frame. The three
 * spawn timers fire user events; each timer event here also carries the
 * values that the spawner then draws from `random`, so that spawning becomes
 * a function of its input.
 */
module Events {

  datatype Key = Escape | OtherKey(code: int)

  /** What `generate_rect` draws: side, left edge, vertical speed, spin, angle and stroke width. */
  datatype RectDraw = RectDraw(size: nat, x: int, yVel: int, rotationVel: real, rotation: int, width: int)

  /** What `generate_particle` draws: horizontal position, vertical speed and radius. */
  datatype ParticleDraw = ParticleDraw(x: int, yVel: int, radius: nat)

  datatype Event =
    | Quit
    | KeyDown(key: Key)
    | RectTimer(rectDraw: RectDraw)
    | ParticleTimer(particleDraw: ParticleDraw)
    | UpperEntityTimer
    | Other
}
