/**
 * The engine layer of eternity_background/scripts/game_engine/__init__.py:
 * the quit test, the geometry of `rect_surf`, the frame-time smoother
 * `FpsCounter`, the rectangle-bound `Entity` and the decaying `Particle`.
 */
module GameEngine {
  import opened Geometry
  import opened Events

  // ---------------------------------------------------------------------------
  // Quit test and surface geometry

  /** A window close, or the escape key pressed, asks the game to stop. */
  predicate CheckGameQuit(e: Event)
  {
    e.Quit? || (e.KeyDown? && e.key == Escape)
  }

  /** Exactly two events end the game; other keys and the timers do not. */
  lemma QuitEventsAreCloseAndEscape(e: Event)
    ensures CheckGameQuit(e) <==> e == Quit || e == KeyDown(Escape)
  {
  }

  /** `rect_surf(rect, ...)` makes a surface twice the rectangle's width and height. */
  function RectSurfArea(r: Rect): Rect
  {
    Rect(0, 0, 2 * r.w, 2 * r.h)
  }

  /**
   * The rectangle `rect_surf` draws on that surface: the input's size,
   * centred on the surface and lying wholly inside it.
   */
  function RectSurfDrawRect(r: Rect): (d: Rect)
    ensures d.w == r.w && d.h == r.h
    ensures d.CenterX() == RectSurfArea(r).CenterX() && d.CenterY() == RectSurfArea(r).CenterY()
    ensures RectSurfArea(r).Contains(d)
  {
    r.WithCenter(r.w, r.h)
  }

  // ---------------------------------------------------------------------------
  // Frame-time smoothing

  function Sum(s: seq<real>): real
  {
    if s == [] then 0.0 else s[0] + Sum(s[1..])
  }

  /** Why a call of `get_dt` raises instead of returning. */
  datatype FpsError =
    | ZeroElapsed   // two calls at the same instant: 1 / 0
    | EmptyWindow   // a window of length zero: `pop(0)` from an empty list
    | ZeroMean      // the samples sum to zero: division by a zero mean

  datatype DtResult = Ok(value: real) | Err(error: FpsError)

  /** The mutable fields of an `FpsCounter`, as a value. */
  datatype FpsState = FpsState(window: seq<real>, fps: real, dt: real, lastTime: real)

  /**
   * One `get_dt` call at wall-clock time `now`: the instantaneous rate
   * `1 / elapsed` replaces the oldest sample and `dt` becomes the target
   * rate over the window's mean. Each failure leaves the fields as far as
   * the statements before the raise had set them.
   */
  function Tick(defaultFps: int, s: FpsState, now: real): (r: (FpsState, DtResult))
    ensures r.0.lastTime == now
    ensures |r.0.window| == |s.window|
  {
    var elapsed := now - s.lastTime;
    if elapsed == 0.0 then
      (s.(lastTime := now), Err(ZeroElapsed))
    else
      var fps := 1.0 / elapsed;
      if s.window == [] then
        (s.(fps := fps, lastTime := now), Err(EmptyWindow))
      else
        var window := s.window[1..] + [fps];
        var total := Sum(window);
        if total == 0.0 then
          (FpsState(window, fps, s.dt, now), Err(ZeroMean))
        else
          var dt := defaultFps as real / (total / |window| as real);
          (FpsState(window, fps, dt, now), Ok(dt))
  }

  /**
   * What one `get_dt` call does: it raises `ZeroElapsed` exactly when no
   * time has passed, leaving the window and rate alone; otherwise the rate
   * is the reciprocal of the elapsed time, `EmptyWindow` is raised exactly
   * for an empty window, the window slides by one onto the new rate, and
   * the call succeeds exactly when the new window's sum is non-zero, with
   * `dt` times that sum equal to the target rate times the window length.
   * A failed call leaves `dt` as it was.
   */
  lemma TickOutcomes(defaultFps: int, s: FpsState, now: real)
    ensures var (t, r) := Tick(defaultFps, s, now);
            && (r == Err(ZeroElapsed) <==> now == s.lastTime)
            && (now == s.lastTime ==> t.window == s.window && t.fps == s.fps)
            && (now != s.lastTime ==> t.fps * (now - s.lastTime) == 1.0)
            && (r == Err(EmptyWindow) <==> now != s.lastTime && s.window == [])
            && (now != s.lastTime && s.window != [] ==>
                  t.window[..|s.window| - 1] == s.window[1..] && t.window[|s.window| - 1] == t.fps)
            && (now != s.lastTime && s.window != [] ==> (r.Ok? <==> Sum(t.window) != 0.0))
            && (r.Ok? ==> t.dt == r.value)
            && (r.Ok? ==> r.value * Sum(t.window) == defaultFps as real * |s.window| as real)
            && (r.Err? ==> t.dt == s.dt)
  {
  }

  /** A run of `get_dt` calls at the given times: the final state and every result. */
  function TickAll(defaultFps: int, s: FpsState, times: seq<real>): (r: (FpsState, seq<DtResult>))
    ensures |r.0.window| == |s.window|
    ensures |r.1| == |times|
    decreases |times|
  {
    if times == [] then (s, [])
    else
      var first := Tick(defaultFps, s, times[0]);
      var rest := TickAll(defaultFps, first.0, times[1..]);
      (rest.0, [first.1] + rest.1)
  }

  /** A run extended by one more call is the run followed by one `get_dt` on the state it left. */
  lemma {:induction false} TickAllSnoc(defaultFps: int, s: FpsState, times: seq<real>, now: real)
    ensures TickAll(defaultFps, s, times + [now]).0 == Tick(defaultFps, TickAll(defaultFps, s, times).0, now).0
    ensures TickAll(defaultFps, s, times + [now]).1
            == TickAll(defaultFps, s, times).1 + [Tick(defaultFps, TickAll(defaultFps, s, times).0, now).1]
    decreases |times|
  {
    if times != [] {
      assert (times + [now])[1..] == times[1..] + [now];
      TickAllSnoc(defaultFps, Tick(defaultFps, s, times[0]).0, times[1..], now);
    }
  }

  /** No call happens at the same instant as the one before it. */
  predicate NoZeroGaps(last: real, times: seq<real>)
    decreases |times|
  {
    times == [] || (times[0] != last && NoZeroGaps(times[0], times[1..]))
  }

  /** Every call comes strictly later than the one before it. */
  predicate Increasing(last: real, times: seq<real>)
    decreases |times|
  {
    times == [] || (last < times[0] && Increasing(times[0], times[1..]))
  }

  /** Every call comes exactly `gap` seconds after the one before it. */
  predicate EvenlySpaced(last: real, times: seq<real>, gap: real)
    decreases |times|
  {
    times == [] || (times[0] - last == gap && EvenlySpaced(times[0], times[1..], gap))
  }

  /** The instantaneous rates that a run of calls measures. */
  function Samples(last: real, times: seq<real>): (r: seq<real>)
    requires NoZeroGaps(last, times)
    ensures |r| == |times|
    decreases |times|
  {
    if times == [] then [] else [1.0 / (times[0] - last)] + Samples(times[0], times[1..])
  }

  lemma {:induction false} SumAppend(s: seq<real>, x: real)
    ensures Sum(s + [x]) == Sum(s) + x
  {
    if s != [] {
      assert (s + [x])[1..] == s[1..] + [x];
      SumAppend(s[1..], x);
    }
  }

  lemma {:induction false} SumOfConstant(s: seq<real>, v: real)
    requires forall i :: 0 <= i < |s| ==> s[i] == v
    ensures Sum(s) == |s| as real * v
  {
    if s != [] {
      SumOfConstant(s[1..], v);
    }
  }

  lemma {:induction false} SumOfPositives(s: seq<real>)
    requires s != []
    requires forall i :: 0 <= i < |s| ==> s[i] > 0.0
    ensures Sum(s) > 0.0
  {
    if |s| > 1 {
      SumOfPositives(s[1..]);
    }
  }

  /** Dropping the head and then `k - 1` more is dropping `k`. */
  lemma SlideWindow(a: seq<real>, b: seq<real>, k: nat)
    requires a != [] && 1 <= k <= |a| + |b|
    ensures (a[1..] + b)[k - 1..] == (a + b)[k..]
  {
    assert a + b == [a[0]] + (a[1..] + b);
  }

  /**
   * The window is a FIFO of fixed length: after any run of calls that never
   * divides by zero it holds the last `|window|` entries of the old window
   * followed by every rate measured.
   */
  lemma {:induction false} WindowKeepsLatestSamples(defaultFps: int, s: FpsState, times: seq<real>)
    requires s.window != []
    requires NoZeroGaps(s.lastTime, times)
    ensures TickAll(defaultFps, s, times).0.window == (s.window + Samples(s.lastTime, times))[|times|..]
    decreases |times|
  {
    if times != [] {
      var t := Tick(defaultFps, s, times[0]).0;
      var f := 1.0 / (times[0] - s.lastTime);
      var rest := Samples(times[0], times[1..]);
      assert t.window == s.window[1..] + [f];
      WindowKeepsLatestSamples(defaultFps, t, times[1..]);
      assert Samples(s.lastTime, times) == [f] + rest;
      SlideWindow(s.window, [f] + rest, |times|);
    }
  }

  /** Once at least `|window|` calls have been made, the window holds exactly the latest rates. */
  lemma WindowForgetsSeed(defaultFps: int, s: FpsState, times: seq<real>)
    requires s.window != []
    requires NoZeroGaps(s.lastTime, times)
    requires |times| >= |s.window|
    ensures TickAll(defaultFps, s, times).0.window == Samples(s.lastTime, times)[|times| - |s.window|..]
  {
    WindowKeepsLatestSamples(defaultFps, s, times);
    var samples := Samples(s.lastTime, times);
    assert (s.window + samples)[|times|..] == samples[|times| - |s.window|..];
  }

  /** One call a whole target-rate frame after the last one leaves a steady window steady. */
  lemma SteadyTick(defaultFps: int, s: FpsState, now: real)
    requires defaultFps > 0
    requires s.window != []
    requires forall i :: 0 <= i < |s.window| ==> s.window[i] == defaultFps as real
    requires now - s.lastTime == 1.0 / defaultFps as real
    ensures Tick(defaultFps, s, now).0.window == s.window
    ensures Tick(defaultFps, s, now).1 == Ok(1.0)
  {
    var d := defaultFps as real;
    var fps := 1.0 / (now - s.lastTime);
    assert fps == d;
    var window := s.window[1..] + [fps];
    assert window == s.window;
    SumOfConstant(window, d);
    assert Sum(window) / |window| as real == d;
  }

  /**
   * Frames arriving exactly at the target rate against a window full of the
   * target rate keep the window as it is and give `dt == 1` every time.
   */
  lemma {:induction false} SteadyRateGivesUnitDt(defaultFps: int, s: FpsState, times: seq<real>)
    requires defaultFps > 0
    requires s.window != []
    requires forall i :: 0 <= i < |s.window| ==> s.window[i] == defaultFps as real
    requires EvenlySpaced(s.lastTime, times, 1.0 / defaultFps as real)
    ensures TickAll(defaultFps, s, times).0.window == s.window
    ensures forall k :: 0 <= k < |times| ==> TickAll(defaultFps, s, times).1[k] == Ok(1.0)
    decreases |times|
  {
    if times != [] {
      SteadyTick(defaultFps, s, times[0]);
      var t := Tick(defaultFps, s, times[0]).0;
      SteadyRateGivesUnitDt(defaultFps, t, times[1..]);
    }
  }

  /** A window holding only the target rate sums to its length times that rate, a positive number. */
  lemma ConstantWindowSum(w: seq<real>, d: real)
    requires w != [] && d > 0.0
    requires forall i :: 0 <= i < |w| ==> w[i] == d
    ensures Sum(w) == |w| as real * d && Sum(w) > 0.0
  {
    SumOfConstant(w, d);
    assert |w| as real >= 1.0;
    assert |w| as real * d >= d;
  }

  /** `dt` times such a window's sum being the target rate times its length makes `dt` exactly 1. */
  lemma UnitMean(value: real, total: real, n: real, d: real)
    requires n > 0.0 && d > 0.0
    requires total == n * d
    requires value * total == d * n
    ensures value == 1.0
  {
    assert (value - 1.0) * total == 0.0;
    assert total != 0.0;
  }

  /**
   * The mean is taken over the window after the new rate is appended, so
   * whatever was evicted, a call that leaves every entry at the target rate
   * returns `dt == 1`.
   */
  lemma FullTargetWindowGivesUnitDt(defaultFps: int, s: FpsState, now: real)
    requires defaultFps > 0
    requires now != s.lastTime && s.window != []
    requires forall i :: 0 <= i < |Tick(defaultFps, s, now).0.window| ==>
               Tick(defaultFps, s, now).0.window[i] == defaultFps as real
    ensures Tick(defaultFps, s, now).1 == Ok(1.0)
  {
    var tr := Tick(defaultFps, s, now);
    var d := defaultFps as real;
    TickOutcomes(defaultFps, s, now);
    ConstantWindowSum(tr.0.window, d);
    assert tr.1.Ok?;
    UnitMean(tr.1.value, Sum(tr.0.window), |s.window| as real, d);
  }

  /** The last `m` entries of the window are all `v`. */
  predicate TailIs(w: seq<real>, m: nat, v: real)
    requires m <= |w|
  {
    forall i :: |w| - m <= i < |w| ==> w[i] == v
  }

  /**
   * Calls one target frame apart push the target rate into the window; once
   * the `m` trailing target entries it started with and the pushed ones fill
   * it, every call returns `dt == 1`.
   */
  lemma {:induction false} TargetGapsRefillWindow(defaultFps: int, s: FpsState, times: seq<real>, m: nat)
    requires defaultFps > 0
    requires s.window != [] && m <= |s.window|
    requires TailIs(s.window, m, defaultFps as real)
    requires EvenlySpaced(s.lastTime, times, 1.0 / defaultFps as real)
    ensures forall k :: 0 <= k < |times| && k >= |s.window| - 1 - m ==> TickAll(defaultFps, s, times).1[k] == Ok(1.0)
    decreases |times|
  {
    if times != [] {
      var d := defaultFps as real;
      var t := Tick(defaultFps, s, times[0]).0;
      var fps := 1.0 / (times[0] - s.lastTime);
      assert fps == d;
      assert t.window == s.window[1..] + [d];
      var m' := if m < |s.window| then m + 1 else m;
      assert TailIs(t.window, m', d);
      if m + 1 >= |s.window| {
        FullTargetWindowGivesUnitDt(defaultFps, s, times[0]);
      }
      TargetGapsRefillWindow(defaultFps, t, times[1..], m');
      forall k | 0 <= k < |times| && k >= |s.window| - 1 - m
        ensures TickAll(defaultFps, s, times).1[k] == Ok(1.0)
      {
        if k > 0 {
          assert TickAll(defaultFps, s, times).1[k] == TickAll(defaultFps, t, times[1..]).1[k - 1];
        }
      }
    }
  }

  /**
   * From any nonempty window, calls one target frame apart bring `dt` back
   * to exactly 1 from the call that completes a window of such rates on:
   * the recovery after a disturbance such as the first call.
   */
  lemma TargetGapsRestoreUnitDt(defaultFps: int, s: FpsState, times: seq<real>)
    requires defaultFps > 0
    requires s.window != []
    requires EvenlySpaced(s.lastTime, times, 1.0 / defaultFps as real)
    ensures forall k :: |s.window| - 1 <= k < |times| ==> TickAll(defaultFps, s, times).1[k] == Ok(1.0)
  {
    TargetGapsRefillWindow(defaultFps, s, times, 0);
  }

  /** One call later than the last, against a window of positive rates, succeeds with a positive `dt`. */
  lemma ForwardTick(defaultFps: int, s: FpsState, now: real)
    requires defaultFps > 0
    requires s.window != []
    requires forall i :: 0 <= i < |s.window| ==> s.window[i] > 0.0
    requires s.lastTime < now
    ensures forall i :: 0 <= i < |s.window| ==> Tick(defaultFps, s, now).0.window[i] > 0.0
    ensures Tick(defaultFps, s, now).1.Ok? && Tick(defaultFps, s, now).1.value > 0.0
  {
    var fps := 1.0 / (now - s.lastTime);
    assert fps > 0.0;
    var window := s.window[1..] + [fps];
    assert forall i :: 0 <= i < |window| - 1 ==> window[i] == s.window[i + 1];
    SumOfPositives(window);
  }

  /**
   * While time moves forward and the window holds positive rates, every
   * call succeeds with a positive `dt` and the window stays positive.
   */
  lemma {:induction false} ForwardTimeGivesPositiveDt(defaultFps: int, s: FpsState, times: seq<real>)
    requires defaultFps > 0
    requires s.window != []
    requires forall i :: 0 <= i < |s.window| ==> s.window[i] > 0.0
    requires Increasing(s.lastTime, times)
    ensures forall i :: 0 <= i < |s.window| ==> TickAll(defaultFps, s, times).0.window[i] > 0.0
    ensures forall k :: 0 <= k < |times| ==>
              TickAll(defaultFps, s, times).1[k].Ok? && TickAll(defaultFps, s, times).1[k].value > 0.0
    decreases |times|
  {
    if times != [] {
      ForwardTick(defaultFps, s, times[0]);
      ForwardTimeGivesPositiveDt(defaultFps, Tick(defaultFps, s, times[0]).0, times[1..]);
    }
  }

  /**
   * The last-call time starts at zero, not at construction, so the first
   * call measures the whole wall-clock time as one frame. With the game's
   * counter (60 frames per second, ten samples) and any clock reading of a
   * second or more, the first `dt` overshoots 1.
   */
  lemma FirstCallOvershoots(now: real)
    requires now >= 1.0
    ensures Tick(60, FpsState(seq(10, _ => 60.0), 60.0, 0.0, 0.0), now).1.Ok?
    ensures Tick(60, FpsState(seq(10, _ => 60.0), 60.0, 0.0, 0.0), now).1.value > 1.0
  {
    var s := FpsState(seq(10, _ => 60.0), 60.0, 0.0, 0.0);
    var fps := 1.0 / now;
    assert 0.0 < fps <= 1.0;
    var window := s.window[1..] + [fps];
    SumAppend(s.window[1..], fps);
    SumOfConstant(s.window[1..], 60.0);
    assert Sum(window) == 540.0 + fps;
    var r := Tick(60, s, now);
    assert r.1.value * (540.0 + fps) == 600.0;
  }

  /**
   * `FpsCounter(default_fps, history_length)`: the window starts as
   * `history_length` copies of the target rate.
   */
  class FpsCounter {
    const defaultFps: int
    var fpsData: seq<real>
    var dt: real
    var fps: real
    var lastTime: real
    ghost const historyLength: nat

    ghost predicate Valid()
      reads this
    {
      |fpsData| == historyLength
    }

    function State(): FpsState
      reads this
    {
      FpsState(fpsData, fps, dt, lastTime)
    }

    constructor (defaultFps: int, historyLength: int)
      ensures Valid()
      ensures this.defaultFps == defaultFps
      ensures this.historyLength == if historyLength > 0 then historyLength else 0
      ensures fpsData == seq(this.historyLength, _ => defaultFps as real)
      ensures dt == 0.0 && fps == defaultFps as real && lastTime == 0.0
    {
      this.defaultFps := defaultFps;
      var n: nat := if historyLength > 0 then historyLength else 0;
      this.historyLength := n;
      fpsData := seq(n, _ => defaultFps as real);
      dt := 0.0;
      fps := defaultFps as real;
      lastTime := 0.0;
    }

    /** `get_dt()`, with the clock reading passed in. */
    method GetDt(now: real) returns (r: DtResult)
      requires Valid()
      modifies this
      ensures Valid()
      ensures (State(), r) == Tick(defaultFps, old(State()), now)
    {
      var elapsed := now - lastTime;
      lastTime := now;
      if elapsed == 0.0 {
        return Err(ZeroElapsed);
      }
      fps := 1.0 / elapsed;
      if fpsData == [] {
        return Err(EmptyWindow);
      }
      fpsData := fpsData[1..] + [fps];
      var total := Sum(fpsData);
      if total == 0.0 {
        return Err(ZeroMean);
      }
      dt := defaultFps as real / (total / |fpsData| as real);
      r := Ok(dt);
    }
  }

  // ---------------------------------------------------------------------------
  // Rectangle-bound entities

  /** `Entity(rect)`: a rectangle with the zero velocity and momentum that `Physics` gives it. */
  class Entity {
    var rect: Rect
    var movement: Vec2
    var momentum: Vec2
    var rotation: real
    var airTime: int

    constructor (rect: Rect)
      ensures this.rect == rect && movement == Zero && momentum == Zero
      ensures rotation == 0.0 && airTime == 0
    {
      this.rect := rect;
      movement := Zero;
      momentum := Zero;
      rotation := 0.0;
      airTime := 0;
    }

    /** `move(dt)`: the rectangle travels by the velocity scaled by `dt`. */
    method Move(dt: real)
      modifies this`rect
      ensures rect == old(rect).Move(movement.Scale(dt))
    {
      rect := rect.Move(movement.Scale(dt));
    }
  }

  // ---------------------------------------------------------------------------
  // Decaying particles

  /** The class-wide attributes that `Particle.set` assigns for every particle at once. */
  datatype ParticleSettings = ParticleSettings(gravity: real, radiusDec: real)

  /** The mutable fields of a base `Particle`, and whether it has been killed. */
  datatype ParticleState = ParticleState(pos: Vec2, movement: Vec2, radius: real, killed: bool)

  /**
   * One base `update()`: move by the old velocity, then fall by gravity,
   * shrink, and die once the radius is no longer positive.
   */
  function ParticleStep(s: ParticleState, settings: ParticleSettings): ParticleState
  {
    var radius := s.radius - settings.radiusDec;
    ParticleState(
      s.pos.Add(s.movement),
      Vec2(s.movement.x, s.movement.y + settings.gravity),
      radius,
      s.killed || radius <= 0.0)
  }

  function ParticleSteps(s: ParticleState, settings: ParticleSettings, n: nat): ParticleState
  {
    if n == 0 then s else ParticleStep(ParticleSteps(s, settings, n - 1), settings)
  }

  /**
   * After `n` updates the radius has shrunk by `n` decrements, the vertical
   * speed has grown by `n` gravities and the horizontal speed is unchanged.
   */
  lemma {:induction false} ParticleStepsDecay(s: ParticleState, settings: ParticleSettings, n: nat)
    ensures ParticleSteps(s, settings, n).radius == s.radius - n as real * settings.radiusDec
    ensures ParticleSteps(s, settings, n).movement
            == Vec2(s.movement.x, s.movement.y + n as real * settings.gravity)
  {
    if n > 0 {
      ParticleStepsDecay(s, settings, n - 1);
    }
  }

  /** One more update on the discrete parabola: the position gains the current velocity. */
  lemma ParabolaStep(p: real, v: real, g: real, m: real)
    ensures (p + m * v + (m * (m - 1.0) / 2.0) * g) + (v + m * g)
            == p + (m + 1.0) * v + ((m + 1.0) * (m + 1.0 - 1.0) / 2.0) * g
  {
    assert (m + 1.0) * v == m * v + v;
    assert (m + 1.0) * (m + 1.0 - 1.0) / 2.0 == m * (m - 1.0) / 2.0 + m;
    assert (m * (m - 1.0) / 2.0 + m) * g == (m * (m - 1.0) / 2.0) * g + m * g;
  }

  /** After `n` updates the position follows the discrete parabola. */
  lemma {:induction false} ParticleStepsClosedForm(s: ParticleState, settings: ParticleSettings, n: nat)
    ensures ParticleSteps(s, settings, n).pos
            == Vec2(s.pos.x + n as real * s.movement.x,
                    s.pos.y + n as real * s.movement.y
                      + (n as real * (n as real - 1.0) / 2.0) * settings.gravity)
  {
    if n > 0 {
      ParticleStepsClosedForm(s, settings, n - 1);
      ParticleStepsDecay(s, settings, n - 1);
      var m := (n - 1) as real;
      assert n as real == m + 1.0;
      ParabolaStep(s.pos.x, s.movement.x, 0.0, m);
      ParabolaStep(s.pos.y, s.movement.y, settings.gravity, m);
    }
  }

  /**
   * With a non-negative decrement, a live particle is killed by the `n`-th
   * update exactly when `n` decrements have used up its radius.
   */
  lemma {:induction false} ParticleKilledExactly(s: ParticleState, settings: ParticleSettings, n: nat)
    requires settings.radiusDec >= 0.0
    ensures ParticleSteps(s, settings, n).killed
            <==> s.killed || (n > 0 && s.radius - n as real * settings.radiusDec <= 0.0)
  {
    if n > 0 {
      ParticleKilledExactly(s, settings, n - 1);
      ParticleStepsDecay(s, settings, n);
      var d := settings.radiusDec;
      assert s.radius - (n - 1) as real * d <= 0.0 ==> s.radius - n as real * d <= 0.0;
    }
  }

  /** Radius 10 shrinking by 1: alive after nine updates, killed by the tenth. */
  lemma TenthUpdateKills(pos: Vec2, movement: Vec2, gravity: real)
    ensures !ParticleSteps(ParticleState(pos, movement, 10.0, false), ParticleSettings(gravity, 1.0), 9).killed
    ensures ParticleSteps(ParticleState(pos, movement, 10.0, false), ParticleSettings(gravity, 1.0), 10).killed
  {
    ParticleKilledExactly(ParticleState(pos, movement, 10.0, false), ParticleSettings(gravity, 1.0), 9);
    ParticleKilledExactly(ParticleState(pos, movement, 10.0, false), ParticleSettings(gravity, 1.0), 10);
  }

  /** The base `Particle`: a position, a velocity and a radius that shrinks until it dies. */
  class Particle {
    var pos: Vec2
    var movement: Vec2
    var momentum: Vec2
    var radius: real
    var killed: bool

    function State(): ParticleState
      reads this
    {
      ParticleState(pos, movement, radius, killed)
    }

    constructor (x: real, y: real, xVel: real, yVel: real, radius: real)
      ensures State() == ParticleState(Vec2(x, y), Vec2(xVel, yVel), radius, false)
      ensures momentum == Zero
    {
      pos := Vec2(x, y);
      movement := Vec2(xVel, yVel);
      momentum := Zero;
      this.radius := radius;
      killed := false;
    }

    /** `update()` under the class-wide `settings`. */
    method Update(settings: ParticleSettings)
      modifies this
      ensures State() == ParticleStep(old(State()), settings)
      ensures momentum == old(momentum)
    {
      pos := pos.Add(movement);
      movement := Vec2(movement.x, movement.y + settings.gravity);
      radius := radius - settings.radiusDec;
      if radius <= 0.0 {
        killed := true;
      }
    }
  }
}
