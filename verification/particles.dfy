/**
 * One decorative particle of the canvas: the `Particle` class of script.js,
 * its constructor and its `update(dt)` time step, with the fade model that
 * derives its opacity from its age.
 *
 * Lengths are canvas pixels and times are milliseconds; JavaScript numbers
 * are modelled as exact reals.
 */
module Particles {
  import opened Draws

  datatype Option<T> = None | Some(value: T)

  /** The two shapes the canvas draws. */
  datatype Shape = Heart | Spark

  /** An `rgba(r, g, b, a)` fill colour. */
  datatype Color = Rgba(red: int, green: int, blue: int, alpha: real)

  /** The `opts` argument of the constructor; a missing key is `None`. */
  datatype Opts = Opts(size: Option<real>, life: Option<real>, shape: Option<Shape>, color: Option<Color>)

  /** The `Math.random()` values the constructor may consume. */
  datatype ParticleDraws = ParticleDraws(vx: Unit, vy: Unit, size: Unit, life: Unit, shape: Unit, tint: Unit)

  /** The value of every field of a particle at one moment. */
  datatype PState = PState(
    x: real, y: real, vx: real, vy: real,
    size: real, life: real, t: real, alpha: real,
    shape: Shape, color: Color)

  /** Length of the fade-in ramp, in ms. */
  const FadeIn: real := 200.0
  /** Length of the fade-out ramp that starts when the age passes `life`, in ms. */
  const FadeOut: real := 600.0

  function Min(a: real, b: real): real { if a <= b then a else b }
  function Max(a: real, b: real): real { if a >= b then a else b }

  /**
   * The opacity of a particle of age `t` and lifetime `life`: a ramp up over
   * the first 200 ms, overridden by a ramp down over 600 ms once the age
   * exceeds the lifetime.
   */
  function Fade(t: real, life: real): (alpha: real)
    ensures 0.0 <= t ==> 0.0 <= alpha <= 1.0
    ensures FadeIn <= t <= life ==> alpha == 1.0
    ensures life < t ==> alpha <= 1.0
    ensures life < t ==> (alpha == 0.0 <==> life + FadeOut <= t)
    ensures t <= life ==> (alpha == 0.0 <==> t == 0.0)
    ensures t <= life && t < 0.0 ==> alpha < 0.0
  {
    var rampUp := Min(1.0, t / 200.0);
    if t > life then Max(0.0, 1.0 - (t - life) / 600.0) else rampUp
  }

  /** Up to the end of its lifetime a particle only grows more opaque. */
  lemma FadeInRises(t1: real, t2: real, life: real)
    requires t1 <= t2 <= life
    ensures Fade(t1, life) <= Fade(t2, life)
  {
  }

  /** Past its lifetime a particle only grows more transparent. */
  lemma FadeOutFalls(t1: real, t2: real, life: real)
    requires life < t1 <= t2
    ensures Fade(t2, life) <= Fade(t1, life)
  {
  }

  /**
   * When the lifetime is at least the fade-in window, the opacity rises to 1,
   * stays there until the lifetime ends and never rises again: it is
   * non-increasing from age 200 on.
   */
  lemma FadeFallsAfterRamp(t1: real, t2: real, life: real)
    requires FadeIn <= life && FadeIn <= t1 <= t2
    ensures Fade(t2, life) <= Fade(t1, life)
  {
    if t1 <= life {
      assert Fade(t1, life) == 1.0;
    } else {
      FadeOutFalls(t1, t2, life);
    }
  }

  /**
   * The time step of `update(dt)`: the age grows by `dt`, the position moves
   * by the velocity times `dt`, and the opacity is recomputed from the new age.
   */
  function Step(p: PState, dt: real): PState
  {
    var t := p.t + dt;
    p.(t := t, x := p.x + p.vx * dt, y := p.y + p.vy * dt, alpha := Fade(t, p.life))
  }

  /**
   * A step changes nothing but age, position and opacity; the opacity it
   * leaves is the fade of the new age, and with a non-negative new age it
   * lies in [0, 1].
   */
  lemma StepKeepsAttributes(p: PState, dt: real)
    ensures var q := Step(p, dt);
      && q.vx == p.vx && q.vy == p.vy && q.size == p.size && q.life == p.life
      && q.shape == p.shape && q.color == p.color
      && q.t - p.t == dt
      && q.x - p.x == p.vx * dt && q.y - p.y == p.vy * dt
      && q.alpha == Fade(q.t, q.life)
      && (0.0 <= q.t ==> 0.0 <= q.alpha <= 1.0)
  {
  }

  /** A step of zero time leaves age and position where they were. */
  lemma StepZero(p: PState)
    ensures Step(p, 0.0) == p.(alpha := Fade(p.t, p.life))
  {
  }

  /** Two steps of `a` and `b` ms land exactly where one step of `a + b` does. */
  lemma StepsCompose(p: PState, a: real, b: real)
    ensures Step(Step(p, a), b) == Step(p, a + b)
  {
    var q := Step(p, a);
    assert q.t + b == p.t + (a + b);
    assert q.x + q.vx * b == p.x + p.vx * (a + b) by {
      assert p.vx * a + p.vx * b == p.vx * (a + b);
    }
    assert q.y + q.vy * b == p.y + p.vy * (a + b) by {
      assert p.vy * a + p.vy * b == p.vy * (a + b);
    }
  }

  function Sum(dts: seq<real>): real
  {
    if dts == [] then 0.0 else dts[0] + Sum(dts[1..])
  }

  /** The particle after one `update` per element of `dts`, in order. */
  function StepEach(p: PState, dts: seq<real>): PState
    decreases dts
  {
    if dts == [] then p else StepEach(Step(p, dts[0]), dts[1..])
  }

  /**
   * However a stretch of time is cut into frames, a particle ends up where a
   * single step of the total time puts it: age and position depend on the
   * total only, and the opacity on the final age only.
   */
  lemma {:induction false} StepEachIsOneStep(p: PState, dts: seq<real>)
    requires dts != []
    ensures StepEach(p, dts) == Step(p, Sum(dts))
    decreases dts
  {
    if |dts| > 1 {
      StepEachIsOneStep(Step(p, dts[0]), dts[1..]);
      StepsCompose(p, dts[0], Sum(dts[1..]));
    }
  }

  /** JavaScript's `opts.key || fallback`: a missing key or a 0 falls back. */
  function Pick(o: Option<real>, fallback: real): real
  {
    if o.Some? && o.value != 0.0 then o.value else fallback
  }

  /** The colour a particle picks for itself when `opts` gives none. */
  function DefaultColor(shape: Shape, tint: Unit): (c: Color)
    ensures shape == Heart ==> c.red == 255 && c.green == 90 && c.blue == 150 && 0.6 <= c.alpha < 1.0
    ensures shape == Spark ==> c.red == 255 && c.green == 220 && c.blue == 240 && 0.5 <= c.alpha < 0.95
  {
    if shape == Heart then Rgba(255, 90, 150, Random(tint, 0.6, 1.0))
    else Rgba(255, 220, 240, Random(tint, 0.5, 0.95))
  }

  /**
   * The particle the constructor builds at (x, y): at rest in age and fully
   * transparent, with a slow upward velocity, and with size, lifetime, shape
   * and colour taken from `opts` when given and drawn otherwise.
   */
  function Spawn(x: real, y: real, opts: Opts, d: ParticleDraws): (p: PState)
    ensures p.x == x && p.y == y && p.t == 0.0 && p.alpha == 0.0
    ensures -0.3 <= p.vx < 0.3 && -1.2 <= p.vy < -0.2
    ensures opts.size.Some? && opts.size.value != 0.0 ==> p.size == opts.size.value
    ensures opts.size.None? || opts.size.value == 0.0 ==> 8.0 <= p.size < 22.0
    ensures opts.life.Some? && opts.life.value != 0.0 ==> p.life == opts.life.value
    ensures opts.life.None? || opts.life.value == 0.0 ==> 1600.0 <= p.life < 3600.0
    ensures opts.shape.Some? ==> p.shape == opts.shape.value
    ensures opts.shape.None? ==> (p.shape == Heart <==> d.shape > 0.5)
    ensures opts.color.Some? ==> p.color == opts.color.value
    ensures opts.color.None? ==> p.color == DefaultColor(p.shape, d.tint)
  {
    var shape := if opts.shape.Some? then opts.shape.value else if d.shape > 0.5 then Heart else Spark;
    PState(
      x, y, Random(d.vx, -0.3, 0.3), Random(d.vy, -1.2, -0.2),
      Pick(opts.size, Random(d.size, 8.0, 22.0)), Pick(opts.life, Random(d.life, 1600.0, 3600.0)),
      0.0, 0.0, shape,
      if opts.color.Some? then opts.color.value else DefaultColor(shape, d.tint))
  }

  /**
   * A particle whose opacity is the fade of its age. Every particle with a
   * positive lifetime is coherent from birth, and a step keeps it so.
   */
  predicate Coherent(p: PState)
  {
    0.0 < p.life && p.alpha == Fade(p.t, p.life)
  }

  lemma SpawnCoherent(x: real, y: real, opts: Opts, d: ParticleDraws)
    requires opts.life.None? || 0.0 <= opts.life.value
    ensures Coherent(Spawn(x, y, opts, d))
  {
  }

  lemma StepCoherent(p: PState, dt: real)
    requires Coherent(p)
    ensures Coherent(Step(p, dt))
  {
  }

  /** A coherent particle that has not gone back in age is drawn with an opacity in [0, 1]. */
  lemma CoherentOpacity(p: PState)
    requires Coherent(p) && 0.0 <= p.t
    ensures 0.0 <= p.alpha <= 1.0
  {
  }

  /** A particle object, updated in place once per frame. */
  class Particle {
    var x: real
    var y: real
    var vx: real
    var vy: real
    var size: real
    var life: real
    var t: real
    var alpha: real
    var shape: Shape
    var color: Color

    /** The current value of every field. */
    function Val(): PState
      reads this
    {
      PState(x, y, vx, vy, size, life, t, alpha, shape, color)
    }

    constructor (x: real, y: real, opts: Opts, d: ParticleDraws)
      ensures Val() == Spawn(x, y, opts, d)
    {
      this.x, this.y := x, y;
      this.vx, this.vy := Random(d.vx, -0.3, 0.3), Random(d.vy, -1.2, -0.2);
      this.size := Pick(opts.size, Random(d.size, 8.0, 22.0));
      this.life := Pick(opts.life, Random(d.life, 1600.0, 3600.0));
      this.t := 0.0;
      this.alpha := 0.0;
      var shape := if opts.shape.Some? then opts.shape.value else if d.shape > 0.5 then Heart else Spark;
      this.shape := shape;
      this.color := if opts.color.Some? then opts.color.value else DefaultColor(shape, d.tint);
    }

    /** `update(dt)`: advance age and position, then recompute the opacity. */
    method Update(dt: real)
      modifies this
      ensures t == old(t) + dt
      ensures x == old(x) + vx * dt && y == old(y) + vy * dt
      ensures alpha == Fade(t, life)
      ensures vx == old(vx) && vy == old(vy) && size == old(size) && life == old(life)
      ensures shape == old(shape) && color == old(color)
      ensures Val() == Step(old(Val()), dt)
    {
      t := t + dt;
      x := x + vx * dt;
      y := y + vy * dt;
      alpha := Min(1.0, t / 200.0);
      if t > life {
        alpha := Max(0.0, 1.0 - (t - life) / 600.0);
      }
    }
  }
}
