/**
 * The particle field of script.js: the shared `particles` array, the frame
 * step that clamps the elapsed time, may add one ambient particle, updates
 * every particle and sweeps out the expired ones, and the two spawners that
 * add a burst at a point and a shower of confetti.
 */
module Field {
  import opened Draws
  import opened Particles

  /** A particle is swept once its age reaches its lifetime plus this grace, in ms. */
  const SweepGrace: real := 800.0
  /** The longest time step a frame applies, in ms. */
  const MaxStep: real := 40.0
  /** The chance per frame that an ambient particle appears. */
  const AmbientChance: real := 0.08

  /** The frame's step: the elapsed time, cut down to at most 40 ms. */
  function ClampStep(elapsed: real): (dt: real)
    ensures dt <= MaxStep && dt <= elapsed
    ensures dt == elapsed <==> elapsed <= MaxStep
    ensures dt == MaxStep <==> MaxStep <= elapsed
    ensures 0.0 <= elapsed ==> 0.0 <= dt
  {
    Min(MaxStep, elapsed)
  }

  /** The filter condition of the sweep: the particles that stay. */
  predicate Alive(p: PState)
  {
    p.t < p.life + SweepGrace
  }

  /** The sweep: the particles that stay, in their original order. */
  function KeepLive(vs: seq<PState>): (ws: seq<PState>)
    ensures |ws| <= |vs|
    decreases vs
  {
    if vs == [] then []
    else (if Alive(vs[0]) then [vs[0]] else []) + KeepLive(vs[1..])
  }

  /** The sweep keeps a particle value exactly when it is in the field and alive. */
  lemma {:induction false} KeepLiveMembers(vs: seq<PState>, v: PState)
    ensures v in KeepLive(vs) <==> v in vs && Alive(v)
    decreases vs
  {
    if vs != [] {
      KeepLiveMembers(vs[1..], v);
      assert vs == [vs[0]] + vs[1..];
    }
  }

  /** Sweeping a concatenation sweeps each part: the sweep keeps relative order. */
  lemma {:induction false} KeepLiveAppend(a: seq<PState>, b: seq<PState>)
    ensures KeepLive(a + b) == KeepLive(a) + KeepLive(b)
    decreases a
  {
    if a == [] {
      assert a + b == b;
    } else {
      var head := if Alive(a[0]) then [a[0]] else [];
      assert (a + b)[0] == a[0];
      assert (a + b)[1..] == a[1..] + b;
      assert KeepLive(a + b) == head + KeepLive(a[1..] + b);
      KeepLiveAppend(a[1..], b);
      assert KeepLive(a) == head + KeepLive(a[1..]);
      assert head + (KeepLive(a[1..]) + KeepLive(b)) == (head + KeepLive(a[1..])) + KeepLive(b);
    }
  }

  /** Extending the swept prefix by one particle keeps that particle exactly when it is alive. */
  lemma KeepLiveSnoc(vs: seq<PState>, i: nat)
    requires i < |vs|
    ensures KeepLive(vs[..i + 1]) == KeepLive(vs[..i]) + (if Alive(vs[i]) then [vs[i]] else [])
  {
    assert vs[..i + 1] == vs[..i] + [vs[i]];
    KeepLiveAppend(vs[..i], [vs[i]]);
    assert KeepLive([vs[i]]) == (if Alive(vs[i]) then [vs[i]] else []) + KeepLive([]);
  }

  /** A field in which every particle is alive loses nothing to the sweep. */
  lemma {:induction false} KeepLiveAllAlive(vs: seq<PState>)
    requires forall i :: 0 <= i < |vs| ==> Alive(vs[i])
    ensures KeepLive(vs) == vs
    decreases vs
  {
    if vs != [] {
      KeepLiveAllAlive(vs[1..]);
    }
  }

  /** The positions of the old field whose particles survive the sweep. */
  function LiveIndices(vs: seq<PState>): seq<nat>
    decreases vs
  {
    if vs == [] then []
    else
      var rest := Shift(LiveIndices(vs[1..]));
      if Alive(vs[0]) then [0] + rest else rest
  }

  function Shift(idx: seq<nat>): (r: seq<nat>)
    ensures |r| == |idx|
    ensures forall k :: 0 <= k < |idx| ==> r[k] == idx[k] + 1
  {
    seq(|idx|, k requires 0 <= k < |idx| => idx[k] + 1)
  }

  /**
   * The sweep is a selection: the k-th kept particle is the particle at the
   * k-th surviving position of the old field.
   */
  lemma {:induction false} KeepLiveSelects(vs: seq<PState>)
    ensures |LiveIndices(vs)| == |KeepLive(vs)|
    ensures forall k :: 0 <= k < |LiveIndices(vs)| ==>
      LiveIndices(vs)[k] < |vs| && KeepLive(vs)[k] == vs[LiveIndices(vs)[k]]
    decreases vs
  {
    if vs != [] {
      var tail := vs[1..];
      KeepLiveSelects(tail);
      var rest := LiveIndices(tail);
      var shifted := Shift(rest);
      var kept := KeepLive(tail);
      forall k | 0 <= k < |shifted|
        ensures shifted[k] < |vs| && kept[k] == vs[shifted[k]]
      {
        assert kept[k] == tail[rest[k]];
      }
      if Alive(vs[0]) {
        assert KeepLive(vs) == [vs[0]] + kept;
        assert LiveIndices(vs) == [0] + shifted;
      } else {
        assert KeepLive(vs) == kept;
        assert LiveIndices(vs) == shifted;
      }
    }
  }

  /** The surviving positions are strictly increasing: the sweep keeps the old order. */
  lemma {:induction false} LiveIndicesIncrease(vs: seq<PState>)
    ensures forall k, l :: 0 <= k < l < |LiveIndices(vs)| ==> LiveIndices(vs)[k] < LiveIndices(vs)[l]
    ensures forall k :: 0 <= k < |LiveIndices(vs)| ==> LiveIndices(vs)[k] < |vs|
    decreases vs
  {
    if vs != [] {
      LiveIndicesIncrease(vs[1..]);
    }
  }

  /** A position survives the sweep exactly when its particle is alive. */
  lemma {:induction false} LiveIndicesExact(vs: seq<PState>)
    ensures forall i :: 0 <= i < |vs| ==> (Alive(vs[i]) <==> i in LiveIndices(vs))
    decreases vs
  {
    if vs != [] {
      var tail := vs[1..];
      LiveIndicesExact(tail);
      var rest := LiveIndices(tail);
      var shifted := Shift(rest);
      assert 0 !in shifted;
      forall i | 1 <= i < |vs|
        ensures Alive(vs[i]) <==> i in LiveIndices(vs)
      {
        assert vs[i] == tail[i - 1];
        if i - 1 in rest {
          var k :| 0 <= k < |rest| && rest[k] == i - 1;
          assert shifted[k] == i;
        }
        if i in shifted {
          var k :| 0 <= k < |shifted| && shifted[k] == i;
          assert rest[k] == i - 1;
        }
      }
    }
  }

  /** The frame's `forEach` update on values: every particle of the field is stepped by the same `dt`, in place. */
  function StepAll(vs: seq<PState>, dt: real): (ws: seq<PState>)
    ensures |ws| == |vs|
    ensures forall i :: 0 <= i < |vs| ==> ws[i] == Step(vs[i], dt)
  {
    seq(|vs|, i requires 0 <= i < |vs| => Step(vs[i], dt))
  }

  /** Every particle of `vs` has a positive lifetime and the opacity its age calls for. */
  predicate AllCoherent(vs: seq<PState>)
  {
    forall i :: 0 <= i < |vs| ==> Coherent(vs[i])
  }

  lemma StepAllCoherent(vs: seq<PState>, dt: real)
    requires AllCoherent(vs)
    ensures AllCoherent(StepAll(vs, dt))
  {
    forall i | 0 <= i < |vs|
      ensures Coherent(StepAll(vs, dt)[i])
    {
      StepCoherent(vs[i], dt);
    }
  }

  lemma KeepLiveCoherent(vs: seq<PState>)
    requires AllCoherent(vs)
    ensures AllCoherent(KeepLive(vs))
  {
    var ws := KeepLive(vs);
    forall i | 0 <= i < |ws|
      ensures Coherent(ws[i])
    {
      KeepLiveMembers(vs, ws[i]);
    }
  }

  function AsSeq(o: Option<PState>): seq<PState>
  {
    if o.Some? then [o.value] else []
  }

  /**
   * What one frame does to the values of the field: append the ambient
   * particle if one was spawned, step every particle by `dt`, then sweep.
   */
  function Advance(vs: seq<PState>, dt: real, ambient: Option<PState>): seq<PState>
  {
    KeepLive(StepAll(vs + AsSeq(ambient), dt))
  }

  /** A frame keeps every particle coherent, including the one it may spawn. */
  lemma AdvanceCoherent(vs: seq<PState>, dt: real, ambient: Option<PState>)
    requires AllCoherent(vs) && (ambient.Some? ==> Coherent(ambient.value))
    ensures AllCoherent(Advance(vs, dt, ambient))
  {
    var all := vs + AsSeq(ambient);
    assert AllCoherent(all);
    StepAllCoherent(all, dt);
    KeepLiveCoherent(StepAll(all, dt));
  }

  /**
   * A frame adds at most one particle, and none without an ambient spawn;
   * every particle it leaves is an old or ambient one stepped by `dt` and
   * still alive.
   */
  lemma AdvanceGrowth(vs: seq<PState>, dt: real, ambient: Option<PState>)
    ensures |Advance(vs, dt, ambient)| <= |vs| + (if ambient.Some? then 1 else 0)
    ensures forall w :: w in Advance(vs, dt, ambient) ==>
      Alive(w) && exists v :: v in vs + AsSeq(ambient) && w == Step(v, dt)
  {
    var all := vs + AsSeq(ambient);
    forall w | w in Advance(vs, dt, ambient)
      ensures Alive(w) && exists v :: v in all && w == Step(v, dt)
    {
      KeepLiveMembers(StepAll(all, dt), w);
      var i :| 0 <= i < |all| && StepAll(all, dt)[i] == w;
      assert all[i] in all;
    }
  }

  /**
   * In one frame every particle ages by the clamped step: never more than
   * 40 ms, whatever time has passed since the previous frame.
   */
  lemma FrameAgesAtMostMaxStep(vs: seq<PState>, elapsed: real, ambient: Option<PState>)
    ensures forall w :: w in Advance(vs, ClampStep(elapsed), ambient) ==>
      exists v :: v in vs + AsSeq(ambient) && w.t == v.t + ClampStep(elapsed) && w.t <= v.t + MaxStep
  {
    var dt := ClampStep(elapsed);
    AdvanceGrowth(vs, dt, ambient);
    forall w | w in Advance(vs, dt, ambient)
      ensures exists v :: v in vs + AsSeq(ambient) && w.t == v.t + dt && w.t <= v.t + MaxStep
    {
      var v :| v in vs + AsSeq(ambient) && w == Step(v, dt);
      assert w.t == v.t + dt;
    }
  }

  /**
   * A frame keeps exactly the stepped particles that are alive, in order: the
   * i-th survivor of the old field is followed by the (i+1)-th, and a stepped
   * particle is dropped only when it is no longer alive.
   */
  lemma AdvanceKeepsExactlyAlive(vs: seq<PState>, dt: real)
    ensures Advance(vs, dt, None) == KeepLive(StepAll(vs, dt))
    ensures forall i :: 0 <= i < |vs| ==>
      (Step(vs[i], dt) in Advance(vs, dt, None) <==> Alive(Step(vs[i], dt)))
  {
    assert vs + AsSeq(None) == vs;
    forall i | 0 <= i < |vs|
      ensures Step(vs[i], dt) in Advance(vs, dt, None) <==> Alive(Step(vs[i], dt))
    {
      assert StepAll(vs, dt)[i] == Step(vs[i], dt);
      KeepLiveMembers(StepAll(vs, dt), Step(vs[i], dt));
    }
  }

  /**
   * While the clock does not run backwards, every particle a frame leaves
   * has a non-negative age and is drawn with an opacity in [0, 1]: the
   * bounds hold from frame to frame, for old and freshly spawned particles.
   */
  lemma AdvanceOpacityBounded(vs: seq<PState>, elapsed: real, ambient: Option<PState>)
    requires AllCoherent(vs) && forall i :: 0 <= i < |vs| ==> 0.0 <= vs[i].t
    requires 0.0 <= elapsed
    requires ambient.Some? ==> Coherent(ambient.value) && ambient.value.t == 0.0
    ensures forall w :: w in Advance(vs, ClampStep(elapsed), ambient) ==> 0.0 <= w.t && 0.0 <= w.alpha <= 1.0
  {
    var dt := ClampStep(elapsed);
    var ws := Advance(vs, dt, ambient);
    AdvanceCoherent(vs, dt, ambient);
    AdvanceGrowth(vs, dt, ambient);
    forall w | w in ws
      ensures 0.0 <= w.t && 0.0 <= w.alpha <= 1.0
    {
      var v :| v in vs + AsSeq(ambient) && w == Step(v, dt);
      assert 0.0 <= v.t;
      var k :| 0 <= k < |ws| && ws[k] == w;
      CoherentOpacity(ws[k]);
    }
  }

  /**
   * The sweep never removes a visible particle: by the time a coherent
   * particle stops being alive, its opacity has been 0 for 200 ms.
   */
  lemma SweptAreInvisible(p: PState)
    requires Coherent(p) && !Alive(p)
    ensures p.alpha == 0.0
  {
  }

  /** Between `life + 600` and `life + 800` a particle is kept but not seen. */
  lemma InvisibleButAlive(p: PState)
    requires Coherent(p) && p.life + FadeOut <= p.t < p.life + SweepGrace
    ensures Alive(p) && p.alpha == 0.0
  {
  }

  /** The random values one frame's ambient spawn may consume. */
  datatype AmbientDraws = AmbientDraws(chance: Unit, x: Unit, size: Unit, shape: Unit, particle: ParticleDraws)

  function AmbientOpts(d: AmbientDraws): Opts
  {
    Opts(Some(Random(d.size, 8.0, 18.0)), None, Some(if d.shape > 0.6 then Heart else Spark), None)
  }

  /**
   * The ambient particle of one frame, if any: with chance 0.08, one particle
   * just below the bottom edge, drifting upward, of size in [8, 18) and
   * lifetime in [1600, 3600).
   */
  function Ambient(width: real, height: real, d: AmbientDraws): (o: Option<PState>)
    ensures o.Some? <==> d.chance < AmbientChance
    ensures o.Some? ==> o.value.t == 0.0 && o.value.alpha == 0.0 && Coherent(o.value)
  {
    if d.chance < AmbientChance then
      Some(Spawn(Random(d.x, 20.0, width - 20.0), height + 10.0, AmbientOpts(d), d.particle))
    else None
  }

  /** Where and how an ambient particle starts out. */
  lemma AmbientSpawn(width: real, height: real, d: AmbientDraws)
    requires d.chance < AmbientChance
    ensures var p := Ambient(width, height, d).value;
      && p.y == height + 10.0
      && (40.0 < width ==> 20.0 <= p.x < width - 20.0)
      && 8.0 <= p.size < 18.0 && 1600.0 <= p.life < 3600.0
      && -0.3 <= p.vx < 0.3 && -1.2 <= p.vy < -0.2
      && (p.shape == Heart <==> d.shape > 0.6)
  {
  }

  /** The random values one particle of a burst consumes. */
  datatype BurstDraws = BurstDraws(
    dx: Unit, dy: Unit, size: Unit, life: Unit, shape: Unit,
    heading: Heading, speed: Unit, lift: Unit, particle: ParticleDraws)

  function BurstOpts(d: BurstDraws): Opts
  {
    Opts(Some(Random(d.size, 6.0, 20.0)), Some(Random(d.life, 800.0, 1400.0)),
         Some(if d.shape > 0.4 then Heart else Spark), None)
  }

  function BurstVelocity(d: BurstDraws): (v: (real, real))
    ensures -3.2 < v.0 < 3.2
    ensures 0.0 <= v.1 <= 6.0
  {
    var speed := Random(d.speed, 0.6, 3.2);
    var lift := Random(d.lift, -6.0, -2.0);
    var c, s := d.heading.cos, d.heading.sin;
    assert -speed <= c * speed <= speed by {
      NonNegative(1.0 - c, speed);
      NonNegative(1.0 + c, speed);
      assert (1.0 - c) * speed == speed - c * speed;
      assert (1.0 + c) * speed == speed + c * speed;
    }
    assert 0.0 <= s * lift <= 6.0 by {
      NonNegative(-s, -lift);
      NonNegative(1.0 + s, -lift);
      NonNegative(-s, 6.0 + lift);
      assert (-s) * (-lift) == s * lift;
      assert (1.0 + s) * (-lift) == -lift - s * lift;
      assert (-s) * (6.0 + lift) == -6.0 * s - s * lift;
    }
    (c * speed, s * lift)
  }

  /**
   * One particle of `burstParticles(cx, cy, count)`: within 30 px across and
   * 12 px up or down of the centre, size in [6, 20), lifetime in [800, 1400),
   * thrown sideways at under 3.2 px/ms and with a vertical speed in [0, 6].
   */
  function BurstParticle(cx: real, cy: real, d: BurstDraws): (p: PState)
    ensures p.t == 0.0 && p.alpha == 0.0 && Coherent(p)
  {
    var q := Spawn(cx + Random(d.dx, -30.0, 30.0), cy + Random(d.dy, -12.0, 12.0), BurstOpts(d), d.particle);
    var v := BurstVelocity(d);
    q.(vx := v.0, vy := v.1)
  }

  /** The first `n` particles of a burst, one per draw, in order. */
  function Bursts(cx: real, cy: real, draws: seq<BurstDraws>, n: nat): seq<PState>
    requires n <= |draws|
  {
    if n == 0 then []
    else Bursts(cx, cy, draws, n - 1) + [BurstParticle(cx, cy, draws[n - 1])]
  }

  /** Where and how one particle of a burst starts out. */
  predicate BurstShaped(cx: real, cy: real, p: PState)
  {
    && cx - 30.0 <= p.x < cx + 30.0 && cy - 12.0 <= p.y < cy + 12.0
    && 800.0 <= p.life < 1400.0 && 6.0 <= p.size < 20.0
    && -3.2 < p.vx < 3.2 && 0.0 <= p.vy <= 6.0
  }

  lemma BurstParticleShaped(cx: real, cy: real, d: BurstDraws)
    ensures BurstShaped(cx, cy, BurstParticle(cx, cy, d))
    ensures BurstParticle(cx, cy, d).shape == Heart <==> d.shape > 0.4
  {
  }

  /** Every particle of a burst starts out within the burst's bounds. */
  lemma {:induction false} BurstsShaped(cx: real, cy: real, draws: seq<BurstDraws>, n: nat)
    requires n <= |draws|
    ensures |Bursts(cx, cy, draws, n)| == n
    ensures forall k :: 0 <= k < n ==> BurstShaped(cx, cy, Bursts(cx, cy, draws, n)[k])
    decreases n
  {
    if n > 0 {
      BurstsShaped(cx, cy, draws, n - 1);
      BurstParticleShaped(cx, cy, draws[n - 1]);
      var prev, last := Bursts(cx, cy, draws, n - 1), BurstParticle(cx, cy, draws[n - 1]);
      assert Bursts(cx, cy, draws, n) == prev + [last];
      assert forall k :: 0 <= k < n - 1 ==> (prev + [last])[k] == prev[k];
    }
  }

  /** The k-th particle of a burst is built from the k-th draw. */
  lemma {:induction false} BurstsAt(cx: real, cy: real, draws: seq<BurstDraws>, n: nat, k: nat)
    requires k < n <= |draws|
    ensures |Bursts(cx, cy, draws, n)| == n
    ensures Bursts(cx, cy, draws, n)[k] == BurstParticle(cx, cy, draws[k])
    decreases n
  {
    if k < n - 1 {
      BurstsAt(cx, cy, draws, n - 1, k);
    } else if 0 < k {
      BurstsAt(cx, cy, draws, n - 1, 0);
    }
  }

  /** The random values one confetti particle consumes. */
  datatype ConfettiDraws = ConfettiDraws(
    x: Unit, y: Unit, size: Unit, life: Unit,
    red: Unit, green: Unit, blue: Unit,
    vx: Unit, vy: Unit, particle: ParticleDraws)

  /** The pastel fill of a confetti particle. */
  function ConfettiColor(d: ConfettiDraws): (c: Color)
    ensures 200 <= c.red <= 255 && 130 <= c.green <= 210 && 200 <= c.blue <= 230
    ensures c.alpha == 0.9
  {
    RoundScaledDraw(d.red, 55);
    RoundScaledDraw(d.green, 80);
    RoundScaledDraw(d.blue, 30);
    Rgba(200 + Round(d.red * 55.0), 130 + Round(d.green * 80.0), 200 + Round(d.blue * 30.0), 0.9)
  }

  function ConfettiOpts(d: ConfettiDraws): Opts
  {
    Opts(Some(Random(d.size, 6.0, 14.0)), Some(Random(d.life, 1800.0, 3200.0)), Some(Spark), Some(ConfettiColor(d)))
  }

  /**
   * One particle of `confettiBurst(n)` in a viewport of the given size: a
   * spark between 100 px from either side and between 20% and 60% of the
   * height, lifetime in [1800, 3200), thrown at vx in [-2.5, 2.5) and
   * upward at vy in [-6, -2).
   */
  function ConfettiParticle(width: real, height: real, d: ConfettiDraws): (p: PState)
    ensures p.t == 0.0 && p.alpha == 0.0 && Coherent(p)
  {
    var q := Spawn(Random(d.x, 100.0, width - 100.0), Random(d.y, height * 0.2, height * 0.6), ConfettiOpts(d), d.particle);
    q.(vx := Random(d.vx, -2.5, 2.5), vy := Random(d.vy, -6.0, -2.0))
  }

  /** The first `n` sparks of a confetti shower, one per draw, in order. */
  function Confetti(width: real, height: real, draws: seq<ConfettiDraws>, n: nat): seq<PState>
    requires n <= |draws|
  {
    if n == 0 then []
    else Confetti(width, height, draws, n - 1) + [ConfettiParticle(width, height, draws[n - 1])]
  }

  /** Where and how one confetti spark starts out in a viewport of the given size. */
  predicate ConfettiShaped(width: real, height: real, p: PState)
  {
    && (200.0 < width ==> 100.0 <= p.x < width - 100.0)
    && (0.0 < height ==> 0.2 * height <= p.y < 0.6 * height)
    && p.shape == Spark && 1800.0 <= p.life < 3200.0 && 6.0 <= p.size < 14.0
    && -2.5 <= p.vx < 2.5 && -6.0 <= p.vy < -2.0
    && 200 <= p.color.red <= 255 && 130 <= p.color.green <= 210 && 200 <= p.color.blue <= 230
    && p.color.alpha == 0.9
  }

  lemma ConfettiParticleShaped(width: real, height: real, d: ConfettiDraws)
    ensures ConfettiShaped(width, height, ConfettiParticle(width, height, d))
    ensures ConfettiParticle(width, height, d).color == ConfettiColor(d)
  {
  }

  /** Every spark of a shower starts out within the shower's bounds. */
  lemma {:induction false} ConfettiShowerShaped(width: real, height: real, draws: seq<ConfettiDraws>, n: nat)
    requires n <= |draws|
    ensures |Confetti(width, height, draws, n)| == n
    ensures forall k :: 0 <= k < n ==> ConfettiShaped(width, height, Confetti(width, height, draws, n)[k])
    decreases n
  {
    if n > 0 {
      ConfettiShowerShaped(width, height, draws, n - 1);
      ConfettiParticleShaped(width, height, draws[n - 1]);
      var prev, last := Confetti(width, height, draws, n - 1), ConfettiParticle(width, height, draws[n - 1]);
      assert Confetti(width, height, draws, n) == prev + [last];
      assert forall k :: 0 <= k < n - 1 ==> (prev + [last])[k] == prev[k];
    }
  }

  /** The k-th spark of a shower is built from the k-th draw. */
  lemma {:induction false} ConfettiAt(width: real, height: real, draws: seq<ConfettiDraws>, n: nat, k: nat)
    requires k < n <= |draws|
    ensures |Confetti(width, height, draws, n)| == n
    ensures Confetti(width, height, draws, n)[k] == ConfettiParticle(width, height, draws[k])
    decreases n
  {
    if k < n - 1 {
      ConfettiAt(width, height, draws, n - 1, k);
    } else if 0 < k {
      ConfettiAt(width, height, draws, n - 1, 0);
    }
  }

  /** The values of a sequence of particle objects. */
  function Values(ps: seq<Particle>): (vs: seq<PState>)
    reads ps
    ensures |vs| == |ps|
    ensures forall i :: 0 <= i < |ps| ==> vs[i] == ps[i].Val()
  {
    if ps == [] then [] else [ps[0].Val()] + Values(ps[1..])
  }

  /** No particle object occurs twice. */
  ghost predicate Distinct(ps: seq<Particle>)
  {
    forall i, j :: 0 <= i < j < |ps| ==> ps[i] != ps[j]
  }

  /**
   * The filter of the sweep on particle objects: the objects whose values
   * survive, in their order, each of them once.
   */
  method LiveParticles(ps: seq<Particle>) returns (kept: seq<Particle>)
    requires Distinct(ps)
    ensures Values(kept) == KeepLive(Values(ps))
    ensures Distinct(kept)
    ensures forall o :: o in kept ==> o in ps
  {
    ghost var before := Values(ps);
    kept := [];
    var i := 0;
    while i < |ps|
      invariant 0 <= i <= |ps|
      invariant Values(kept) == KeepLive(before[..i])
      invariant Distinct(kept + ps[i..])
      invariant forall o :: o in kept ==> o in ps
    {
      LiveStep(ps, i, kept);
      KeptStaysDistinct(ps, i, kept);
      if Alive(ps[i].Val()) {
        kept := kept + [ps[i]];
      }
      i := i + 1;
    }
    assert before[..i] == before;
    assert kept + ps[i..] == kept;
  }

  /** One particle of a burst, as the loop body of `burstParticles` builds it. */
  method NewBurstParticle(cx: real, cy: real, d: BurstDraws) returns (p: Particle)
    ensures fresh(p) && p.Val() == BurstParticle(cx, cy, d)
  {
    p := new Particle(cx + Random(d.dx, -30.0, 30.0), cy + Random(d.dy, -12.0, 12.0), BurstOpts(d), d.particle);
    p.vx := d.heading.cos * Random(d.speed, 0.6, 3.2);
    p.vy := d.heading.sin * Random(d.lift, -6.0, -2.0);
  }

  /** One confetti spark, as the loop body of `confettiBurst` builds it. */
  method NewConfettiParticle(width: real, height: real, d: ConfettiDraws) returns (p: Particle)
    ensures fresh(p) && p.Val() == ConfettiParticle(width, height, d)
  {
    p := new Particle(Random(d.x, 100.0, width - 100.0), Random(d.y, height * 0.2, height * 0.6), ConfettiOpts(d), d.particle);
    p.vx := Random(d.vx, -2.5, 2.5);
    p.vy := Random(d.vy, -6.0, -2.0);
  }

  /** One step of the loop of `LiveParticles`, on values: the filter grows by the next survivor. */
  lemma LiveStep(ps: seq<Particle>, i: nat, kept: seq<Particle>)
    requires i < |ps| && Values(kept) == KeepLive(Values(ps)[..i])
    ensures Values(if Alive(ps[i].Val()) then kept + [ps[i]] else kept) == KeepLive(Values(ps)[..i + 1])
  {
    KeepLiveSnoc(Values(ps), i);
    if Alive(ps[i].Val()) {
      ValuesAppend(kept, [ps[i]]);
    }
  }

  /**
   * One step of the loop of `LiveParticles`, on objects: the objects kept so
   * far followed by those not yet looked at never repeat, whether or not
   * the next one is kept.
   */
  lemma KeptStaysDistinct(ps: seq<Particle>, i: nat, kept: seq<Particle>)
    requires i < |ps| && Distinct(kept + ps[i..])
    ensures Distinct(kept + [ps[i]] + ps[i + 1..]) && Distinct(kept + ps[i + 1..])
  {
    assert kept + [ps[i]] + ps[i + 1..] == kept + ps[i..];
    var all, rest := kept + ps[i..], kept + ps[i + 1..];
    forall a, b | 0 <= a < b < |rest|
      ensures rest[a] != rest[b]
    {
      var a', b' := if a < |kept| then a else a + 1, if b < |kept| then b else b + 1;
      assert rest[a] == all[a'] && rest[b] == all[b'];
    }
  }

  lemma AppendOne<T>(a: seq<T>, b: seq<T>, x: T)
    ensures (a + b) + [x] == a + (b + [x])
  {
  }

  lemma AppendDistinct(ps: seq<Particle>, p: Particle)
    requires Distinct(ps) && p !in ps
    ensures Distinct(ps + [p])
  {
  }

  lemma ValuesAppend(a: seq<Particle>, b: seq<Particle>)
    ensures Values(a + b) == Values(a) + Values(b)
  {
    var l, r := Values(a + b), Values(a) + Values(b);
    assert |l| == |r|;
    forall k | 0 <= k < |l|
      ensures l[k] == r[k]
    {
      if k < |a| {
        assert (a + b)[k] == a[k];
      } else {
        assert (a + b)[k] == b[k - |a|];
      }
    }
  }

  /**
   * The particle canvas: its size (`WIDTH`, `HEIGHT`), the timestamp of the
   * previous frame (`lastTime`) and the live particles, oldest first.
   */
  class ParticleField {
    var width: real
    var height: real
    var lastTime: real
    var particles: seq<Particle>

    /**
     * No particle object appears twice, and every particle has a positive
     * lifetime and the opacity its age calls for.
     */
    ghost predicate Valid()
      reads this, particles
    {
      && Distinct(particles)
      && AllCoherent(Snapshot())
    }

    /** The values of the live particles, in order. */
    function Snapshot(): seq<PState>
      reads this, particles
    {
      Values(particles)
    }

    constructor (width: real, height: real, now: real)
      ensures Valid()
      ensures this.width == width && this.height == height && lastTime == now
      ensures particles == [] && Snapshot() == []
    {
      this.width, this.height := width, height;
      lastTime := now;
      particles := [];
    }

    /**
     * `frame(now)`: step by the elapsed time cut to 40 ms, maybe add one
     * ambient particle, update every particle, then sweep the expired ones.
     */
    method Frame(now: real, d: AmbientDraws)
      requires Valid()
      modifies this, particles
      ensures Valid()
      ensures width == old(width) && height == old(height) && lastTime == now
      ensures Snapshot() == Advance(old(Snapshot()), ClampStep(now - old(lastTime)), Ambient(old(width), old(height), d))
      ensures forall j :: 0 <= j < |particles| ==> particles[j] in old(particles) || fresh(particles[j])
    {
      var dt := ClampStep(now - lastTime);
      lastTime := now;
      ghost var spawned := AddAmbient(d);
      ghost var grown := particles;
      UpdateAll(dt);
      Sweep();
      forall j | 0 <= j < |particles|
        ensures particles[j] in old(particles) || fresh(particles[j])
      {
        assert particles[j] in grown;
      }
    }

    /** The spawn step of `frame`: with chance 0.08, one particle rising from below the bottom edge. */
    method AddAmbient(d: AmbientDraws) returns (ghost spawned: seq<Particle>)
      requires Valid()
      modifies this
      ensures Valid()
      ensures width == old(width) && height == old(height) && lastTime == old(lastTime)
      ensures particles == old(particles) + spawned && fresh(spawned)
      ensures Snapshot() == old(Snapshot()) + AsSeq(Ambient(width, height, d))
    {
      spawned := [];
      if d.chance < AmbientChance {
        var p := new Particle(Random(d.x, 20.0, width - 20.0), height + 10.0, AmbientOpts(d), d.particle);
        assert p.Val() == Ambient(width, height, d).value;
        Push(p);
        spawned := [p];
      } else {
        assert AsSeq(Ambient(width, height, d)) == [];
      }
    }

    /** `particles.forEach(p => p.update(dt))`. */
    method UpdateAll(dt: real)
      requires Valid()
      modifies particles
      ensures Valid()
      ensures Snapshot() == StepAll(old(Snapshot()), dt)
    {
      ghost var before := Snapshot();
      var i := 0;
      while i < |particles|
        invariant 0 <= i <= |particles|
        invariant forall j :: 0 <= j < i ==> particles[j].Val() == Step(before[j], dt)
        invariant forall j :: i <= j < |particles| ==> particles[j].Val() == before[j]
      {
        particles[i].Update(dt);
        i := i + 1;
      }
      StepAllCoherent(before, dt);
    }

    /** `particles = particles.filter(p => p.t < p.life + 800)`. */
    method Sweep()
      requires Valid()
      modifies this
      ensures Valid()
      ensures width == old(width) && height == old(height) && lastTime == old(lastTime)
      ensures Snapshot() == KeepLive(old(Snapshot()))
      ensures forall j :: 0 <= j < |particles| ==> particles[j] in old(particles)
    {
      var kept := LiveParticles(particles);
      KeepLiveCoherent(Snapshot());
      ghost var survivors := Values(kept);
      particles := kept;
      assert Snapshot() == survivors;
    }

    /** `particles.push(p)` for a particle not yet in the field. */
    method Push(p: Particle)
      requires Valid() && p !in particles && Coherent(p.Val())
      modifies this
      ensures Valid()
      ensures width == old(width) && height == old(height) && lastTime == old(lastTime)
      ensures particles == old(particles) + [p]
      ensures Values(particles) == old(Values(particles)) + [p.Val()]
    {
      ValuesAppend(particles, [p]);
      AppendDistinct(particles, p);
      ghost var grown := Values(particles + [p]);
      particles := particles + [p];
      assert Snapshot() == grown;
    }

    /** One turn of the loop of `burstParticles`: one more particle thrown out from around (cx, cy). */
    method AddBurstParticle(cx: real, cy: real, draws: seq<BurstDraws>, i: nat, ghost start: seq<PState>, ghost objs: seq<Particle>, ghost born: set<Particle>) returns (ghost p: Particle)
      requires Valid() && i < |draws| && Snapshot() == start + Bursts(cx, cy, draws, i)
      requires forall o :: o in particles ==> o in objs || o in born
      modifies this
      ensures Valid()
      ensures width == old(width) && height == old(height) && lastTime == old(lastTime)
      ensures particles == old(particles) + [p] && fresh(p)
      ensures forall o :: o in particles ==> o in objs || o in born + {p}
      ensures Snapshot() == start + Bursts(cx, cy, draws, i + 1)
    {
      var q := NewBurstParticle(cx, cy, draws[i]);
      Push(q);
      p := q;
      AppendOne(start, Bursts(cx, cy, draws, i), BurstParticle(cx, cy, draws[i]));
    }

    /**
     * `burstParticles(cx, cy, count)`: append one particle thrown out from
     * around (cx, cy) per turn of the loop (none when `count <= 0`), after
     * the existing particles, whose values stay as they were.
     */
    method BurstParticles(cx: real, cy: real, count: int, draws: seq<BurstDraws>)
      requires Valid() && |draws| == (if count <= 0 then 0 else count)
      modifies this
      ensures Valid()
      ensures width == old(width) && height == old(height) && lastTime == old(lastTime)
      ensures Snapshot() == old(Snapshot()) + Bursts(cx, cy, draws, |draws|)
      ensures forall j :: 0 <= j < |particles| ==> particles[j] in old(particles) || fresh(particles[j])
    {
      ghost var start := Snapshot();
      ghost var objs := particles;
      ghost var born: set<Particle> := {};
      ghost var w, h, lt := width, height, lastTime;
      var i := 0;
      while i < count
        invariant 0 <= i <= |draws| && (i < |draws| ==> i < count)
        invariant Valid()
        invariant width == w && height == h && lastTime == lt
        invariant Snapshot() == start + Bursts(cx, cy, draws, i)
        invariant fresh(born) && forall o :: o in particles ==> o in objs || o in born
      {
        ghost var p := AddBurstParticle(cx, cy, draws, i, start, objs, born);
        born := born + {p};
        i := i + 1;
      }
      forall j | 0 <= j < |particles|
        ensures particles[j] in objs || fresh(particles[j])
      {
        assert particles[j] in particles;
      }
    }

    /** One turn of the loop of `confettiBurst`: one more confetti spark. */
    method AddConfettiParticle(innerWidth: real, innerHeight: real, draws: seq<ConfettiDraws>, i: nat, ghost start: seq<PState>, ghost objs: seq<Particle>, ghost born: set<Particle>) returns (ghost p: Particle)
      requires Valid() && i < |draws| && Snapshot() == start + Confetti(innerWidth, innerHeight, draws, i)
      requires forall o :: o in particles ==> o in objs || o in born
      modifies this
      ensures Valid()
      ensures width == old(width) && height == old(height) && lastTime == old(lastTime)
      ensures particles == old(particles) + [p] && fresh(p)
      ensures forall o :: o in particles ==> o in objs || o in born + {p}
      ensures Snapshot() == start + Confetti(innerWidth, innerHeight, draws, i + 1)
    {
      var q := NewConfettiParticle(innerWidth, innerHeight, draws[i]);
      Push(q);
      p := q;
      AppendOne(start, Confetti(innerWidth, innerHeight, draws, i), ConfettiParticle(innerWidth, innerHeight, draws[i]));
    }

    /**
     * `confettiBurst(n)` in a viewport of `innerWidth` by `innerHeight`:
     * append one confetti spark per turn of the loop (none when `n <= 0`)
     * after the existing particles, whose values stay as they were.
     */
    method ConfettiBurst(n: int, innerWidth: real, innerHeight: real, draws: seq<ConfettiDraws>)
      requires Valid() && |draws| == (if n <= 0 then 0 else n)
      modifies this
      ensures Valid()
      ensures width == old(width) && height == old(height) && lastTime == old(lastTime)
      ensures Snapshot() == old(Snapshot()) + Confetti(innerWidth, innerHeight, draws, |draws|)
      ensures forall j :: 0 <= j < |particles| ==> particles[j] in old(particles) || fresh(particles[j])
    {
      ghost var start := Snapshot();
      ghost var objs := particles;
      ghost var born: set<Particle> := {};
      ghost var w, h, lt := width, height, lastTime;
      var i := 0;
      while i < n
        invariant 0 <= i <= |draws| && (i < |draws| ==> i < n)
        invariant Valid()
        invariant width == w && height == h && lastTime == lt
        invariant Snapshot() == start + Confetti(innerWidth, innerHeight, draws, i)
        invariant fresh(born) && forall o :: o in particles ==> o in objs || o in born
      {
        ghost var p := AddConfettiParticle(innerWidth, innerHeight, draws, i, start, objs, born);
        born := born + {p};
        i := i + 1;
      }
      forall j | 0 <= j < |particles|
        ensures particles[j] in objs || fresh(particles[j])
      {
        assert particles[j] in particles;
      }
    }
  }
}
