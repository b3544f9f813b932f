// The particle record and its lifecycle (src/Particle.cpp). The C library's
// rand() is not modelled as global state: every rebirth is handed the
// samples its eleven calls of rand() / RAND_MAX would return.

module Random {

  /** A value of rand() / RAND_MAX: rand() may return RAND_MAX, so 1 is included. */
  type Sample = r: real | 0.0 <= r <= 1.0

  /** randFloat(l, h) once its sample r has been drawn: (1 - r) * l + r * h. */
  function RandFloat(r: Sample, l: real, h: real): (v: real)
    ensures l <= h ==> l <= v <= h
    ensures h <= l ==> h <= v <= l
    ensures r == 0.0 ==> v == l
    ensures r == 1.0 ==> v == h
  {
    ProductNonnegative(r, h - l);
    ProductNonnegative(1.0 - r, h - l);
    ProductNonnegative(r, l - h);
    ProductNonnegative(1.0 - r, l - h);
    (1.0 - r) * l + r * h
  }

  lemma ProductNonnegative(a: real, b: real)
    ensures 0.0 <= a && 0.0 <= b ==> 0.0 <= a * b
  {
  }
}

module Particles {
  import opened Random

  datatype Vec3 = Vec3(x: real, y: real, z: real)

  datatype Color = Color(r: real, g: real, b: real, a: real)

  function Plus(p: Vec3, q: Vec3): Vec3 {
    Vec3(p.x + q.x, p.y + q.y, p.z + q.z)
  }

  function Times(s: real, p: Vec3): Vec3 {
    Vec3(s * p.x, s * p.y, s * p.z)
  }

  function Abs(r: real): real {
    if r < 0.0 then -r else r
  }

  /** std::max: the second argument when the first is smaller, else the first. */
  function Max(a: real, b: real): real {
    if a < b then b else a
  }

  /** The value of all the fields of one particle. */
  datatype PState = PState(
    charge: real, m: real, d: real,
    x: Vec3, v: Vec3,
    lifespan: real, tEnd: real,
    scale: real, color: Color)

  /** rebirth calls randFloat this many times, in the order Reborn uses the samples. */
  const DrawsPerRebirth: nat := 11

  /** The samples of one rebirth. */
  type Draws = rs: seq<Sample> | |rs| == DrawsPerRebirth
    witness [0.0, 0.0, 0.0, 0.0, 0.0, 0.0, 0.0, 0.0, 0.0, 0.0, 0.0]

  /** The ranges a particle's drawn attributes keep from one rebirth to the next. */
  predicate WellFormed(p: PState) {
    && (p.charge == -1.0 || p.charge == 1.0)
    && p.m == 1.0
    && 0.0 <= p.d <= 0.02
    && -0.1 <= p.v.x <= 0.1 && -0.1 <= p.v.y <= 0.1 && -0.1 <= p.v.z <= 0.1
    && 100.0 <= p.lifespan <= 200.0
    && 0.2 <= p.scale <= 1.0
    && 0.0 <= p.color.r <= 0.1 && 0.0 <= p.color.g <= 0.1
    && 0.25 <= p.color.b <= 0.5
  }

  /** Everything rebirth(t) promises about the particle it leaves behind. */
  predicate Newborn(p: PState, t: real) {
    && WellFormed(p)
    && p.x.x == 0.0 && p.x.y == 0.0 && -3.0 <= p.x.z <= -2.0
    && p.tEnd == t + p.lifespan
    && p.color.a == 1.0
  }

  /** The particle rebirth(t) produces from the samples rs. */
  function Reborn(t: real, rs: Draws): (p: PState)
    ensures Newborn(p, t)
    ensures p.charge == (if rs[0] < 0.5 then -1.0 else 1.0)
    ensures p.lifespan == RandFloat(rs[6], 100.0, 200.0)
  {
    var lifespan := RandFloat(rs[6], 100.0, 200.0);
    PState(
      charge := if RandFloat(rs[0], 0.0, 1.0) < 0.5 then -1.0 else 1.0,
      m := 1.0,
      d := RandFloat(rs[1], 0.0, 0.02),
      x := Vec3(0.0, 0.0, RandFloat(rs[2], -3.0, -2.0)),
      v := Vec3(RandFloat(rs[3], -0.1, 0.1), RandFloat(rs[4], -0.1, 0.1), RandFloat(rs[5], -0.1, 0.1)),
      lifespan := lifespan,
      tEnd := t + lifespan,
      scale := RandFloat(rs[7], 0.2, 1.0),
      color := Color(RandFloat(rs[8], 0.0, 0.1), RandFloat(rs[9], 0.0, 0.1), RandFloat(rs[10], 0.25, 0.5), 1.0))
  }

  /** The rebirth test of update: abs(max(x.y, x.x)) > 1, strictly. */
  predicate Escaped(x: Vec3) {
    Abs(Max(x.y, x.x)) > 1.0
  }

  /** What update needs so that its division by the lifespan is defined. */
  predicate CanStep(p: PState) {
    Escaped(p.x) || p.lifespan != 0.0
  }

  /** The unconditional tail of update: one Euler step and the alpha fade. */
  function Moved(p: PState, t: real, h: real): (q: PState)
    requires p.lifespan != 0.0
  {
    p.(x := Plus(p.x, Times(h, p.v)), color := p.color.(a := (p.tEnd - t) / p.lifespan))
  }

  /** update(t, h, g, keyToggles), where rs are the samples a rebirth would draw. */
  function Stepped(p: PState, t: real, h: real, rs: Draws): (q: PState)
    requires CanStep(p)
    ensures q.lifespan != 0.0
    ensures q.x == Plus((if Escaped(p.x) then Reborn(t, rs) else p).x, Times(h, q.v))
    ensures q.color.a == (q.tEnd - t) / q.lifespan
    ensures Escaped(p.x) ==> q.color.a == 1.0
  {
    Moved(if Escaped(p.x) then Reborn(t, rs) else p, t, h)
  }

  /** The rebirth test in plainer words: x or y above 1, or both below -1. */
  lemma EscapedMeans(x: Vec3)
    ensures Escaped(x) <==> (x.x > 1.0 || x.y > 1.0 || (x.x < -1.0 && x.y < -1.0))
  {
  }

  /** The test is strict, and a particle far below -1 on one axis only stays. */
  lemma EscapedExamples(z: real)
    ensures !Escaped(Vec3(1.0, 0.0, z))
    ensures !Escaped(Vec3(0.5, -5.0, z))
    ensures Escaped(Vec3(1.5, 0.0, z))
  {
  }

  lemma WellFormedCanStep(p: PState)
    requires WellFormed(p)
    ensures CanStep(p) && p.lifespan > 0.0
  {
  }

  /** Without a rebirth, update moves the particle by h * v, refreshes alpha and keeps everything else. */
  lemma StepInside(p: PState, t: real, h: real, rs: Draws)
    requires CanStep(p) && !Escaped(p.x)
    ensures var q := Stepped(p, t, h, rs);
      && q.x == Vec3(p.x.x + h * p.v.x, p.x.y + h * p.v.y, p.x.z + h * p.v.z)
      && q.color.a == (p.tEnd - t) / p.lifespan
      && q.v == p.v && q.charge == p.charge && q.m == p.m && q.d == p.d
      && q.lifespan == p.lifespan && q.tEnd == p.tEnd && q.scale == p.scale
      && q.color.r == p.color.r && q.color.g == p.color.g && q.color.b == p.color.b
  {
  }

  /** With a rebirth, update integrates the fresh particle for one step. */
  lemma StepEscaped(p: PState, t: real, h: real, rs: Draws)
    requires Escaped(p.x)
    ensures var q := Stepped(p, t, h, rs);
      && WellFormed(q) && q.tEnd == t + q.lifespan && q.color.a == 1.0
      && q.x == Vec3(h * q.v.x, h * q.v.y, Reborn(t, rs).x.z + h * q.v.z)
      && q.v == Reborn(t, rs).v && q.charge == Reborn(t, rs).charge
  {
  }

  /** The drawn ranges survive every update. */
  lemma StepPreservesWellFormed(p: PState, t: real, h: real, rs: Draws)
    requires WellFormed(p)
    ensures WellFormed(Stepped(p, t, h, rs))
  {
  }

  /**
   * Successive updates at times t, t + h, t + 2h, ..., one per element of
   * rss, each handed the samples its rebirth would draw.
   */
  function Run(p: PState, t: real, h: real, rss: seq<Draws>): (q: PState)
    requires WellFormed(p)
    ensures WellFormed(q)
    decreases |rss|
  {
    if rss == [] then p
    else
      StepPreservesWellFormed(p, t, h, rss[0]);
      Run(Stepped(p, t, h, rss[0]), t + h, h, rss[1..])
  }

  /** No update of the run from p over rss finds the particle outside the rebirth region. */
  predicate StaysInside(p: PState, t: real, h: real, rss: seq<Draws>)
    requires WellFormed(p)
    decreases |rss|
  {
    if rss == [] then true
    else
      StepPreservesWellFormed(p, t, h, rss[0]);
      !Escaped(p.x) && StaysInside(Stepped(p, t, h, rss[0]), t + h, h, rss[1..])
  }

  /** n updates without any rebirth: only the move and the fade, at t, t + h, ... */
  function Flown(p: PState, t: real, h: real, n: nat): (q: PState)
    requires p.lifespan != 0.0
    ensures q.lifespan == p.lifespan
    decreases n
  {
    if n == 0 then p else Flown(Moved(p, t, h), t + h, h, n - 1)
  }

  /**
   * A run that stays inside is the flight of the same length: a particle
   * that never leaves the rebirth region is never reborn, so FlownKeeps,
   * FlownPosition and FlownAlpha describe it.
   */
  lemma {:induction false} RunInsideFlown(p: PState, t: real, h: real, rss: seq<Draws>)
    requires WellFormed(p) && StaysInside(p, t, h, rss)
    ensures Run(p, t, h, rss) == Flown(p, t, h, |rss|)
    decreases |rss|
  {
    if rss != [] {
      StepPreservesWellFormed(p, t, h, rss[0]);
      var q1 := Stepped(p, t, h, rss[0]);
      assert q1 == Moved(p, t, h);
      RunInsideFlown(q1, t + h, h, rss[1..]);
    }
  }

  /** A flight keeps every drawn attribute and the end of life. */
  lemma {:induction false} FlownKeeps(p: PState, t: real, h: real, n: nat)
    requires p.lifespan != 0.0
    ensures var q := Flown(p, t, h, n);
      && q.v == p.v && q.charge == p.charge && q.m == p.m && q.d == p.d
      && q.tEnd == p.tEnd && q.scale == p.scale
      && q.color.r == p.color.r && q.color.g == p.color.g && q.color.b == p.color.b
    decreases n
  {
    if n > 0 {
      FlownKeeps(Moved(p, t, h), t + h, h, n - 1);
    }
  }

  /** A flight is a straight line: n updates take the particle n * h * v away. */
  lemma {:induction false} FlownPosition(p: PState, t: real, h: real, n: nat)
    requires p.lifespan != 0.0
    ensures Flown(p, t, h, n).x == Plus(p.x, Times(n as real * h, p.v))
    decreases n
  {
    if n == 0 {
      assert Times(n as real * h, p.v) == Vec3(0.0, 0.0, 0.0);
    } else {
      var q1 := Moved(p, t, h);
      FlownPosition(q1, t + h, h, n - 1);
      MoreSteps(Flown(q1, t + h, h, n - 1).x, q1.x, p.x, p.v, q1.v, h, (n - 1) as real, n as real);
    }
  }

  /** The time of the last of n >= 1 updates at t, t + h, t + 2h, ... */
  function LastTime(t: real, h: real, n: nat): (last: real)
    requires n >= 1
    ensures last == t + (n as real - 1.0) * h
    decreases n
  {
    if n == 1 then t else LastTime(t + h, h, n - 1)
  }

  /** After n >= 1 updates of a flight, alpha is the share of life left at the last update. */
  lemma {:induction false} FlownFade(p: PState, t: real, h: real, n: nat)
    requires p.lifespan != 0.0 && n >= 1
    ensures Flown(p, t, h, n).color.a == (p.tEnd - LastTime(t, h, n)) / p.lifespan
    decreases n
  {
    if n > 1 {
      var q1 := Moved(p, t, h);
      FlownFade(q1, t + h, h, n - 1);
      FlownKeeps(p, t, h, 1);
    }
  }

  /** FlownFade with the last update's time written out: t + (n - 1) * h. */
  lemma FlownAlpha(p: PState, t: real, h: real, n: nat)
    requires p.lifespan != 0.0 && n >= 1
    ensures Flown(p, t, h, n).color.a == (p.tEnd - (t + (n as real - 1.0) * h)) / p.lifespan
  {
    FlownFade(p, t, h, n);
    assert LastTime(t, h, n) == t + (n as real - 1.0) * h;
  }

  /**
   * FlownPosition's step: one move of h * v followed by m more is n = m + 1 moves.
   * A lemma of its own so that this nonlinear step is proved apart from the induction.
   */
  lemma MoreSteps(end: Vec3, next: Vec3, start: Vec3, v: Vec3, w: Vec3, h: real, m: real, n: real)
    requires next == Plus(start, Times(h, v))
    requires end == Plus(next, Times(m * h, w)) && w == v && n == m + 1.0
    ensures end == Plus(start, Times(n * h, v))
  {
    assert n * h == h + m * h;
    assert (n * h) * v.x == h * v.x + (m * h) * v.x;
    assert (n * h) * v.y == h * v.y + (m * h) * v.y;
    assert (n * h) * v.z == h * v.z + (m * h) * v.z;
  }

  /** One particle of the pool, updated in place. */
  class Particle {
    var charge: real
    var m: real
    var d: real
    var x: Vec3
    var v: Vec3
    var lifespan: real
    var tEnd: real
    var scale: real
    var color: Color

    /** The fields as one value. */
    function State(): (p: PState)
      reads this
    {
      PState(charge, m, d, x, v, lifespan, tEnd, scale, color)
    }

    predicate Inv()
      reads this
    {
      WellFormed(State())
    }

    /** Particle.h is not part of this model; the new particle starts zeroed. */
    constructor ()
      ensures State() == PState(0.0, 0.0, 0.0, Vec3(0.0, 0.0, 0.0), Vec3(0.0, 0.0, 0.0), 0.0, 0.0, 0.0, Color(0.0, 0.0, 0.0, 0.0))
    {
      charge, m, d := 0.0, 0.0, 0.0;
      x, v := Vec3(0.0, 0.0, 0.0), Vec3(0.0, 0.0, 0.0);
      lifespan, tEnd, scale := 0.0, 0.0, 0.0;
      color := Color(0.0, 0.0, 0.0, 0.0);
    }

    method Load(rs: Draws)
      modifies this
      ensures State() == Reborn(0.0, rs)
      ensures Newborn(State(), 0.0) && tEnd == lifespan
    {
      Rebirth(0.0, rs);
    }

    /** rebirth(t): every drawn field is assigned from rs in source order; x.x and x.y are set to 0. */
    method Rebirth(t: real, rs: Draws)
      modifies this
      ensures State() == Reborn(t, rs)
      ensures Newborn(State(), t)
    {
      charge := if RandFloat(rs[0], 0.0, 1.0) < 0.5 then -1.0 else 1.0;
      m := 1.0;
      d := RandFloat(rs[1], 0.0, 0.02);
      x := x.(x := 0.0);
      x := x.(y := 0.0);
      x := x.(z := RandFloat(rs[2], -3.0, -2.0));
      v := v.(x := RandFloat(rs[3], -0.1, 0.1));
      v := v.(y := RandFloat(rs[4], -0.1, 0.1));
      v := v.(z := RandFloat(rs[5], -0.1, 0.1));
      lifespan := RandFloat(rs[6], 100.0, 200.0);
      tEnd := t + lifespan;

      scale := RandFloat(rs[7], 0.2, 1.0);
      color := color.(r := RandFloat(rs[8], 0.0, 0.1));
      color := color.(g := RandFloat(rs[9], 0.0, 0.1));
      color := color.(b := RandFloat(rs[10], 0.25, 0.5));
      color := color.(a := 1.0);
    }

    /**
     * update(t, h, g, keyToggles); g and keyToggles are accepted and never
     * read. rs are the samples a rebirth would draw; they are unused when the
     * particle stays.
     */
    method Update(t: real, h: real, g: Vec3, keyToggles: seq<bool>, rs: Draws)
      requires CanStep(State())
      modifies this
      ensures State() == Stepped(old(State()), t, h, rs)
      ensures old(Inv()) ==> Inv()
    {
      ghost var before := State();
      if Abs(Max(x.y, x.x)) > 1.0 {
        Rebirth(t, rs);
      }

      // The Euler step and the alpha fade run on both branches.
      x := Plus(x, Times(h, v));
      color := color.(a := (tEnd - t) / lifespan);
      if WellFormed(before) {
        StepPreservesWellFormed(before, t, h, rs);
      }
    }
  }
}
