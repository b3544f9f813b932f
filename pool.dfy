// The particle pool of the application (src/main.cpp): building the pool,
// the per-frame update and depth sort, and the CPU-side export of positions
// and colours into the fixed point buffers.

module Pool {
  import opened Random
  import opened Particles

  /** No element appears twice: for the pool, no particle object is shared by two slots. */
  predicate Distinct<T(==)>(s: seq<T>) {
    forall i, j :: 0 <= i < j < |s| ==> s[i] != s[j]
  }

  /** The states of the particles, in pool order. */
  function StatesOf(ps: seq<Particle>): (r: seq<PState>)
    reads ps
    ensures |r| == |ps|
    ensures forall i :: 0 <= i < |ps| ==> r[i] == ps[i].State()
  {
    if ps == [] then [] else [ps[0].State()] + StatesOf(ps[1..])
  }

  /**
   * The pool is in the order of the sort: the comparator of ParticleSorter
   * is `key(a) < key(b)` for a depth key computed from the camera matrix.
   */
  predicate SortedBy(ps: seq<Particle>, key: PState -> real)
    reads ps
  {
    forall i, j :: 0 <= i < j < |ps| ==> key(ps[i].State()) <= key(ps[j].State())
  }

  /** The position buffer: x, y, z of each particle, three slots apiece. */
  function FlatPositions(ps: seq<PState>): (r: seq<real>)
    ensures |r| == 3 * |ps|
  {
    if ps == [] then [] else [ps[0].x.x, ps[0].x.y, ps[0].x.z] + FlatPositions(ps[1..])
  }

  /** The colour a particle is drawn with: red is lifted by alpha/10, green and blue by a tenth of themselves. */
  function AdjustedColor(c: Color): (q: seq<real>)
    ensures |q| == 4 && q[3] == c.a
  {
    [c.r + c.a / 10.0, c.g + c.g / 10.0, c.b + c.b / 10.0, c.a]
  }

  /** The colour an adjusted quadruple was made from. */
  function OriginalColor(q: seq<real>): Color
    requires |q| == 4
  {
    Color(q[0] - q[3] / 10.0, q[1] * 10.0 / 11.0, q[2] * 10.0 / 11.0, q[3])
  }

  /** The colour buffer: the adjusted colour of each particle, four slots apiece. */
  function FlatColors(ps: seq<PState>): (r: seq<real>)
    ensures |r| == 4 * |ps|
  {
    if ps == [] then [] else AdjustedColor(ps[0].color) + FlatColors(ps[1..])
  }

  lemma {:induction false} FlatPositionsAt(ps: seq<PState>, i: nat)
    requires i < |ps|
    ensures FlatPositions(ps)[3 * i] == ps[i].x.x
    ensures FlatPositions(ps)[3 * i + 1] == ps[i].x.y
    ensures FlatPositions(ps)[3 * i + 2] == ps[i].x.z
  {
    if i > 0 {
      FlatPositionsAt(ps[1..], i - 1);
    }
  }

  lemma {:induction false} FlatColorsAt(ps: seq<PState>, i: nat)
    requires i < |ps|
    ensures FlatColors(ps)[4 * i] == ps[i].color.r + ps[i].color.a / 10.0
    ensures FlatColors(ps)[4 * i + 1] == ps[i].color.g + ps[i].color.g / 10.0
    ensures FlatColors(ps)[4 * i + 2] == ps[i].color.b + ps[i].color.b / 10.0
    ensures FlatColors(ps)[4 * i + 3] == ps[i].color.a
  {
    if i > 0 {
      FlatColorsAt(ps[1..], i - 1);
    }
  }

  /** What the buffers of a pool hold for its i-th particle: its position, then its adjusted colour. */
  lemma ExportedSlots(ps: seq<Particle>, i: nat)
    requires i < |ps|
    ensures var fp := FlatPositions(StatesOf(ps));
      fp[3 * i] == ps[i].x.x && fp[3 * i + 1] == ps[i].x.y && fp[3 * i + 2] == ps[i].x.z
    ensures var fc, c := FlatColors(StatesOf(ps)), ps[i].color;
      && fc[4 * i] == c.r + c.a / 10.0 && fc[4 * i + 1] == c.g + c.g / 10.0
      && fc[4 * i + 2] == c.b + c.b / 10.0 && fc[4 * i + 3] == c.a
  {
    FlatPositionsAt(StatesOf(ps), i);
    FlatColorsAt(StatesOf(ps), i);
  }

  /** The colour buffer loses nothing: every particle's colour can be read back from its four slots. */
  lemma FlatColorsInvertible(ps: seq<PState>, i: nat)
    requires i < |ps|
    ensures OriginalColor(FlatColors(ps)[4 * i..4 * i + 4]) == ps[i].color
  {
    FlatColorsAt(ps, i);
  }

  /** Two pools with the same states give the same buffers. */
  lemma {:induction false} FlatDeterministic(ps: seq<PState>, qs: seq<PState>)
    requires |ps| == |qs|
    requires forall i :: 0 <= i < |ps| ==> ps[i].x == qs[i].x && ps[i].color == qs[i].color
    ensures FlatPositions(ps) == FlatPositions(qs) && FlatColors(ps) == FlatColors(qs)
  {
    if ps != [] {
      FlatDeterministic(ps[1..], qs[1..]);
    }
  }

  /** Exchange the elements at i and j. */
  function Swap<T>(s: seq<T>, i: nat, j: nat): (r: seq<T>)
    requires i < |s| && j < |s|
    ensures |r| == |s| && r[i] == s[j] && r[j] == s[i]
    ensures forall k :: 0 <= k < |s| && k != i && k != j ==> r[k] == s[k]
    ensures multiset(r) == multiset(s)
  {
    s[i := s[j]][j := s[i]]
  }

  /** In a sequence without repeats every element occurs once. */
  lemma {:induction false} DistinctOnce<T>(s: seq<T>, x: T)
    requires Distinct(s)
    ensures multiset(s)[x] <= 1
  {
    if s != [] {
      assert s == [s[0]] + s[1..];
      assert Distinct(s[1..]);
      DistinctOnce(s[1..], x);
      assert s[0] !in s[1..];
    }
  }

  /** An element found at two positions occurs at least twice. */
  lemma RepeatTwice<T>(s: seq<T>, i: nat, j: nat)
    requires i < j < |s|
    ensures s[i] == s[j] ==> multiset(s)[s[i]] >= 2
  {
    assert s == s[..j] + s[j..];
    assert s[i] in s[..j] && s[j] in s[j..];
  }

  /** A permutation of a sequence without repeats has none either. */
  lemma PermutationKeepsDistinct<T>(ps: seq<T>, qs: seq<T>)
    requires multiset(ps) == multiset(qs) && Distinct(ps)
    ensures Distinct(qs)
  {
    forall i, j | 0 <= i < j < |qs|
      ensures qs[i] != qs[j]
    {
      RepeatTwice(qs, i, j);
      DistinctOnce(ps, qs[i]);
    }
  }

  /**
   * std::sort(particles.begin(), particles.end(), sorter), done as an
   * insertion sort. Sorting reorders the pointers only: no particle is
   * created, dropped or changed.
   */
  method SortByKey(ps: seq<Particle>, key: PState -> real) returns (sorted: seq<Particle>)
    ensures multiset(sorted) == multiset(ps)
    ensures SortedBy(sorted, key)
    ensures Distinct(ps) ==> Distinct(sorted)
  {
    sorted := ps;
    var i := 0;
    while i < |sorted|
      invariant |sorted| == |ps| && 0 <= i <= |sorted|
      invariant multiset(sorted) == multiset(ps)
      invariant forall a, b :: 0 <= a < b < i ==> key(sorted[a].State()) <= key(sorted[b].State())
    {
      sorted := Insert(sorted, i, key);
      i := i + 1;
    }
    if Distinct(ps) {
      PermutationKeepsDistinct(ps, sorted);
    }
  }

  /** One pass of the insertion sort: sink element i into the ordered prefix before it. */
  method Insert(s: seq<Particle>, i: nat, key: PState -> real) returns (r: seq<Particle>)
    requires i < |s|
    requires forall a, b :: 0 <= a < b < i ==> key(s[a].State()) <= key(s[b].State())
    ensures |r| == |s| && multiset(r) == multiset(s)
    ensures forall a, b :: 0 <= a < b <= i ==> key(r[a].State()) <= key(r[b].State())
  {
    r := s;
    var j := i;
    while j > 0 && key(r[j - 1].State()) > key(r[j].State())
      invariant |r| == |s| && 0 <= j <= i
      invariant multiset(r) == multiset(s)
      invariant forall a, b :: 0 <= a < b <= i && a != j && b != j ==> key(r[a].State()) <= key(r[b].State())
      invariant forall a, b :: 0 <= a < j < b <= i ==> key(r[a].State()) <= key(r[b].State())
      invariant forall b :: j < b <= i ==> key(r[j].State()) <= key(r[b].State())
    {
      r := Swap(r, j - 1, j);
      j := j - 1;
    }
  }

  lemma PermutationKeepsInv(ps: seq<Particle>, qs: seq<Particle>)
    requires multiset(ps) == multiset(qs)
    requires forall i :: 0 <= i < |ps| ==> ps[i].Inv()
    ensures forall i :: 0 <= i < |qs| ==> qs[i].Inv()
  {
    forall i | 0 <= i < |qs| ensures qs[i].Inv() {
      assert qs[i] in multiset(ps);
    }
  }

  /** The application's particle state: the pool, the CPU point buffers and the clock. */
  class Application {
    var particles: seq<Particle>
    const numP: nat := 300
    const points: array<real>
    const pointColors: array<real>
    var t: real
    var h: real
    var g: Vec3
    var keyToggles: seq<bool>

    /** The buffers have room for exactly numP particles; no particle is pooled twice and every pooled one has been born. */
    ghost predicate Valid()
      reads this, particles
    {
      && points.Length == 3 * numP
      && pointColors.Length == 4 * numP
      && points != pointColors
      && Distinct(particles)
      && forall i :: 0 <= i < |particles| ==> particles[i].Inv()
    }

    constructor ()
      ensures Valid() && fresh(points) && fresh(pointColors)
      ensures particles == [] && numP == 300 && points.Length == 900 && pointColors.Length == 1200
      ensures t == 0.0 && h == 0.01 && g == Vec3(0.0, -0.01, 0.0)
      ensures |keyToggles| == 256 && forall k :: 0 <= k < 256 ==> !keyToggles[k]
    {
      particles := [];
      points := new real[900];
      pointColors := new real[1200];
      t := 0.0;
      h := 0.01;
      g := Vec3(0.0, -0.01, 0.0);
      keyToggles := seq(256, _ => false);
    }

    /** initParticles: append numP new particles, each loaded from its own samples. */
    method InitParticles(draws: seq<Draws>)
      requires Valid() && |draws| == numP
      modifies this`particles
      ensures Valid()
      ensures |particles| == |old(particles)| + numP
      ensures particles[..|old(particles)|] == old(particles)
      ensures forall k :: |old(particles)| <= k < |particles| ==> fresh(particles[k])
      ensures forall k :: 0 <= k < numP ==>
                particles[|old(particles)| + k].State() == Reborn(0.0, draws[k])
                && Newborn(particles[|old(particles)| + k].State(), 0.0)
    {
      var n := numP;

      var i := 0;
      while i < n
        invariant 0 <= i <= n
        invariant |particles| == |old(particles)| + i
        invariant particles[..|old(particles)|] == old(particles)
        invariant forall k :: |old(particles)| <= k < |particles| ==> fresh(particles[k])
        invariant forall k :: 0 <= k < i ==> particles[|old(particles)| + k].State() == Reborn(0.0, draws[k])
        invariant Valid()
      {
        var particle := new Particle();
        particles := particles + [particle];
        particle.Load(draws[i]);
        i := i + 1;
      }
      forall k | 0 <= k < numP
        ensures particles[|old(particles)| + k].State() == Reborn(0.0, draws[k])
                && Newborn(particles[|old(particles)| + k].State(), 0.0)
      {
        var rs: Draws := draws[k];
        assert particles[|old(particles)| + k].State() == Reborn(0.0, rs);
        assert Newborn(Reborn(0.0, rs), 0.0);
      }
    }

    /** The first loop of updateParticles: update every particle with the same time t. */
    method UpdateEach(draws: seq<Draws>)
      requires Valid() && |draws| == |particles|
      modifies particles
      ensures Valid()
      ensures forall j :: 0 <= j < |particles| ==>
                particles[j].State() == Stepped(old(particles[j].State()), t, h, draws[j])
    {
      var i := 0;
      while i < |particles|
        invariant 0 <= i <= |particles|
        invariant forall j :: 0 <= j < |particles| ==> particles[j].Inv()
        invariant forall j :: 0 <= j < i ==> particles[j].State() == Stepped(old(particles[j].State()), t, h, draws[j])
        invariant forall j :: i <= j < |particles| ==> particles[j].State() == old(particles[j].State())
      {
        particles[i].Update(t, h, g, keyToggles, draws[i]);
        i := i + 1;
      }
    }

    /**
     * updateParticles: update every particle with the same time t, advance t
     * by h, then sort the pool by the sorter's key. draws[j] are the samples
     * the j-th particle would use if it were reborn.
     */
    method UpdateParticles(draws: seq<Draws>, key: PState -> real)
      requires Valid() && |draws| == |particles|
      modifies this`particles, this`t, particles
      ensures Valid()
      ensures t == old(t) + h
      ensures multiset(particles) == multiset(old(particles))
      ensures SortedBy(particles, key)
      ensures forall j :: 0 <= j < |old(particles)| ==>
                old(particles)[j].State() == Stepped(old(particles[j].State()), old(t), h, draws[j])
    {
      UpdateEach(draws);
      t := t + h;

      // Sort the particles by the sorter's depth key
      ghost var updated := particles;
      particles := SortByKey(particles, key);
      PermutationKeepsInv(updated, particles);
    }

    /**
     * The CPU-buffer loop of updateGeom: export the first numP particles.
     * ExportedSlots says what lands in each slot.
     */
    method UpdateGeom()
      requires Valid() && numP <= |particles|
      modifies points, pointColors
      ensures points[..] == FlatPositions(StatesOf(particles[..numP]))
      ensures pointColors[..] == FlatColors(StatesOf(particles[..numP]))
    {
      ghost var s := StatesOf(particles[..numP]);
      ghost var flatPositions, flatColors := FlatPositions(s), FlatColors(s);
      for i := 0 to numP
        invariant forall k :: 0 <= k < 3 * i ==> points[k] == flatPositions[k]
        invariant forall k :: 0 <= k < 4 * i ==> pointColors[k] == flatColors[k]
      {
        FlatPositionsAt(s, i);
        FlatColorsAt(s, i);
        var pos := particles[i].x;
        var col := particles[i].color;
        points[i * 3 + 0] := pos.x;
        points[i * 3 + 1] := pos.y;
        points[i * 3 + 2] := pos.z;
        pointColors[i * 4 + 0] := col.r + col.a / 10.0;
        pointColors[i * 4 + 1] := col.g + col.g / 10.0;
        pointColors[i * 4 + 2] := col.b + col.b / 10.0;
        pointColors[i * 4 + 3] := col.a;
      }
      assert points[..] == flatPositions;
      assert pointColors[..] == flatColors;
    }

    /** Exporting twice from an unchanged pool writes the same buffers. */
    method UpdateGeomTwice() returns (first: seq<real>, firstColors: seq<real>)
      requires Valid() && numP <= |particles|
      modifies points, pointColors
      ensures points[..] == first && pointColors[..] == firstColors
    {
      UpdateGeom();
      first, firstColors := points[..], pointColors[..];
      UpdateGeom();
    }
  }
}
