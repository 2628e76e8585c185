/** The hanging cloth: a grid of point masses whose top row is pinned, each
    joined by a spring to its right-hand and its lower neighbour, advanced a
    tick at a time by every spring force in turn and then by gravity and a
    damped Verlet step. */
module ClothSim {
  import opened Vectors
  import opened Lists

  /** Grid size: particles per row and number of rows. */
  const NumX: nat := 15
  const NumY: nat := 10

  /** Pixels between neighbouring particles of the grid as built. */
  const Spacing: int := 30

  /** Screen width; the grid starts a quarter of the way across. */
  const Width: int := 800

  /** Gravity per tick (screen y grows downward). */
  const Gravity: Vec := Vec(0.0, 0.3)

  /** Fraction of the implicit velocity kept by each Verlet step. */
  const Damping: real := 0.95

  const Stiffness: real := 0.5

  /** The upward push a mouse click gives the particles near it. */
  const Wind: Vec := Vec(0.0, -10.0)

  // ---------------------------------------------------------------------
  // Particles
  // ---------------------------------------------------------------------

  /** Everything a particle holds, as a value. */
  datatype PointState = PointState(position: Vec, previousPosition: Vec, acceleration: Vec, fixed: bool)

  /** `apply_force`: a pinned particle ignores every force. */
  function Accelerate(s: PointState, force: Vec): PointState
  {
    if s.fixed then s else s.(acceleration := Add(s.acceleration, force))
  }

  /** `verlet`: a pinned particle stays where it is; a free one takes a
      damped Verlet step and forgets its acceleration. */
  function Advance(s: PointState): PointState
  {
    if s.fixed then s
    else PointState(VerletPosition(s.position, s.previousPosition, s.acceleration, Damping), s.position, Zero, false)
  }

  /** Pinned particles are left exactly as they are by forces and steps. */
  lemma PinnedIgnoresTick(s: PointState, force: Vec)
    requires s.fixed
    ensures Accelerate(s, force) == s && Advance(s) == s
  {
  }

  /** A free particle accumulates the force, and its step moves it by the
      damped last displacement plus the accumulated acceleration, then
      clears the acceleration. */
  lemma FreeParticleStep(s: PointState, force: Vec)
    requires !s.fixed
    ensures Accelerate(s, force).acceleration == Add(s.acceleration, force)
    ensures Accelerate(s, force).position == s.position
    ensures Advance(s).previousPosition == s.position
    ensures Advance(s).position == Add(Add(s.position, Scale(Damping, Sub(s.position, s.previousPosition))), s.acceleration)
    ensures Advance(s).acceleration == Zero && !Advance(s).fixed
  {
  }

  class Particle {
    var position: Vec
    var previousPosition: Vec
    const fixed: bool
    var acceleration: Vec

    /** A particle at (x, y), at rest. */
    constructor (x: real, y: real, fixed: bool)
      ensures State() == PointState(Vec(x, y), Vec(x, y), Zero, fixed)
    {
      position := Vec(x, y);
      previousPosition := Vec(x, y);
      this.fixed := fixed;
      acceleration := Zero;
    }

    function State(): PointState
      reads this
    {
      PointState(position, previousPosition, acceleration, fixed)
    }

    method ApplyForce(force: Vec)
      modifies this`acceleration
      ensures State() == Accelerate(old(State()), force)
    {
      if !fixed {
        acceleration := Add(acceleration, force);
      }
    }

    method Verlet()
      modifies this`position, this`previousPosition, this`acceleration
      ensures State() == Advance(old(State()))
    {
      if !fixed {
        var velocity := Scale(Damping, Sub(position, previousPosition));
        previousPosition := position;
        position := Add(Add(position, velocity), acceleration);
        acceleration := Zero;
      }
    }
  }

  /** The states of `ps`, read in the current heap. */
  function States(ps: seq<Particle>): (ss: seq<PointState>)
    reads set p | p in ps
    ensures |ss| == |ps| && forall i :: 0 <= i < |ps| ==> ss[i] == ps[i].State()
    decreases |ps|
  {
    if |ps| == 0 then [] else States(ps[..|ps| - 1]) + [ps[|ps| - 1].State()]
  }

  // ---------------------------------------------------------------------
  // Springs
  // ---------------------------------------------------------------------

  /** The penalty force on the first endpoint of a spring whose endpoints
      are `distance` apart along `delta` (from the first to the second). */
  function SpringForce(delta: Vec, distance: real, restLength: real): Vec
    requires distance != 0.0
  {
    Scale(Stiffness * (distance - restLength), Scale(1.0 / distance, delta))
  }

  /** One spring acting on its two endpoints' states: nothing happens when
      the endpoints coincide; otherwise the first is pushed by the force and
      the second by its negation. */
  function PullPair(sa: PointState, sb: PointState, restLength: real, distance: real): (PointState, PointState)
  {
    if distance == 0.0 then (sa, sb)
    else
      var force := SpringForce(Sub(sb.position, sa.position), distance, restLength);
      (Accelerate(sa, force), Accelerate(sb, Neg(force)))
  }

  /** A spring only ever changes accelerations, and never a pinned end's. */
  lemma PullPairFrame(sa: PointState, sb: PointState, restLength: real, distance: real)
    ensures var r := PullPair(sa, sb, restLength, distance);
      && r.0.position == sa.position && r.0.previousPosition == sa.previousPosition && r.0.fixed == sa.fixed
      && r.1.position == sb.position && r.1.previousPosition == sb.previousPosition && r.1.fixed == sb.fixed
      && (sa.fixed ==> r.0 == sa) && (sb.fixed ==> r.1 == sb)
  {
  }

  /** The two forces are equal and opposite: with both ends free the sum of
      their accelerations is what it was, and each moves by the same amount
      in opposite directions. */
  lemma PullPairBalanced(sa: PointState, sb: PointState, restLength: real, distance: real)
    requires !sa.fixed && !sb.fixed
    ensures var r := PullPair(sa, sb, restLength, distance);
      && Add(r.0.acceleration, r.1.acceleration) == Add(sa.acceleration, sb.acceleration)
      && Sub(r.0.acceleration, sa.acceleration) == Neg(Sub(r.1.acceleration, sb.acceleration))
  {
  }

  /** The push along the spring, measured in the direction from the first
      end to the second, is the stiffness times the stretch times the length:
      a stretched spring pulls both free ends towards each other, a
      compressed one pushes them apart. */
  lemma SpringPushAlong(sa: PointState, sb: PointState, restLength: real, distance: real)
    requires !sa.fixed && !sb.fixed && distance > 0.0
    requires IsNorm(Sub(sb.position, sa.position), distance)
    ensures var r := PullPair(sa, sb, restLength, distance);
      var delta := Sub(sb.position, sa.position);
      && Dot(Sub(r.0.acceleration, sa.acceleration), delta) == Stiffness * (distance - restLength) * distance
      && Dot(Sub(r.1.acceleration, sb.acceleration), delta) == -(Stiffness * (distance - restLength) * distance)
  {
    var delta := Sub(sb.position, sa.position);
    var c := Stiffness * (distance - restLength);
    var u := Scale(1.0 / distance, delta);
    assert Dot(u, delta) == (1.0 / distance) * Dot(delta, delta);
    assert (1.0 / distance) * (distance * distance) == distance;
    var f := Scale(c, u);
    assert Dot(f, delta) == c * Dot(u, delta);
    assert f == SpringForce(delta, distance, restLength);
  }

  /** A spring whose ends coincide (current length 0) changes neither end,
      whatever its rest length. */
  lemma PullPairCoincident(sa: PointState, sb: PointState, restLength: real)
    ensures PullPair(sa, sb, restLength, 0.0) == (sa, sb)
  {
  }

  /** A spring at its rest length exerts no force. */
  lemma PullPairAtRest(sa: PointState, sb: PointState, distance: real)
    ensures PullPair(sa, sb, distance, distance) == (sa, sb)
  {
    if distance != 0.0 {
      var force := SpringForce(Sub(sb.position, sa.position), distance, distance);
      assert force == Zero;
    }
  }

  /** The length of a vector and of its negation agree. */
  lemma NormOfNegation(v: Vec, d: real, e: real)
    requires IsNorm(v, d) && IsNorm(Neg(v), e)
    ensures d == e
  {
    assert Dot(Neg(v), Neg(v)) == Dot(v, v);
    if d < e {
      SquareStrict(d, e);
    } else if e < d {
      SquareStrict(e, d);
    }
  }

  lemma SquareStrict(a: real, b: real)
    requires 0.0 <= a < b
    ensures a * a < b * b
  {
    var m := a * b;
    assert a * a <= m by {
      assert m - a * a == a * (b - a);
    }
    assert m < b * b by {
      assert b * b - m == b * (b - a);
    }
  }

  class Spring {
    const a: Particle
    const b: Particle
    const restLength: real

    /** The rest length is the distance between the endpoints at
        construction, handed in as `distance`. */
    constructor (a: Particle, b: Particle, distance: real)
      requires IsNorm(Sub(a.position, b.position), distance)
      ensures this.a == a && this.b == b && restLength == distance
    {
      this.a := a;
      this.b := b;
      restLength := distance;
    }

    /** `apply_spring_force`, with `distance` the current length of
        `b.position - a.position`. A spring whose two ends are one particle
        has length zero and changes nothing, whichever path it takes. */
    method ApplySpringForce(distance: real)
      requires IsNorm(Sub(b.position, a.position), distance)
      modifies a`acceleration, b`acceleration
      ensures a != b ==> a.State() == PullPair(old(a.State()), old(b.State()), restLength, distance).0
      ensures a != b ==> b.State() == PullPair(old(a.State()), old(b.State()), restLength, distance).1
      ensures a == b ==> a.State() == old(a.State())
    {
      var delta := Sub(b.position, a.position);
      if distance == 0.0 {
        return;
      }
      var force := SpringForce(delta, distance, restLength);
      a.ApplyForce(force);
      b.ApplyForce(Neg(force));
    }
  }

  /** A freshly built spring is at rest: measured from either end, its
      length is its rest length, so its first pull changes nothing. */
  lemma FreshSpringAtRest(sa: PointState, sb: PointState, restLength: real, distance: real)
    requires IsNorm(Sub(sa.position, sb.position), restLength)
    requires IsNorm(Sub(sb.position, sa.position), distance)
    ensures PullPair(sa, sb, restLength, distance) == (sa, sb)
  {
    assert Sub(sb.position, sa.position) == Neg(Sub(sa.position, sb.position));
    NormOfNegation(Sub(sa.position, sb.position), restLength, distance);
    PullPairAtRest(sa, sb, distance);
  }

  // ---------------------------------------------------------------------
  // A tick, on values
  // ---------------------------------------------------------------------

  /** A spring by the indices of its endpoints in the particle list. */
  datatype Link = Link(first: nat, second: nat)

  predicate InRange(l: Link, n: nat) { l.first < n && l.second < n && l.first != l.second }

  /** Spring `l` acting on the list of states. */
  function Pull(ss: seq<PointState>, l: Link, restLength: real, distance: real): (r: seq<PointState>)
    requires InRange(l, |ss|)
    ensures |r| == |ss|
  {
    var p := PullPair(ss[l.first], ss[l.second], restLength, distance);
    ss[l.first := p.0][l.second := p.1]
  }

  /** The spring loop of a tick: spring `k` joins `links[k]`, rests at
      `rests[k]` and is `ds[k]` long; they act one after another. */
  function SpringPhase(ss: seq<PointState>, links: seq<Link>, rests: seq<real>, ds: seq<real>): (r: seq<PointState>)
    requires |rests| == |links| && |ds| == |links|
    requires forall k :: 0 <= k < |links| ==> InRange(links[k], |ss|)
    ensures |r| == |ss|
    decreases |links|
  {
    if |links| == 0 then ss
    else
      var n := |links| - 1;
      Pull(SpringPhase(ss, links[..n], rests[..n], ds[..n]), links[n], rests[n], ds[n])
  }

  /** The particle loop of a tick: gravity, then a Verlet step, for each. */
  function Fall(ss: seq<PointState>): (r: seq<PointState>)
    ensures |r| == |ss|
  {
    seq(|ss|, i requires 0 <= i < |ss| => Advance(Accelerate(ss[i], Gravity)))
  }

  /** One tick of the main loop: all springs, then all particles. */
  function TickStates(ss: seq<PointState>, links: seq<Link>, rests: seq<real>, ds: seq<real>): (r: seq<PointState>)
    requires |rests| == |links| && |ds| == |links|
    requires forall k :: 0 <= k < |links| ==> InRange(links[k], |ss|)
    ensures |r| == |ss|
  {
    Fall(SpringPhase(ss, links, rests, ds))
  }

  /** Ticks one after another; tick `t` measures its springs as `dss[t]`. */
  function Run(ss: seq<PointState>, links: seq<Link>, rests: seq<real>, dss: seq<seq<real>>): (r: seq<PointState>)
    requires |rests| == |links| && forall t :: 0 <= t < |dss| ==> |dss[t]| == |links|
    requires forall k :: 0 <= k < |links| ==> InRange(links[k], |ss|)
    ensures |r| == |ss|
    decreases |dss|
  {
    if |dss| == 0 then ss
    else
      var n := |dss| - 1;
      TickStates(Run(ss, links, rests, dss[..n]), links, rests, dss[n])
  }

  /** One spring moves no particle, leaves every pinned particle as it was
      and touches nothing but its own two ends. */
  lemma PullFrame(ss: seq<PointState>, l: Link, restLength: real, distance: real)
    requires InRange(l, |ss|)
    ensures forall i :: 0 <= i < |ss| ==> Unmoved(Pull(ss, l, restLength, distance)[i], ss[i])
    ensures forall i :: 0 <= i < |ss| && i != l.first && i != l.second ==> Pull(ss, l, restLength, distance)[i] == ss[i]
  {
    PullPairFrame(ss[l.first], ss[l.second], restLength, distance);
  }

  /** `r` is `s` after forces only: same place, same history, same pin, and
      all of it the same when pinned. */
  predicate Unmoved(r: PointState, s: PointState)
  {
    && r.position == s.position && r.previousPosition == s.previousPosition && r.fixed == s.fixed
    && (s.fixed ==> r == s)
  }

  /** The whole spring loop moves no particle and leaves every pinned one
      as it was. */
  lemma {:induction false} SpringPhaseFrame(ss: seq<PointState>, links: seq<Link>, rests: seq<real>, ds: seq<real>)
    requires |rests| == |links| && |ds| == |links|
    requires forall k :: 0 <= k < |links| ==> InRange(links[k], |ss|)
    ensures forall i :: 0 <= i < |ss| ==> Unmoved(SpringPhase(ss, links, rests, ds)[i], ss[i])
    decreases |links|
  {
    if |links| > 0 {
      var n := |links| - 1;
      var mid := SpringPhase(ss, links[..n], rests[..n], ds[..n]);
      SpringPhaseFrame(ss, links[..n], rests[..n], ds[..n]);
      PullFrame(mid, links[n], rests[n], ds[n]);
    }
  }

  /** A tick leaves every pinned particle exactly as it was. */
  lemma TickKeepsPinned(ss: seq<PointState>, links: seq<Link>, rests: seq<real>, ds: seq<real>)
    requires |rests| == |links| && |ds| == |links|
    requires forall k :: 0 <= k < |links| ==> InRange(links[k], |ss|)
    ensures forall i :: 0 <= i < |ss| && ss[i].fixed ==> TickStates(ss, links, rests, ds)[i] == ss[i]
    ensures forall i :: 0 <= i < |ss| ==> TickStates(ss, links, rests, ds)[i].fixed == ss[i].fixed
  {
    SpringPhaseFrame(ss, links, rests, ds);
  }

  /** Pinned particles never move, over any number of ticks and whatever
      the springs measure. */
  lemma {:induction false} PinnedNeverMove(ss: seq<PointState>, links: seq<Link>, rests: seq<real>, dss: seq<seq<real>>)
    requires |rests| == |links| && forall t :: 0 <= t < |dss| ==> |dss[t]| == |links|
    requires forall k :: 0 <= k < |links| ==> InRange(links[k], |ss|)
    ensures forall i :: 0 <= i < |ss| && ss[i].fixed ==> Run(ss, links, rests, dss)[i] == ss[i]
    ensures forall i :: 0 <= i < |ss| ==> Run(ss, links, rests, dss)[i].fixed == ss[i].fixed
    decreases |dss|
  {
    if |dss| > 0 {
      var n := |dss| - 1;
      PinnedNeverMove(ss, links, rests, dss[..n]);
      TickKeepsPinned(Run(ss, links, rests, dss[..n]), links, rests, dss[n]);
    }
  }

  /** The states after a click: every particle closer than `Spacing` to
      the mouse (`ds[i]` away) is pushed by the wind. */
  function Gust(ss: seq<PointState>, ds: seq<real>): (r: seq<PointState>)
    requires |ds| == |ss|
    ensures |r| == |ss|
  {
    seq(|ss|, i requires 0 <= i < |ss| => if ds[i] < Spacing as real then Accelerate(ss[i], Wind) else ss[i])
  }

  /** A click moves nothing and pins nothing; it pushes exactly the free
      particles within reach. */
  lemma GustEffect(ss: seq<PointState>, ds: seq<real>)
    requires |ds| == |ss|
    ensures forall i :: 0 <= i < |ss| ==> Unmoved(Gust(ss, ds)[i], ss[i])
    ensures forall i :: 0 <= i < |ss| ==>
      Gust(ss, ds)[i].acceleration
        == if !ss[i].fixed && ds[i] < Spacing as real then Add(ss[i].acceleration, Wind) else ss[i].acceleration
  {
  }

  // ---------------------------------------------------------------------
  // The grid
  // ---------------------------------------------------------------------

  /** Column and row of particle `idx` (`idx = y * NUM_X + x`). */
  function Column(idx: nat): nat { idx % NumX }

  function Row(idx: nat): nat { idx / NumX }

  /** Particle `idx` as built: at `(x * SPACING + WIDTH // 4, y * SPACING)`,
      at rest, pinned when in the top row. */
  function Initial(idx: nat): PointState
  {
    var p := Vec((Column(idx) * Spacing + Width / 4) as real, (Row(idx) * Spacing) as real);
    PointState(p, p, Zero, Row(idx) == 0)
  }

  lemma CellIndex(y: nat, x: nat)
    requires x < NumX
    ensures Column(y * NumX + x) == x && Row(y * NumX + x) == y
  {
  }

  /** A particle that does not end its row is `SPACING` to the left of
      the next one. */
  lemma RightNeighbour(idx: nat)
    requires Column(idx) < NumX - 1
    ensures IsNorm(Sub(Initial(idx).position, Initial(idx + 1).position), Spacing as real)
  {
    assert Column(idx + 1) == Column(idx) + 1 && Row(idx + 1) == Row(idx);
  }

  /** A particle is `SPACING` above the one `NUM_X` further on. */
  lemma LowerNeighbour(idx: nat)
    ensures IsNorm(Sub(Initial(idx).position, Initial(idx + NumX).position), Spacing as real)
  {
    assert Column(idx + NumX) == Column(idx) && Row(idx + NumX) == Row(idx) + 1;
  }

  /** Exactly the first `NUM_X` particles, the top row, are pinned. */
  lemma PinnedIffTopRow(idx: nat)
    ensures Initial(idx).fixed <==> idx < NumX
  {
  }

  /** The springs of the grid: from each particle to its right neighbour,
      unless it ends a row, and to the one below, unless it is in the last
      row. */
  predicate Adjacent(l: Link)
  {
    && l.first < NumX * NumY
    && ((l.second == l.first + 1 && Column(l.first) < NumX - 1) || (l.second == l.first + NumX && Row(l.first) < NumY - 1))
  }

  lemma AdjacentInRange(l: Link)
    requires Adjacent(l)
    ensures InRange(l, NumX * NumY)
  {
  }

  /** The springs are listed by their first end, and the right-hand one
      before the lower one. */
  predicate Before(l: Link, m: Link) { l.first < m.first || (l.first == m.first && l.second < m.second) }

  predicate Ordered(ls: seq<Link>)
  {
    forall p, q :: 0 <= p < q < |ls| ==> Before(ls[p], ls[q])
  }

  /** The springs the loop adds at particle `idx`. */
  function CellLinks(idx: nat): seq<Link>
  {
    (if Column(idx) < NumX - 1 then [Link(idx, idx + 1)] else [])
      + (if Row(idx) < NumY - 1 then [Link(idx, idx + NumX)] else [])
  }

  /** The links are all of the grid's springs whose first end comes before
      particle `c`, each once and in the loop's order. */
  ghost predicate LinksUpTo(ls: seq<Link>, c: nat)
  {
    && Ordered(ls)
    && (forall k :: 0 <= k < |ls| ==> Adjacent(ls[k]) && ls[k].first < c)
    && (forall l :: Adjacent(l) && l.first < c ==> l in ls)
  }

  /** Spring `k` of `ss` is the one `ls[k]` names, built at the spacing. */
  ghost predicate Wired(ps: seq<Particle>, ss: seq<Spring>, ls: seq<Link>)
  {
    && |ss| == |ls|
    && forall k :: 0 <= k < |ls| ==>
         ls[k].first < |ps| && ls[k].second < |ps|
         && ss[k].a == ps[ls[k].first] && ss[k].b == ps[ls[k].second] && ss[k].restLength == Spacing as real
  }

  /** Adding the springs of particle `c` extends the ordered, complete list
      one particle further. */
  lemma LinksStep(ls: seq<Link>, c: nat)
    requires c < NumX * NumY && LinksUpTo(ls, c)
    ensures LinksUpTo(ls + CellLinks(c), c + 1)
  {
    var ls' := ls + CellLinks(c);
    forall l | Adjacent(l) && l.first < c + 1
      ensures l in ls'
    {
      if l.first == c {
        assert l in CellLinks(c);
      }
    }
  }

  class Cloth {
    const particles: seq<Particle>
    const springs: seq<Spring>
    /** The endpoints of each spring, as indices into `particles`. */
    ghost const links: seq<Link>

    /** The structure the construction loops build, which no tick changes:
        `NUM_X * NUM_Y` distinct particles of which the top row is pinned,
        and the grid's springs, each at the spacing. */
    ghost predicate Valid()
      reads particles
    {
      && |particles| == NumX * NumY
      && Distinct(particles)
      && (forall i :: 0 <= i < |particles| ==> (particles[i].fixed <==> i < NumX))
      && Wired(particles, springs, links)
      && (forall k :: 0 <= k < |links| ==> Adjacent(links[k]))
    }

    /** The rest length of each spring. */
    ghost function Rests(): (rs: seq<real>)
      ensures |rs| == |springs|
    {
      seq(|springs|, k requires 0 <= k < |springs| => springs[k].restLength)
    }

    /** The two construction loops: the grid of particles, row by row, then
        the springs, particle by particle. */
    constructor ()
      ensures Valid()
      ensures forall i :: 0 <= i < |particles| ==> fresh(particles[i]) && particles[i].State() == Initial(i)
      ensures |springs| == (NumX - 1) * NumY + NumX * (NumY - 1)
      ensures Ordered(links) && forall l :: Adjacent(l) ==> l in links
    {
      var ps := BuildParticles();
      var ss, ls := BuildSprings(ps);
      particles := ps;
      springs := ss;
      links := ls;
      forall i | 0 <= i < |ps|
        ensures ps[i].fixed <==> i < NumX
      {
        PinnedIffTopRow(i);
      }
    }

    static method BuildParticles() returns (ps: seq<Particle>)
      ensures |ps| == NumX * NumY && Distinct(ps)
      ensures forall i :: 0 <= i < |ps| ==> fresh(ps[i]) && ps[i].State() == Initial(i)
    {
      ps := [];
      for y := 0 to NumY
        invariant |ps| == y * NumX && Distinct(ps)
        invariant forall i :: 0 <= i < |ps| ==> fresh(ps[i]) && ps[i].State() == Initial(i)
      {
        ps := BuildRow(ps, y);
      }
    }

    /** The inner loop at row `y`: one particle per column. */
    static method BuildRow(ps: seq<Particle>, y: nat) returns (ps': seq<Particle>)
      requires y < NumY && |ps| == y * NumX && Distinct(ps)
      requires forall i :: 0 <= i < |ps| ==> ps[i].State() == Initial(i)
      ensures |ps'| == (y + 1) * NumX && Distinct(ps') && ps'[..|ps|] == ps
      ensures forall i :: 0 <= i < |ps'| ==> ps'[i].State() == Initial(i)
      ensures forall i :: |ps| <= i < |ps'| ==> fresh(ps'[i])
    {
      ps' := ps;
      for x := 0 to NumX
        invariant |ps'| == y * NumX + x && Distinct(ps') && ps'[..|ps|] == ps
        invariant forall i :: 0 <= i < |ps'| ==> ps'[i].State() == Initial(i)
        invariant forall i :: |ps| <= i < |ps'| ==> fresh(ps'[i])
      {
        ps' := AppendParticle(ps', y, x);
      }
    }

    /** The inner loop's body at column `x` of row `y`. */
    static method AppendParticle(ps: seq<Particle>, y: nat, x: nat) returns (ps': seq<Particle>)
      requires x < NumX && |ps| == y * NumX + x && Distinct(ps)
      requires forall i :: 0 <= i < |ps| ==> ps[i].State() == Initial(i)
      ensures |ps'| == |ps| + 1 && Distinct(ps') && ps'[..|ps|] == ps && fresh(ps'[|ps|])
      ensures forall i :: 0 <= i < |ps'| ==> ps'[i].State() == Initial(i)
    {
      var p := NewParticle(y, x);
      DistinctAppend(ps, p);
      ps' := ps + [p];
      assert ps'[..|ps|] == ps;
    }

    /** `Particle(x * SPACING + WIDTH // 4, y * SPACING, fixed=(y == 0))`. */
    static method NewParticle(y: nat, x: nat) returns (p: Particle)
      requires x < NumX
      ensures fresh(p) && p.State() == Initial(y * NumX + x)
    {
      p := new Particle((x * Spacing + Width / 4) as real, (y * Spacing) as real, y == 0);
      CellIndex(y, x);
    }

    static method BuildSprings(ps: seq<Particle>) returns (ss: seq<Spring>, ghost ls: seq<Link>)
      requires |ps| == NumX * NumY
      requires forall i :: 0 <= i < |ps| ==> ps[i].position == Initial(i).position
      ensures Wired(ps, ss, ls) && LinksUpTo(ls, NumX * NumY)
      ensures |ls| == (NumX - 1) * NumY + NumX * (NumY - 1)
    {
      ss, ls := [], [];
      for y := 0 to NumY
        invariant Wired(ps, ss, ls) && LinksUpTo(ls, y * NumX)
        invariant |ls| == if y < NumY then y * ((NumX - 1) + NumX) else (NumX - 1) * NumY + NumX * (NumY - 1)
      {
        ss, ls := LinkRow(ps, ss, ls, y);
      }
    }

    /** The inner loop at row `y`: each particle's springs, left to right.
        A row has `NUM_X - 1` right-hand springs and, unless it is the last,
        `NUM_X` lower ones. */
    static method LinkRow(ps: seq<Particle>, ss: seq<Spring>, ghost ls: seq<Link>, y: nat)
      returns (ss': seq<Spring>, ghost ls': seq<Link>)
      requires |ps| == NumX * NumY && y < NumY
      requires forall i :: 0 <= i < |ps| ==> ps[i].position == Initial(i).position
      requires Wired(ps, ss, ls) && LinksUpTo(ls, y * NumX)
      ensures Wired(ps, ss', ls') && LinksUpTo(ls', (y + 1) * NumX)
      ensures |ls'| == |ls| + (NumX - 1) + (if y < NumY - 1 then NumX else 0)
    {
      ss', ls' := ss, ls;
      for x := 0 to NumX
        invariant Wired(ps, ss', ls') && LinksUpTo(ls', y * NumX + x)
        invariant |ls'| == |ls| + (if x < NumX - 1 then x else NumX - 1) + (if y < NumY - 1 then x else 0)
      {
        CellIndex(y, x);
        ss', ls' := LinkCell(ps, ss', ls', y * NumX + x);
      }
    }

    /** The loop body at particle `idx`: its right-hand spring, then its
        lower one, each where the grid has one. */
    static method LinkCell(ps: seq<Particle>, ss: seq<Spring>, ghost ls: seq<Link>, idx: nat)
      returns (ss': seq<Spring>, ghost ls': seq<Link>)
      requires |ps| == NumX * NumY && idx < |ps|
      requires forall i :: 0 <= i < |ps| ==> ps[i].position == Initial(i).position
      requires Wired(ps, ss, ls) && LinksUpTo(ls, idx)
      ensures Wired(ps, ss', ls') && LinksUpTo(ls', idx + 1)
      ensures ls' == ls + CellLinks(idx)
    {
      var ss1, ls1 := LinkRight(ps, ss, ls, idx);
      ss', ls' := LinkDown(ps, ss1, ls1, idx);
      LinksStep(ls, idx);
      assert ls' == ls + CellLinks(idx);
    }

    static method LinkRight(ps: seq<Particle>, ss: seq<Spring>, ghost ls: seq<Link>, idx: nat)
      returns (ss': seq<Spring>, ghost ls': seq<Link>)
      requires |ps| == NumX * NumY && idx < |ps|
      requires ps[idx].position == Initial(idx).position
      requires Column(idx) < NumX - 1 ==> ps[idx + 1].position == Initial(idx + 1).position
      requires Wired(ps, ss, ls)
      ensures Wired(ps, ss', ls')
      ensures ls' == ls + (if Column(idx) < NumX - 1 then [Link(idx, idx + 1)] else [])
    {
      ss', ls' := ss, ls;
      if Column(idx) < NumX - 1 {
        RightNeighbour(idx);
        ss', ls' := AddSpring(ps, ss, ls, idx, idx + 1);
      }
    }

    static method LinkDown(ps: seq<Particle>, ss: seq<Spring>, ghost ls: seq<Link>, idx: nat)
      returns (ss': seq<Spring>, ghost ls': seq<Link>)
      requires |ps| == NumX * NumY && idx < |ps|
      requires ps[idx].position == Initial(idx).position
      requires Row(idx) < NumY - 1 ==> ps[idx + NumX].position == Initial(idx + NumX).position
      requires Wired(ps, ss, ls)
      ensures Wired(ps, ss', ls')
      ensures ls' == ls + (if Row(idx) < NumY - 1 then [Link(idx, idx + NumX)] else [])
    {
      ss', ls' := ss, ls;
      if Row(idx) < NumY - 1 {
        LowerNeighbour(idx);
        ss', ls' := AddSpring(ps, ss, ls, idx, idx + NumX);
      }
    }

    /** `springs.append(Spring(particles[i], particles[j]))` for two
        particles `Spacing` apart. */
    static method AddSpring(ps: seq<Particle>, ss: seq<Spring>, ghost ls: seq<Link>, i: nat, j: nat)
      returns (ss': seq<Spring>, ghost ls': seq<Link>)
      requires i < |ps| && j < |ps|
      requires IsNorm(Sub(ps[i].position, ps[j].position), Spacing as real)
      requires Wired(ps, ss, ls)
      ensures Wired(ps, ss', ls') && ls' == ls + [Link(i, j)]
    {
      var s := new Spring(ps[i], ps[j], Spacing as real);
      ss', ls' := ss + [s], ls + [Link(i, j)];
    }

    /** One pass of the main loop's physics: every spring in list order,
        then gravity and a Verlet step for every particle. `ds[k]` is the
        current length of spring `k`. */
    method Tick(ds: seq<real>)
      requires Valid() && |ds| == |springs|
      requires forall k :: 0 <= k < |springs| ==> IsNorm(Sub(springs[k].b.position, springs[k].a.position), ds[k])
      modifies particles
      ensures Valid()
      ensures States(particles) == TickStates(old(States(particles)), links, Rests(), ds)
    {
      ghost var before := States(particles);
      ApplySprings(ds, before);
      ghost var mid := SpringPhase(before, links, Rests(), ds);
      ApplyGravity(mid);
    }

    method ApplySprings(ds: seq<real>, ghost before: seq<PointState>)
      requires Valid() && |ds| == |springs|
      requires |before| == |particles| && forall i :: 0 <= i < |particles| ==> particles[i].State() == before[i]
      requires forall k :: 0 <= k < |links| ==>
        IsNorm(Sub(before[links[k].second].position, before[links[k].first].position), ds[k])
      modifies particles
      ensures forall i :: 0 <= i < |particles| ==> particles[i].State() == SpringPhase(before, links, Rests(), ds)[i]
    {
      ghost var cur := before;
      for k := 0 to |springs|
        invariant cur == SpringPhase(before, links[..k], Rests()[..k], ds[..k])
        invariant forall i :: 0 <= i < |particles| ==> particles[i].State() == cur[i]
      {
        SpringPhaseFrame(before, links[..k], Rests()[..k], ds[..k]);
        PullAt(k, ds[k], cur);
        cur := Pull(cur, links[k], Rests()[k], ds[k]);
        PhaseGrows(before, links, Rests(), ds, k);
      }
      assert links[..|springs|] == links && Rests()[..|springs|] == Rests() && ds[..|springs|] == ds;
    }

    /** Spring `k` acting on the particles, whose states are `cur`. */
    method PullAt(k: nat, d: real, ghost cur: seq<PointState>)
      requires Valid() && k < |springs|
      requires |cur| == |particles| && forall i :: 0 <= i < |particles| ==> particles[i].State() == cur[i]
      requires IsNorm(Sub(cur[links[k].second].position, cur[links[k].first].position), d)
      modifies particles
      ensures forall i :: 0 <= i < |particles| ==> particles[i].State() == Pull(cur, links[k], springs[k].restLength, d)[i]
    {
      var l := links[k];
      AdjacentInRange(l);
      DistinctSplit(particles, l.first);
      DistinctSplit(particles, l.second);
      springs[k].ApplySpringForce(d);
    }

    method ApplyGravity(ghost mid: seq<PointState>)
      requires Valid()
      requires |mid| == |particles| && forall i :: 0 <= i < |particles| ==> particles[i].State() == mid[i]
      modifies particles
      ensures forall i :: 0 <= i < |particles| ==> particles[i].State() == Fall(mid)[i]
    {
      for i := 0 to |particles|
        invariant forall j :: 0 <= j < i ==> particles[j].State() == Fall(mid)[j]
        invariant forall j :: i <= j < |particles| ==> particles[j].State() == mid[j]
      {
        FallAt(i, mid);
      }
    }

    method FallAt(i: nat, ghost mid: seq<PointState>)
      requires Valid() && i < |particles| && |mid| == |particles|
      requires forall j :: 0 <= j < i ==> particles[j].State() == Fall(mid)[j]
      requires forall j :: i <= j < |particles| ==> particles[j].State() == mid[j]
      modifies particles
      ensures forall j :: 0 <= j < i + 1 ==> particles[j].State() == Fall(mid)[j]
      ensures forall j :: i + 1 <= j < |particles| ==> particles[j].State() == mid[j]
    {
      DistinctSplit(particles, i);
      var p := particles[i];
      p.ApplyForce(Gravity);
      p.Verlet();
    }

    /** A mouse click: `ds[i]` is particle `i`'s distance from the mouse. */
    method Click(ds: seq<real>, mouse: Vec)
      requires Valid() && |ds| == |particles|
      requires forall i :: 0 <= i < |particles| ==> IsNorm(Sub(particles[i].position, mouse), ds[i])
      modifies particles
      ensures Valid()
      ensures States(particles) == Gust(old(States(particles)), ds)
    {
      ghost var before := States(particles);
      for i := 0 to |particles|
        invariant forall j :: 0 <= j < i ==> particles[j].State() == Gust(before, ds)[j]
        invariant forall j :: i <= j < |particles| ==> particles[j].State() == before[j]
      {
        ClickAt(i, ds, before);
      }
    }

    method ClickAt(i: nat, ds: seq<real>, ghost before: seq<PointState>)
      requires Valid() && i < |particles| && |ds| == |particles| && |before| == |particles|
      requires forall j :: 0 <= j < i ==> particles[j].State() == Gust(before, ds)[j]
      requires forall j :: i <= j < |particles| ==> particles[j].State() == before[j]
      modifies particles
      ensures forall j :: 0 <= j < i + 1 ==> particles[j].State() == Gust(before, ds)[j]
      ensures forall j :: i + 1 <= j < |particles| ==> particles[j].State() == before[j]
    {
      DistinctSplit(particles, i);
      if ds[i] < Spacing as real {
        particles[i].ApplyForce(Wind);
      }
    }
  }

  /** The spring loop one spring further. */
  lemma PhaseGrows(ss: seq<PointState>, links: seq<Link>, rests: seq<real>, ds: seq<real>, k: nat)
    requires |rests| == |links| && |ds| == |links| && k < |links|
    requires forall j :: 0 <= j < |links| ==> InRange(links[j], |ss|)
    ensures SpringPhase(ss, links[..k + 1], rests[..k + 1], ds[..k + 1])
              == Pull(SpringPhase(ss, links[..k], rests[..k], ds[..k]), links[k], rests[k], ds[k])
  {
    assert links[..k + 1][..k] == links[..k];
    assert rests[..k + 1][..k] == rests[..k];
    assert ds[..k + 1][..k] == ds[..k];
  }
}
