/** The fire: particles that rise, drift, darken, shrink and die, and the
    emitter that spawns a batch of them every frame and prunes the dead. */
module FireSim {
  import opened Vectors
  import opened Lists

  /** An RGB colour with integer channels. */
  datatype Rgb = Rgb(r: int, g: int, b: int)

  /** The bright yellow every particle is born with. */
  const StartColor: Rgb := Rgb(255, 200, 100)

  /** The dark red every particle fades to: the floor of each channel. */
  const Embers: Rgb := Rgb(100, 0, 0)

  /** The constant upward push applied every frame (screen y grows downward). */
  const Buoyancy: Vec := Vec(0.0, -0.2)

  /** Fraction of the implicit velocity kept by each Verlet step. */
  const Damping: real := 0.95

  function MaxInt(a: int, b: int): int { if a >= b then a else b }

  predicate AtOrAboveFloors(c: Rgb) { c.r >= Embers.r && c.g >= Embers.g && c.b >= Embers.b }

  /** One frame of fading: red drops by 3, green by 5, blue by 10, each
      clamped at its floor. */
  function Darken(c: Rgb): (d: Rgb)
    ensures AtOrAboveFloors(d)
    ensures AtOrAboveFloors(c) ==> d.r <= c.r && d.g <= c.g && d.b <= c.b
    ensures d == c <==> c == Embers
  {
    Rgb(MaxInt(c.r - 3, 100), MaxInt(c.g - 5, 0), MaxInt(c.b - 10, 0))
  }

  /** The colour after `k` frames. */
  function DarkenN(c: Rgb, k: nat): Rgb
    decreases k
  {
    if k == 0 then c else Darken(DarkenN(c, k - 1))
  }

  /** Each channel falls by its own step per frame until it reaches its floor
      and then stays there. */
  lemma {:induction false} DarkenNClosedForm(c: Rgb, k: nat)
    requires AtOrAboveFloors(c)
    ensures DarkenN(c, k) == Rgb(MaxInt(c.r - 3 * k, 100), MaxInt(c.g - 5 * k, 0), MaxInt(c.b - 10 * k, 0))
    decreases k
  {
    if k > 0 {
      DarkenNClosedForm(c, k - 1);
    }
  }

  /** A newborn particle has faded completely exactly from its 52nd update on
      (red is the slowest channel: 255 - 3 * 52 is the first value below 100). */
  lemma FadedExactlyFrom52(k: nat)
    ensures DarkenN(StartColor, k) == Embers <==> k >= 52
  {
    DarkenNClosedForm(StartColor, k);
  }

  /** One frame of shrinking by 0.2, never below 1. */
  function Shrink(s: real): (t: real)
    ensures t >= 1.0
    ensures s >= 1.0 ==> t <= s
    ensures t < s <==> s > 1.0
  {
    if s - 0.2 >= 1.0 then s - 0.2 else 1.0
  }

  /** The size after `k` frames. */
  function ShrinkN(s: real, k: nat): real
    decreases k
  {
    if k == 0 then s else Shrink(ShrinkN(s, k - 1))
  }

  lemma {:induction false} ShrinkNClosedForm(s: real, k: nat)
    requires s >= 1.0
    ensures ShrinkN(s, k) == if s - 0.2 * (k as real) >= 1.0 then s - 0.2 * (k as real) else 1.0
    decreases k
  {
    if k > 0 {
      ShrinkNClosedForm(s, k - 1);
    }
  }

  /** `list.remove`: drop the first entry equal to `x`; Python raises when
      there is none. */
  function RemoveFirst<T(==)>(xs: seq<T>, x: T): (ys: seq<T>)
    requires x in xs
    ensures |ys| == |xs| - 1
    ensures multiset(ys) == multiset(xs) - multiset{x}
    decreases |xs|
  {
    assert xs == [xs[0]] + xs[1..];
    if xs[0] == x then xs[1..] else [xs[0]] + RemoveFirst(xs[1..], x)
  }

  /** The entry removed is the first occurrence: whatever precedes it is kept
      in place. */
  lemma {:induction false} RemoveFirstSplit<T>(a: seq<T>, b: seq<T>)
    requires |b| > 0 && b[0] !in a
    ensures RemoveFirst(a + b, b[0]) == a + b[1..]
    decreases |a|
  {
    var xs := a + b;
    if |a| > 0 {
      assert xs[0] == a[0] != b[0];
      assert xs[1..] == a[1..] + b;
      RemoveFirstSplit(a[1..], b);
      assert RemoveFirst(xs, b[0]) == [a[0]] + (a[1..] + b[1..]);
      assert a == [a[0]] + a[1..];
    } else {
      assert xs == b;
    }
  }

  /** Everything `update` reads or writes of one particle, as a value. */
  datatype ParticleState = ParticleState(
    position: Vec, previousPosition: Vec, acceleration: Vec,
    size: real, lifetime: int, color: Rgb)

  /** The state of a particle just created at `origin`, at rest. */
  function Newborn(origin: Vec, size: int, lifetime: int): ParticleState
  {
    ParticleState(origin, origin, Zero, size as real, lifetime, StartColor)
  }

  /** The ranges a live particle of the system stays in. */
  predicate Healthy(s: ParticleState)
  {
    && s.lifetime >= 1
    && AtOrAboveFloors(s.color)
    && s.color.r <= StartColor.r && s.color.g <= StartColor.g && s.color.b <= StartColor.b
    && 1.0 <= s.size <= 20.0
    && s.acceleration == Zero
  }

  /** What one frame of the system's `update` does to a particle, removal
      aside: buoyancy and the turbulence draw are added to the acceleration,
      the damped Verlet step moves it and clears the acceleration, and the
      particle ages, darkens and shrinks. */
  function Step(s: ParticleState, turbulence: Vec): ParticleState
  {
    var force := Add(Add(s.acceleration, Buoyancy), turbulence);
    ParticleState(VerletPosition(s.position, s.previousPosition, force, Damping), s.position, Zero,
                  Shrink(s.size), s.lifetime - 1, Darken(s.color))
  }

  /** The state after one frame per entry of `ts`, in order. */
  function Steps(s: ParticleState, ts: seq<Vec>): ParticleState
    decreases |ts|
  {
    if |ts| == 0 then s else Step(Steps(s, ts[..|ts| - 1]), ts[|ts| - 1])
  }

  /** A newborn of the drawn ranges is healthy. */
  lemma NewbornHealthy(origin: Vec, size: int, lifetime: int)
    requires 10 <= size <= 20 && 80 <= lifetime <= 150
    ensures Healthy(Newborn(origin, size, lifetime))
  {
  }

  /** A healthy particle that survives a frame is healthy afterwards. */
  lemma StepKeepsHealthy(s: ParticleState, turbulence: Vec)
    requires Healthy(s) && Step(s, turbulence).lifetime >= 1
    ensures Healthy(Step(s, turbulence))
  {
  }

  /** After `n` frames the lifetime has dropped by `n`, and colour and size
      are those of `n` fades and `n` shrinks. */
  lemma {:induction false} StepsAge(s: ParticleState, ts: seq<Vec>)
    ensures Steps(s, ts).lifetime == s.lifetime - |ts|
    ensures Steps(s, ts).color == DarkenN(s.color, |ts|)
    ensures Steps(s, ts).size == ShrinkN(s.size, |ts|)
    decreases |ts|
  {
    if |ts| > 0 {
      StepsAge(s, ts[..|ts| - 1]);
    }
  }

  /** A particle with lifetime `L` is dead after its `L`-th frame and not
      before, so it is removed by exactly that call of the system's update. */
  lemma RemovedOnItsLastFrame(s: ParticleState, ts: seq<Vec>)
    requires s.lifetime >= 1
    ensures Steps(s, ts).lifetime <= 0 <==> |ts| >= s.lifetime
  {
    StepsAge(s, ts);
  }

  class FireParticle {
    var position: Vec
    var previousPosition: Vec
    var acceleration: Vec
    var size: real
    var lifetime: int
    var color: Rgb

    /** A particle born at (x, y) and at rest; the size and lifetime come
        from the random draws `randint(10, 20)` and `randint(80, 150)`. */
    constructor (x: real, y: real, size: int, lifetime: int)
      requires 10 <= size <= 20 && 80 <= lifetime <= 150
      ensures State() == Newborn(Vec(x, y), size, lifetime)
    {
      position := Vec(x, y);
      previousPosition := Vec(x, y);
      acceleration := Zero;
      this.size := size as real;
      this.lifetime := lifetime;
      color := StartColor;
    }

    function State(): ParticleState
      reads this
    {
      ParticleState(position, previousPosition, acceleration, size, lifetime, color)
    }

    predicate IsDead()
      reads this
    {
      lifetime <= 0
    }

    method ApplyForce(force: Vec)
      modifies this`acceleration
      ensures acceleration == Add(old(acceleration), force)
    {
      acceleration := Add(acceleration, force);
    }

    method VerletIntegration()
      modifies this`position, this`previousPosition, this`acceleration
      ensures previousPosition == old(position)
      ensures position == VerletPosition(old(position), old(previousPosition), old(acceleration), Damping)
      ensures acceleration == Zero
    {
      var velocity := Scale(Damping, Sub(position, previousPosition));
      previousPosition := position;
      position := Add(Add(position, velocity), acceleration);
      acceleration := Zero;
    }

    method Update()
      modifies this`lifetime, this`color, this`size
      ensures lifetime == old(lifetime) - 1
      ensures color == Darken(old(color))
      ensures size == Shrink(old(size))
    {
      lifetime := lifetime - 1;
      color := Darken(color);
      size := Shrink(size);
    }
  }

  /** The particles of `ps` that are not dead, in their order. */
  function Living(ps: seq<FireParticle>): (live: seq<FireParticle>)
    reads set p | p in ps
    ensures |live| <= |ps|
    ensures forall i :: 0 <= i < |live| ==> live[i] in ps && !live[i].IsDead()
    ensures forall i :: 0 <= i < |ps| ==> (ps[i] in live <==> !ps[i].IsDead())
    decreases |ps|
  {
    if |ps| == 0 then []
    else
      var last := ps[|ps| - 1];
      Living(ps[..|ps| - 1]) + (if last.IsDead() then [] else [last])
  }

  /** The states of `ps`, read in the current heap. */
  function States(ps: seq<FireParticle>): (ss: seq<ParticleState>)
    reads set p | p in ps
    ensures |ss| == |ps| && forall i :: 0 <= i < |ps| ==> ss[i] == ps[i].State()
    decreases |ps|
  {
    if |ps| == 0 then [] else States(ps[..|ps| - 1]) + [ps[|ps| - 1].State()]
  }

  /** `range(n)` is empty for a negative `n`. */
  function BatchSize(emissionRate: int): nat
  {
    if emissionRate < 0 then 0 else emissionRate
  }

  class FireSystem {
    const origin: Vec
    const emissionRate: int
    var particles: seq<FireParticle>

    /** Every particle is held once and every one is alive and in range. */
    ghost predicate Valid()
      reads this, particles
    {
      && Distinct(particles)
      && (forall p :: p in particles ==> Healthy(p.State()))
    }

    constructor (x: real, y: real, emissionRate: int)
      ensures Valid()
      ensures origin == Vec(x, y) && this.emissionRate == emissionRate && particles == []
    {
      origin := Vec(x, y);
      this.emissionRate := emissionRate;
      particles := [];
    }

    /** `emit`: append one new particle per unit of the emission rate; draw
        `i` of the random sizes and lifetimes goes to the `i`-th new one. */
    method Emit(sizes: seq<int>, lifetimes: seq<int>)
      requires Valid()
      requires |sizes| == BatchSize(emissionRate) && |lifetimes| == |sizes|
      requires forall i :: 0 <= i < |sizes| ==> 10 <= sizes[i] <= 20
      requires forall i :: 0 <= i < |lifetimes| ==> 80 <= lifetimes[i] <= 150
      modifies this
      ensures Valid()
      ensures |particles| == |old(particles)| + BatchSize(emissionRate)
      ensures particles[..|old(particles)|] == old(particles)
      ensures forall i :: 0 <= i < |sizes| ==>
                fresh(particles[|old(particles)| + i])
                && particles[|old(particles)| + i].State() == Newborn(origin, sizes[i], lifetimes[i])
    {
      var ps := particles;
      ghost var added: seq<FireParticle> := [];
      for k := 0 to |sizes|
        invariant ps == old(particles) + added && |added| == k
        invariant forall i :: 0 <= i < k ==> fresh(added[i])
        invariant forall i :: 0 <= i < k ==> added[i].State() == Newborn(origin, sizes[i], lifetimes[i])
        invariant Distinct(ps)
      {
        var p := Spawn(origin, sizes[k], lifetimes[k]);
        DistinctAppend(ps, p);
        assert ps + [p] == old(particles) + (added + [p]);
        ps := ps + [p];
        added := added + [p];
      }
      particles := ps;
      assert particles[..|old(particles)|] == old(particles);
      forall q | q in particles
        ensures Healthy(q.State())
      {
        if q !in old(particles) {
          var i :| 0 <= i < |added| && added[i] == q;
          NewbornHealthy(origin, sizes[i], lifetimes[i]);
        }
      }
    }

    /** `FireParticle(*origin, size, lifetime)` with its size and lifetime
        drawn. */
    static method Spawn(origin: Vec, size: int, lifetime: int) returns (p: FireParticle)
      requires 10 <= size <= 20 && 80 <= lifetime <= 150
      ensures fresh(p) && p.State() == Newborn(origin, size, lifetime)
    {
      p := new FireParticle(origin.x, origin.y, size, lifetime);
    }

    /** `update`: over a snapshot of the list, push each particle up and
        sideways by its turbulence draw, step it, age it, and remove it from
        the live list if that killed it. */
    method Update(turbulence: seq<Vec>)
      requires Valid()
      requires |turbulence| == |particles|
      modifies this, particles
      ensures Valid()
      ensures forall i :: 0 <= i < |old(particles)| ==>
                old(particles)[i].State() == Step(old(particles[i].State()), turbulence[i])
      ensures particles == Living(old(particles))
      ensures forall i :: 0 <= i < |old(particles)| ==>
                (old(particles)[i] in particles <==> old(particles[i].lifetime) > 1)
    {
      var snapshot := particles;
      ghost var before := States(snapshot);
      var live := Sweep(snapshot, turbulence, before);
      particles := live;
      FrameOutcome(snapshot, before, turbulence);
    }

    /** The loop of `update` over the snapshot `ps`, whose states on entry
        are `before`: every particle is advanced, and the result is the list
        without the ones that frame killed. */
    static method Sweep(ps: seq<FireParticle>, turbulence: seq<Vec>, ghost before: seq<ParticleState>)
      returns (live: seq<FireParticle>)
      requires |before| == |ps| && forall i :: 0 <= i < |ps| ==> before[i] == ps[i].State()
      requires Distinct(ps) && |turbulence| == |ps|
      modifies ps
      ensures forall i :: 0 <= i < |ps| ==> ps[i].State() == Step(before[i], turbulence[i])
      ensures live == Survivors(ps, before)
    {
      ghost var kept: seq<FireParticle> := [];
      live := ps;
      for k := 0 to |ps|
        invariant live == kept + ps[k..]
        invariant kept == Survivors(ps[..k], before[..k])
        invariant forall i :: 0 <= i < k ==> ps[i].State() == Step(before[i], turbulence[i])
        invariant forall i :: k <= i < |ps| ==> ps[i].State() == before[i]
      {
        kept, live := Visit(ps, turbulence, before, kept, live, k);
      }
      SweepDone(live, kept, ps, before);
    }

    /** One pass of the loop of `update`: advance entry `k` of the snapshot
        and drop it from the live list if that killed it. */
    static method Visit(ps: seq<FireParticle>, turbulence: seq<Vec>, ghost before: seq<ParticleState>,
                        ghost kept: seq<FireParticle>, live: seq<FireParticle>, k: nat)
      returns (ghost kept': seq<FireParticle>, live': seq<FireParticle>)
      requires Distinct(ps) && |before| == |ps| && |turbulence| == |ps| && k < |ps|
      requires live == kept + ps[k..]
      requires kept == Survivors(ps[..k], before[..k])
      requires forall i :: 0 <= i < k ==> ps[i].State() == Step(before[i], turbulence[i])
      requires forall i :: k <= i < |ps| ==> ps[i].State() == before[i]
      modifies ps
      ensures live' == kept' + ps[k + 1..]
      ensures kept' == Survivors(ps[..k + 1], before[..k + 1])
      ensures forall i :: 0 <= i < k + 1 ==> ps[i].State() == Step(before[i], turbulence[i])
      ensures forall i :: k + 1 <= i < |ps| ==> ps[i].State() == before[i]
    {
      var p := ps[k];
      AdvanceAt(ps, turbulence, before, k);
      KeptStep(ps, before, k);
      VisitShift(kept, ps, k);
      kept', live' := kept, live;
      if p.IsDead() {
        live' := RemoveFirst(live, p);
      } else {
        kept' := kept + [p];
      }
    }

    /** Advance entry `k` of the snapshot: the entries before it have had
        their frame, and now so has it; the ones after it are untouched. */
    static method AdvanceAt(ps: seq<FireParticle>, turbulence: seq<Vec>, ghost before: seq<ParticleState>, k: nat)
      requires Distinct(ps) && |before| == |ps| && |turbulence| == |ps| && k < |ps|
      requires forall i :: 0 <= i < k ==> ps[i].State() == Step(before[i], turbulence[i])
      requires forall i :: k <= i < |ps| ==> ps[i].State() == before[i]
      modifies ps
      ensures forall i :: 0 <= i < k + 1 ==> ps[i].State() == Step(before[i], turbulence[i])
      ensures forall i :: k + 1 <= i < |ps| ==> ps[i].State() == before[i]
    {
      DistinctSplit(ps, k);
      Advance(ps[k], turbulence[k]);
    }

    /** The loop body of `update` for one particle, up to the removal. */
    static method Advance(p: FireParticle, turbulence: Vec)
      modifies p
      ensures p.State() == Step(old(p.State()), turbulence)
    {
      p.ApplyForce(Buoyancy);
      p.ApplyForce(turbulence);
      p.VerletIntegration();
      p.Update();
    }
  }

  /** The entries of `ps` that outlive the frame, judged by their states
      `ss` before it: the value-level counterpart of `Living`. */
  function Survivors<T>(ps: seq<T>, ss: seq<ParticleState>): (r: seq<T>)
    requires |ss| == |ps|
    ensures forall x :: x in r ==> x in ps
    decreases |ps|
  {
    if |ps| == 0 then []
    else
      var n := |ps| - 1;
      Survivors(ps[..n], ss[..n]) + (if ss[n].lifetime <= 1 then [] else [ps[n]])
  }

  /** Once the cursor has passed every entry, the live list is the list of
      survivors. */
  lemma SweepDone<T>(live: seq<T>, kept: seq<T>, ps: seq<T>, ss: seq<ParticleState>)
    requires |ss| == |ps|
    requires live == kept + ps[|ps|..]
    requires kept == Survivors(ps[..|ps|], ss[..|ps|])
    ensures live == Survivors(ps, ss)
  {
    assert ps[..|ps|] == ps && ss[..|ps|] == ss;
    assert live == kept;
  }

  /** Entry `k` is not yet among the survivors, and visiting it adds it
      exactly when it outlives the frame. */
  lemma KeptStep<T>(ps: seq<T>, ss: seq<ParticleState>, k: nat)
    requires Distinct(ps) && |ss| == |ps| && k < |ps|
    ensures ps[k] !in Survivors(ps[..k], ss[..k])
    ensures Survivors(ps[..k + 1], ss[..k + 1])
              == Survivors(ps[..k], ss[..k]) + (if ss[k].lifetime <= 1 then [] else [ps[k]])
  {
    DistinctSplit(ps, k);
    assert ps[..k + 1][..k] == ps[..k];
    assert ss[..k + 1][..k] == ss[..k];
  }

  /** Moving the cursor past entry `k`: it either joins the prefix `a`
      or, when it is not in `a`, is removed from the list. */
  lemma VisitShift<T>(a: seq<T>, s: seq<T>, k: nat)
    requires k < |s|
    ensures s[k] in a + s[k..]
    ensures (a + [s[k]]) + s[k + 1..] == a + s[k..]
    ensures s[k] !in a ==> RemoveFirst(a + s[k..], s[k]) == a + s[k + 1..]
  {
    assert s[k..] == [s[k]] + s[k + 1..];
    assert s[k..][1..] == s[k + 1..];
    if s[k] !in a {
      RemoveFirstSplit(a, s[k..]);
    }
  }

  /** Once every lifetime has dropped by one, the living particles are the
      survivors of the old states. */
  lemma {:induction false} LivingIsSurvivors(ps: seq<FireParticle>, ss: seq<ParticleState>)
    requires |ss| == |ps|
    requires forall i :: 0 <= i < |ps| ==> ps[i].lifetime == ss[i].lifetime - 1
    ensures Living(ps) == Survivors(ps, ss)
    decreases |ps|
  {
    if |ps| > 0 {
      var n := |ps| - 1;
      LivingIsSurvivors(ps[..n], ss[..n]);
    }
  }

  /** What a whole frame leaves behind: the living particles are the
      survivors of the old states, without repeats and all healthy, and a
      particle lives on exactly when its old lifetime exceeded 1. */
  lemma FrameOutcome(ps: seq<FireParticle>, ss: seq<ParticleState>, turbulence: seq<Vec>)
    requires Distinct(ps) && |ss| == |ps| && |turbulence| == |ps|
    requires forall i :: 0 <= i < |ps| ==> Healthy(ss[i])
    requires forall i :: 0 <= i < |ps| ==> ps[i].State() == Step(ss[i], turbulence[i])
    ensures Survivors(ps, ss) == Living(ps)
    ensures Distinct(Living(ps))
    ensures forall q :: q in Living(ps) ==> Healthy(q.State())
    ensures forall i :: 0 <= i < |ps| ==> (ps[i] in Living(ps) <==> ss[i].lifetime > 1)
  {
    LivingIsSurvivors(ps, ss);
    LivingDistinct(ps);
    forall q | q in Living(ps)
      ensures Healthy(q.State())
    {
      var i :| 0 <= i < |ps| && ps[i] == q;
      StepKeepsHealthy(ss[i], turbulence[i]);
    }
  }

  lemma {:induction false} LivingDistinct(ps: seq<FireParticle>)
    requires Distinct(ps)
    ensures Distinct(Living(ps))
    decreases |ps|
  {
    if |ps| > 0 {
      var init := ps[..|ps| - 1];
      LivingDistinct(init);
      var last := ps[|ps| - 1];
      var live := Living(init);
      assert last !in init;
      assert last !in live;
      if last.IsDead() {
        assert Living(ps) == live + [] == live;
      } else {
        assert Living(ps) == live + [last];
        assert (live + [last])[..|live|] == live;
      }
    }
  }
}
