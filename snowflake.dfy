/** The rotating snowflake and its collision test: fan decomposition of a
    concave polygon into triangles, the Separating-Axis-Theorem overlap test
    between two convex vertex loops, and the "any part hits" test of a
    decomposed body against the probe circle's polygon. */
module SnowflakeSim {
  import opened Vectors

  /** A closed loop of vertices; consecutive entries (and the last and the
      first) are joined by an edge. */
  type Polygon = seq<Vec>

  /** `min(...)` over an empty list of projections raises a ValueError. */
  datatype Error = EmptyVertexList

  datatype Result<T> = Ok(value: T) | Err(error: Error)

  // ---------------------------------------------------------------------
  // Fan decomposition
  // ---------------------------------------------------------------------

  /** Component-wise sum of the vertices. */
  function Sum(vs: seq<Vec>): Vec
    decreases |vs|
  {
    if |vs| == 0 then Zero else Add(Sum(vs[..|vs| - 1]), vs[|vs| - 1])
  }

  /** The arithmetic mean of the vertices (`np.mean(vertices, axis=0)`). */
  function Centroid(vs: seq<Vec>): Vec
    requires |vs| > 0
  {
    Scale(1.0 / (|vs| as real), Sum(vs))
  }

  /** The triangle the fan puts on edge `i`: the centre, vertex `i`, and the
      next vertex, wrapping from the last vertex back to the first. */
  function FanTriangle(vs: Polygon, i: nat): Polygon
    requires i < |vs|
  {
    [Centroid(vs), vs[i], vs[Next(i, |vs|)]]
  }

  /** `(i + 1) % n` for an index `i` below `n`. */
  function Next(i: nat, n: nat): (j: nat)
    requires i < n
    ensures j < n
    ensures j == (i + 1) % n
  {
    if i + 1 == n then
      assert (i + 1) % n == n % n == 0;
      0
    else
      assert (i + 1) % n == i + 1;
      i + 1
  }

  /** `decompose_concave`: one triangle per edge, all sharing the centre. */
  method DecomposeConcave(vertices: Polygon) returns (parts: seq<Polygon>)
    ensures |parts| == |vertices|
    ensures forall i :: 0 <= i < |parts| ==> |parts[i]| == 3
    ensures forall i :: 0 <= i < |parts| ==> parts[i][0] == Centroid(vertices)
    ensures forall i :: 0 <= i < |parts| ==> parts[i][1] == vertices[i]
    ensures forall i :: 0 <= i < |parts| - 1 ==> parts[i][2] == vertices[i + 1]
    ensures |parts| > 0 ==> parts[|parts| - 1][2] == vertices[0]
  {
    parts := [];
    if |vertices| == 0 {
      return;
    }
    var center := Centroid(vertices);
    var n := |vertices|;
    for i := 0 to n
      invariant |parts| == i
      invariant forall j :: 0 <= j < i ==> parts[j] == FanTriangle(vertices, j)
    {
      parts := parts + [[center, vertices[i], vertices[Next(i, n)]]];
    }
  }

  // ---------------------------------------------------------------------
  // Separating axes and projections
  // ---------------------------------------------------------------------

  /** Edge `i` runs from vertex `i - 1` to vertex `i`; for `i == 0` Python's
      index `-1` names the last vertex. */
  function Edge(vs: Polygon, i: nat): Vec
    requires i < |vs|
  {
    Sub(vs[i], vs[if i == 0 then |vs| - 1 else i - 1])
  }

  function Perp(v: Vec): Vec { Vec(-v.y, v.x) }

  /** `get_axes`, without the division by the axis length (see
      `SeparatesUnderScaling` for why that division does not matter). */
  function GetAxes(vs: Polygon): (axes: seq<Vec>)
    ensures |axes| == |vs|
    // Axis i is edge i turned a quarter turn counter-clockwise: at right
    // angles to the edge, as long as the edge, and on its left.
    ensures forall i :: 0 <= i < |vs| ==> Dot(axes[i], Edge(vs, i)) == 0.0
    ensures forall i :: 0 <= i < |vs| ==> Dot(axes[i], axes[i]) == Dot(Edge(vs, i), Edge(vs, i))
    ensures forall i :: 0 <= i < |vs| ==> Cross(Edge(vs, i), axes[i]) == Dot(Edge(vs, i), Edge(vs, i))
  {
    seq(|vs|, i requires 0 <= i < |vs| => Perp(Edge(vs, i)))
  }

  function Min(a: real, b: real): real { if a <= b then a else b }

  function Max(a: real, b: real): real { if a >= b then a else b }

  /** The dot product of every vertex with `axis`, in vertex order. */
  function Projections(vs: Polygon, axis: Vec): (ds: seq<real>)
    ensures |ds| == |vs|
    decreases |vs|
  {
    if |vs| == 0 then [] else [Dot(vs[0], axis)] + Projections(vs[1..], axis)
  }

  /** Entry `i` of the projections is vertex `i`'s dot product. */
  lemma {:induction false} ProjectionsAt(vs: Polygon, axis: Vec)
    ensures forall i :: 0 <= i < |vs| ==> Projections(vs, axis)[i] == Dot(vs[i], axis)
    decreases |vs|
  {
    if |vs| > 0 {
      ProjectionsAt(vs[1..], axis);
      assert forall i :: 1 <= i < |vs| ==> vs[i] == vs[1..][i - 1];
    }
  }

  /** Python's `min` of a non-empty list. */
  function MinOf(ds: seq<real>): real
    requires |ds| > 0
    decreases |ds|
  {
    if |ds| == 1 then ds[0] else Min(ds[0], MinOf(ds[1..]))
  }

  /** Python's `max` of a non-empty list. */
  function MaxOf(ds: seq<real>): real
    requires |ds| > 0
    decreases |ds|
  {
    if |ds| == 1 then ds[0] else Max(ds[0], MaxOf(ds[1..]))
  }

  /** `MinOf` is a lower bound of the list that the list attains. */
  lemma {:induction false} MinOfIsLeast(ds: seq<real>)
    requires |ds| > 0
    ensures forall i :: 0 <= i < |ds| ==> MinOf(ds) <= ds[i]
    ensures exists i :: 0 <= i < |ds| && MinOf(ds) == ds[i]
    decreases |ds|
  {
    if |ds| > 1 {
      MinOfIsLeast(ds[1..]);
      assert forall i :: 1 <= i < |ds| ==> ds[i] == ds[1..][i - 1];
      var k :| 0 <= k < |ds| - 1 && MinOf(ds[1..]) == ds[1..][k];
      if MinOf(ds) != ds[0] {
        assert MinOf(ds) == ds[k + 1];
      } else {
        assert MinOf(ds) == ds[0];
      }
    } else {
      assert MinOf(ds) == ds[0];
    }
  }

  /** `MaxOf` is an upper bound of the list that the list attains. */
  lemma {:induction false} MaxOfIsGreatest(ds: seq<real>)
    requires |ds| > 0
    ensures forall i :: 0 <= i < |ds| ==> ds[i] <= MaxOf(ds)
    ensures exists i :: 0 <= i < |ds| && MaxOf(ds) == ds[i]
    decreases |ds|
  {
    if |ds| > 1 {
      MaxOfIsGreatest(ds[1..]);
      assert forall i :: 1 <= i < |ds| ==> ds[i] == ds[1..][i - 1];
      var k :| 0 <= k < |ds| - 1 && MaxOf(ds[1..]) == ds[1..][k];
      if MaxOf(ds) != ds[0] {
        assert MaxOf(ds) == ds[k + 1];
      } else {
        assert MaxOf(ds) == ds[0];
      }
    } else {
      assert MaxOf(ds) == ds[0];
    }
  }

  datatype Interval = Interval(lo: real, hi: real)

  predicate Contains(p: Interval, t: real) { p.lo <= t <= p.hi }

  /** `project`: the interval from the least to the greatest dot product of
      a vertex with `axis`. Python's `min` of an empty list raises, so the
      loop must have a vertex (see `SatOutcome` for how that surfaces). */
  function Project(vs: Polygon, axis: Vec): Interval
    requires |vs| > 0
  {
    var ds := Projections(vs, axis);
    Interval(MinOf(ds), MaxOf(ds))
  }

  /** The projection is the smallest interval holding every vertex's
      projection: a well-formed interval, both of whose ends are attained. */
  lemma ProjectSpans(vs: Polygon, axis: Vec)
    requires |vs| > 0
    ensures Project(vs, axis).lo <= Project(vs, axis).hi
    ensures forall i :: 0 <= i < |vs| ==> Contains(Project(vs, axis), Dot(vs[i], axis))
    ensures exists i :: 0 <= i < |vs| && Dot(vs[i], axis) == Project(vs, axis).lo
    ensures exists i :: 0 <= i < |vs| && Dot(vs[i], axis) == Project(vs, axis).hi
  {
    ProjectionsAt(vs, axis);
    MinOfIsLeast(Projections(vs, axis));
    MaxOfIsGreatest(Projections(vs, axis));
  }

  /** `overlap`: the intervals are not strictly apart. */
  predicate Overlap(p: Interval, q: Interval)
  {
    !(p.hi < q.lo || q.hi < p.lo)
  }

  lemma OverlapSymmetric(p: Interval, q: Interval)
    ensures Overlap(p, q) == Overlap(q, p)
  {
  }

  /** Two well-formed intervals overlap exactly when they share a point; in
      particular intervals that only touch at an end overlap. */
  lemma OverlapIffCommonPoint(p: Interval, q: Interval)
    requires p.lo <= p.hi && q.lo <= q.hi
    ensures Overlap(p, q) <==> exists t :: Contains(p, t) && Contains(q, t)
  {
    if Overlap(p, q) {
      var t := Max(p.lo, q.lo);
      assert Contains(p, t) && Contains(q, t);
    }
  }

  // ---------------------------------------------------------------------
  // The SAT test
  // ---------------------------------------------------------------------

  /** The candidate axes, body 1's edges first. */
  function Axes(b1: Polygon, b2: Polygon): seq<Vec>
  {
    GetAxes(b1) + GetAxes(b2)
  }

  /** `axis` separates the bodies: their projections are strictly apart. */
  predicate Separates(b1: Polygon, b2: Polygon, axis: Vec)
    requires |b1| > 0 && |b2| > 0
  {
    !Overlap(Project(b1, axis), Project(b2, axis))
  }

  predicate NoSeparatingAxis(b1: Polygon, b2: Polygon)
    requires |b1| > 0 && |b2| > 0
  {
    forall k :: 0 <= k < |Axes(b1, b2)| ==> !Separates(b1, b2, Axes(b1, b2)[k])
  }

  /** What `sat_collision` returns, or the error it raises: with both bodies
      empty there is no axis and the answer is `True`; with exactly one empty
      the first projection of the empty one raises. */
  function SatOutcome(b1: Polygon, b2: Polygon): Result<bool>
  {
    if |b1| == 0 && |b2| == 0 then Ok(true)
    else if |b1| == 0 || |b2| == 0 then Err(EmptyVertexList)
    else Ok(NoSeparatingAxis(b1, b2))
  }

  /** `sat_collision`: try each axis in turn, stop at the first one that
      separates. */
  method SatCollision(b1: Polygon, b2: Polygon) returns (r: Result<bool>)
    ensures r == SatOutcome(b1, b2)
    ensures |b1| > 0 && |b2| > 0 ==>
              (r == Ok(false) <==> exists k :: 0 <= k < |Axes(b1, b2)| && Separates(b1, b2, Axes(b1, b2)[k]))
  {
    var axes := Axes(b1, b2);
    for k := 0 to |axes|
      invariant k > 0 ==> |b1| > 0 && |b2| > 0
      invariant forall j :: 0 <= j < k ==> |b1| > 0 && |b2| > 0 && !Separates(b1, b2, axes[j])
    {
      if |b1| == 0 || |b2| == 0 {
        return Err(EmptyVertexList);
      }
      var p1 := Project(b1, axes[k]);
      var p2 := Project(b2, axes[k]);
      if !Overlap(p1, p2) {
        assert Separates(b1, b2, axes[k]);
        return Ok(false);
      }
    }
    return Ok(true);
  }

  /** A point both bodies have as a vertex projects into both intervals on
      every axis, so no axis separates the bodies. */
  lemma SharedVertexNotSeparated(b1: Polygon, b2: Polygon, i: nat, j: nat, axis: Vec)
    requires i < |b1| && j < |b2| && b1[i] == b2[j]
    ensures !Separates(b1, b2, axis)
  {
    var p, q := Project(b1, axis), Project(b2, axis);
    ProjectSpans(b1, axis);
    ProjectSpans(b2, axis);
    var t := Dot(b1[i], axis);
    assert Contains(p, t) && Contains(q, t);
    OverlapIffCommonPoint(p, q);
  }

  /** Bodies that share a vertex always collide; in particular a body checked
      against itself does. */
  lemma SharedVertexCollides(b1: Polygon, b2: Polygon, i: nat, j: nat)
    requires i < |b1| && j < |b2| && b1[i] == b2[j]
    ensures SatOutcome(b1, b2) == Ok(true)
  {
    forall k | 0 <= k < |Axes(b1, b2)|
      ensures !Separates(b1, b2, Axes(b1, b2)[k])
    {
      SharedVertexNotSeparated(b1, b2, i, j, Axes(b1, b2)[k]);
    }
  }

  lemma SelfCollides(b: Polygon)
    ensures SatOutcome(b, b) == Ok(true)
  {
    if |b| > 0 {
      SharedVertexCollides(b, b, 0, 0);
    }
  }

  /** The verdict does not depend on which body is passed first, even though
      the axes are tried in a different order. */
  lemma SatSymmetric(b1: Polygon, b2: Polygon)
    ensures SatOutcome(b1, b2) == SatOutcome(b2, b1)
  {
    if |b1| > 0 && |b2| > 0 {
      var a12, a21 := Axes(b1, b2), Axes(b2, b1);
      var n1, n2 := |b1|, |b2|;
      forall k | 0 <= k < |a12|
        ensures a12[k] == a21[if k < n1 then k + n2 else k - n1]
      {
      }
      forall k | 0 <= k < |a21|
        ensures a21[k] == a12[if k < n2 then k + n1 else k - n2]
      {
      }
      forall axis
        ensures Separates(b1, b2, axis) == Separates(b2, b1, axis)
      {
        OverlapSymmetric(Project(b1, axis), Project(b2, axis));
      }
    }
  }

  /** Every vertex of `b1` projects strictly below every vertex of `b2`. */
  ghost predicate Below(b1: Polygon, b2: Polygon, axis: Vec)
  {
    forall i, j :: 0 <= i < |b1| && 0 <= j < |b2| ==> Dot(b1[i], axis) < Dot(b2[j], axis)
  }

  /** `b1`'s interval ends strictly before `b2`'s begins exactly when every
      vertex of `b1` projects strictly below every vertex of `b2`. */
  lemma ApartIffBelow(b1: Polygon, b2: Polygon, axis: Vec)
    requires |b1| > 0 && |b2| > 0
    ensures (Project(b1, axis).hi < Project(b2, axis).lo) == Below(b1, b2, axis)
  {
    var p, q := Project(b1, axis), Project(b2, axis);
    ProjectSpans(b1, axis);
    ProjectSpans(b2, axis);
    if p.hi < q.lo {
      forall i, j | 0 <= i < |b1| && 0 <= j < |b2|
        ensures Dot(b1[i], axis) < Dot(b2[j], axis)
      {
        assert Contains(p, Dot(b1[i], axis)) && Contains(q, Dot(b2[j], axis));
      }
    } else {
      var i :| 0 <= i < |b1| && Dot(b1[i], axis) == p.hi;
      var j :| 0 <= j < |b2| && Dot(b2[j], axis) == q.lo;
      assert !(Dot(b1[i], axis) < Dot(b2[j], axis));
    }
  }

  /** A positive factor on the axis keeps every pair of vertices in order. */
  lemma BelowScaled(b1: Polygon, b2: Polygon, axis: Vec, c: real)
    requires c > 0.0
    ensures Below(b1, b2, Scale(c, axis)) == Below(b1, b2, axis)
  {
    forall i, j | 0 <= i < |b1| && 0 <= j < |b2|
      ensures (Dot(b1[i], Scale(c, axis)) < Dot(b2[j], Scale(c, axis))) == (Dot(b1[i], axis) < Dot(b2[j], axis))
    {
      LessScaled(b1[i], b2[j], axis, c);
    }
  }

  lemma LessScaled(u: Vec, v: Vec, axis: Vec, c: real)
    requires c > 0.0
    ensures (Dot(u, Scale(c, axis)) < Dot(v, Scale(c, axis))) == (Dot(u, axis) < Dot(v, axis))
  {
    var a, b := Dot(u, axis), Dot(v, axis);
    assert Dot(u, Scale(c, axis)) == c * a && Dot(v, Scale(c, axis)) == c * b;
    assert c * b - c * a == c * (b - a);
  }

  /** Dividing an axis by its (positive) length, as `get_axes` does, cannot
      change whether it separates two bodies. */
  lemma SeparatesUnderScaling(b1: Polygon, b2: Polygon, axis: Vec, c: real)
    requires |b1| > 0 && |b2| > 0 && c > 0.0
    ensures Separates(b1, b2, Scale(c, axis)) == Separates(b1, b2, axis)
  {
    ApartIffBelow(b1, b2, axis);
    ApartIffBelow(b2, b1, axis);
    ApartIffBelow(b1, b2, Scale(c, axis));
    ApartIffBelow(b2, b1, Scale(c, axis));
    BelowScaled(b1, b2, axis, c);
    BelowScaled(b2, b1, axis, c);
  }

  /** A degenerate (zero-length) edge yields the zero axis, which never
      separates: every vertex projects to 0. Dividing such an axis by its
      zero length gives NaN coordinates, and every comparison with NaN is
      false, so it never separates in the source either. */
  lemma {:induction false} ZeroAxisNeverSeparates(b1: Polygon, b2: Polygon)
    requires |b1| > 0 && |b2| > 0
    ensures !Separates(b1, b2, Zero)
  {
    SharedPointAtZero(b1);
    SharedPointAtZero(b2);
    OverlapIffCommonPoint(Project(b1, Zero), Project(b2, Zero));
  }

  lemma SharedPointAtZero(vs: Polygon)
    requires |vs| > 0
    ensures Project(vs, Zero).lo <= 0.0 <= Project(vs, Zero).hi
  {
    ProjectSpans(vs, Zero);
    assert Dot(vs[0], Zero) == 0.0;
  }

  // ---------------------------------------------------------------------
  // Concave body against the probe circle
  // ---------------------------------------------------------------------

  /** What `concave_collision` returns: the parts are tried in order, the first
      hit answers `True`, and an error from a part propagates. */
  function ConcaveOutcome(parts: seq<Polygon>, circle: Polygon): Result<bool>
    decreases |parts|
  {
    if |parts| == 0 then Ok(false)
    else
      match SatOutcome(parts[0], circle)
      case Err(e) => Err(e)
      case Ok(hit) => if hit then Ok(true) else ConcaveOutcome(parts[1..], circle)
  }

  /** `concave_collision`. */
  method ConcaveCollision(parts: seq<Polygon>, circle: Polygon) returns (r: Result<bool>)
    ensures r == ConcaveOutcome(parts, circle)
  {
    for k := 0 to |parts|
      invariant ConcaveOutcome(parts[k..], circle) == ConcaveOutcome(parts, circle)
    {
      assert parts[k..][1..] == parts[k + 1..];
      var hit := SatCollision(parts[k], circle);
      if hit.Err? {
        return hit;
      }
      if hit.value {
        return Ok(true);
      }
    }
    assert parts[|parts|..] == [];
    return Ok(false);
  }

  /** With a non-empty probe and non-empty parts, the body collides exactly
      when some part does; an empty part list never collides. */
  lemma {:induction false} ConcaveIffSomePart(parts: seq<Polygon>, circle: Polygon)
    requires |circle| > 0
    requires forall i :: 0 <= i < |parts| ==> |parts[i]| > 0
    ensures ConcaveOutcome(parts, circle) ==
              Ok(exists i :: 0 <= i < |parts| && NoSeparatingAxis(parts[i], circle))
    decreases |parts|
  {
    if |parts| > 0 {
      ConcaveIffSomePart(parts[1..], circle);
      if !NoSeparatingAxis(parts[0], circle) {
        if exists i :: 0 <= i < |parts| && NoSeparatingAxis(parts[i], circle) {
          var i :| 0 <= i < |parts| && NoSeparatingAxis(parts[i], circle);
          assert parts[1..][i - 1] == parts[i];
        }
        if exists i :: 0 <= i < |parts| - 1 && NoSeparatingAxis(parts[1..][i], circle) {
          var i :| 0 <= i < |parts| - 1 && NoSeparatingAxis(parts[1..][i], circle);
          assert parts[i + 1] == parts[1..][i];
        }
      }
    }
  }

  // ---------------------------------------------------------------------
  // Rotation
  // ---------------------------------------------------------------------

  /** The rotation state of the snowflake: the accumulated `angle`, and the
      total angle by which the vertex array has actually been turned about the
      centre since construction (rotations about one centre compose by adding
      their angles). */
  datatype Spin = Spin(angle: real, turned: real)

  /** `rotate` as written: the angle grows by `delta`, and then the already
      rotated vertex array is rotated by the whole new angle. */
  function RotateAsWritten(s: Spin, delta: real): (r: Spin)
    ensures r.angle == s.angle + delta
    ensures r.turned - r.angle == s.turned
  {
    var angle := s.angle + delta;
    Spin(angle, s.turned + angle)
  }

  /** `rotate` as intended: the vertex array is turned by the increment only. */
  function RotateByDelta(s: Spin, delta: real): (r: Spin)
    ensures r.angle == s.angle + delta
    ensures r.turned - r.angle == s.turned - s.angle
  {
    Spin(s.angle + delta, s.turned + delta)
  }

  function TicksAsWritten(n: nat, delta: real): Spin
    decreases n
  {
    if n == 0 then Spin(0.0, 0.0) else RotateAsWritten(TicksAsWritten(n - 1, delta), delta)
  }

  function TicksByDelta(n: nat, delta: real): Spin
    decreases n
  {
    if n == 0 then Spin(0.0, 0.0) else RotateByDelta(TicksByDelta(n - 1, delta), delta)
  }

  /** After `n` ticks at a fixed step the accumulated angle is `n * delta`,
      but the vertex array has been turned by `delta * n * (n + 1) / 2`. */
  lemma {:induction false} AsWrittenCompounds(n: nat, delta: real)
    ensures TicksAsWritten(n, delta).angle == (n as real) * delta
    ensures 2.0 * TicksAsWritten(n, delta).turned == (n as real) * ((n as real) + 1.0) * delta
    decreases n
  {
    if n > 0 {
      AsWrittenCompounds(n - 1, delta);
      var m := (n - 1) as real;
      assert (m + 1.0) * delta == m * delta + delta;
      assert m * (m + 1.0) * delta + 2.0 * ((m + 1.0) * delta) == (m + 1.0) * (m + 2.0) * delta;
    }
  }

  /** Two ticks of any non-zero step: the angle says twice the step, the
      shape has turned three times it. */
  lemma AsWrittenCounterexample(delta: real)
    requires delta != 0.0
    ensures TicksAsWritten(2, delta) == Spin(2.0 * delta, 3.0 * delta)
    ensures TicksAsWritten(2, delta).turned != TicksAsWritten(2, delta).angle
  {
    assert TicksAsWritten(1, delta) == Spin(delta, delta);
  }

  /** With incremental rotation the shape is always turned by exactly the
      accumulated angle. */
  lemma {:induction false} ByDeltaTracksAngle(n: nat, delta: real)
    ensures TicksByDelta(n, delta).angle == (n as real) * delta
    ensures TicksByDelta(n, delta).turned == TicksByDelta(n, delta).angle
    decreases n
  {
    if n > 0 {
      ByDeltaTracksAngle(n - 1, delta);
      var m := (n - 1) as real;
      assert (m + 1.0) * delta == m * delta + delta;
    }
  }

  /** The snowflake body: a fixed rotation centre and the accumulated angle.
      Its vertex coordinates are not kept (rotating them needs sine and
      cosine); `turned` records how far they have been rotated. */
  class RotatingSnowflake {
    const center: Vec
    var angle: real
    ghost var turned: real

    ghost predicate Valid()
      reads this
    {
      turned == angle
    }

    constructor (center: Vec)
      ensures Valid()
      ensures this.center == center && angle == 0.0
    {
      this.center := center;
      angle := 0.0;
      turned := 0.0;
    }

    /** `self.angle += rotation_speed * dt`, with the vertices turned by the
        increment. */
    method Rotate(rotationSpeed: real, dt: real)
      requires Valid()
      modifies this
      ensures Valid()
      ensures Spin(angle, turned) == RotateByDelta(old(Spin(angle, turned)), rotationSpeed * dt)
    {
      var delta := rotationSpeed * dt;
      angle := angle + delta;
      turned := turned + delta;
    }
  }
}
