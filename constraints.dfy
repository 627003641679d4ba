/**
 * The distance constraint between two particle handles, and its relaxation
 * step. The constraint is a value in the solver's store; `Solve` gives the
 * constraint and the particle store after one call of `solve()`.
 */
module Constraints {
  import opened Vectors
  import opened HandleStore
  import opened Particles

  const DefaultStrength: real := 1.0
  const DefaultMaxElongationRatio: real := 1.5

  datatype LinkConstraint = LinkConstraint(
    particle_1: ID,
    particle_2: ID,
    distance: real,
    strength: real,
    max_elongation_ratio: real,
    broken: bool,
    id: ID)
  {
    /** isValid(): both handles still resolve and the link is not broken. */
    predicate IsValid(objects: Store<Particle>) {
      objects.Resolves(particle_2) && objects.Resolves(particle_1) && !broken
    }
  }

  /** p_1.position - p_2.position. */
  function Separation(l: LinkConstraint, objects: Store<Particle>): Vec2
    requires objects.Resolves(l.particle_1) && objects.Resolves(l.particle_2)
  {
    Sub(objects.items[l.particle_1].position, objects.items[l.particle_2].position)
  }

  /**
   * LinkConstraint(p_1, p_2): the rest distance is the length between the
   * two particles now; strength 1, ratio 1.5, not broken.
   */
  function NewLink(p_1: ID, p_2: ID, objects: Store<Particle>, length: LengthFn): (l: LinkConstraint)
    requires objects.Resolves(p_1) && objects.Resolves(p_2)
    ensures l.particle_1 == p_1 && l.particle_2 == p_2
    ensures l.distance == length(Separation(l, objects)) && l.distance >= 0.0
    ensures l.strength == 1.0 && l.max_elongation_ratio == 1.5 && !l.broken && l.id == 0
    ensures l.IsValid(objects)
  {
    var d := length(Sub(objects.items[p_1].position, objects.items[p_2].position));
    LinkConstraint(p_1, p_2, d, DefaultStrength, DefaultMaxElongationRatio, false, 0)
  }

  /** The positional correction `p` of solve(), for a current length `dist`. */
  function Impulse(l: LinkConstraint, objects: Store<Particle>, dist: real): Vec2
    requires objects.Resolves(l.particle_1) && objects.Resolves(l.particle_2)
    requires dist != 0.0
    requires objects.items[l.particle_1].mass + objects.items[l.particle_2].mass != 0.0
  {
    var n := Div(Separation(l, objects), dist);
    var c := l.distance - dist;
    Scale(n, -(c * l.strength) / (objects.items[l.particle_1].mass + objects.items[l.particle_2].mass))
  }

  /** Both endpoints resolve and have positive mass. */
  ghost predicate Weighted(l: LinkConstraint, objects: Store<Particle>) {
    && objects.Resolves(l.particle_1) && objects.Resolves(l.particle_2)
    && objects.items[l.particle_1].mass > 0.0 && objects.items[l.particle_2].mass > 0.0
  }

  /**
   * The two moves of solve(): p_1 by -p/m_1, then p_2 by p/m_2 (read after
   * the first move, as the reference would be). Only positions of the two
   * endpoints can change, and pinned particles do not.
   */
  function MoveEndpoints(l: LinkConstraint, objects: Store<Particle>, p: Vec2): (r: Store<Particle>)
    requires objects.Valid() && Weighted(l, objects)
    ensures r.Valid() && r.next == objects.next
    ensures r.items.Keys == objects.items.Keys
    ensures forall id :: id in objects.items ==>
      r.items[id] == objects.items[id].(position := r.items[id].position)
    ensures forall id :: id in objects.items && id != l.particle_1 && id != l.particle_2 ==>
      r.items[id] == objects.items[id]
    ensures forall id :: id in objects.items && !objects.items[id].moving ==>
      r.items[id] == objects.items[id]
    ensures l.particle_1 != l.particle_2 ==>
      && r.items[l.particle_1].position
         == Moved(objects.items[l.particle_1], Div(Neg(p), objects.items[l.particle_1].mass))
      && r.items[l.particle_2].position
         == Moved(objects.items[l.particle_2], Div(p, objects.items[l.particle_2].mass))
    ensures l.particle_1 == l.particle_2 ==> r == objects
  {
    var p_1 := objects.items[l.particle_1];
    var p_2 := objects.items[l.particle_2];
    var moved_1 := objects.Set(l.particle_1, p_1.Move(Div(Neg(p), p_1.mass)));
    var r := moved_1.Set(l.particle_2, moved_1.items[l.particle_2].Move(Div(p, p_2.mass)));
    if l.particle_1 == l.particle_2 then
      MovesCancel(p_1.position, p, p_1.mass);
      assert r.items == objects.items;
      r
    else r
  }

  /** Where `move(v)` leaves particle `q`: moved by `v` when free, in place when pinned. */
  function Moved(q: Particle, v: Vec2): Vec2 {
    if q.moving then Add(q.position, v) else q.position
  }

  /** Moving by -p/m and then by p/m comes back to the start. */
  lemma MovesCancel(x: Vec2, p: Vec2, m: real)
    requires m != 0.0
    ensures Add(Add(x, Div(Neg(p), m)), Div(p, m)) == x
  {
    assert (-p.x) / m == -(p.x / m);
    assert (-p.y) / m == -(p.y / m);
  }

  datatype Solved = Solved(link: LinkConstraint, objects: Store<Particle>)

  /**
   * solve(). An invalid link, or one not longer than its rest distance,
   * changes nothing. A stretched link is marked broken exactly when its
   * length is strictly above distance * max_elongation_ratio, and is
   * corrected in the same call. Only the endpoints' positions can change,
   * and a pinned particle never moves. There is no explicit zero-length
   * guard: that the division by the length is safe follows from
   * `dist > distance >= 0`.
   */
  function Solve(l: LinkConstraint, objects: Store<Particle>, length: LengthFn): (r: Solved)
    requires objects.Valid() && l.distance >= 0.0
    requires l.IsValid(objects) ==> Weighted(l, objects)
    ensures r.objects.Valid()
    ensures r.objects.next == objects.next
    ensures r.objects.items.Keys == objects.items.Keys
    ensures r.link == l.(broken := r.link.broken)
    ensures forall id :: id in objects.items ==>
      r.objects.items[id] == objects.items[id].(position := r.objects.items[id].position)
    ensures forall id :: id in objects.items && id != l.particle_1 && id != l.particle_2 ==>
      r.objects.items[id] == objects.items[id]
    ensures forall id :: id in objects.items && !objects.items[id].moving ==>
      r.objects.items[id] == objects.items[id]
    ensures !l.IsValid(objects) ==> r == Solved(l, objects)
    ensures l.IsValid(objects) && length(Separation(l, objects)) <= l.distance ==> r == Solved(l, objects)
    ensures l.IsValid(objects) && length(Separation(l, objects)) > l.distance ==>
      && r.link.broken == (length(Separation(l, objects)) > l.distance * l.max_elongation_ratio)
      && r.objects == MoveEndpoints(l, objects, Impulse(l, objects, length(Separation(l, objects))))
  {
    if !l.IsValid(objects) then Solved(l, objects)
    else
      var p_1 := objects.items[l.particle_1];
      var p_2 := objects.items[l.particle_2];
      var dist := length(Sub(p_1.position, p_2.position));
      if dist > l.distance then
        var broken := dist > l.distance * l.max_elongation_ratio;
        Solved(l.(broken := broken), MoveEndpoints(l, objects, Impulse(l, objects, dist)))
      else
        Solved(l, objects)
  }

  /** The hypotheses of the correction lemmas: a stretched valid link between two distinct free particles. */
  ghost predicate FreeStretched(l: LinkConstraint, objects: Store<Particle>, length: LengthFn) {
    && objects.Valid() && l.distance >= 0.0
    && l.IsValid(objects) && Weighted(l, objects)
    && l.particle_1 != l.particle_2
    && objects.items[l.particle_1].moving && objects.items[l.particle_2].moving
    && length(Separation(l, objects)) > l.distance
  }

  /**
   * The correction is mass weighted: the impulse times the total mass is the
   * excess length (times the strength) along the link's direction, whatever
   * the two masses are.
   */
  lemma ImpulseWeightsExcess(l: LinkConstraint, objects: Store<Particle>, dist: real)
    requires objects.Resolves(l.particle_1) && objects.Resolves(l.particle_2) && dist != 0.0
    requires objects.items[l.particle_1].mass + objects.items[l.particle_2].mass != 0.0
    ensures Scale(Impulse(l, objects, dist), objects.items[l.particle_1].mass + objects.items[l.particle_2].mass)
      == Scale(Div(Separation(l, objects), dist), (dist - l.distance) * l.strength)
  {
    var n := Div(Separation(l, objects), dist);
    var m := objects.items[l.particle_1].mass + objects.items[l.particle_2].mass;
    var k := -((l.distance - dist) * l.strength) / m;
    MulDivCancel(-((l.distance - dist) * l.strength), m);
    assert k * m == (dist - l.distance) * l.strength;
    assert Scale(Impulse(l, objects, dist), m) == Vec2(n.x * (k * m), n.y * (k * m));
  }

  /**
   * For two free endpoints the correction moves them by -p/m_1 and p/m_2,
   * so the mass-weighted displacements cancel.
   */
  lemma CorrectionConservesMomentum(l: LinkConstraint, objects: Store<Particle>, length: LengthFn)
    requires FreeStretched(l, objects, length)
    ensures var r := Solve(l, objects, length);
      var p := Impulse(l, objects, length(Separation(l, objects)));
      var m_1 := objects.items[l.particle_1].mass;
      var m_2 := objects.items[l.particle_2].mass;
      var d_1 := Sub(r.objects.items[l.particle_1].position, objects.items[l.particle_1].position);
      var d_2 := Sub(r.objects.items[l.particle_2].position, objects.items[l.particle_2].position);
      && d_1 == Div(Neg(p), m_1)
      && d_2 == Div(p, m_2)
      && Add(Scale(d_1, m_1), Scale(d_2, m_2)) == Zero
  {
    var r := Solve(l, objects, length);
    var p_1 := objects.items[l.particle_1];
    var p_2 := objects.items[l.particle_2];
    var p := Impulse(l, objects, length(Separation(l, objects)));
    var d_1 := Sub(r.objects.items[l.particle_1].position, p_1.position);
    var d_2 := Sub(r.objects.items[l.particle_2].position, p_2.position);
    assert d_1 == Div(Neg(p), p_1.mass);
    assert d_2 == Div(p, p_2.mass);
    MulDivCancel(-p.x, p_1.mass);
    MulDivCancel(-p.y, p_1.mass);
    MulDivCancel(p.x, p_2.mass);
    MulDivCancel(p.y, p_2.mass);
  }

  /** Equal masses m move by -p/m and p/m: equal and opposite amounts. */
  lemma EqualMassesMoveOppositely(l: LinkConstraint, objects: Store<Particle>, length: LengthFn)
    requires FreeStretched(l, objects, length)
    requires objects.items[l.particle_1].mass == objects.items[l.particle_2].mass
    ensures var r := Solve(l, objects, length);
      var p := Impulse(l, objects, length(Separation(l, objects)));
      var d_1 := Sub(r.objects.items[l.particle_1].position, objects.items[l.particle_1].position);
      var d_2 := Sub(r.objects.items[l.particle_2].position, objects.items[l.particle_2].position);
      d_1 == Div(Neg(p), objects.items[l.particle_1].mass) && d_1 == Neg(d_2)
  {
    var r := Solve(l, objects, length);
    var p := Impulse(l, objects, length(Separation(l, objects)));
    var m := objects.items[l.particle_1].mass;
    assert Sub(r.objects.items[l.particle_1].position, objects.items[l.particle_1].position) == Div(Neg(p), m);
    assert Sub(r.objects.items[l.particle_2].position, objects.items[l.particle_2].position) == Div(p, m);
  }

  /** With unit masses and strength 1 the impulse is half the excess length along the link's direction. */
  lemma UnitImpulse(l: LinkConstraint, objects: Store<Particle>, dist: real)
    requires objects.Resolves(l.particle_1) && objects.Resolves(l.particle_2) && dist != 0.0
    requires objects.items[l.particle_1].mass == 1.0 && objects.items[l.particle_2].mass == 1.0
    requires l.strength == 1.0
    ensures Impulse(l, objects, dist) == Scale(Div(Separation(l, objects), dist), (dist - l.distance) / 2.0)
  {
  }

  /** Per coordinate: taking half the excess off each end leaves `rest` along the direction. */
  lemma RestoredComponent(v: real, dist: real, rest: real)
    requires dist != 0.0
    ensures var n := v / dist; var k := (dist - rest) / 2.0;
      (v - n * k) - n * k == n * rest
  {
    var n := v / dist;
    var k := (dist - rest) / 2.0;
    calc {
      (v - n * k) - n * k;
      v - n * (dist - rest);
      { MulDivCancel(v, dist); }
      n * rest;
    }
  }

  /** With unit masses the first endpoint moves by -p and the second by p. */
  lemma UnitMassesMoveByImpulse(l: LinkConstraint, objects: Store<Particle>, length: LengthFn)
    requires FreeStretched(l, objects, length)
    requires objects.items[l.particle_1].mass == 1.0 && objects.items[l.particle_2].mass == 1.0
    ensures var v := Separation(l, objects);
      var p := Impulse(l, objects, length(v));
      var r := Solve(l, objects, length);
      && r.objects.items[l.particle_1].position == Sub(objects.items[l.particle_1].position, p)
      && r.objects.items[l.particle_2].position == Add(objects.items[l.particle_2].position, p)
      && Separation(l, r.objects) == Sub(Sub(v, p), p)
  {
    var v := Separation(l, objects);
    var p := Impulse(l, objects, length(v));
    var r := Solve(l, objects, length);
    assert r.objects == MoveEndpoints(l, objects, p);
    assert Div(Neg(p), 1.0) == Neg(p) && Div(p, 1.0) == p;
  }

  /**
   * With unit masses and strength 1, one call puts the two free endpoints
   * back at the rest distance along their current direction:
   * the new separation is (v / dist) * distance.
   */
  lemma UnitLinkRestoresRestLength(l: LinkConstraint, objects: Store<Particle>, length: LengthFn)
    requires FreeStretched(l, objects, length)
    requires objects.items[l.particle_1].mass == 1.0 && objects.items[l.particle_2].mass == 1.0
    requires l.strength == 1.0
    ensures var r := Solve(l, objects, length);
      var v := Separation(l, objects);
      Separation(l, r.objects) == Scale(Div(v, length(v)), l.distance)
  {
    var v := Separation(l, objects);
    var dist := length(v);
    UnitMassesMoveByImpulse(l, objects, length);
    UnitImpulse(l, objects, dist);
    RestoredVector(v, Impulse(l, objects, dist), dist, l.distance);
  }

  /** Taking `p`, half the excess along the direction, off both ends leaves the rest length along it. */
  lemma RestoredVector(v: Vec2, p: Vec2, dist: real, rest: real)
    requires dist != 0.0
    requires p == Scale(Div(v, dist), (dist - rest) / 2.0)
    ensures Sub(Sub(v, p), p) == Scale(Div(v, dist), rest)
  {
    RestoredComponent(v.x, dist, rest);
    RestoredComponent(v.y, dist, rest);
  }

  /**
   * The breakage test is strict: a link stretched to exactly
   * distance * max_elongation_ratio (with a ratio above 1) stays intact,
   * and is still corrected in that call.
   */
  lemma ThresholdLengthDoesNotBreak(l: LinkConstraint, objects: Store<Particle>, length: LengthFn)
    requires objects.Valid() && l.distance > 0.0 && l.max_elongation_ratio > 1.0
    requires l.IsValid(objects) && Weighted(l, objects)
    requires length(Separation(l, objects)) == l.distance * l.max_elongation_ratio
    ensures var r := Solve(l, objects, length);
      var p_1 := objects.items[l.particle_1];
      && !r.link.broken
      && r.link.IsValid(r.objects)
      && r.objects.items[l.particle_1].position
         == (if l.particle_1 == l.particle_2 then r.objects.items[l.particle_1].position
             else p_1.Move(Div(Neg(Impulse(l, objects, length(Separation(l, objects)))), p_1.mass)).position)
  {
    var dist := length(Separation(l, objects));
    assert dist > l.distance;
    var p_1 := objects.items[l.particle_1];
    var moved := MoveEndpoints(l, objects, Impulse(l, objects, dist));
    assert Solve(l, objects, length).objects == moved;
    if l.particle_1 != l.particle_2 {
      assert moved.items[l.particle_1].position == Moved(p_1, Div(Neg(Impulse(l, objects, dist)), p_1.mass));
    }
  }
}
