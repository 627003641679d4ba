/**
 * The point mass of the cloth. The C++ struct is held by value inside the
 * handle store, so it is a datatype here, and each member that assigns its
 * fields in place is a member function giving the particle after the call.
 */
module Particles {
  import opened Vectors
  import opened HandleStore

  type Byte = x: int | 0 <= x < 256

  /** sf::Color, kept only so that the renderer can copy it. */
  datatype Color = Color(r: Byte, g: Byte, b: Byte, a: Byte)

  const White: Color := Color(255, 255, 255, 255)

  datatype Particle = Particle(
    id: ID,
    mass: real,
    position: Vec2,
    position_old: Vec2,
    velocity: Vec2,
    forces: Vec2,
    color: Color,
    moving: bool)
  {
    /**
     * One integration sub-step. A pinned particle is left exactly as it
     * was; a moving one remembers its position, adds forces/mass*dt to its
     * velocity and advances by the new velocity. Forces are never touched.
     */
    function Update(dt: real): (r: Particle)
      requires moving ==> mass != 0.0
      ensures !moving ==> r == this
      ensures r.forces == forces && r.mass == mass && r.moving == moving
      ensures r.id == id && r.color == color
      ensures moving ==> r.position_old == position
      ensures moving ==> r.velocity == Add(velocity, Scale(Div(forces, mass), dt))
      ensures moving ==> r.position == Add(position, Scale(r.velocity, dt))
    {
      if !moving then this
      else
        var v := Add(velocity, Scale(Div(forces, mass), dt));
        this.(position_old := position, velocity := v, position := Add(position, Scale(v, dt)))
    }

    /**
     * Recomputes the velocity from the last displacement and clears the
     * forces, pinned or not; positions stay where they are.
     */
    function UpdateDerivatives(dt: real): (r: Particle)
      requires dt != 0.0
      ensures Scale(r.velocity, dt) == Sub(position, position_old)
      ensures r.forces == Zero
      ensures r == this.(velocity := r.velocity, forces := Zero)
    {
      this.(velocity := Div(Sub(position, position_old), dt), forces := Zero)
    }

    /** Displacement: a pinned particle ignores it, a moving one only changes position. */
    function Move(v: Vec2): (r: Particle)
      ensures !moving ==> r == this
      ensures moving ==> r == this.(position := Add(position, v))
    {
      if !moving then this else this.(position := Add(position, v))
    }
  }

  /** Particle(): every vector zero, mass 1, white, moving. */
  function DefaultParticle(): (p: Particle)
    ensures p.mass == 1.0 && p.moving && p.position == p.position_old == Zero
    ensures p.velocity == Zero && p.forces == Zero && p.id == 0 && p.color == White
  {
    Particle(0, 1.0, Zero, Zero, Zero, Zero, White, true)
  }

  /** Particle(pos): at rest in `pos`, mass 1, moving. */
  function ParticleAt(pos: Vec2): (p: Particle)
    ensures p.position == pos && p.position_old == pos
    ensures p.mass == 1.0 && p.moving && p.velocity == Zero && p.forces == Zero
    ensures p.id == 0 && p.color == White
  {
    DefaultParticle().(position := pos, position_old := pos)
  }

  /** Particle(mass, pos): as Particle(pos), with the given mass. */
  function ParticleWithMass(mass: real, pos: Vec2): (p: Particle)
    ensures p.position == pos && p.position_old == pos
    ensures p.mass == mass && p.moving && p.velocity == Zero && p.forces == Zero
    ensures p.id == 0 && p.color == White
  {
    ParticleAt(pos).(mass := mass)
  }

  /** A call of one of the three mutating members. */
  datatype Op = Integrate(dt: real) | Derive(dt: real) | Displace(v: Vec2)

  predicate Applicable(p: Particle, op: Op) {
    match op
    case Integrate(_) => p.moving ==> p.mass != 0.0
    case Derive(dt) => dt != 0.0
    case Displace(_) => true
  }

  function Apply(p: Particle, op: Op): (r: Particle)
    requires Applicable(p, op)
  {
    match op
    case Integrate(dt) => p.Update(dt)
    case Derive(dt) => p.UpdateDerivatives(dt)
    case Displace(v) => p.Move(v)
  }

  predicate AllDerivesNonzero(ops: seq<Op>) {
    forall i :: 0 <= i < |ops| && ops[i].Derive? ==> ops[i].dt != 0.0
  }

  /** The particle after the calls `ops`, first to last; mass and pin flag never change. */
  function Run(p: Particle, ops: seq<Op>): (r: Particle)
    requires (p.moving ==> p.mass != 0.0) && AllDerivesNonzero(ops)
    ensures r.mass == p.mass && r.moving == p.moving && r.id == p.id
    decreases |ops|
  {
    if ops == [] then p
    else
      assert AllDerivesNonzero(ops[1..]) by {
        forall i | 0 <= i < |ops[1..]| && ops[1..][i].Derive?
          ensures ops[1..][i].dt != 0.0
        {
          assert ops[1..][i] == ops[i + 1];
        }
      }
      Run(Apply(p, ops[0]), ops[1..])
  }

  /** A pinned particle keeps its position under any sequence of calls. */
  lemma {:induction false} PinnedNeverMoves(p: Particle, ops: seq<Op>)
    requires !p.moving && AllDerivesNonzero(ops)
    ensures !Run(p, ops).moving
    ensures Run(p, ops).position == p.position
    decreases |ops|
  {
    if ops != [] {
      var q := Apply(p, ops[0]);
      assert q.position == p.position;
      assert AllDerivesNonzero(ops[1..]) by {
        forall i | 0 <= i < |ops[1..]| && ops[1..][i].Derive?
          ensures ops[1..][i].dt != 0.0
        {
          assert ops[1..][i] == ops[i + 1];
        }
      }
      PinnedNeverMoves(q, ops[1..]);
    }
  }
}
