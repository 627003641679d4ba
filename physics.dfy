/**
 * PhysicSolver: the particle and link stores, the solver parameters, and
 * the per-frame update. Each loop is proved against the function of
 * module SolverCycle that describes it.
 */
module Physics {
  import opened Vectors
  import opened HandleStore
  import opened Particles
  import opened Constraints
  import opened SolverCycle

  const GravityXDefault: real := 0.0
  const GravityYDefault: real := 1500.0
  const FrictionDefault: real := 0.5

  class PhysicSolver {
    var objects: Store<Particle>
    var constraints: Store<LinkConstraint>
    var solver_iterations: nat
    var sub_steps: nat
    var gravity: Vec2
    var friction_coef: real
    /** The length (square root) routine the links measure themselves with. */
    const length: LengthFn

    function State(): World
      reads this`objects, this`constraints
    {
      World(objects, constraints)
    }

    function Parameters(): Params
      reads this`solver_iterations, this`sub_steps, this`gravity, this`friction_coef
    {
      Params(solver_iterations, sub_steps, gravity, friction_coef, length)
    }

    ghost predicate Valid()
      reads this`objects, this`constraints
    {
      WorldValid(State())
    }

    /** PhysicSolver(gx, gy, fc): empty stores, one relaxation pass, 16 sub-steps. */
    constructor (gx: real, gy: real, fc: real, length: LengthFn)
      ensures Valid()
      ensures objects == Empty() && constraints == Empty()
      ensures solver_iterations == 1 && sub_steps == 16
      ensures gravity == Vec2(gx, gy) && friction_coef == fc && this.length == length
    {
      objects := Empty();
      constraints := Empty();
      solver_iterations := 1;
      sub_steps := 16;
      gravity := Vec2(gx, gy);
      friction_coef := fc;
      this.length := length;
    }

    /** PhysicSolver() with its default arguments: gravity (0, 1500), friction 0.5. */
    constructor WithDefaults(length: LengthFn)
      ensures Valid()
      ensures objects == Empty() && constraints == Empty()
      ensures solver_iterations == 1 && sub_steps == 16
      ensures gravity == Vec2(0.0, 1500.0) && friction_coef == 0.5 && this.length == length
    {
      objects := Empty();
      constraints := Empty();
      solver_iterations := 1;
      sub_steps := 16;
      gravity := Vec2(GravityXDefault, GravityYDefault);
      friction_coef := FrictionDefault;
      this.length := length;
    }

    /** update(dt): prune once, then `sub_steps` rounds of the five passes. */
    method Update(dt: real)
      requires Valid() && (sub_steps > 0 ==> dt != 0.0)
      modifies this`objects, this`constraints
      ensures Valid()
      ensures State() == Step(old(State()), old(Parameters()), dt)
    {
      var sub_step_dt := SubStepDt(dt, sub_steps);
      ghost var prm := Parameters();
      ghost var start := State();
      RemoveBrokenLinks();
      ghost var pruned := State();
      assert pruned == Prune(start);
      var i := sub_steps;
      ghost var done: nat := 0;
      while i > 0
        invariant 0 <= i <= prm.sub_steps && done == prm.sub_steps - i
        invariant Valid()
        invariant State() == Substeps(pruned, prm, done, sub_step_dt)
      {
        ghost var before := State();
        SubStep(sub_step_dt);
        SubstepsAdvance(pruned, prm, done, sub_step_dt, before, State());
        i := i - 1;
        done := done + 1;
      }
      StepOfSubsteps(start, prm, dt, pruned, done, sub_step_dt, State());
    }

    /** One iteration of update's loop: the five passes with the sub-step's dt. */
    method SubStep(dt: real)
      requires Valid() && dt != 0.0
      modifies this`objects, this`constraints
      ensures Valid()
      ensures State() == Substep(old(State()), Parameters(), dt)
    {
      ghost var start := State();
      ghost var prm := Parameters();
      ApplyGravity();
      ghost var gravitated := State();
      ApplyAirFriction();
      ghost var slowed := State();
      UpdatePositions(dt);
      ghost var moved := State();
      SolveConstraints();
      ghost var relaxed := State();
      UpdateDerivatives(dt);
      SubstepOfPasses(prm, dt, start, gravitated, slowed, moved, relaxed, State());
    }

    /** applyGravity: each particle's forces grow by gravity * mass. */
    method ApplyGravity()
      requires Valid()
      modifies this`objects
      ensures Valid()
      ensures objects == Gravity(old(objects), gravity)
    {
      ghost var before := objects;
      var id := 0;
      while id < objects.next
        invariant 0 <= id <= before.next && objects.next == before.next
        invariant objects.items.Keys == before.items.Keys
        invariant forall k :: k in before.items ==>
          objects.items[k] == (if k < id then AddForce(before.items[k], Scale(gravity, before.items[k].mass)) else before.items[k])
      {
        if objects.Resolves(id) {
          objects := objects.Set(id, AddForce(objects.items[id], Scale(gravity, objects.items[id].mass)));
        }
        id := id + 1;
      }
      assert objects.items == Gravity(before, gravity).items;
    }

    /** applyAirFriction: each particle's forces shrink by velocity * friction_coef. */
    method ApplyAirFriction()
      requires Valid()
      modifies this`objects
      ensures Valid()
      ensures objects == AirFriction(old(objects), friction_coef)
    {
      ghost var before := objects;
      var id := 0;
      while id < objects.next
        invariant 0 <= id <= before.next && objects.next == before.next
        invariant objects.items.Keys == before.items.Keys
        invariant forall k :: k in before.items ==>
          objects.items[k] == (if k < id then Drag(before.items[k], friction_coef) else before.items[k])
      {
        if objects.Resolves(id) {
          objects := objects.Set(id, Drag(objects.items[id], friction_coef));
        }
        id := id + 1;
      }
      assert objects.items == AirFriction(before, friction_coef).items;
    }

    /** updatePositions(dt): update(dt) on every particle. */
    method UpdatePositions(dt: real)
      requires Valid()
      modifies this`objects
      ensures Valid()
      ensures objects == Positions(old(objects), dt)
    {
      ghost var before := objects;
      var id := 0;
      while id < objects.next
        invariant 0 <= id <= before.next && objects.next == before.next
        invariant objects.items.Keys == before.items.Keys
        invariant forall k :: k in before.items ==>
          objects.items[k] == (if k < id then before.items[k].Update(dt) else before.items[k])
      {
        if objects.Resolves(id) {
          objects := objects.Set(id, objects.items[id].Update(dt));
        }
        id := id + 1;
      }
      assert objects.items == Positions(before, dt).items;
    }

    /** updateDerivatives(dt): updateDerivatives(dt) on every particle. */
    method UpdateDerivatives(dt: real)
      requires Valid() && dt != 0.0
      modifies this`objects
      ensures Valid()
      ensures objects == Derivatives(old(objects), dt)
    {
      ghost var before := objects;
      var id := 0;
      while id < objects.next
        invariant 0 <= id <= before.next && objects.next == before.next
        invariant objects.items.Keys == before.items.Keys
        invariant forall k :: k in before.items ==>
          objects.items[k] == (if k < id then before.items[k].UpdateDerivatives(dt) else before.items[k])
      {
        if objects.Resolves(id) {
          objects := objects.Set(id, objects.items[id].UpdateDerivatives(dt));
        }
        id := id + 1;
      }
      assert objects.items == Derivatives(before, dt).items;
    }

    /** solveConstraints: `solver_iterations` passes, each solving every link once, in layout order. */
    method SolveConstraints()
      requires Valid()
      modifies this`objects, this`constraints
      ensures Valid()
      ensures State() == Relax(old(State()), solver_iterations, length)
    {
      ghost var start := State();
      var i := solver_iterations;
      ghost var done: nat := 0;
      while i > 0
        invariant 0 <= i <= solver_iterations && done == solver_iterations - i
        invariant Valid()
        invariant State() == Relax(start, done, length)
      {
        ghost var before := State();
        var n := constraints.next;
        var lid := 0;
        while lid < n
          invariant 0 <= lid <= n
          invariant State() == SolvePass(before, lid, length)
        {
          ghost var current := State();
          if constraints.Resolves(lid) {
            SolveLink(lid);
          }
          SolvePassAdvance(before, lid, length, current, State());
          lid := lid + 1;
        }
        RelaxAdvance(start, done, length, before, State());
        i := i - 1;
        done := done + 1;
      }
      assert done == solver_iterations;
    }

    /** l.solve() on the link stored under `lid`: the link and both its particles are written back. */
    method SolveLink(lid: ID)
      requires Valid() && constraints.Resolves(lid)
      modifies this`objects, this`constraints
      ensures Valid()
      ensures State() == SolveAt(old(State()), lid, length)
    {
      var solved := Solve(constraints.items[lid], objects, length);
      objects := solved.objects;
      constraints := constraints.Set(lid, solved.link);
    }

    /** removeBrokenLinks: erase, by its own `id`, every link that is not valid. */
    method RemoveBrokenLinks()
      requires Valid()
      modifies this`constraints
      ensures Valid()
      ensures State() == Prune(old(State()))
    {
      ghost var before := constraints;
      var n := constraints.next;
      var lid := 0;
      while lid < n
        invariant 0 <= lid <= n && n == before.next
        invariant constraints == PruneBelow(before, objects, lid)
      {
        PruneAdvance(before, objects, lid, constraints);
        if constraints.Resolves(lid) {
          var l := constraints.items[lid];
          if !l.IsValid(objects) {
            constraints := constraints.Erase(l.id);
          }
        }
        lid := lid + 1;
      }
    }

    /** addParticle(position): a fresh ID, recorded in the new particle's `id`. */
    method AddParticle(position: Vec2) returns (particle_id: ID)
      requires Valid()
      modifies this
      ensures Valid() && Parameters() == old(Parameters()) && constraints == old(constraints)
      ensures !old(objects).Resolves(particle_id) && objects.Resolves(particle_id)
      ensures objects.items[particle_id] == ParticleAt(position).(id := particle_id)
      ensures objects.items[particle_id].position_old == position
      ensures objects.items.Keys == old(objects).items.Keys + {particle_id}
      ensures forall id :: id in old(objects).items ==> objects.items[id] == old(objects).items[id]
    {
      var inserted := objects.Insert(ParticleAt(position));
      particle_id := inserted.id;
      objects := inserted.store;
      objects := objects.Set(particle_id, objects.items[particle_id].(id := particle_id));
    }

    /**
     * addLink(particle_1, particle_2, max_elongation_ratio): a link under a
     * fresh ID (the store's next one), its rest distance measured now, its
     * ratio as given (1.5 by default); the particles are untouched.
     */
    method AddLink(particle_1: ID, particle_2: ID, max_elongation_ratio: real := DefaultMaxElongationRatio)
      requires Valid() && objects.Resolves(particle_1) && objects.Resolves(particle_2)
      modifies this
      ensures Valid() && Parameters() == old(Parameters()) && objects == old(objects)
      ensures var link_id := old(constraints).next;
        && !old(constraints).Resolves(link_id)
        && constraints.items.Keys == old(constraints).items.Keys + {link_id}
        && constraints.items[link_id]
           == NewLink(particle_1, particle_2, objects, length).(id := link_id, max_elongation_ratio := max_elongation_ratio)
        && constraints.items[link_id].distance
           == length(Sub(objects.items[particle_1].position, objects.items[particle_2].position))
      ensures forall id :: id in old(constraints).items ==> constraints.items[id] == old(constraints).items[id]
    {
      var inserted := constraints.Insert(NewLink(particle_1, particle_2, objects, length));
      var link_id := inserted.id;
      constraints := inserted.store;
      constraints := constraints.Set(link_id, constraints.items[link_id].(id := link_id));
      constraints := constraints.Set(link_id, constraints.items[link_id].(max_elongation_ratio := max_elongation_ratio));
    }
  }
}
