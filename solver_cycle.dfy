/**
 * The per-frame cycle of PhysicSolver as functions of the solver's two
 * stores: each pass of `update`, then the whole frame. The class in module
 * Physics runs these passes with loops and proves each loop against the
 * function here; the properties of the cycle are proved once, here.
 */
module SolverCycle {
  import opened Vectors
  import opened HandleStore
  import opened Particles
  import opened Constraints

  datatype World = World(objects: Store<Particle>, constraints: Store<LinkConstraint>)

  /** The solver's parameters, and the length function its links use. */
  datatype Params = Params(
    solver_iterations: nat,
    sub_steps: nat,
    gravity: Vec2,
    friction_coef: real,
    length: LengthFn)

  /** Store invariants: each particle is stored under its own `id` and has a positive mass. */
  ghost predicate ParticlesValid(objects: Store<Particle>) {
    && objects.Valid()
    && forall id :: id in objects.items ==>
         objects.items[id].mass > 0.0 && objects.items[id].id == id
  }

  /** Each link is stored under its own `id`, and its rest distance, a length, is not negative. */
  ghost predicate LinksValid(constraints: Store<LinkConstraint>) {
    && constraints.Valid()
    && forall id :: id in constraints.items ==>
         constraints.items[id].distance >= 0.0 && constraints.items[id].id == id
  }

  ghost predicate WorldValid(w: World) {
    ParticlesValid(w.objects) && LinksValid(w.constraints)
  }

  /**
   * `b` holds the same particles as `a` in the same layout: same IDs, masses,
   * pin flags and colours; only their motion (positions, velocity, forces)
   * may differ.
   */
  ghost predicate SameBodies(a: Store<Particle>, b: Store<Particle>) {
    && a.next == b.next && a.items.Keys == b.items.Keys
    && forall id :: id in a.items ==>
         && b.items[id].mass == a.items[id].mass
         && b.items[id].id == a.items[id].id
         && b.items[id].moving == a.items[id].moving
         && b.items[id].color == a.items[id].color
  }

  /** Every particle pinned in `a` is still in `b`, at the same position. */
  ghost predicate PinsHeld(a: Store<Particle>, b: Store<Particle>) {
    forall id :: id in a.items && !a.items[id].moving ==>
      id in b.items && b.items[id].position == a.items[id].position
  }

  /** `b` holds the same links as `a` in the same layout; only `broken` may differ. */
  ghost predicate SameLinks(a: Store<LinkConstraint>, b: Store<LinkConstraint>) {
    && a.next == b.next && a.items.Keys == b.items.Keys
    && forall id :: id in a.items ==> b.items[id] == a.items[id].(broken := b.items[id].broken)
  }

  lemma SameBodiesChain(a: Store<Particle>, b: Store<Particle>, c: Store<Particle>)
    requires SameBodies(a, b) && SameBodies(b, c)
    requires PinsHeld(a, b) && PinsHeld(b, c)
    ensures SameBodies(a, c) && PinsHeld(a, c)
  {
  }

  lemma SameBodiesKeepValid(a: Store<Particle>, b: Store<Particle>)
    requires ParticlesValid(a) && SameBodies(a, b)
    ensures ParticlesValid(b)
  {
  }

  lemma SameLinksKeepValid(a: Store<LinkConstraint>, b: Store<LinkConstraint>)
    requires LinksValid(a) && SameLinks(a, b)
    ensures LinksValid(b)
  {
  }

  // ---- the particle passes of one sub-step ----

  function AddForce(p: Particle, f: Vec2): Particle {
    p.(forces := Add(p.forces, f))
  }

  /** applyGravity: every particle's forces grow by gravity * mass; nothing else changes. */
  function Gravity(objects: Store<Particle>, g: Vec2): (r: Store<Particle>)
    ensures SameBodies(objects, r) && PinsHeld(objects, r)
    ensures forall id :: id in objects.items ==>
      r.items[id] == objects.items[id].(forces := Add(objects.items[id].forces, Scale(g, objects.items[id].mass)))
  {
    objects.(items := map id | id in objects.items :: AddForce(objects.items[id], Scale(g, objects.items[id].mass)))
  }

  function Drag(p: Particle, fc: real): Particle {
    p.(forces := Sub(p.forces, Scale(p.velocity, fc)))
  }

  /**
   * applyAirFriction: every particle's forces shrink by velocity *
   * friction_coef, with no mass scaling; nothing else changes.
   */
  function AirFriction(objects: Store<Particle>, fc: real): (r: Store<Particle>)
    ensures SameBodies(objects, r) && PinsHeld(objects, r)
    ensures forall id :: id in objects.items ==>
      r.items[id] == objects.items[id].(forces := Sub(objects.items[id].forces, Scale(objects.items[id].velocity, fc)))
  {
    objects.(items := map id | id in objects.items :: Drag(objects.items[id], fc))
  }

  /** updatePositions: `update(dt)` on every particle. */
  function Positions(objects: Store<Particle>, dt: real): (r: Store<Particle>)
    requires ParticlesValid(objects)
    ensures SameBodies(objects, r) && PinsHeld(objects, r)
    ensures forall id :: id in objects.items ==> r.items[id] == objects.items[id].Update(dt)
  {
    objects.(items := map id | id in objects.items :: objects.items[id].Update(dt))
  }

  /** updateDerivatives: `updateDerivatives(dt)` on every particle; no position changes. */
  function Derivatives(objects: Store<Particle>, dt: real): (r: Store<Particle>)
    requires dt != 0.0
    ensures SameBodies(objects, r) && PinsHeld(objects, r)
    ensures forall id :: id in objects.items ==>
      r.items[id] == objects.items[id].UpdateDerivatives(dt)
      && r.items[id].position == objects.items[id].position
  {
    objects.(items := map id | id in objects.items :: objects.items[id].UpdateDerivatives(dt))
  }

  // ---- relaxation ----

  /** `solve()` on the link stored under `lid`, written back where it was; no link there, no change. */
  function SolveAt(w: World, lid: ID, length: LengthFn): (r: World)
    requires WorldValid(w)
    ensures WorldValid(r)
  {
    if lid in w.constraints.items then
      var s := Solve(w.constraints.items[lid], w.objects, length);
      var r := World(s.objects, w.constraints.Set(lid, s.link));
      SameBodiesKeepValid(w.objects, r.objects);
      SameLinksKeepValid(w.constraints, r.constraints);
      r
    else w
  }

  /** One relaxation pass: `solve()` on the links with an ID below `n`, in increasing order. */
  function SolvePass(w: World, n: nat, length: LengthFn): (r: World)
    requires WorldValid(w)
    ensures WorldValid(r)
    decreases n
  {
    if n == 0 then w else SolveAt(SolvePass(w, n - 1, length), n - 1, length)
  }

  /** solveConstraints: `passes` complete passes over the links. */
  function Relax(w: World, passes: nat, length: LengthFn): (r: World)
    requires WorldValid(w)
    ensures WorldValid(r)
    decreases passes
  {
    if passes == 0 then w
    else
      var before := Relax(w, passes - 1, length);
      SolvePass(before, before.constraints.next, length)
  }

  /** Solving one link only moves particles, never a pinned one, and only marks the link broken. */
  lemma SolveAtKeeps(w: World, lid: ID, length: LengthFn)
    requires WorldValid(w)
    ensures var r := SolveAt(w, lid, length);
      && SameBodies(w.objects, r.objects) && PinsHeld(w.objects, r.objects)
      && SameLinks(w.constraints, r.constraints)
  {
  }

  lemma {:induction false} SolvePassKeeps(w: World, n: nat, length: LengthFn)
    requires WorldValid(w)
    ensures var r := SolvePass(w, n, length);
      && SameBodies(w.objects, r.objects) && PinsHeld(w.objects, r.objects)
      && SameLinks(w.constraints, r.constraints)
    decreases n
  {
    if n > 0 {
      var before := SolvePass(w, n - 1, length);
      SolvePassKeeps(w, n - 1, length);
      SolveAtKeeps(before, n - 1, length);
      SameBodiesChain(w.objects, before.objects, SolveAt(before, n - 1, length).objects);
    }
  }

  /** Relaxation keeps every particle's mass, pin and colour, holds pinned particles, and keeps the links. */
  lemma {:induction false} RelaxKeeps(w: World, passes: nat, length: LengthFn)
    requires WorldValid(w)
    ensures var r := Relax(w, passes, length);
      && SameBodies(w.objects, r.objects) && PinsHeld(w.objects, r.objects)
      && SameLinks(w.constraints, r.constraints)
    decreases passes
  {
    if passes > 0 {
      var before := Relax(w, passes - 1, length);
      RelaxKeeps(w, passes - 1, length);
      SolvePassKeeps(before, before.constraints.next, length);
      SameBodiesChain(w.objects, before.objects, Relax(w, passes, length).objects);
    }
  }

  // ---- one sub-step, many sub-steps ----

  /** gravity, then friction, then positions, then relaxation, then derivatives. */
  function Substep(w: World, prm: Params, dt: real): (r: World)
    requires WorldValid(w) && dt != 0.0
    ensures WorldValid(r)
  {
    var gravitated := Gravity(w.objects, prm.gravity);
    var slowed := AirFriction(gravitated, prm.friction_coef);
    SameBodiesChain(w.objects, gravitated, slowed);
    SameBodiesKeepValid(w.objects, slowed);
    var moved := Positions(slowed, dt);
    SameBodiesChain(w.objects, slowed, moved);
    SameBodiesKeepValid(w.objects, moved);
    var relaxed := Relax(World(moved, w.constraints), prm.solver_iterations, prm.length);
    var derived := Derivatives(relaxed.objects, dt);
    SameBodiesKeepValid(relaxed.objects, derived);
    World(derived, relaxed.constraints)
  }

  /** A sub-step keeps every particle's mass, pin and colour, holds pinned particles, and keeps the links. */
  lemma SubstepKeeps(w: World, prm: Params, dt: real)
    requires WorldValid(w) && dt != 0.0
    ensures var r := Substep(w, prm, dt);
      && SameBodies(w.objects, r.objects) && PinsHeld(w.objects, r.objects)
      && SameLinks(w.constraints, r.constraints)
  {
    var gravitated := Gravity(w.objects, prm.gravity);
    var slowed := AirFriction(gravitated, prm.friction_coef);
    SameBodiesChain(w.objects, gravitated, slowed);
    SameBodiesKeepValid(w.objects, slowed);
    var moved := Positions(slowed, dt);
    SameBodiesChain(w.objects, slowed, moved);
    var relaxed := Relax(World(moved, w.constraints), prm.solver_iterations, prm.length);
    RelaxKeeps(World(moved, w.constraints), prm.solver_iterations, prm.length);
    SameBodiesChain(w.objects, moved, relaxed.objects);
    var derived := Derivatives(relaxed.objects, dt);
    SameBodiesChain(w.objects, relaxed.objects, derived);
  }

  function Substeps(w: World, prm: Params, n: nat, dt: real): (r: World)
    requires WorldValid(w) && (n > 0 ==> dt != 0.0)
    ensures WorldValid(r)
    decreases n
  {
    if n == 0 then w else Substep(Substeps(w, prm, n - 1, dt), prm, dt)
  }

  lemma {:induction false} SubstepsKeep(w: World, prm: Params, n: nat, dt: real)
    requires WorldValid(w) && (n > 0 ==> dt != 0.0)
    ensures var r := Substeps(w, prm, n, dt);
      && SameBodies(w.objects, r.objects) && PinsHeld(w.objects, r.objects)
      && SameLinks(w.constraints, r.constraints)
    decreases n
  {
    if n > 0 {
      var before := Substeps(w, prm, n - 1, dt);
      SubstepsKeep(w, prm, n - 1, dt);
      SubstepKeeps(before, prm, dt);
      SameBodiesChain(w.objects, before.objects, Substeps(w, prm, n, dt).objects);
    }
  }

  // ---- pruning ----

  /** The links with an ID below `n` that are not valid erased, every other link as it was. */
  function PruneBelow(constraints: Store<LinkConstraint>, objects: Store<Particle>, n: nat): (r: Store<LinkConstraint>)
    requires LinksValid(constraints)
    ensures LinksValid(r) && r.next == constraints.next
    ensures forall id :: id in r.items <==>
      id in constraints.items && (id >= n || constraints.items[id].IsValid(objects))
    ensures forall id :: id in r.items ==> r.items[id] == constraints.items[id]
  {
    constraints.(items := map id | id in constraints.items && (id >= n || constraints.items[id].IsValid(objects))
                                :: constraints.items[id])
  }

  /**
   * removeBrokenLinks: exactly the links that are not valid (broken, or
   * with an endpoint that no longer resolves) are erased; every valid link
   * survives unchanged, and the particles are untouched.
   */
  function Prune(w: World): (r: World)
    requires WorldValid(w)
    ensures WorldValid(r) && r.objects == w.objects && r.constraints.next == w.constraints.next
    ensures forall id :: id in r.constraints.items <==>
      id in w.constraints.items && w.constraints.items[id].IsValid(w.objects)
    ensures forall id :: id in r.constraints.items ==> r.constraints.items[id] == w.constraints.items[id]
  {
    World(w.objects, PruneBelow(w.constraints, w.objects, w.constraints.next))
  }

  // ---- the frame ----

  /** dt / sub_steps; the source divides by zero when there are no sub-steps, a value then never used. */
  function SubStepDt(dt: real, sub_steps: nat): (r: real)
    ensures sub_steps > 0 && dt != 0.0 ==> r != 0.0
  {
    if sub_steps == 0 then 0.0 else dt / (sub_steps as real)
  }

  /**
   * update(dt): prune once, then `sub_steps` sub-steps of dt / sub_steps.
   */
  function Step(w: World, prm: Params, dt: real): (r: World)
    requires WorldValid(w) && (prm.sub_steps > 0 ==> dt != 0.0)
    ensures WorldValid(r)
  {
    Substeps(Prune(w), prm, prm.sub_steps, SubStepDt(dt, prm.sub_steps))
  }

  /**
   * What a frame promises: no particle is added, removed or re-weighted,
   * pinned particles stay where they are, and the links left are exactly
   * the valid ones of the start of the frame (some of them possibly broken by now).
   */
  lemma StepKeeps(w: World, prm: Params, dt: real)
    requires WorldValid(w) && (prm.sub_steps > 0 ==> dt != 0.0)
    ensures var r := Step(w, prm, dt);
      && SameBodies(w.objects, r.objects) && PinsHeld(w.objects, r.objects)
      && (forall id :: id in r.constraints.items <==>
            id in w.constraints.items && w.constraints.items[id].IsValid(w.objects))
      && (forall id :: id in r.constraints.items ==>
            r.constraints.items[id] == w.constraints.items[id].(broken := r.constraints.items[id].broken))
  {
    SubstepsKeep(Prune(w), prm, prm.sub_steps, SubStepDt(dt, prm.sub_steps));
  }

  // ---- single iterations of the solver's loops, for the proofs in module Physics ----

  lemma SolvePassAdvance(w: World, n: nat, length: LengthFn, current: World, after: World)
    requires WorldValid(w)
    requires current == SolvePass(w, n, length)
    requires after == SolveAt(current, n, length)
    ensures after == SolvePass(w, n + 1, length)
  {
  }

  lemma RelaxAdvance(w: World, n: nat, length: LengthFn, before: World, after: World)
    requires WorldValid(w)
    requires before == Relax(w, n, length)
    requires after == SolvePass(before, before.constraints.next, length)
    ensures after == Relax(w, n + 1, length)
  {
  }

  /** The five passes run one after the other make one sub-step. */
  lemma SubstepOfPasses(prm: Params, dt: real, w: World, gravitated: World, slowed: World,
                        moved: World, relaxed: World, derived: World)
    requires WorldValid(w) && dt != 0.0
    requires gravitated == World(Gravity(w.objects, prm.gravity), w.constraints)
    requires slowed == World(AirFriction(gravitated.objects, prm.friction_coef), w.constraints)
    requires WorldValid(slowed)
    requires moved == World(Positions(slowed.objects, dt), w.constraints)
    requires WorldValid(moved)
    requires relaxed == Relax(moved, prm.solver_iterations, prm.length)
    requires derived == World(Derivatives(relaxed.objects, dt), relaxed.constraints)
    ensures derived == Substep(w, prm, dt)
  {
  }

  lemma SubstepsAdvance(w: World, prm: Params, n: nat, dt: real, before: World, after: World)
    requires WorldValid(w) && dt != 0.0
    requires before == Substeps(w, prm, n, dt)
    requires after == Substep(before, prm, dt)
    ensures after == Substeps(w, prm, n + 1, dt)
  {
  }

  /**
   * One iteration of the loop of removeBrokenLinks: a link under `n` is still
   * there as it was, and erasing it when it is not valid extends the prune to `n + 1`.
   */
  lemma PruneAdvance(constraints: Store<LinkConstraint>, objects: Store<Particle>, n: nat,
                     current: Store<LinkConstraint>)
    requires LinksValid(constraints) && current == PruneBelow(constraints, objects, n)
    ensures n in constraints.items ==>
      current.Resolves(n) && current.items[n] == constraints.items[n] && current.items[n].id == n
    ensures !current.Resolves(n) || current.items[n].IsValid(objects) ==>
      current == PruneBelow(constraints, objects, n + 1)
    ensures current.Resolves(n) && !current.items[n].IsValid(objects) ==>
      current.Erase(n) == PruneBelow(constraints, objects, n + 1)
  {
    var after := PruneBelow(constraints, objects, n + 1);
    if current.Resolves(n) && !current.items[n].IsValid(objects) {
      assert current.Erase(n).items == after.items;
    } else {
      assert current.items == after.items;
    }
  }

  /** A frame is the prune followed by all the sub-steps. */
  lemma StepOfSubsteps(w: World, prm: Params, dt: real, pruned: World, n: nat, sdt: real, r: World)
    requires WorldValid(w) && (prm.sub_steps > 0 ==> dt != 0.0)
    requires pruned == Prune(w) && n == prm.sub_steps && sdt == SubStepDt(dt, prm.sub_steps)
    requires r == Substeps(pruned, prm, n, sdt)
    ensures r == Step(w, prm, dt)
  {
  }

  // ---- properties of the frame ----

  /** With no sub-steps a frame only prunes. */
  lemma NoSubStepsOnlyPrunes(w: World, prm: Params, dt: real)
    requires WorldValid(w) && prm.sub_steps == 0
    ensures Step(w, prm, dt) == Prune(w)
  {
  }

  /**
   * A link whose endpoint was erased before the frame is gone after it,
   * on that same call.
   */
  lemma ErasedEndpointDropsLink(w: World, prm: Params, dt: real, pid: ID)
    requires WorldValid(w) && (prm.sub_steps > 0 ==> dt != 0.0)
    requires !w.objects.Resolves(pid)
    ensures forall lid :: lid in Step(w, prm, dt).constraints.items ==>
      Step(w, prm, dt).constraints.items[lid].particle_1 != pid
      && Step(w, prm, dt).constraints.items[lid].particle_2 != pid
  {
    StepKeeps(w, prm, dt);
  }

  /** Once every particle is erased, the next frame leaves no link at all. */
  lemma NoParticlesNoLinks(w: World, prm: Params, dt: real)
    requires WorldValid(w) && (prm.sub_steps > 0 ==> dt != 0.0)
    requires w.objects.items == map[]
    ensures Step(w, prm, dt).constraints.items == map[]
  {
    var r := Step(w, prm, dt);
    StepKeeps(w, prm, dt);
    assert forall id :: id !in r.constraints.items;
  }
}
