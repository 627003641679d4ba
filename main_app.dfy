/**
 * The interactive part of the program's main loop: selecting particles by
 * a radius around the mouse, pushing the selected ones, erasing them, the
 * choice of wind zones, the input flags and the order of one frame.
 */
module ClothApp {
  import opened Vectors
  import opened HandleStore
  import opened Particles
  import opened SolverCycle
  import opened Physics

  /** The fixed time step of one frame. */
  const Dt: real := 1.0 / 60.0

  // ---- selection by radius ----

  /** isInRadius: the squared distance to `center` is strictly below radius². */
  predicate IsInRadius(p: Particle, center: Vec2, radius: real) {
    var v := Sub(center, p.position);
    v.x * v.x + v.y * v.y < radius * radius
  }

  /** A particle exactly `radius` away is not selected. */
  lemma BoundaryIsOutside(p: Particle, center: Vec2, radius: real)
    requires Dot(Sub(center, p.position), Sub(center, p.position)) == radius * radius
    ensures !IsInRadius(p, center, radius)
  {
  }

  lemma SquareNonNegative(a: real)
    ensures a * a >= 0.0
  {
    if a < 0.0 {
      assert a * a == (-a) * (-a);
    }
  }

  /** A zero radius selects nothing. */
  lemma ZeroRadiusSelectsNothing(p: Particle, center: Vec2)
    ensures !IsInRadius(p, center, 0.0)
  {
    var v := Sub(center, p.position);
    SquareNonNegative(v.x);
    SquareNonNegative(v.y);
  }

  /** Only radius² matters: a negative radius selects as its absolute value does. */
  lemma RadiusSignIrrelevant(p: Particle, center: Vec2, radius: real)
    ensures IsInRadius(p, center, -radius) == IsInRadius(p, center, radius)
  {
    assert (-radius) * (-radius) == radius * radius;
  }

  lemma SquareMonotone(a: real, b: real)
    requires 0.0 <= a <= b
    ensures a * a <= b * b
  {
    assert a * a <= a * b;
    assert a * b <= b * b;
  }

  /** A larger radius selects at least the particles a smaller one does. */
  lemma LargerRadiusSelectsMore(p: Particle, center: Vec2, r_1: real, r_2: real)
    requires 0.0 <= r_1 <= r_2
    ensures IsInRadius(p, center, r_1) ==> IsInRadius(p, center, r_2)
  {
    SquareMonotone(r_1, r_2);
  }

  // ---- pushing the selection ----

  /**
   * The particles after applyForceOnCloth: `force` added to the forces of
   * exactly the particles within `radius` of `center`; nothing else changes.
   */
  function Pushed(objects: Store<Particle>, center: Vec2, radius: real, force: Vec2): (r: Store<Particle>)
    ensures r.next == objects.next && r.items.Keys == objects.items.Keys
    ensures forall id :: id in objects.items && IsInRadius(objects.items[id], center, radius) ==>
      r.items[id] == objects.items[id].(forces := Add(objects.items[id].forces, force))
    ensures forall id :: id in objects.items && !IsInRadius(objects.items[id], center, radius) ==>
      r.items[id] == objects.items[id]
  {
    objects.(items := map id | id in objects.items ::
      if IsInRadius(objects.items[id], center, radius) then AddForce(objects.items[id], force)
      else objects.items[id])
  }

  /** Pushing moves nothing and keeps every particle's mass, pin and colour. */
  lemma PushKeepsBodies(objects: Store<Particle>, center: Vec2, radius: real, force: Vec2)
    ensures var r := Pushed(objects, center, radius, force);
      && SameBodies(objects, r) && PinsHeld(objects, r)
      && (forall id :: id in objects.items ==> r.items[id].position == objects.items[id].position)
      && (ParticlesValid(objects) ==> ParticlesValid(r))
  {
  }

  /**
   * Pushing by `force` and then by its opposite gives the particles back:
   * positions do not change, so the same particles are selected twice.
   */
  lemma PushThenPullRestores(objects: Store<Particle>, center: Vec2, radius: real, force: Vec2)
    ensures Pushed(Pushed(objects, center, radius, force), center, radius, Neg(force)) == objects
  {
    var once := Pushed(objects, center, radius, force);
    var back := Pushed(once, center, radius, Neg(force));
    forall id | id in objects.items
      ensures back.items[id] == objects.items[id]
    {
      assert once.items[id].position == objects.items[id].position;
    }
    assert back.items == objects.items;
  }

  /** applyForceOnCloth: for every particle, in layout order, the force is added when it is in the radius. */
  method ApplyForceOnCloth(position: Vec2, radius: real, force: Vec2, solver: PhysicSolver)
    requires solver.Valid()
    modifies solver`objects
    ensures solver.Valid()
    ensures solver.objects == Pushed(old(solver.objects), position, radius, force)
  {
    ghost var before := solver.objects;
    var id := 0;
    while id < solver.objects.next
      invariant 0 <= id <= before.next && solver.objects.next == before.next
      invariant solver.objects.items.Keys == before.items.Keys
      invariant forall k :: k in before.items ==>
        solver.objects.items[k]
        == (if k < id && IsInRadius(before.items[k], position, radius) then AddForce(before.items[k], force)
            else before.items[k])
    {
      if solver.objects.Resolves(id) && IsInRadius(solver.objects.items[id], position, radius) {
        solver.objects := solver.objects.Set(id, AddForce(solver.objects.items[id], force));
      }
      id := id + 1;
    }
    assert solver.objects.items == Pushed(before, position, radius, force).items;
  }

  // ---- erasing the selection ----

  /** The particles with an ID below `n` that are within the radius erased, the others kept. */
  function ErasedBelow(objects: Store<Particle>, center: Vec2, radius: real, n: nat): (r: Store<Particle>)
    requires ParticlesValid(objects)
    ensures ParticlesValid(r) && r.next == objects.next
    ensures forall id :: id in r.items <==>
      id in objects.items && (id >= n || !IsInRadius(objects.items[id], center, radius))
    ensures forall id :: id in r.items ==> r.items[id] == objects.items[id]
  {
    objects.(items := map id | id in objects.items && (id >= n || !IsInRadius(objects.items[id], center, radius))
                            :: objects.items[id])
  }

  /** The erase loop of the main loop: exactly the particles within the radius are gone. */
  function Erased(objects: Store<Particle>, center: Vec2, radius: real): (r: Store<Particle>)
    requires ParticlesValid(objects)
    ensures ParticlesValid(r) && r.next == objects.next
    ensures forall id :: id in r.items <==> id in objects.items && !IsInRadius(objects.items[id], center, radius)
    ensures forall id :: id in r.items ==> r.items[id] == objects.items[id]
  {
    ErasedBelow(objects, center, radius, objects.next)
  }

  /** Erasing twice with the same mouse position and radius erases nothing more. */
  lemma EraseIdempotent(objects: Store<Particle>, center: Vec2, radius: real)
    requires ParticlesValid(objects)
    ensures Erased(Erased(objects, center, radius), center, radius) == Erased(objects, center, radius)
  {
    var once := Erased(objects, center, radius);
    assert Erased(once, center, radius).items == once.items;
  }

  /** One iteration of the erase loop, as PruneAdvance is for removeBrokenLinks. */
  lemma EraseAdvance(objects: Store<Particle>, center: Vec2, radius: real, n: nat, current: Store<Particle>)
    requires ParticlesValid(objects) && current == ErasedBelow(objects, center, radius, n)
    ensures n in objects.items ==>
      current.Resolves(n) && current.items[n] == objects.items[n] && current.items[n].id == n
    ensures !current.Resolves(n) || !IsInRadius(current.items[n], center, radius) ==>
      current == ErasedBelow(objects, center, radius, n + 1)
    ensures current.Resolves(n) && IsInRadius(current.items[n], center, radius) ==>
      current.Erase(n) == ErasedBelow(objects, center, radius, n + 1)
  {
    var after := ErasedBelow(objects, center, radius, n + 1);
    if current.Resolves(n) && IsInRadius(current.items[n], center, radius) {
      assert current.Erase(n).items == after.items;
    } else {
      assert current.items == after.items;
    }
  }

  /** The erase loop: every particle within the radius is erased through its own `id`. */
  method EraseInRadius(center: Vec2, radius: real, solver: PhysicSolver)
    requires solver.Valid()
    modifies solver`objects
    ensures solver.Valid()
    ensures solver.objects == Erased(old(solver.objects), center, radius)
  {
    ghost var before := solver.objects;
    var n := solver.objects.next;
    var id := 0;
    while id < n
      invariant 0 <= id <= n && n == before.next
      invariant solver.objects == ErasedBelow(before, center, radius, id)
    {
      EraseAdvance(before, center, radius, id, solver.objects);
      if solver.objects.Resolves(id) {
        var p := solver.objects.items[id];
        if IsInRadius(p, center, radius) {
          solver.objects := solver.objects.Erase(p.id);
        }
      }
      id := id + 1;
    }
  }

  // ---- dragging ----

  /** The drag force: how far the mouse moved since the last frame, times the drag coefficient. */
  function DragForce(mouse_position: Vec2, last_mouse_position: Vec2, mouse_drag_force: real): Vec2 {
    Scale(Sub(mouse_position, last_mouse_position), mouse_drag_force)
  }

  /** A mouse that has not moved drags with no force; the force grows linearly with the coefficient. */
  lemma DragForceProperties(m: Vec2, last: Vec2, k: real, j: real)
    ensures DragForce(m, m, k) == Zero
    ensures DragForce(m, last, k + j) == Add(DragForce(m, last, k), DragForce(m, last, j))
    ensures DragForce(m, last, -k) == Neg(DragForce(m, last, k))
  {
  }

  // ---- wind ----

  /** A wind zone (its type is not part of this model beyond its three vectors). */
  datatype Wind = Wind(size: Vec2, position: Vec2, force: Vec2)

  /** The two default zones: as tall as the window, pushing right with forces 1000 and 3000. */
  function DefaultWinds(window_height: nat): seq<Wind> {
    [ Wind(Vec2(100.0, window_height as real), Zero, Vec2(1000.0, 0.0)),
      Wind(Vec2(20.0, window_height as real), Zero, Vec2(3000.0, 0.0)) ]
  }

  /**
   * The zones given to the wind manager: the configured ones, in order, if
   * there are any; otherwise the two default zones, unless they are disabled.
   */
  method SelectWinds(configured: seq<Wind>, disable_default_wind: bool, window_height: nat)
    returns (winds: seq<Wind>)
    ensures |configured| > 0 ==> winds == configured
    ensures |configured| == 0 && !disable_default_wind ==> |winds| == 2 && winds == DefaultWinds(window_height)
    ensures |configured| == 0 && disable_default_wind ==> winds == []
  {
    winds := [];
    if |configured| == 0 {
      if !disable_default_wind {
        winds := winds + [Wind(Vec2(100.0, window_height as real), Vec2(0.0, 0.0), Vec2(1000.0, 0.0))];
        winds := winds + [Wind(Vec2(20.0, window_height as real), Vec2(0.0, 0.0), Vec2(3000.0, 0.0))];
      }
    } else {
      for i := 0 to |configured|
        invariant winds == configured[..i]
      {
        winds := winds + [configured[i]];
      }
    }
  }

  /**
   * The effect of the wind manager's update, whose code is not part of this
   * model: it is taken to add, to each particle that has an entry in
   * `wind_forces`, that entry's force.
   */
  function Blown(objects: Store<Particle>, wind_forces: map<ID, Vec2>): (r: Store<Particle>)
    ensures SameBodies(objects, r) && PinsHeld(objects, r)
    ensures forall id :: id in objects.items ==> r.items[id].position == objects.items[id].position
    ensures ParticlesValid(objects) ==> ParticlesValid(r)
  {
    objects.(items := map id | id in objects.items ::
      if id in wind_forces then AddForce(objects.items[id], wind_forces[id]) else objects.items[id])
  }

  // ---- one frame ----

  /**
   * The particles a frame hands to solver.update: pushed when dragging,
   * then thinned when erasing, then blown when the wind is on.
   */
  function Interacted(objects: Store<Particle>, dragging: bool, erasing: bool, wind_blowing: bool,
                      mouse_position: Vec2, drag_force: Vec2, drag_radius: real, erase_radius: real,
                      wind_forces: map<ID, Vec2>): (r: Store<Particle>)
    requires ParticlesValid(objects)
    ensures ParticlesValid(r)
  {
    var pushed := if dragging then Pushed(objects, mouse_position, drag_radius, drag_force) else objects;
    PushKeepsBodies(objects, mouse_position, drag_radius, drag_force);
    var erased := if erasing then Erased(pushed, mouse_position, erase_radius) else pushed;
    if wind_blowing then Blown(erased, wind_forces) else erased
  }

  /**
   * Nothing of the mouse reaches a pinned particle: one that survives the
   * frame's erase is where it was once the frame is over.
   */
  lemma PinnedSurvivorStays(w: World, prm: Params, dragging: bool, erasing: bool, wind_blowing: bool,
                            mouse_position: Vec2, drag_force: Vec2, drag_radius: real, erase_radius: real,
                            wind_forces: map<ID, Vec2>, id: ID)
    requires WorldValid(w) && (prm.sub_steps > 0 ==> Dt != 0.0)
    requires id in w.objects.items && !w.objects.items[id].moving
    requires !erasing || !IsInRadius(w.objects.items[id], mouse_position, erase_radius)
    ensures var input := Interacted(w.objects, dragging, erasing, wind_blowing, mouse_position,
                                    drag_force, drag_radius, erase_radius, wind_forces);
      var after := Step(World(input, w.constraints), prm, Dt);
      id in after.objects.items && after.objects.items[id].position == w.objects.items[id].position
  {
    var pushed := if dragging then Pushed(w.objects, mouse_position, drag_radius, drag_force) else w.objects;
    PushKeepsBodies(w.objects, mouse_position, drag_radius, drag_force);
    assert id in pushed.items && !pushed.items[id].moving;
    assert pushed.items[id].position == w.objects.items[id].position;
    var erased := if erasing then Erased(pushed, mouse_position, erase_radius) else pushed;
    assert id in erased.items && erased.items[id] == pushed.items[id];
    var input := Interacted(w.objects, dragging, erasing, wind_blowing, mouse_position,
                            drag_force, drag_radius, erase_radius, wind_forces);
    assert id in input.items && !input.items[id].moving;
    assert input.items[id].position == w.objects.items[id].position;
    StepKeeps(World(input, w.constraints), prm, Dt);
  }

  /** The state of the main loop, and the callbacks that change it. */
  class App {
    const solver: PhysicSolver
    const mouse_drag_force: real
    const mouse_drag_radius: real
    const erase_radius: real
    var winds: seq<Wind>
    var last_mouse_position: Vec2
    var dragging: bool
    var erasing: bool
    var wind_blowing: bool

    /** The flags before the first frame: not dragging, not erasing, wind on. */
    constructor (solver: PhysicSolver, mouse_drag_force: real, mouse_drag_radius: real, erase_radius: real,
                 winds: seq<Wind>)
      ensures this.solver == solver && this.winds == winds
      ensures this.mouse_drag_force == mouse_drag_force && this.mouse_drag_radius == mouse_drag_radius
      ensures this.erase_radius == erase_radius
      ensures !dragging && !erasing && wind_blowing && last_mouse_position == Zero
    {
      this.solver := solver;
      this.mouse_drag_force := mouse_drag_force;
      this.mouse_drag_radius := mouse_drag_radius;
      this.erase_radius := erase_radius;
      this.winds := winds;
      last_mouse_position := Zero;
      dragging := false;
      erasing := false;
      wind_blowing := true;
    }

    /** Right button pressed: start dragging from the mouse's world position. */
    method PressRight(world_mouse_position: Vec2)
      modifies this`dragging, this`last_mouse_position
      ensures dragging && last_mouse_position == world_mouse_position
    {
      dragging := true;
      last_mouse_position := world_mouse_position;
    }

    /** Right button released. */
    method ReleaseRight()
      modifies this`dragging
      ensures !dragging
    {
      dragging := false;
    }

    /** Middle button pressed. */
    method PressMiddle()
      modifies this`erasing
      ensures erasing
    {
      erasing := true;
    }

    /** Middle button released. */
    method ReleaseMiddle()
      modifies this`erasing
      ensures !erasing
    {
      erasing := false;
    }

    /** Space: the wind is switched off when on, and on when off. */
    method PressSpace()
      modifies this`wind_blowing
      ensures wind_blowing == !old(wind_blowing)
    {
      wind_blowing := !wind_blowing;
    }

    /**
     * One iteration of the main loop, up to rendering: drag, then erase,
     * then the wind if it blows, then solver.update with the fixed step.
     * `mouse_position` is the mouse in world coordinates; `wind_forces`
     * stands for what the wind manager adds.
     */
    method Frame(mouse_position: Vec2, wind_forces: map<ID, Vec2>)
      requires solver.Valid()
      modifies this`last_mouse_position, solver`objects, solver`constraints
      ensures solver.Valid()
      ensures last_mouse_position == (if dragging then mouse_position else old(last_mouse_position))
      ensures solver.State()
        == Step(World(Interacted(old(solver.objects), dragging, erasing, wind_blowing, mouse_position,
                                 DragForce(mouse_position, old(last_mouse_position), mouse_drag_force),
                                 mouse_drag_radius, erase_radius, wind_forces),
                      old(solver.constraints)),
                old(solver.Parameters()), Dt)
    {
      ghost var start := solver.objects;
      ghost var force := DragForce(mouse_position, last_mouse_position, mouse_drag_force);
      if dragging {
        var mouse_speed := Sub(mouse_position, last_mouse_position);
        var mouse_force := Scale(mouse_speed, mouse_drag_force);
        last_mouse_position := mouse_position;
        ApplyForceOnCloth(mouse_position, mouse_drag_radius, mouse_force, solver);
      }
      PushKeepsBodies(start, mouse_position, mouse_drag_radius, force);
      if erasing {
        EraseInRadius(mouse_position, erase_radius, solver);
      }
      if wind_blowing {
        solver.objects := Blown(solver.objects, wind_forces);
      }
      solver.Update(Dt);
    }
  }
}
