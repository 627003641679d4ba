/**
 * The renderer: flattens the solver's links, in the store's layout order,
 * into a line list with two vertices per link.
 */
module Rendering {
  import opened Vectors
  import opened HandleStore
  import opened Particles
  import opened Constraints
  import opened SolverCycle
  import opened Physics

  datatype ColorMode = Default | Gradient

  /** sf::Vertex: position, colour and texture coordinates. */
  datatype Vertex = Vertex(position: Vec2, color: Color, texCoords: Vec2)

  /** sf::Vertex(): at the origin, white. */
  const DefaultVertex: Vertex := Vertex(Zero, White, Zero)

  /** Both handles of every link resolve, which dereferencing them needs. */
  ghost predicate EndpointsLive(w: World) {
    forall id :: id in w.constraints.items ==>
      w.objects.Resolves(w.constraints.items[id].particle_1)
      && w.objects.Resolves(w.constraints.items[id].particle_2)
  }

  /**
   * After a frame every link's endpoints resolve: the frame begins by
   * erasing the links that are not valid, and sub-steps erase no particle.
   */
  lemma FrameLeavesEndpointsLive(w: World, prm: Params, dt: real)
    requires WorldValid(w) && (prm.sub_steps > 0 ==> dt != 0.0)
    ensures EndpointsLive(Step(w, prm, dt))
  {
    StepKeeps(w, prm, dt);
  }

  /** sf::VertexArray::resize(n): the first n vertices kept, default ones added after the old end. */
  function Resized(va: seq<Vertex>, n: nat): (r: seq<Vertex>)
    ensures |r| == n
    ensures forall k :: 0 <= k < n ==> r[k] == (if k < |va| then va[k] else DefaultVertex)
  {
    if n <= |va| then va[..n] else va + seq(n - |va|, _ => DefaultVertex)
  }

  /**
   * What updateVA writes into a vertex for the endpoint `p`: its position,
   * and in Default mode its colour; in Gradient mode the colour is left as it was.
   */
  function LinkVertex(v: Vertex, p: Particle, cm: ColorMode): (r: Vertex)
    ensures r.position == p.position && r.texCoords == v.texCoords
    ensures r.color == (if cm == Default then p.color else v.color)
  {
    if cm == Default then v.(position := p.position, color := p.color) else v.(position := p.position)
  }

  /** The links in the store's layout order: the `data` vector the renderer indexes. */
  function LinksInLayout(constraints: Store<LinkConstraint>): (links: seq<LinkConstraint>)
    ensures |links| == |constraints.Layout()|
    ensures forall i :: 0 <= i < |links| ==> links[i] == constraints.items[constraints.Layout()[i]]
  {
    var layout := constraints.Layout();
    seq(|layout|, i requires 0 <= i < |layout| => constraints.items[layout[i]])
  }

  ghost predicate EndsResolve(links: seq<LinkConstraint>, objects: Store<Particle>) {
    forall i :: 0 <= i < |links| ==> objects.Resolves(links[i].particle_1) && objects.Resolves(links[i].particle_2)
  }

  /** `va` with vertices 2i and 2i + 1 replaced by v_1 and v_2. */
  function WritePair(va: seq<Vertex>, i: nat, v_1: Vertex, v_2: Vertex): (r: seq<Vertex>)
    requires 2 * i + 1 < |va|
    ensures |r| == |va| && r[2 * i] == v_1 && r[2 * i + 1] == v_2
    ensures forall j :: 0 <= j < |va| / 2 && j != i ==> r[2 * j] == va[2 * j] && r[2 * j + 1] == va[2 * j + 1]
    ensures forall k :: 2 * i + 1 < k < |va| ==> r[k] == va[k]
  {
    va[2 * i := v_1][2 * i + 1 := v_2]
  }

  /**
   * The loop of updateVA over a buffer of two vertices per link: for link
   * i, the position of vertex 2i (2i + 1) becomes that of its first
   * (second) particle, and in Default mode so does the colour.
   */
  method WriteLinkVertices(base: seq<Vertex>, links: seq<LinkConstraint>, objects: Store<Particle>, cm: ColorMode)
    returns (va: seq<Vertex>)
    requires EndsResolve(links, objects) && |base| == 2 * |links|
    ensures |va| == |base|
    ensures forall i :: 0 <= i < |links| ==>
      && va[2 * i] == LinkVertex(base[2 * i], objects.items[links[i].particle_1], cm)
      && va[2 * i + 1] == LinkVertex(base[2 * i + 1], objects.items[links[i].particle_2], cm)
  {
    va := base;
    for i := 0 to |links|
      invariant |va| == |base|
      invariant forall k :: 2 * i <= k < |va| ==> va[k] == base[k]
      invariant forall j :: 0 <= j < i ==>
        && va[2 * j] == LinkVertex(base[2 * j], objects.items[links[j].particle_1], cm)
        && va[2 * j + 1] == LinkVertex(base[2 * j + 1], objects.items[links[j].particle_2], cm)
    {
      var current_link := links[i];
      var p_1 := objects.items[current_link.particle_1];
      var p_2 := objects.items[current_link.particle_2];
      var v_1 := va[2 * i].(position := p_1.position);
      var v_2 := va[2 * i + 1].(position := p_2.position);
      if cm == Default {
        v_1 := v_1.(color := p_1.color);
        v_2 := v_2.(color := p_2.color);
      } else if cm == Gradient {
      }
      va := WritePair(va, i, v_1, v_2);
    }
  }

  class Renderer {
    const solver: PhysicSolver
    var va: seq<Vertex>
    var cm: ColorMode

    /** Renderer(s): an empty line list, Default colours. */
    constructor (s: PhysicSolver)
      ensures solver == s && va == [] && cm == Default
    {
      solver := s;
      va := [];
      cm := Default;
    }

    /** setColorMode: only the mode changes. */
    method SetColorMode(cmode: ColorMode)
      modifies this`cm
      ensures cm == cmode
    {
      cm := cmode;
    }

    /**
     * updateVA: two vertices per link, in layout order; vertex 2i at link
     * i's first particle and 2i + 1 at its second, coloured as the particles
     * in Default mode, colours left alone in Gradient mode. The solver is only read.
     */
    method UpdateVA()
      requires solver.constraints.Valid() && EndpointsLive(solver.State())
      modifies this`va
      ensures |va| == 2 * solver.constraints.Size()
      ensures var links := LinksInLayout(solver.constraints);
        && |va| == 2 * |links|
        && forall i :: 0 <= i < |links| ==>
             && solver.objects.Resolves(links[i].particle_1) && solver.objects.Resolves(links[i].particle_2)
             && va[2 * i] == LinkVertex(Resized(old(va), |va|)[2 * i], solver.objects.items[links[i].particle_1], cm)
             && va[2 * i + 1] == LinkVertex(Resized(old(va), |va|)[2 * i + 1], solver.objects.items[links[i].particle_2], cm)
    {
      LayoutSize(solver.constraints);
      var links := LinksInLayout(solver.constraints);
      var links_count := solver.constraints.Size();
      va := Resized(va, 2 * links_count);
      va := WriteLinkVertices(va, links, solver.objects, cm);
    }
  }
}
