/**
 * The pan and zoom state of the view: where the world is looked at from,
 * how much it is magnified, and the transform from world to screen
 * coordinates that follows from the two.
 */
module Viewport {
  import opened Vectors

  const BaseZoomDefault: real := 1.0
  const WheelScrollAmount: real := 1.2

  /**
   * sf::Transform on the affine maps it is used for here: the 3x3 matrix
   * whose last row is (0, 0, 1), sending (x, y) to
   * (a00 x + a01 y + a02, a10 x + a11 y + a12).
   */
  datatype Transform = Transform(a00: real, a01: real, a02: real, a10: real, a11: real, a12: real)

  const Identity: Transform := Transform(1.0, 0.0, 0.0, 0.0, 1.0, 0.0)

  function TransformPoint(t: Transform, p: Vec2): Vec2 {
    Vec2(t.a00 * p.x + t.a01 * p.y + t.a02, t.a10 * p.x + t.a11 * p.y + t.a12)
  }

  /** combine: the matrix product m * n, which applies n first, then m. */
  function Combine(m: Transform, n: Transform): Transform {
    Transform(
      m.a00 * n.a00 + m.a01 * n.a10, m.a00 * n.a01 + m.a01 * n.a11, m.a00 * n.a02 + m.a01 * n.a12 + m.a02,
      m.a10 * n.a00 + m.a11 * n.a10, m.a10 * n.a01 + m.a11 * n.a11, m.a10 * n.a02 + m.a11 * n.a12 + m.a12)
  }

  /** translate(v): combine with the translation by v. */
  function Translate(t: Transform, v: Vec2): Transform {
    Combine(t, Transform(1.0, 0.0, v.x, 0.0, 1.0, v.y))
  }

  /** scale(sx, sy): combine with the scaling about the origin. */
  function ScaleBy(t: Transform, sx: real, sy: real): Transform {
    Combine(t, Transform(sx, 0.0, 0.0, 0.0, sy, 0.0))
  }

  /** One product expanded: (a x + b y) k == a (x k) + b (y k). */
  lemma Distribute(a: real, b: real, x: real, y: real, k: real)
    ensures (a * x + b * y) * k == a * (x * k) + b * (y * k)
  {
  }

  /** One row of the product applied to a point is that row applied to the inner transform's image. */
  lemma CombineRow(a: real, b: real, c: real, n: Transform, p: Vec2)
    ensures (a * n.a00 + b * n.a10) * p.x + (a * n.a01 + b * n.a11) * p.y + (a * n.a02 + b * n.a12 + c)
      == a * (n.a00 * p.x + n.a01 * p.y + n.a02) + b * (n.a10 * p.x + n.a11 * p.y + n.a12) + c
  {
    Distribute(a, b, n.a00, n.a10, p.x);
    Distribute(a, b, n.a01, n.a11, p.y);
    assert a * (n.a00 * p.x + n.a01 * p.y + n.a02) == a * (n.a00 * p.x) + a * (n.a01 * p.y) + a * n.a02;
    assert b * (n.a10 * p.x + n.a11 * p.y + n.a12) == b * (n.a10 * p.x) + b * (n.a11 * p.y) + b * n.a12;
  }

  /** The combined transform maps a point as the second and then the first would. */
  lemma CombineIsComposition(m: Transform, n: Transform, p: Vec2)
    ensures TransformPoint(Combine(m, n), p) == TransformPoint(m, TransformPoint(n, p))
  {
    var c := Combine(m, n);
    var q := TransformPoint(n, p);
    assert q.x == n.a00 * p.x + n.a01 * p.y + n.a02 && q.y == n.a10 * p.x + n.a11 * p.y + n.a12;
    CombineRow(m.a00, m.a01, m.a02, n, p);
    CombineRow(m.a10, m.a11, m.a12, n, p);
    assert TransformPoint(c, p).x == m.a00 * q.x + m.a01 * q.y + m.a02;
    assert TransformPoint(c, p).y == m.a10 * q.x + m.a11 * q.y + m.a12;
  }

  /**
   * updateState's transform: identity, translated by the center, scaled by
   * the zoom, translated by minus the offset. It maps a world point p to
   * center + zoom * (p - offset).
   */
  function ViewTransform(center: Vec2, zoom: real, offset: Vec2): (t: Transform)
    ensures TransformPoint(t, offset) == center
  {
    Translate(ScaleBy(Translate(Identity, center), zoom, zoom), Neg(offset))
  }

  lemma ViewTransformMaps(center: Vec2, zoom: real, offset: Vec2, p: Vec2)
    ensures TransformPoint(ViewTransform(center, zoom, offset), p) == Add(center, Scale(Sub(p, offset), zoom))
  {
    var t0 := Translate(Identity, center);
    var t1 := ScaleBy(t0, zoom, zoom);
    CombineIsComposition(t1, Transform(1.0, 0.0, -offset.x, 0.0, 1.0, -offset.y), p);
    CombineIsComposition(t0, Transform(zoom, 0.0, 0.0, 0.0, zoom, 0.0), Sub(p, offset));
  }

  /** updateMousePosition's world point under the screen position `m`. */
  function WorldOf(offset: Vec2, center: Vec2, zoom: real, m: Vec2): Vec2
    requires zoom != 0.0
  {
    Add(offset, Div(Sub(m, center), zoom))
  }

  /** The screen coordinates of the world point under the mouse are the mouse's own. */
  lemma ScreenOfWorld(offset: Vec2, center: Vec2, zoom: real, m: Vec2)
    requires zoom != 0.0
    ensures TransformPoint(ViewTransform(center, zoom, offset), WorldOf(offset, center, zoom, m)) == m
  {
    var w := WorldOf(offset, center, zoom, m);
    ViewTransformMaps(center, zoom, offset, w);
    assert Sub(w, offset) == Div(Sub(m, center), zoom);
    MulDivCancel(m.x - center.x, zoom);
    MulDivCancel(m.y - center.y, zoom);
  }

  /** And the other way round: the world point under a point's screen image is that point. */
  lemma WorldOfScreen(offset: Vec2, center: Vec2, zoom: real, p: Vec2)
    requires zoom != 0.0
    ensures WorldOf(offset, center, zoom, TransformPoint(ViewTransform(center, zoom, offset), p)) == p
  {
    ViewTransformMaps(center, zoom, offset, p);
    MulDivCancel(p.x - offset.x, zoom);
    MulDivCancel(p.y - offset.y, zoom);
  }

  /**
   * Panning: moving the offset by (old mouse - new mouse) / zoom puts under
   * the new mouse position the world point that was under the old one.
   */
  lemma PanKeepsWorldPoint(offset: Vec2, center: Vec2, zoom: real, m_old: Vec2, m_new: Vec2)
    requires zoom != 0.0
    ensures WorldOf(Add(offset, Div(Sub(m_old, m_new), zoom)), center, zoom, m_new)
      == WorldOf(offset, center, zoom, m_old)
  {
    assert (m_old.x - m_new.x) / zoom + (m_new.x - center.x) / zoom == (m_old.x - center.x) / zoom;
    assert (m_old.y - m_new.y) / zoom + (m_new.y - center.y) / zoom == (m_old.y - center.y) / zoom;
  }

  /** The factor wheelZoom multiplies the zoom by: none for 0, 1.2 up, 1/1.2 down. */
  function WheelFactor(w: real): (f: real)
    ensures f != 0.0
    ensures w > 0.0 ==> f > 1.0
    ensures w < 0.0 ==> 0.0 < f < 1.0
  {
    if w == 0.0 then 1.0 else if w > 0.0 then WheelScrollAmount else 1.0 / WheelScrollAmount
  }

  /** One wheel step up and one down, in either order, give the zoom back. */
  lemma WheelUpThenDownRestores(zoom: real, up: real, down: real)
    requires up > 0.0 && down < 0.0
    ensures zoom * WheelFactor(up) * WheelFactor(down) == zoom
    ensures zoom * WheelFactor(down) * WheelFactor(up) == zoom
  {
    assert WheelFactor(up) * WheelFactor(down) == 1.0;
  }

  /** ViewportHandler::State. */
  class State {
    var center: Vec2
    var offset: Vec2
    var zoom: real
    var clicking: bool
    var mouse_position: Vec2
    var mouse_world_position: Vec2
    var transform: Transform

    /** The zoom can be divided by, and the transform is that of the current center, zoom and offset. */
    ghost predicate Valid()
      reads this
    {
      zoom != 0.0 && transform == ViewTransform(center, zoom, offset)
    }

    /**
     * State(render_size, base_zoom): the center of the render area, seen at
     * base_zoom; the transform is still the identity.
     */
    constructor (render_size: Vec2, base_zoom: real)
      requires base_zoom != 0.0
      ensures center == Vec2(render_size.x * 0.5, render_size.y * 0.5)
      ensures offset == Div(center, base_zoom) && zoom == base_zoom && !clicking
      ensures mouse_position == Zero && mouse_world_position == Zero && transform == Identity
    {
      center := Vec2(render_size.x * 0.5, render_size.y * 0.5);
      offset := Div(Vec2(render_size.x * 0.5, render_size.y * 0.5), base_zoom);
      zoom := base_zoom;
      clicking := false;
      mouse_position := Zero;
      mouse_world_position := Zero;
      transform := Identity;
    }

    /** updateState: the transform is rebuilt from center, zoom and offset. */
    method UpdateState()
      modifies this`transform
      ensures transform == ViewTransform(center, zoom, offset)
    {
      var z := zoom;
      transform := Identity;
      transform := Translate(transform, center);
      transform := ScaleBy(transform, z, z);
      transform := Translate(transform, Neg(offset));
    }

    /** updateMousePosition: the mouse at `new_position`, and the world point under it. */
    method UpdateMousePosition(new_position: Vec2)
      requires zoom != 0.0
      modifies this`mouse_position, this`mouse_world_position
      ensures mouse_position == new_position
      ensures mouse_world_position == WorldOf(offset, center, zoom, new_position)
    {
      mouse_position := new_position;
      mouse_world_position := Add(offset, Div(Sub(mouse_position, center), zoom));
    }
  }

  class ViewportHandler {
    const state: State

    ghost predicate Valid()
      reads this, state
    {
      state.Valid()
    }

    /** ViewportHandler(size, base_zoom): a fresh State, with its transform built. */
    constructor (size: Vec2, base_zoom: real)
      requires base_zoom != 0.0
      ensures Valid() && fresh(state)
      ensures state.center == Vec2(size.x * 0.5, size.y * 0.5)
      ensures state.offset == Div(state.center, base_zoom) && state.zoom == base_zoom && !state.clicking
    {
      state := new State(size, base_zoom);
      new;
      state.UpdateState();
    }

    /** addOffset(v): the offset moves by v / zoom. */
    method AddOffset(v: Vec2)
      requires state.zoom != 0.0
      modifies state`offset, state`transform
      ensures Valid()
      ensures state.offset == Add(old(state.offset), Div(v, state.zoom))
    {
      state.offset := Add(state.offset, Div(v, state.zoom));
      state.UpdateState();
    }

    /** zoom(f): the zoom is multiplied by f. */
    method Zoom(f: real)
      requires state.zoom != 0.0 && f != 0.0
      modifies state`zoom, state`transform
      ensures Valid()
      ensures state.zoom == old(state.zoom) * f
    {
      state.zoom := state.zoom * f;
      state.UpdateState();
    }

    /** wheelZoom(w): nothing for w == 0, otherwise zoom(1.2) up or zoom(1 / 1.2) down. */
    method WheelZoom(w: real)
      requires Valid()
      modifies state`zoom, state`transform
      ensures Valid()
      ensures w == 0.0 ==> state.zoom == old(state.zoom) && state.transform == old(state.transform)
      ensures state.zoom == old(state.zoom) * WheelFactor(w)
    {
      if w != 0.0 {
        var zoom_amount := WheelScrollAmount;
        var delta := if w > 0.0 then zoom_amount else 1.0 / zoom_amount;
        Zoom(delta);
      }
    }

    /** reset: zoom 1, focused on the center. */
    method Reset()
      requires Valid()
      modifies state`zoom, state`offset, state`transform
      ensures Valid()
      ensures state.zoom == 1.0 && state.offset == state.center
    {
      state.zoom := 1.0;
      SetFocus(state.center);
    }

    method GetTransform() returns (t: Transform)
      requires Valid()
      ensures t == state.transform
      ensures forall p :: TransformPoint(t, p) == Add(state.center, Scale(Sub(p, state.offset), state.zoom))
    {
      forall p
        ensures TransformPoint(state.transform, p) == Add(state.center, Scale(Sub(p, state.offset), state.zoom))
      {
        ViewTransformMaps(state.center, state.zoom, state.offset, p);
      }
      t := state.transform;
    }

    /** click(p): the drag starts at p; the world point under the mouse is not recomputed. */
    method Click(relative_click_position: Vec2)
      modifies state`mouse_position, state`clicking
      ensures state.mouse_position == relative_click_position && state.clicking
    {
      state.mouse_position := relative_click_position;
      state.clicking := true;
    }

    /** unclick: only the drag ends. */
    method Unclick()
      modifies state`clicking
      ensures !state.clicking
    {
      state.clicking := false;
    }

    /**
     * setMousePosition(m): while clicking, the view pans by the mouse's
     * move, so the world point that was under the mouse is under it again;
     * then the mouse and its world point are updated.
     */
    method SetMousePosition(new_mouse_position: Vec2)
      requires Valid()
      modifies state`offset, state`transform, state`mouse_position, state`mouse_world_position
      ensures Valid()
      ensures state.offset
        == (if state.clicking
            then Add(old(state.offset), Div(Sub(old(state.mouse_position), new_mouse_position), state.zoom))
            else old(state.offset))
      ensures state.mouse_position == new_mouse_position
      ensures state.mouse_world_position == WorldOf(state.offset, state.center, state.zoom, new_mouse_position)
      ensures state.clicking ==>
        state.mouse_world_position == WorldOf(old(state.offset), state.center, state.zoom, old(state.mouse_position))
    {
      if state.clicking {
        AddOffset(Sub(state.mouse_position, new_mouse_position));
        PanKeepsWorldPoint(old(state.offset), state.center, state.zoom, old(state.mouse_position), new_mouse_position);
      }
      state.UpdateMousePosition(new_mouse_position);
    }

    /** setFocus(p): the view is centred on the world point p. */
    method SetFocus(focus_position: Vec2)
      requires state.zoom != 0.0
      modifies state`offset, state`transform
      ensures Valid() && state.offset == focus_position
    {
      state.offset := focus_position;
      state.UpdateState();
    }

    /** setZoom(z): the zoom is z. */
    method SetZoom(zoom: real)
      requires zoom != 0.0
      modifies state`zoom, state`transform
      ensures Valid() && state.zoom == zoom
    {
      state.zoom := zoom;
      state.UpdateState();
    }

    method GetMouseWorldPosition() returns (p: Vec2)
      ensures p == state.mouse_world_position
    {
      p := state.mouse_world_position;
    }

    /** getScreenCoords(p): p seen through the view, that is center + zoom * (p - offset). */
    method GetScreenCoords(world_pos: Vec2) returns (r: Vec2)
      requires Valid()
      ensures r == TransformPoint(state.transform, world_pos)
      ensures r == Add(state.center, Scale(Sub(world_pos, state.offset), state.zoom))
      ensures WorldOf(state.offset, state.center, state.zoom, r) == world_pos
    {
      r := TransformPoint(state.transform, world_pos);
      ViewTransformMaps(state.center, state.zoom, state.offset, world_pos);
      WorldOfScreen(state.offset, state.center, state.zoom, world_pos);
    }
  }
}
