/** Finding the shape under a point.  The framework's hit test is an oracle that
    yields the deepest visual under the point (or nothing); the visual tree is a
    parent map whose depth labelling makes every ascent end at the canvas.  A shape
    is found by climbing from the hit visual until a shape or the canvas is met, so
    that the border or fill of a shape still resolves to the shape. */
module HitTest {
  import opened Wrappers
  import opened Geometry
  import opened Shapes

  /** A node of the visual tree: the canvas itself, a shape, or any other element
      (a shape's border or fill, the preview rectangle, a decoration). */
  datatype Visual = Canvas | ShapeVisual(shape: Shape) | Part(id: nat)

  datatype VisualTree = VisualTree(
    hitTest: Point -> Option<Visual>,
    parent: map<Visual, Visual>,
    depth: map<Visual, nat>)

  /** The tree below the canvas: the canvas is its root, every other node has a
      parent one level up, and the hit test only reports nodes of the tree. */
  ghost predicate WellFormed(t: VisualTree) {
    && Canvas in t.depth
    && (forall v :: v in t.depth && v != Canvas ==>
          v in t.parent && t.parent[v] in t.depth && t.depth[t.parent[v]] < t.depth[v])
    && (forall p :: t.hitTest(p).Some? ==> t.hitTest(p).value in t.depth)
  }

  /** The ancestors of `v`, itself first, up to and including the canvas. */
  function Path(t: VisualTree, v: Visual): (path: seq<Visual>)
    requires WellFormed(t) && v in t.depth
    ensures |path| >= 1 && path[0] == v && path[|path| - 1] == Canvas
    decreases t.depth[v]
  {
    if v == Canvas then [Canvas] else [v] + Path(t, t.parent[v])
  }

  /** The shape that owns `v`: `v` itself if it is a shape, otherwise its parent's
      owner; nothing once the canvas is reached. */
  function Owner(t: VisualTree, v: Visual): Option<Shape>
    requires WellFormed(t) && v in t.depth
    decreases t.depth[v]
  {
    if v == Canvas then None
    else if v.ShapeVisual? then Some(v.shape)
    else Owner(t, t.parent[v])
  }

  /** The shape under point `p`, if any. */
  function ShapeAt(t: VisualTree, p: Point): Option<Shape>
    requires WellFormed(t)
  {
    match t.hitTest(p)
    case None => None
    case Some(v) => Owner(t, v)
  }

  /** The owner is the first shape on the path to the canvas, and there is none
      exactly when no node on that path is a shape. */
  lemma {:induction false} OwnerIsFirstShapeOnPath(t: VisualTree, v: Visual)
    requires WellFormed(t) && v in t.depth
    ensures Owner(t, v).None? <==> (forall j :: 0 <= j < |Path(t, v)| ==> !Path(t, v)[j].ShapeVisual?)
    ensures Owner(t, v).Some? ==>
      exists k :: 0 <= k < |Path(t, v)| && Path(t, v)[k] == ShapeVisual(Owner(t, v).value)
                  && forall j :: 0 <= j < k ==> !Path(t, v)[j].ShapeVisual?
    decreases t.depth[v]
  {
    if v == Canvas {
      assert Path(t, v) == [Canvas];
    } else if v.ShapeVisual? {
      assert Path(t, v)[0] == v;
    } else {
      var u := t.parent[v];
      OwnerIsFirstShapeOnPath(t, u);
      var p, q := Path(t, v), Path(t, u);
      assert p == [v] + q;
      if Owner(t, u).Some? {
        var k :| 0 <= k < |q| && q[k] == ShapeVisual(Owner(t, u).value)
                 && forall j :: 0 <= j < k ==> !q[j].ShapeVisual?;
        assert p[k + 1] == q[k];
        assert forall j :: 0 <= j < k + 1 ==> !p[j].ShapeVisual? by {
          forall j | 0 <= j < k + 1 ensures !p[j].ShapeVisual? {
            if j > 0 { assert p[j] == q[j - 1]; }
          }
        }
      } else {
        forall j | 0 <= j < |p| ensures !p[j].ShapeVisual? {
          if j > 0 { assert p[j] == Path(t, u)[j - 1]; }
        }
      }
    }
  }

  /** The owner of a node is a shape node of the same tree. */
  lemma {:induction false} OwnerInTree(t: VisualTree, v: Visual)
    requires WellFormed(t) && v in t.depth
    ensures Owner(t, v).Some? ==> ShapeVisual(Owner(t, v).value) in t.depth
    decreases t.depth[v]
  {
    if v != Canvas && !v.ShapeVisual? {
      OwnerInTree(t, t.parent[v]);
    }
  }

  /** The shape under a point is a shape node of the tree. */
  lemma ShapeAtInTree(t: VisualTree, p: Point)
    requires WellFormed(t)
    ensures ShapeAt(t, p).Some? ==> ShapeVisual(ShapeAt(t, p).value) in t.depth
  {
    if t.hitTest(p).Some? {
      OwnerInTree(t, t.hitTest(p).value);
    }
  }

  /** GetShapeAtLocation: nothing when the hit test finds nothing or the canvas
      itself; otherwise climb from the hit visual until a shape is found, giving up
      when the canvas is reached. */
  method GetShapeAtLocation(t: VisualTree, p: Point) returns (shape: Option<Shape>)
    requires WellFormed(t)
    ensures shape == ShapeAt(t, p)
  {
    var hit := t.hitTest(p);
    if hit.None? {
      return None;
    }
    var v := hit.value;
    if v == Canvas {
      return None;
    }
    shape := if v.ShapeVisual? then Some(v.shape) else None;
    while shape.None?
      invariant v in t.depth && v != Canvas
      invariant Owner(t, v) == ShapeAt(t, p)
      invariant shape == if v.ShapeVisual? then Some(v.shape) else None
      decreases t.depth[v]
    {
      v := t.parent[v];
      if v == Canvas {
        return None;
      }
      shape := if v.ShapeVisual? then Some(v.shape) else None;
    }
  }
}
