/** Screen-space boxes as the rendering backend reports them (a matplotlib
    `Bbox` given by two corners), and the intersection the label engine uses. */
module Bbox {
  import opened Wrappers

  datatype Box = Box(x0: real, y0: real, x1: real, y1: real)

  function Min(a: real, b: real): real { if a <= b then a else b }
  function Max(a: real, b: real): real { if a <= b then b else a }

  function XMin(b: Box): real { Min(b.x0, b.x1) }
  function XMax(b: Box): real { Max(b.x0, b.x1) }
  function YMin(b: Box): real { Min(b.y0, b.y1) }
  function YMax(b: Box): real { Max(b.y0, b.y1) }

  /** Signed width and height, second corner minus first. */
  function Width(b: Box): real { b.x1 - b.x0 }
  function Height(b: Box): real { b.y1 - b.y0 }
  function Area(b: Box): real { Height(b) * Width(b) }

  /** The point (x, y) lies in the closed box b. */
  predicate Covers(b: Box, x: real, y: real)
  {
    XMin(b) <= x <= XMax(b) && YMin(b) <= y <= YMax(b)
  }

  /** Box `inner` lies entirely inside box `outer` (edges may coincide). */
  predicate ContainedIn(inner: Box, outer: Box)
  {
    XMin(outer) <= XMin(inner) && XMax(inner) <= XMax(outer) &&
    YMin(outer) <= YMin(inner) && YMax(inner) <= YMax(outer)
  }

  /** `Bbox.intersection`: the common part of two boxes, or None when they
      are apart. The bounds are closed, so boxes that only touch along an
      edge or at a corner have a (zero-area) intersection. */
  function Intersection(a: Box, b: Box): (r: Option<Box>)
    ensures r.Some? <==>
      Max(XMin(a), XMin(b)) <= Min(XMax(a), XMax(b)) &&
      Max(YMin(a), YMin(b)) <= Min(YMax(a), YMax(b))
    ensures r.Some? ==> r.value.x0 <= r.value.x1 && r.value.y0 <= r.value.y1
  {
    var x0 := Max(XMin(a), XMin(b));
    var x1 := Min(XMax(a), XMax(b));
    var y0 := Max(YMin(a), YMin(b));
    var y1 := Min(YMax(a), YMax(b));
    if x0 <= x1 && y0 <= y1 then Some(Box(x0, y0, x1, y1)) else None
  }

  /** The intersection covers exactly the points both boxes cover, and it
      is missing exactly when no point is covered by both. */
  lemma IntersectionIsCommonPart(a: Box, b: Box, x: real, y: real)
    ensures (Intersection(a, b).Some? && Covers(Intersection(a, b).value, x, y))
            <==> (Covers(a, x, y) && Covers(b, x, y))
  {
  }

  lemma IntersectionEmptyIffDisjoint(a: Box, b: Box)
    ensures Intersection(a, b).None? <==>
            forall x: real, y: real :: !(Covers(a, x, y) && Covers(b, x, y))
  {
    if Intersection(a, b).Some? {
      var i := Intersection(a, b).value;
      IntersectionIsCommonPart(a, b, i.x0, i.y0);
    } else {
      forall x: real, y: real ensures !(Covers(a, x, y) && Covers(b, x, y)) {
        IntersectionIsCommonPart(a, b, x, y);
      }
    }
  }

  lemma IntersectionSymmetric(a: Box, b: Box)
    ensures Intersection(a, b) == Intersection(b, a)
  {
  }

  /** Two boxes that share only a vertical edge (the right edge of one is
      the left edge of the other, and their height ranges overlap) still
      intersect, in a box of width and area zero. */
  lemma TouchingBoxesIntersect(a: Box, b: Box)
    requires XMax(a) == XMin(b)
    requires Max(YMin(a), YMin(b)) <= Min(YMax(a), YMax(b))
    ensures Intersection(a, b).Some?
    ensures Width(Intersection(a, b).value) == 0.0 && Area(Intersection(a, b).value) == 0.0
  {
  }

  /** The label engine's containment test: the label's intersection with the
      axes exists and has the same area as the label. */
  predicate PassesContainment(axes: Box, e: Box)
  {
    match Intersection(axes, e)
    case None => false
    case Some(i) => Area(i) == Area(e)
  }

  lemma ProductsEqual(a: real, b: real, c: real, d: real)
    requires 0.0 <= a <= c && 0.0 <= b <= d && 0.0 < c && 0.0 < d
    requires a * b == c * d
    ensures a == c && b == d
  {
    assert a * (d - b) >= 0.0;
    assert (c - a) * d >= 0.0;
    assert (c - a) * d == 0.0;
    assert c * (d - b) == 0.0;
  }

  /** For a label box of positive width and height the area test is exactly
      "the label lies inside the axes". */
  lemma {:induction false} PassesContainmentIffContained(axes: Box, e: Box)
    requires Width(e) > 0.0 && Height(e) > 0.0
    ensures PassesContainment(axes, e) <==> ContainedIn(e, axes)
  {
    if ContainedIn(e, axes) {
      assert Intersection(axes, e) == Some(Box(e.x0, e.y0, e.x1, e.y1));
    }
    if PassesContainment(axes, e) {
      var i := Intersection(axes, e).value;
      ProductsEqual(Height(i), Width(i), Height(e), Width(e));
    }
  }

  /** A label with no width is accepted even when it sticks out of the axes:
      its intersection and the label both have area zero. */
  lemma DegenerateLabelPassesContainment()
    ensures PassesContainment(Box(0.0, 0.0, 10.0, 10.0), Box(5.0, 5.0, 5.0, 20.0))
    ensures !ContainedIn(Box(5.0, 5.0, 5.0, 20.0), Box(0.0, 0.0, 10.0, 10.0))
  {
  }
}
