/** Axis-aligned boxes, their overlap score and the exponential smoothing of a
    tracked box (ai_engine/accumulate.py). */
module Boxes {
  datatype Box = Box(x1: real, y1: real, x2: real, y2: real)

  predicate Ordered(b: Box) {
    b.x1 <= b.x2 && b.y1 <= b.y2
  }

  predicate PositiveArea(b: Box) {
    b.x1 < b.x2 && b.y1 < b.y2
  }

  function Max(a: real, b: real): real {
    if a >= b then a else b
  }

  function Min(a: real, b: real): real {
    if a <= b then a else b
  }

  function Area(b: Box): real {
    (b.x2 - b.x1) * (b.y2 - b.y1)
  }

  function OverlapWidth(a: Box, b: Box): real {
    Max(0.0, Min(a.x2, b.x2) - Max(a.x1, b.x1))
  }

  function OverlapHeight(a: Box, b: Box): real {
    Max(0.0, Min(a.y2, b.y2) - Max(a.y1, b.y1))
  }

  function Intersection(a: Box, b: Box): real {
    OverlapWidth(a, b) * OverlapHeight(a, b)
  }

  function Iou(a: Box, b: Box): real {
    var inter := Intersection(a, b);
    if inter <= 0.0 then 0.0
    else
      var union := Area(a) + Area(b) - inter;
      if union > 0.0 then inter / union else 0.0
  }

  lemma MulMonotone(a: real, b: real, c: real, d: real)
    requires 0.0 <= a <= c && 0.0 <= b <= d
    ensures 0.0 <= a * b <= c * d
  {
    assert a * b <= c * b;
    assert c * b <= c * d;
  }

  lemma IntersectionBounded(a: Box, b: Box)
    requires Ordered(a)
    ensures 0.0 <= Intersection(a, b) <= Area(a)
  {
    MulMonotone(OverlapWidth(a, b), OverlapHeight(a, b), a.x2 - a.x1, a.y2 - a.y1);
  }

  lemma IntersectionSymmetric(a: Box, b: Box)
    ensures Intersection(a, b) == Intersection(b, a)
  {
    assert OverlapWidth(a, b) == OverlapWidth(b, a);
    assert OverlapHeight(a, b) == OverlapHeight(b, a);
  }

  lemma DivideBounds(n: real, d: real)
    requires 0.0 < n && 0.0 < d
    ensures 0.0 < n / d
    ensures n <= d ==> n / d <= 1.0
    ensures n / d == 1.0 <==> n == d
  {
    var q := n / d;
    assert q * d == n;
    assert q <= 0.0 ==> q * d <= 0.0;
    assert q > 1.0 ==> q * d > d;
  }

  lemma SelfIntersection(a: Box)
    requires Ordered(a)
    ensures Intersection(a, a) == Area(a)
    ensures 0.0 < Area(a) <==> PositiveArea(a)
  {
    var w, h := a.x2 - a.x1, a.y2 - a.y1;
    assert Area(a) == w * h;
    assert w > 0.0 && h > 0.0 ==> w * h > 0.0;
  }

  lemma FactorsEqual(a: real, b: real, c: real, d: real)
    requires 0.0 <= a <= c && 0.0 <= b <= d && 0.0 < a * b && a * b == c * d
    ensures a == c && b == d && 0.0 < a && 0.0 < b
  {
    assert a != 0.0 && b != 0.0;
    assert c * b <= c * d && a * d <= c * d;
    assert a < c ==> a * b < c * b;
    assert b < d ==> a * b < a * d;
  }

  lemma FullOverlapIsEquality(a: Box, b: Box)
    requires Ordered(a) && Ordered(b)
    requires 0.0 < Intersection(a, b)
    requires 2.0 * Intersection(a, b) == Area(a) + Area(b)
    ensures a == b && PositiveArea(a)
  {
    IntersectionBounded(a, b);
    IntersectionBounded(b, a);
    IntersectionSymmetric(a, b);
    FactorsEqual(OverlapWidth(a, b), OverlapHeight(a, b), a.x2 - a.x1, a.y2 - a.y1);
    FactorsEqual(OverlapWidth(a, b), OverlapHeight(a, b), b.x2 - b.x1, b.y2 - b.y1);
  }

  /** The overlap score is symmetric for any two boxes, and on ordered boxes it
      is a fraction that reaches 1 exactly on equal boxes of positive area. */
  lemma IouLaws(a: Box, b: Box)
    ensures Iou(a, b) == Iou(b, a)
    ensures Ordered(a) && Ordered(b) ==> 0.0 <= Iou(a, b) <= 1.0
    ensures Ordered(a) && Ordered(b) ==> (Iou(a, b) == 1.0 <==> a == b && PositiveArea(a))
  {
    hide Area, Intersection, Ordered, PositiveArea;
    IntersectionSymmetric(a, b);
    if Ordered(a) && Ordered(b) {
      IntersectionBounded(a, b);
      IntersectionBounded(b, a);
      SelfIntersection(a);
      var inter := Intersection(a, b);
      if inter > 0.0 {
        var union := Area(a) + Area(b) - inter;
        DivideBounds(inter, union);
        if inter == union {
          FullOverlapIsEquality(a, b);
        }
      }
    }
  }

  // -- what the score is ---------------------------------------------------

  predicate Inside(c: Box, b: Box) {
    b.x1 <= c.x1 && c.x2 <= b.x2 && b.y1 <= c.y1 && c.y2 <= b.y2
  }

  /** `c` has area, lies inside both boxes and holds every box that does. */
  ghost predicate IsCommon(a: Box, b: Box, c: Box) {
    && PositiveArea(c) && Inside(c, a) && Inside(c, b)
    && forall d :: PositiveArea(d) && Inside(d, a) && Inside(d, b) ==> Inside(d, c)
  }

  lemma OverlapIs(a: Box, b: Box)
    requires Ordered(a) && Ordered(b)
    ensures Intersection(a, b) > 0.0 <==> OverlapWidth(a, b) > 0.0 && OverlapHeight(a, b) > 0.0
  {
    var w, h := OverlapWidth(a, b), OverlapHeight(a, b);
    if w > 0.0 && h > 0.0 {
      assert w * h > 0.0;
    }
  }

  lemma CommonIsOverlap(a: Box, b: Box, c: Box)
    requires Ordered(a) && Ordered(b) && IsCommon(a, b, c)
    ensures c == Box(Max(a.x1, b.x1), Max(a.y1, b.y1), Min(a.x2, b.x2), Min(a.y2, b.y2))
    ensures Intersection(a, b) == Area(c) > 0.0
  {
    var d := Box(Max(a.x1, b.x1), Max(a.y1, b.y1), Min(a.x2, b.x2), Min(a.y2, b.y2));
    assert PositiveArea(d) && Inside(d, a) && Inside(d, b);
    OverlapIs(a, b);
  }

  lemma OverlapIsCommon(a: Box, b: Box)
    requires Ordered(a) && Ordered(b)
    ensures Intersection(a, b) > 0.0 ==>
              IsCommon(a, b, Box(Max(a.x1, b.x1), Max(a.y1, b.y1), Min(a.x2, b.x2), Min(a.y2, b.y2)))
    ensures (exists d :: PositiveArea(d) && Inside(d, a) && Inside(d, b)) ==> Intersection(a, b) > 0.0
  {
    OverlapIs(a, b);
  }

  lemma CommonIsInside(a: Box, b: Box, c: Box)
    requires IsCommon(a, b, c)
    ensures PositiveArea(c) && Inside(c, a) && Inside(c, b)
  {
  }

  lemma NoOverlapNoScore(a: Box, b: Box)
    ensures Intersection(a, b) <= 0.0 ==> Iou(a, b) == 0.0
  {
  }

  /** `v` is the area of `c` over the area that `a` and `b` cover together when `c`
      is what they share. */
  predicate IsShare(v: real, a: Box, b: Box, c: Box) {
    v * ((a.x2 - a.x1) * (a.y2 - a.y1) + (b.x2 - b.x1) * (b.y2 - b.y1) - (c.x2 - c.x1) * (c.y2 - c.y1))
    == (c.x2 - c.x1) * (c.y2 - c.y1)
  }

  lemma AreasShare(v: real, a: Box, b: Box, c: Box)
    requires v * (Area(a) + Area(b) - Area(c)) == Area(c)
    ensures IsShare(v, a, b, c)
  {
  }

  lemma ShareOf(a: Box, b: Box, c: Box)
    requires Ordered(a) && Ordered(b) && IsCommon(a, b, c)
    ensures Iou(a, b) > 0.0 && IsShare(Iou(a, b), a, b, c)
  {
    hide Area, Intersection, IsCommon, Ordered;
    CommonIsOverlap(a, b, c);
    IntersectionBounded(a, b);
    IntersectionBounded(b, a);
    IntersectionSymmetric(a, b);
    DivideBounds(Area(c), Area(a) + Area(b) - Area(c));
    assert Iou(a, b) * (Area(a) + Area(b) - Area(c)) == Area(c);
    AreasShare(Iou(a, b), a, b, c);
  }

  /** The score, by what the two boxes have in common: it is zero if and only if no
      box with an area lies inside both, and otherwise it is the area of the
      largest such box over the area the two boxes cover together. */
  lemma IouIsShare(a: Box, b: Box)
    requires Ordered(a) && Ordered(b)
    ensures Iou(a, b) == 0.0 <==> forall d :: PositiveArea(d) ==> !(Inside(d, a) && Inside(d, b))
    ensures Iou(a, b) != 0.0 ==> exists c :: IsCommon(a, b, c)
    ensures forall c :: IsCommon(a, b, c) ==> IsShare(Iou(a, b), a, b, c)
  {
    hide Intersection, IsCommon, Ordered, Iou, IsShare;
    OverlapIsCommon(a, b);
    NoOverlapNoScore(a, b);
    if Intersection(a, b) > 0.0 {
      var common := Box(Max(a.x1, b.x1), Max(a.y1, b.y1), Min(a.x2, b.x2), Min(a.y2, b.y2));
      ShareOf(a, b, common);
      CommonIsInside(a, b, common);
    }
    forall c | IsCommon(a, b, c)
      ensures IsShare(Iou(a, b), a, b, c)
    {
      ShareOf(a, b, c);
    }
  }

  // -- smoothing ---------------------------------------------------------

  function Mix(weight: real, next: real, previous: real): real {
    weight * next + (1.0 - weight) * previous
  }

  function Smooth(weight: real, next: Box, previous: Box): Box {
    Box(Mix(weight, next.x1, previous.x1), Mix(weight, next.y1, previous.y1),
        Mix(weight, next.x2, previous.x2), Mix(weight, next.y2, previous.y2))
  }

  /** `inner` lies inside the rectangle spanned by `outer`, edge by edge. */
  predicate EdgesWithin(b: Box, low: Box, high: Box) {
    && low.x1 <= b.x1 <= high.x1 && low.y1 <= b.y1 <= high.y1
    && low.x2 <= b.x2 <= high.x2 && low.y2 <= b.y2 <= high.y2
  }

  lemma Scale(w: real, x: real, y: real)
    requires 0.0 <= w && x <= y
    ensures w * x <= w * y
  {
    assert w * (y - x) >= 0.0;
  }

  lemma MixSelf(w: real, x: real)
    ensures Mix(w, x, x) == x
  {
    assert (w + (1.0 - w)) * x == w * x + (1.0 - w) * x;
  }

  lemma MixMonotone(w: real, x: real, y: real, x': real, y': real)
    requires 0.0 <= w <= 1.0 && x <= x' && y <= y'
    ensures Mix(w, x, y) <= Mix(w, x', y')
  {
    var v := 1.0 - w;
    Scale(w, x, x');
    Scale(v, y, y');
    var p, q, p', q' := w * x, v * y, w * x', v * y';
    assert p <= p' && q <= q';
    assert p + q <= p' + q';
  }

  lemma MixBetween(w: real, x: real, y: real, low: real, high: real)
    requires 0.0 <= w <= 1.0 && low <= x <= high && low <= y <= high
    ensures low <= Mix(w, x, y) <= high
  {
    MixMonotone(w, low, low, x, y);
    MixMonotone(w, x, y, high, high);
    MixSelf(w, low);
    MixSelf(w, high);
  }

  /** Smoothing keeps ordered boxes ordered and every edge between the edges of
      whatever range both inputs lie in. */
  lemma SmoothStaysInside(w: real, next: Box, previous: Box, low: Box, high: Box)
    requires 0.0 <= w <= 1.0
    ensures Ordered(next) && Ordered(previous) ==> Ordered(Smooth(w, next, previous))
    ensures EdgesWithin(next, low, high) && EdgesWithin(previous, low, high)
            ==> EdgesWithin(Smooth(w, next, previous), low, high)
  {
    if Ordered(next) && Ordered(previous) {
      MixMonotone(w, next.x1, previous.x1, next.x2, previous.x2);
      MixMonotone(w, next.y1, previous.y1, next.y2, previous.y2);
    }
    if EdgesWithin(next, low, high) && EdgesWithin(previous, low, high) {
      MixBetween(w, next.x1, previous.x1, low.x1, high.x1);
      MixBetween(w, next.y1, previous.y1, low.y1, high.y1);
      MixBetween(w, next.x2, previous.x2, low.x2, high.x2);
      MixBetween(w, next.y2, previous.y2, low.y2, high.y2);
    }
  }

  lemma SmoothFixpoint(w: real, b: Box)
    ensures Smooth(w, b, b) == b
  {
    MixSelf(w, b.x1);
    MixSelf(w, b.y1);
    MixSelf(w, b.x2);
    MixSelf(w, b.y2);
  }
}
