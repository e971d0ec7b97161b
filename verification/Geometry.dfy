/** Bounding boxes and their intersection over union, in exact arithmetic. */
module Geometry {

  datatype BoundingBox = BoundingBox(x: real, y: real, width: real, height: real) {
    predicate Positive() {
      width > 0.0 && height > 0.0
    }

    function Area(): real {
      width * height
    }

    /** The point lies strictly inside the box. */
    predicate Inside(px: real, py: real) {
      x < px < x + width && y < py < y + height
    }

    function Translate(dx: real, dy: real): BoundingBox {
      BoundingBox(x + dx, y + dy, width, height)
    }

    function Scale(k: real): BoundingBox {
      BoundingBox(x * k, y * k, width * k, height * k)
    }
  }

  function Max(a: real, b: real): real {
    if a < b then b else a
  }

  function Min(a: real, b: real): real {
    if b < a then b else a
  }

  /** Length of the overlap of the segments [a, a + m] and [b, b + n]. */
  function Overlap(a: real, m: real, b: real, n: real): real {
    Max(0.0, Min(a + m, b + n) - Max(a, b))
  }

  function IntersectionArea(a: BoundingBox, b: BoundingBox): real {
    Overlap(a.x, a.width, b.x, b.width) * Overlap(a.y, a.height, b.y, b.height)
  }

  function UnionArea(a: BoundingBox, b: BoundingBox): real {
    a.Area() + b.Area() - IntersectionArea(a, b)
  }

  function Ratio(intersection: real, union: real): real {
    if union > 0.0 then intersection / union else 0.0
  }

  function IntersectionOverUnion(a: BoundingBox, b: BoundingBox): real {
    Ratio(IntersectionArea(a, b), UnionArea(a, b))
  }

  lemma ProductMonotone(a: real, b: real, c: real, d: real)
    requires 0.0 <= a <= c && 0.0 <= b <= d
    ensures 0.0 <= a * b <= c * d
    ensures c > 0.0 && d > 0.0 && a * b == c * d ==> a == c && b == d
  {
    assert c * d - a * b == (c - a) * d + a * (d - b);
    if a < c && d > 0.0 {
      assert (c - a) * d > 0.0;
    }
    if b < d && a == c && c > 0.0 {
      assert a * (d - b) > 0.0;
    }
  }

  lemma QuotientBounds(num: real, den: real)
    requires 0.0 <= num <= den && den > 0.0
    ensures 0.0 <= num / den <= 1.0
    ensures num / den == 1.0 <==> num == den
    ensures num / den > 0.0 <==> num > 0.0
  {
    assert num == (num / den) * den;
  }

  lemma PositiveProduct(a: real, b: real) returns (c: real)
    requires a > 0.0 && b > 0.0
    ensures c == a * b && c > 0.0
  {
    c := a * b;
  }

  /** The intersection never exceeds either box, so the union is positive. */
  lemma AreasOrdered(a: BoundingBox, b: BoundingBox)
    requires a.Positive() && b.Positive()
    ensures 0.0 <= IntersectionArea(a, b) <= a.Area()
    ensures IntersectionArea(a, b) <= b.Area()
    ensures 0.0 < a.Area() && 0.0 < b.Area()
    ensures UnionArea(a, b) > 0.0
  {
    var w := Overlap(a.x, a.width, b.x, b.width);
    var h := Overlap(a.y, a.height, b.y, b.height);
    ProductMonotone(w, h, a.width, a.height);
    ProductMonotone(w, h, b.width, b.height);
    var _ := PositiveProduct(a.width, a.height);
    var _ := PositiveProduct(b.width, b.height);
  }

  lemma IouSymmetric(a: BoundingBox, b: BoundingBox)
    ensures IntersectionOverUnion(a, b) == IntersectionOverUnion(b, a)
  {
  }

  lemma IouRange(a: BoundingBox, b: BoundingBox)
    requires a.Positive() && b.Positive()
    ensures 0.0 <= IntersectionOverUnion(a, b) <= 1.0
  {
    AreasOrdered(a, b);
    QuotientBounds(IntersectionArea(a, b), UnionArea(a, b));
  }

  /** Full overlap is reached by identical boxes and by no others. */
  lemma IouIsOneIffIdentical(a: BoundingBox, b: BoundingBox)
    requires a.Positive() && b.Positive()
    ensures IntersectionOverUnion(a, b) == 1.0 <==> a == b
  {
    AreasOrdered(a, b);
    QuotientBounds(IntersectionArea(a, b), UnionArea(a, b));
    var w := Overlap(a.x, a.width, b.x, b.width);
    var h := Overlap(a.y, a.height, b.y, b.height);
    if IntersectionOverUnion(a, b) == 1.0 {
      ProductMonotone(w, h, a.width, a.height);
      ProductMonotone(w, h, b.width, b.height);
    }
  }

  /** Boxes score above zero exactly when they share an interior point. */
  lemma IouIsPositiveIffSharedPoint(a: BoundingBox, b: BoundingBox)
    requires a.Positive() && b.Positive()
    ensures IntersectionOverUnion(a, b) > 0.0
            <==> exists px, py :: a.Inside(px, py) && b.Inside(px, py)
  {
    AreasOrdered(a, b);
    QuotientBounds(IntersectionArea(a, b), UnionArea(a, b));
    var w := Overlap(a.x, a.width, b.x, b.width);
    var h := Overlap(a.y, a.height, b.y, b.height);
    if w > 0.0 && h > 0.0 {
      var _ := PositiveProduct(w, h);
      var px := Max(a.x, b.x) + w / 2.0;
      var py := Max(a.y, b.y) + h / 2.0;
      assert a.Inside(px, py) && b.Inside(px, py);
    }
    if px, py :| a.Inside(px, py) && b.Inside(px, py) {
      assert w > 0.0 && h > 0.0;
    }
  }

  // ----- the value itself, in terms of points

  /** The points of a box within another lie between its sides. */
  lemma SidesOfPart(c: BoundingBox, d: BoundingBox)
    requires c.Positive() && forall px, py :: c.Inside(px, py) ==> d.Inside(px, py)
    ensures d.x <= c.x && c.x + c.width <= d.x + d.width
    ensures d.y <= c.y && c.y + c.height <= d.y + d.height
  {
    var mx, my := c.x + c.width / 2.0, c.y + c.height / 2.0;
    assert c.Inside(mx, my);
    if c.x < d.x {
      assert c.Inside(Min(mx, d.x), my);
    }
    if d.x + d.width < c.x + c.width {
      assert c.Inside(Max(mx, d.x + d.width), my);
    }
    if c.y < d.y {
      assert c.Inside(mx, Min(my, d.y));
    }
    if d.y + d.height < c.y + c.height {
      assert c.Inside(mx, Max(my, d.y + d.height));
    }
  }

  /** `c` has exactly the interior points that `a` and `b` share. */
  ghost predicate IsIntersection(c: BoundingBox, a: BoundingBox, b: BoundingBox) {
    forall px, py :: c.Inside(px, py) <==> a.Inside(px, py) && b.Inside(px, py)
  }

  function IntersectionBox(a: BoundingBox, b: BoundingBox): BoundingBox {
    BoundingBox(Max(a.x, b.x), Max(a.y, b.y),
                Overlap(a.x, a.width, b.x, b.width), Overlap(a.y, a.height, b.y, b.height))
  }

  lemma IntersectionBoxIsIntersection(a: BoundingBox, b: BoundingBox)
    ensures IsIntersection(IntersectionBox(a, b), a, b)
  {
  }

  lemma IntersectionIsUnique(c: BoundingBox, d: BoundingBox, a: BoundingBox, b: BoundingBox)
    requires c.Positive() && d.Positive() && IsIntersection(c, a, b) && IsIntersection(d, a, b)
    ensures c == d
  {
    SidesOfPart(c, d);
    SidesOfPart(d, c);
  }

  lemma IntersectionIsBox(c: BoundingBox, a: BoundingBox, b: BoundingBox)
    requires c.Positive() && IsIntersection(c, a, b)
    ensures c == IntersectionBox(a, b)
  {
    IntersectionBoxIsIntersection(a, b);
    assert c.Inside(c.x + c.width / 2.0, c.y + c.height / 2.0);
    IntersectionIsUnique(c, IntersectionBox(a, b), a, b);
  }

  lemma QuotientValue(num: real, den: real)
    requires den > 0.0
    ensures Ratio(num, den) * den == num
  {
  }

  lemma UnionOf(a: BoundingBox, b: BoundingBox)
    ensures var c := IntersectionBox(a, b);
            && IntersectionArea(a, b) == c.width * c.height
            && UnionArea(a, b) == a.width * a.height + b.width * b.height - c.width * c.height
  {
    hide Overlap, Max;
  }

  lemma IouOfAreas(a: BoundingBox, b: BoundingBox)
    requires a.Positive() && b.Positive()
    ensures UnionArea(a, b) > 0.0 && IntersectionOverUnion(a, b) * UnionArea(a, b) == IntersectionArea(a, b)
  {
    AreasOrdered(a, b);
    hide IntersectionArea, UnionArea, Ratio;
    QuotientValue(IntersectionArea(a, b), UnionArea(a, b));
  }

  /**
   The score of boxes that share points: when `c` is the box of all points they share, `part` its area and `union` the
   sum of their areas less that, the score times `union` is `part`.
   */
  lemma IouIsIntersectionOverUnion(a: BoundingBox, b: BoundingBox, c: BoundingBox, part: real, union: real)
    requires a.Positive() && b.Positive() && c.Positive() && IsIntersection(c, a, b)
    requires part == c.width * c.height && union == a.width * a.height + b.width * b.height - part
    ensures union > 0.0 && IntersectionOverUnion(a, b) * union == part
  {
    hide IntersectionArea, UnionArea, IntersectionOverUnion, IsIntersection, IntersectionBox;
    assert part == IntersectionArea(a, b) && union == UnionArea(a, b) by {
      IntersectionIsBox(c, a, b);
      UnionOf(a, b);
    }
    IouOfAreas(a, b);
  }

  lemma SharedPointMeansIntersection(a: BoundingBox, b: BoundingBox, px: real, py: real)
    requires a.Inside(px, py) && b.Inside(px, py)
    ensures exists c: BoundingBox :: c.Positive() && IsIntersection(c, a, b)
  {
    IntersectionBoxIsIntersection(a, b);
    assert IntersectionBox(a, b).Positive();
  }

  /** Boxes that share no point score zero, also when a box has no size. */
  lemma IouIsZeroWithoutSharedPoint(a: BoundingBox, b: BoundingBox)
    requires forall px, py :: !(a.Inside(px, py) && b.Inside(px, py))
    ensures IntersectionOverUnion(a, b) == 0.0
  {
    var c := IntersectionBox(a, b);
    IntersectionBoxIsIntersection(a, b);
    if c.Positive() {
      assert c.Inside(c.x + c.width / 2.0, c.y + c.height / 2.0);
    }
    assert IntersectionArea(a, b) == 0.0;
  }

  lemma OverlapTranslates(a: real, m: real, b: real, n: real, d: real)
    ensures Overlap(a + d, m, b + d, n) == Overlap(a, m, b, n)
  {
  }

  lemma AreasTranslate(a: BoundingBox, b: BoundingBox, dx: real, dy: real)
    ensures IntersectionArea(a.Translate(dx, dy), b.Translate(dx, dy)) == IntersectionArea(a, b)
    ensures UnionArea(a.Translate(dx, dy), b.Translate(dx, dy)) == UnionArea(a, b)
  {
    hide Overlap;
    OverlapTranslates(a.x, a.width, b.x, b.width, dx);
    OverlapTranslates(a.y, a.height, b.y, b.height, dy);
  }

  lemma IouTranslationInvariant(a: BoundingBox, b: BoundingBox, dx: real, dy: real)
    ensures IntersectionOverUnion(a.Translate(dx, dy), b.Translate(dx, dy)) == IntersectionOverUnion(a, b)
  {
    AreasTranslate(a, b, dx, dy);
  }

  // In the lemmas below the primed numbers are the images of the others under scaling.

  lemma ScalingKeepsOrder(a: real, b: real, a': real, b': real, k: real)
    requires k > 0.0 && a' == a * k && b' == b * k
    ensures Max(a', b') == Max(a, b) * k
    ensures Min(a', b') == Min(a, b) * k
  {
    assert b' - a' == (b - a) * k;
  }

  lemma OverlapScales(a: real, m: real, b: real, n: real, a': real, m': real, b': real, n': real, k: real)
    requires k > 0.0 && a' == a * k && m' == m * k && b' == b * k && n' == n * k
    ensures Overlap(a', m', b', n') == Overlap(a, m, b, n) * k
  {
    hide Max, Min;
    ScalingKeepsOrder(a, b, a', b', k);
    ScalingKeepsOrder(a + m, b + n, a' + m', b' + n', k);
    ScalingKeepsOrder(0.0, Min(a + m, b + n) - Max(a, b), 0.0, Min(a' + m', b' + n') - Max(a', b'), k);
  }

  lemma ProductScales(u: real, v: real, u': real, v': real, k: real, c: real)
    requires c == k * k && u' == u * k && v' == v * k
    ensures u' * v' == (u * v) * c
  {
    assert u' * v' == (u * k) * (v * k);
  }

  lemma RatioScales(inter: real, union: real, inter': real, union': real, c: real)
    requires c > 0.0 && inter' == inter * c && union' == union * c
    ensures Ratio(inter', union') == Ratio(inter, union)
  {
    assert union > 0.0 <==> union' > 0.0;
    if union > 0.0 {
      var q := inter / union;
      assert inter == q * union;
      assert inter' == q * union';
      assert (inter' / union' - q) * union' == 0.0;
    }
  }

  lemma OverlapsScale(a: BoundingBox, b: BoundingBox, k: real)
    requires k > 0.0
    ensures var a', b' := a.Scale(k), b.Scale(k);
            && Overlap(a'.x, a'.width, b'.x, b'.width) == Overlap(a.x, a.width, b.x, b.width) * k
            && Overlap(a'.y, a'.height, b'.y, b'.height) == Overlap(a.y, a.height, b.y, b.height) * k
  {
    hide Overlap;
    var a', b' := a.Scale(k), b.Scale(k);
    OverlapScales(a.x, a.width, b.x, b.width, a'.x, a'.width, b'.x, b'.width, k);
    OverlapScales(a.y, a.height, b.y, b.height, a'.y, a'.height, b'.y, b'.height, k);
  }

  lemma IntersectionScales(a: BoundingBox, b: BoundingBox, k: real, c: real)
    requires k > 0.0 && c == k * k
    ensures IntersectionArea(a.Scale(k), b.Scale(k)) == IntersectionArea(a, b) * c
  {
    hide Overlap, BoundingBox.Scale;
    OverlapsScale(a, b, k);
    var a', b' := a.Scale(k), b.Scale(k);
    ProductScales(Overlap(a.x, a.width, b.x, b.width), Overlap(a.y, a.height, b.y, b.height),
                  Overlap(a'.x, a'.width, b'.x, b'.width), Overlap(a'.y, a'.height, b'.y, b'.height), k, c);
  }

  lemma AreaScales(a: BoundingBox, k: real, c: real)
    requires c == k * k
    ensures a.Scale(k).Area() == a.Area() * c
  {
    ProductScales(a.width, a.height, a.width * k, a.height * k, k, c);
  }

  lemma Distribute(p: real, q: real, r: real, c: real)
    ensures p * c + q * c - r * c == (p + q - r) * c
  {
  }

  lemma UnionScales(a: BoundingBox, b: BoundingBox, k: real, c: real)
    requires k > 0.0 && c == k * k
    ensures UnionArea(a.Scale(k), b.Scale(k)) == UnionArea(a, b) * c
  {
    hide IntersectionArea, BoundingBox.Area;
    IntersectionScales(a, b, k, c);
    AreaScales(a, k, c);
    AreaScales(b, k, c);
    Distribute(a.Area(), b.Area(), IntersectionArea(a, b), c);
  }

  lemma IouScaleInvariant(a: BoundingBox, b: BoundingBox, k: real)
    requires k > 0.0
    ensures IntersectionOverUnion(a.Scale(k), b.Scale(k)) == IntersectionOverUnion(a, b)
  {
    hide IntersectionArea, UnionArea, Ratio;
    var c := PositiveProduct(k, k);
    var a', b' := a.Scale(k), b.Scale(k);
    IntersectionScales(a, b, k, c);
    UnionScales(a, b, k, c);
    RatioScales(IntersectionArea(a, b), UnionArea(a, b), IntersectionArea(a', b'), UnionArea(a', b'), c);
  }
}
