/**
 Pixel boxes and their overlap ratio (intersection over union). Coordinates
 are inclusive: a box from x1 to x2 covers `x2 - x1 + 1` pixel columns.
 */
module Geometry {

  /** A box `(x1, y1, x2, y2)` in pixel coordinates, corners included. */
  datatype Box = Box(x1: int, y1: int, x2: int, y2: int)

  /** A box whose corners are in order; it covers at least one pixel. */
  predicate Valid(b: Box)
  {
    b.x1 <= b.x2 && b.y1 <= b.y2
  }

  function Max(a: int, b: int): int { if a >= b then a else b }

  function Min(a: int, b: int): int { if a <= b then a else b }

  function Width(b: Box): int { b.x2 - b.x1 + 1 }

  function Height(b: Box): int { b.y2 - b.y1 + 1 }

  /** Pixel area of a box; negative when the box is inverted. */
  function Area(b: Box): int { Width(b) * Height(b) }

  /** Pixel columns the two boxes share, zero when they do not meet. */
  function InterWidth(a: Box, b: Box): nat
  {
    Max(0, Min(a.x2, b.x2) - Max(a.x1, b.x1) + 1)
  }

  /** Pixel rows the two boxes share, zero when they do not meet. */
  function InterHeight(a: Box, b: Box): nat
  {
    Max(0, Min(a.y2, b.y2) - Max(a.y1, b.y1) + 1)
  }

  /** Pixels the two boxes share: empty exactly when they share no column
      or no row. */
  function InterArea(a: Box, b: Box): (r: nat)
    ensures r == 0 <==> InterWidth(a, b) == 0 || InterHeight(a, b) == 0
  {
    InterWidth(a, b) * InterHeight(a, b)
  }

  function Union(a: Box, b: Box): int
  {
    Area(a) + Area(b) - InterArea(a, b)
  }

  lemma MulMonotone(a: nat, b: nat, c: nat, d: nat)
    requires a <= c && b <= d
    ensures a * b <= c * d
  {
    assert a * b <= c * b;
    assert c * b <= c * d;
  }

  /** When the boxes share a pixel, each box covers the whole shared region,
      so the union is at least as large as the intersection. */
  lemma InterWithinUnion(a: Box, b: Box)
    requires InterArea(a, b) > 0
    ensures InterArea(a, b) <= Area(a) && InterArea(a, b) <= Area(b)
    ensures 0 < InterArea(a, b) <= Union(a, b)
  {
    MulMonotone(InterWidth(a, b), InterHeight(a, b), Width(a), Height(a));
    MulMonotone(InterWidth(a, b), InterHeight(a, b), Width(b), Height(b));
  }

  lemma QuotientBounds(i: real, u: real)
    requires 0.0 < i <= u
    ensures 0.0 < i / u <= 1.0
  {
    var q := i / u;
    assert q * u == i;
  }

  lemma QuotientAbove(i: real, u: real, c: real)
    requires 0.0 < u
    ensures i / u > c <==> i > c * u
  {
    var q := i / u;
    assert q * u == i;
    if q > c {
      assert q * u > c * u;
    } else {
      assert q * u <= c * u;
    }
  }

  /** The overlap ratio of two boxes. It is defined for every pair of boxes,
      inverted ones included: a positive intersection forces a positive
      union, so the quotient never divides by zero. */
  function Iou(a: Box, b: Box): (r: real)
    ensures 0.0 <= r <= 1.0
    ensures r == 0.0 <==> InterArea(a, b) == 0
  {
    if InterArea(a, b) == 0 then 0.0
    else
      InterWithinUnion(a, b);
      QuotientBounds(InterArea(a, b) as real, Union(a, b) as real);
      InterArea(a, b) as real / Union(a, b) as real
  }

  /** The ratio above which a box counts as the same plate seen again. */
  const OverlapThreshold: real := 0.35

  predicate Overlaps(a: Box, b: Box)
  {
    Iou(a, b) > OverlapThreshold
  }

  /** The overlap test in integer arithmetic: 20 shared pixels for every 7
      of the union, strictly. */
  lemma OverlapsIffCrossMultiplied(a: Box, b: Box)
    ensures Overlaps(a, b) <==> InterArea(a, b) > 0 && 20 * InterArea(a, b) > 7 * Union(a, b)
  {
    if InterArea(a, b) > 0 {
      InterWithinUnion(a, b);
      var i := InterArea(a, b) as real;
      var u := Union(a, b) as real;
      assert Iou(a, b) == i / u;
      QuotientAbove(i, u, 0.35);
    }
  }

  lemma IouSymmetric(a: Box, b: Box)
    ensures Iou(a, b) == Iou(b, a)
    ensures Overlaps(a, b) <==> Overlaps(b, a)
  {
    assert InterWidth(a, b) == InterWidth(b, a);
    assert InterHeight(a, b) == InterHeight(b, a);
  }

  /** A valid box overlaps itself completely. */
  lemma IouSelf(a: Box)
    requires Valid(a)
    ensures Iou(a, a) == 1.0
    ensures Overlaps(a, a)
  {
    assert InterWidth(a, a) == Width(a) > 0;
    assert InterHeight(a, a) == Height(a) > 0;
    assert InterArea(a, a) == Area(a) > 0;
    assert Union(a, a) == Area(a);
  }

  /** Boxes that share no pixel column or no pixel row have ratio zero, and
      only those. */
  lemma IouZeroIffApart(a: Box, b: Box)
    ensures Iou(a, b) == 0.0 <==>
      Min(a.x2, b.x2) < Max(a.x1, b.x1) || Min(a.y2, b.y2) < Max(a.y1, b.y1)
  {
  }

  /** Box `b` moved by `(dx, dy)`. */
  function Translate(b: Box, dx: int, dy: int): (r: Box)
    ensures Width(r) == Width(b) && Height(r) == Height(b)
    ensures Valid(r) <==> Valid(b)
  {
    Box(b.x1 + dx, b.y1 + dy, b.x2 + dx, b.y2 + dy)
  }

  lemma TranslateInverse(b: Box, dx: int, dy: int)
    ensures Translate(Translate(b, dx, dy), -dx, -dy) == b
  {
  }

  /** Moving both boxes by the same offset does not change how they overlap. */
  lemma IouTranslationInvariant(a: Box, b: Box, dx: int, dy: int)
    ensures Iou(Translate(a, dx, dy), Translate(b, dx, dy)) == Iou(a, b)
    ensures Overlaps(Translate(a, dx, dy), Translate(b, dx, dy)) <==> Overlaps(a, b)
  {
    var a', b' := Translate(a, dx, dy), Translate(b, dx, dy);
    assert InterWidth(a', b') == InterWidth(a, b);
    assert InterHeight(a', b') == InterHeight(a, b);
    assert Area(a') == Area(a) && Area(b') == Area(b);
  }

  /** A plate box found inside a vehicle crop, in the coordinates of the whole
      frame: the crop starts at the vehicle's top-left corner. */
  function ToFullFrame(vehicle: Box, plate: Box): (r: Box)
    ensures Translate(r, -vehicle.x1, -vehicle.y1) == plate
    ensures Width(r) == Width(plate) && Height(r) == Height(plate)
    ensures r.x1 >= vehicle.x1 <==> plate.x1 >= 0
    ensures r.y1 >= vehicle.y1 <==> plate.y1 >= 0
  {
    Translate(plate, vehicle.x1, vehicle.y1)
  }
}
