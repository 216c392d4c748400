/**
 * `CubeF`: an axis-aligned box given by its upper-left-front corner
 * (`x`, `y`, `z`) and its extents (`width`, `height`, `depth`).
 */
module Primitives {
  import opened LinearAlgebra

  datatype CubeF = CubeF(x: real, y: real, z: real, width: real, height: real, depth: real)

  /** `CubeF.Empty`: the default value, all six fields zero. */
  const Empty: CubeF := CubeF(0.0, 0.0, 0.0, 0.0, 0.0, 0.0)

  function Min(a: real, b: real): real { if a <= b then a else b }
  function Max(a: real, b: real): real { if a >= b then a else b }
  function Abs(a: real): real { if a < 0.0 then -a else a }

  /** The `Location` getter. */
  function Location(c: CubeF): Vec3 { Vec3(c.x, c.y, c.z) }

  /** The `Size` getter. */
  function Size(c: CubeF): Vec3 { Vec3(c.width, c.height, c.depth) }

  /** The constructor from a location and a size: the getters give both back. */
  function FromLocationSize(location: Vec3, size: Vec3): (r: CubeF)
    ensures Location(r) == location
    ensures Size(r) == size
  {
    CubeF(location.x, location.y, location.z, size.x, size.y, size.z)
  }

  /** Every box is the one built from its own location and size. */
  lemma FromLocationSizeOfParts(c: CubeF)
    ensures FromLocationSize(Location(c), Size(c)) == c
  {}

  /** The `Location` setter: overwrites the corner and keeps the size. */
  method SetLocation(c: CubeF, value: Vec3) returns (r: CubeF)
    ensures Location(r) == value
    ensures Size(r) == Size(c)
  {
    r := c;
    r := r.(x := value.x);
    r := r.(y := value.y);
    r := r.(z := value.z);
  }

  /** The `Size` setter: overwrites the extents and keeps the corner. */
  method SetSize(c: CubeF, value: Vec3) returns (r: CubeF)
    ensures Size(r) == value
    ensures Location(r) == Location(c)
  {
    r := c;
    r := r.(width := value.x);
    r := r.(height := value.y);
    r := r.(depth := value.z);
  }

  /** `Centre`: the point halfway between opposite faces on every axis. */
  function Centre(c: CubeF): (r: Vec3)
    ensures r.x - c.x == c.x + c.width - r.x
    ensures r.y - c.y == c.y + c.height - r.y
    ensures r.z - c.z == c.z + c.depth - r.z
  {
    Vec3(c.x + c.width / 2.0, c.y + c.height / 2.0, c.z + c.depth / 2.0)
  }

  /**
   * `IsEmpty`: some extent is not positive, which is exactly when the box
   * does not contain its own corner.
   */
  predicate IsEmpty(c: CubeF)
    ensures IsEmpty(c) <==> !ContainsPoint(c, c.x, c.y, c.z)
  {
    c.width <= 0.0 || c.height <= 0.0 || c.depth <= 0.0
  }

  /** `Volume`: positive for a box that is not empty, zero for a flat one. */
  function Volume(c: CubeF): (r: real)
    ensures !IsEmpty(c) ==> r > 0.0
    ensures c.width == 0.0 || c.height == 0.0 || c.depth == 0.0 ==> r == 0.0
  {
    assert !IsEmpty(c) ==> c.width * c.height > 0.0;
    c.width * c.height * c.depth
  }

  /** `Equals` and `==`: all six fields agree. */
  function Equals(a: CubeF, b: CubeF): (r: bool)
    ensures r <==> (Location(a) == Location(b) && Size(a) == Size(b))
    ensures r <==> a == b
  {
    a.x == b.x && a.y == b.y && a.z == b.z && a.width == b.width && a.height == b.height && a.depth == b.depth
  }

  /** `!=`: the negation of `==`. */
  function NotEquals(a: CubeF, b: CubeF): (r: bool)
    ensures r <==> a != b
  {
    !Equals(a, b)
  }

  /** `operator *(CubeF, float)`: corner and extents scaled alike. */
  function ScaleBy(c: CubeF, s: real): (r: CubeF)
    ensures Size(r) == Vec3(c.width * s, c.height * s, c.depth * s)
    ensures Location(r) == Vec3(c.x * s, c.y * s, c.z * s)
  {
    CubeF(c.x * s, c.y * s, c.z * s, c.width * s, c.height * s, c.depth * s)
  }

  /** `operator /(CubeF, float)`: scaling the result back by the factor gives the box again. */
  function DivideBy(c: CubeF, s: real): (r: CubeF)
    requires s != 0.0
    ensures ScaleBy(r, s) == c
  {
    CubeF(c.x / s, c.y / s, c.z / s, c.width / s, c.height / s, c.depth / s)
  }

  /** Dividing by a non-zero factor undoes scaling by it. */
  lemma ScaleDivideRoundTrip(c: CubeF, s: real)
    requires s != 0.0
    ensures DivideBy(ScaleBy(c, s), s) == c
  {
    var d := DivideBy(ScaleBy(c, s), s);
    assert d.x == c.x && d.y == c.y && d.z == c.z;
    assert d.width == c.width && d.height == c.height && d.depth == c.depth;
  }

  /** Scaling multiplies the volume by the cube of the factor. */
  lemma ScaleVolume(c: CubeF, s: real)
    ensures Volume(ScaleBy(c, s)) == Volume(c) * (s * s * s)
  {
    var w, h, d := c.width, c.height, c.depth;
    calc {
      Volume(ScaleBy(c, s));
      (w * s) * (h * s) * (d * s);
      { assert (w * s) * (h * s) == (w * h) * (s * s); }
      ((w * h) * (s * s)) * (d * s);
      (w * h * d) * (s * s * s);
      Volume(c) * (s * s * s);
    }
  }

  /** `operator *(CubeF, Vector3)`: each axis scaled by its own component. */
  function ScaleByVec(c: CubeF, s: Vec3): (r: CubeF)
    ensures Size(r) == Vec3(c.width * s.x, c.height * s.y, c.depth * s.z)
    ensures Location(r) == Vec3(c.x * s.x, c.y * s.y, c.z * s.z)
  {
    CubeF(c.x * s.x, c.y * s.y, c.z * s.z, c.width * s.x, c.height * s.y, c.depth * s.z)
  }

  /** `operator /(CubeF, Vector3)`: scaling the result back by the vector gives the box again. */
  function DivideByVec(c: CubeF, s: Vec3): (r: CubeF)
    requires NoZeroComponent(s)
    ensures ScaleByVec(r, s) == c
  {
    CubeF(c.x / s.x, c.y / s.y, c.z / s.z, c.width / s.x, c.height / s.y, c.depth / s.z)
  }

  /** Dividing by a vector without zero components undoes scaling by it. */
  lemma ScaleDivideVecRoundTrip(c: CubeF, s: Vec3)
    requires NoZeroComponent(s)
    ensures DivideByVec(ScaleByVec(c, s), s) == c
  {}

  /**
   * `Contains(x, y, z)` as written: its last comparison is `Z < Z + Depth`,
   * so the point's z is bounded only from below.  A box that contains any
   * point still has positive extents.
   */
  predicate ContainsPointAsWritten(c: CubeF, px: real, py: real, pz: real)
    ensures ContainsPointAsWritten(c, px, py, pz) ==> c.width > 0.0 && c.height > 0.0 && c.depth > 0.0
  {
    c.x <= px && px < c.x + c.width && c.y <= py && py < c.y + c.height && c.z <= pz && c.z < c.z + c.depth
  }

  /**
   * `Contains(x, y, z)` as intended: half-open on all three axes.  A box
   * that contains any point has positive extents.
   */
  predicate ContainsPoint(c: CubeF, px: real, py: real, pz: real)
    ensures ContainsPoint(c, px, py, pz) ==> c.width > 0.0 && c.height > 0.0 && c.depth > 0.0
  {
    c.x <= px && px < c.x + c.width && c.y <= py && py < c.y + c.height && c.z <= pz && pz < c.z + c.depth
  }

  /**
   * `Contains(Vector3)`: delegates to the three-coordinate test as written,
   * so it shares its unbounded z range; only a box with positive extents
   * contains a point.
   */
  predicate ContainsVec(c: CubeF, p: Vec3)
    ensures ContainsVec(c, p) ==> !IsEmpty(c)
  {
    ContainsPointAsWritten(c, p.x, p.y, p.z)
  }

  /** `Contains(Vector3)` over the intended three-coordinate test. */
  predicate ContainsVecAsIntended(c: CubeF, p: Vec3)
    ensures ContainsVecAsIntended(c, p) ==> ContainsVec(c, p)
  {
    ContainsPoint(c, p.x, p.y, p.z)
  }

  /**
   * The written test accepts points beyond the far z face: the unit box at
   * the origin "contains" (0, 0, 5). The intended test rejects it, and the
   * written test accepts everything the intended one does.
   */
  lemma ContainsPointAsWrittenTooWide(c: CubeF, px: real, py: real, pz: real)
    ensures ContainsPointAsWritten(CubeF(0.0, 0.0, 0.0, 1.0, 1.0, 1.0), 0.0, 0.0, 5.0)
    ensures !ContainsPoint(CubeF(0.0, 0.0, 0.0, 1.0, 1.0, 1.0), 0.0, 0.0, 5.0)
    ensures ContainsPoint(c, px, py, pz) ==> ContainsPointAsWritten(c, px, py, pz)
  {}

  /** A box contains its own corner exactly when it is not empty, by either test. */
  lemma ContainsCornerIffNonEmpty(c: CubeF)
    ensures ContainsVec(c, Location(c)) <==> !IsEmpty(c)
    ensures ContainsVecAsIntended(c, Location(c)) <==> !IsEmpty(c)
  {}

  /**
   * `Contains(CubeF)`: the other box lies within this one on every axis, so
   * the corner of a contained box that is not empty is a point of this one.
   */
  predicate ContainsCube(c: CubeF, other: CubeF)
    ensures ContainsCube(c, other) && !IsEmpty(other) ==> ContainsPoint(c, other.x, other.y, other.z)
  {
    c.x <= other.x && other.x + other.width <= c.x + c.width &&
    c.y <= other.y && other.y + other.height <= c.y + c.height &&
    c.z <= other.z && other.z + other.depth <= c.z + c.depth
  }

  /** Box containment implies containment of every point. */
  lemma ContainsCubeContainsPoints(c: CubeF, other: CubeF, px: real, py: real, pz: real)
    requires ContainsCube(c, other)
    ensures ContainsPoint(other, px, py, pz) ==> ContainsPoint(c, px, py, pz)
  {}

  /** The reference definition of `WithPositiveExtent`: each axis spans from its lower face by the absolute extent. */
  function Normalised(c: CubeF): (r: CubeF)
    ensures r.width >= 0.0 && r.height >= 0.0 && r.depth >= 0.0
  {
    CubeF(Min(c.x, c.x + c.width), Min(c.y, c.y + c.height), Min(c.z, c.z + c.depth),
          Abs(c.width), Abs(c.height), Abs(c.depth))
  }

  /** `Normalised` keeps the two faces of every axis and only reorders them. */
  lemma NormalisedKeepsFaces(c: CubeF)
    ensures Normalised(c).x == Min(c.x, c.x + c.width)
    ensures Normalised(c).x + Normalised(c).width == Max(c.x, c.x + c.width)
    ensures Normalised(c).y == Min(c.y, c.y + c.height)
    ensures Normalised(c).y + Normalised(c).height == Max(c.y, c.y + c.height)
    ensures Normalised(c).z == Min(c.z, c.z + c.depth)
    ensures Normalised(c).z + Normalised(c).depth == Max(c.z, c.z + c.depth)
  {}

  /** `Normalised` is idempotent and leaves a box with non-negative extents unchanged. */
  lemma NormalisedIdempotent(c: CubeF)
    ensures Normalised(Normalised(c)) == Normalised(c)
    ensures c.width >= 0.0 && c.height >= 0.0 && c.depth >= 0.0 ==> Normalised(c) == c
  {}

  /**
   * `WithPositiveExtent`: every negative extent is negated and the corner
   * moved back by it, so that new corner plus new extent is the old corner.
   */
  method WithPositiveExtent(c: CubeF) returns (r: CubeF)
    ensures r == Normalised(c)
    ensures c.width < 0.0 ==> r.x + r.width == c.x
    ensures c.height < 0.0 ==> r.y + r.height == c.y
    ensures c.depth < 0.0 ==> r.z + r.depth == c.z
    ensures c.width >= 0.0 ==> r.x == c.x && r.width == c.width
    ensures c.height >= 0.0 ==> r.y == c.y && r.height == c.height
    ensures c.depth >= 0.0 ==> r.z == c.z && r.depth == c.depth
  {
    r := c;
    if r.width < 0.0 {
      r := r.(width := -r.width);
      r := r.(x := r.x - r.width);
    }
    if c.height < 0.0 {
      r := r.(height := -r.height);
      r := r.(y := r.y - r.height);
    }
    if c.depth < 0.0 {
      r := r.(depth := -r.depth);
      r := r.(z := r.z - r.depth);
    }
  }

  /** The condition under which the static `Intersect` returns a real overlap rather than `Empty`. */
  predicate Overlap(a: CubeF, b: CubeF) {
    Min(a.x + a.width, b.x + b.width) >= Max(a.x, b.x) &&
    Min(a.y + a.height, b.y + b.height) >= Max(a.y, b.y) &&
    Min(a.z + a.depth, b.z + b.depth) >= Max(a.z, b.z)
  }

  /**
   * The static `Intersect`: from the larger lower face to the smaller upper
   * face on every axis, or `Empty` when some axis has no overlap.
   */
  function Intersect(a: CubeF, b: CubeF): (r: CubeF)
    ensures Overlap(a, b) ==> r.width >= 0.0 && r.height >= 0.0 && r.depth >= 0.0
    ensures Overlap(a, b) ==> r.x == Max(a.x, b.x) && r.x + r.width == Min(a.x + a.width, b.x + b.width)
    ensures Overlap(a, b) ==> r.y == Max(a.y, b.y) && r.y + r.height == Min(a.y + a.height, b.y + b.height)
    ensures Overlap(a, b) ==> r.z == Max(a.z, b.z) && r.z + r.depth == Min(a.z + a.depth, b.z + b.depth)
    ensures !Overlap(a, b) ==> r == Empty
  {
    var x := Max(a.x, b.x);
    var num2 := Min(a.x + a.width, b.x + b.width);
    var y := Max(a.y, b.y);
    var num4 := Min(a.y + a.height, b.y + b.height);
    var z := Max(a.z, b.z);
    var num6 := Min(a.z + a.depth, b.z + b.depth);
    if num2 >= x && num4 >= y && num6 >= z then CubeF(x, y, z, num2 - x, num4 - y, num6 - z)
    else Empty
  }

  /** `Intersect` does not depend on the order of its arguments. */
  lemma IntersectCommutative(a: CubeF, b: CubeF)
    ensures Intersect(a, b) == Intersect(b, a)
  {}

  /** An overlapping intersection lies within both boxes. */
  lemma IntersectContained(a: CubeF, b: CubeF)
    requires Overlap(a, b)
    ensures ContainsCube(a, Intersect(a, b))
    ensures ContainsCube(b, Intersect(a, b))
  {}

  /** A point lies in the intersection exactly when it lies in both boxes. */
  lemma IntersectPoints(a: CubeF, b: CubeF, px: real, py: real, pz: real)
    ensures ContainsPoint(Intersect(a, b), px, py, pz) <==> ContainsPoint(a, px, py, pz) && ContainsPoint(b, px, py, pz)
  {}

  /** The instance `Intersect`: replaces the box with its intersection with `cube`. */
  method IntersectWith(c: CubeF, cube: CubeF) returns (r: CubeF)
    ensures r == Intersect(c, cube)
    ensures !Overlap(c, cube) ==> r == Empty
  {
    var ef := Intersect(cube, c);
    IntersectCommutative(cube, c);
    r := c;
    r := r.(x := ef.x);
    r := r.(y := ef.y);
    r := r.(z := ef.z);
    r := r.(width := ef.width);
    r := r.(height := ef.height);
    r := r.(depth := ef.depth);
  }

  /**
   * `IntersectsWith`: the two boxes overlap or touch on every axis; in
   * particular a box meets every box with non-negative extents it contains.
   */
  predicate IntersectsWith(a: CubeF, b: CubeF)
    ensures ContainsCube(a, b) && b.width >= 0.0 && b.height >= 0.0 && b.depth >= 0.0 ==> IntersectsWith(a, b)
  {
    b.x <= a.x + a.width && a.x <= b.x + b.width &&
    b.y <= a.y + a.height && a.y <= b.y + b.height &&
    b.z <= a.z + a.depth && a.z <= b.z + b.depth
  }

  /**
   * `IntersectsWith` is symmetric, and for boxes with non-negative extents
   * it holds exactly when `Intersect` finds an overlap.
   */
  lemma IntersectsWithIffOverlap(a: CubeF, b: CubeF)
    ensures IntersectsWith(a, b) <==> IntersectsWith(b, a)
    ensures a.width >= 0.0 && a.height >= 0.0 && a.depth >= 0.0 &&
            b.width >= 0.0 && b.height >= 0.0 && b.depth >= 0.0 ==>
              (IntersectsWith(a, b) <==> Overlap(a, b))
  {}

  /** `Union`: the smallest box spanning both lower and both upper faces. */
  function Union(a: CubeF, b: CubeF): (r: CubeF)
    ensures r.x == Min(a.x, b.x) && r.x + r.width == Max(a.x + a.width, b.x + b.width)
    ensures r.y == Min(a.y, b.y) && r.y + r.height == Max(a.y + a.height, b.y + b.height)
    ensures r.z == Min(a.z, b.z) && r.z + r.depth == Max(a.z + a.depth, b.z + b.depth)
  {
    var x := Min(a.x, b.x);
    var num2 := Max(a.x + a.width, b.x + b.width);
    var y := Min(a.y, b.y);
    var num4 := Max(a.y + a.height, b.y + b.height);
    var z := Min(a.z, b.z);
    var num6 := Max(a.z + a.depth, b.z + b.depth);
    CubeF(x, y, z, num2 - x, num4 - y, num6 - z)
  }

  /** `Union` does not depend on the order of its arguments. */
  lemma UnionCommutative(a: CubeF, b: CubeF)
    ensures Union(a, b) == Union(b, a)
  {}

  /** `Union` contains both boxes, and every box containing both contains the union. */
  lemma UnionSmallest(a: CubeF, b: CubeF, c: CubeF)
    ensures ContainsCube(Union(a, b), a)
    ensures ContainsCube(Union(a, b), b)
    ensures ContainsCube(c, a) && ContainsCube(c, b) ==> ContainsCube(c, Union(a, b))
  {}

  /** `Offset(x, y, z)`: moves the corner and keeps the extents. */
  function Offset(c: CubeF, dx: real, dy: real, dz: real): (r: CubeF)
    ensures Size(r) == Size(c)
    ensures Location(r) == Add3(Location(c), Vec3(dx, dy, dz))
  {
    CubeF(c.x + dx, c.y + dy, c.z + dz, c.width, c.height, c.depth)
  }

  /** `Offset(Vector3)`: delegates to the three-coordinate form. */
  function OffsetVec(c: CubeF, pos: Vec3): (r: CubeF)
    ensures Size(r) == Size(c)
    ensures Location(r) == Add3(Location(c), pos)
  {
    Offset(c, pos.x, pos.y, pos.z)
  }

  /** Offsetting moves the contained points along, and the opposite offset undoes it. */
  lemma OffsetMovesPoints(c: CubeF, v: Vec3, p: Vec3)
    ensures ContainsVec(OffsetVec(c, v), Add3(p, v)) <==> ContainsVec(c, p)
    ensures ContainsVecAsIntended(OffsetVec(c, v), Add3(p, v)) <==> ContainsVecAsIntended(c, p)
    ensures OffsetVec(OffsetVec(c, v), Neg3(v)) == c
  {}
}
