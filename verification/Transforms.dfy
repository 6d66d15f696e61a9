/** The texture matrix of a buffer (the V2 form): rotation or flip, then crop, then the flip from
    device to texture coordinates. Reals stand for the floats of the C++ code. */
module Transforms {
  type Matrix = m: seq<real> | |m| == 16 witness seq(16, i => 0.0)

  datatype GraphicTransformType =
    | ROTATE_NONE | ROTATE_90 | ROTATE_180 | ROTATE_270 | FLIP_H | FLIP_V
    | FLIP_H_ROT90 | FLIP_V_ROT90 | FLIP_H_ROT180 | FLIP_V_ROT180 | FLIP_H_ROT270 | FLIP_V_ROT270

  datatype Rect = Rect(x: int, y: int, w: int, h: int)

  const IDENTITY: Matrix := [1.0, 0.0, 0.0, 0.0, 0.0, 1.0, 0.0, 0.0, 0.0, 0.0, 1.0, 0.0, 0.0, 0.0, 0.0, 1.0]
  const ROTATE90: Matrix := [0.0, 1.0, 0.0, 0.0, -1.0, 0.0, 0.0, 0.0, 0.0, 0.0, 1.0, 0.0, 1.0, 0.0, 0.0, 1.0]
  const ROTATE180: Matrix := [-1.0, 0.0, 0.0, 0.0, 0.0, -1.0, 0.0, 0.0, 0.0, 0.0, 1.0, 0.0, 1.0, 1.0, 0.0, 1.0]
  const ROTATE270: Matrix := [0.0, -1.0, 0.0, 0.0, 1.0, 0.0, 0.0, 0.0, 0.0, 0.0, 1.0, 0.0, 0.0, 1.0, 0.0, 1.0]
  const FLIPH: Matrix := [-1.0, 0.0, 0.0, 0.0, 0.0, 1.0, 0.0, 0.0, 0.0, 0.0, 1.0, 0.0, 1.0, 0.0, 0.0, 1.0]
  const FLIPV: Matrix := [1.0, 0.0, 0.0, 0.0, 0.0, -1.0, 0.0, 0.0, 0.0, 0.0, 1.0, 0.0, 0.0, 1.0, 0.0, 1.0]

  // ---- the product ----

  function MatrixProduct(l: Matrix, r: Matrix): Matrix {
    [l[0] * r[0] + l[4] * r[1] + l[8] * r[2] + l[12] * r[3],
     l[1] * r[0] + l[5] * r[1] + l[9] * r[2] + l[13] * r[3],
     l[2] * r[0] + l[6] * r[1] + l[10] * r[2] + l[14] * r[3],
     l[3] * r[0] + l[7] * r[1] + l[11] * r[2] + l[15] * r[3],

     l[0] * r[4] + l[4] * r[5] + l[8] * r[6] + l[12] * r[7],
     l[1] * r[4] + l[5] * r[5] + l[9] * r[6] + l[13] * r[7],
     l[2] * r[4] + l[6] * r[5] + l[10] * r[6] + l[14] * r[7],
     l[3] * r[4] + l[7] * r[5] + l[11] * r[6] + l[15] * r[7],

     l[0] * r[8] + l[4] * r[9] + l[8] * r[10] + l[12] * r[11],
     l[1] * r[8] + l[5] * r[9] + l[9] * r[10] + l[13] * r[11],
     l[2] * r[8] + l[6] * r[9] + l[10] * r[10] + l[14] * r[11],
     l[3] * r[8] + l[7] * r[9] + l[11] * r[10] + l[15] * r[11],

     l[0] * r[12] + l[4] * r[13] + l[8] * r[14] + l[12] * r[15],
     l[1] * r[12] + l[5] * r[13] + l[9] * r[14] + l[13] * r[15],
     l[2] * r[12] + l[6] * r[13] + l[10] * r[14] + l[14] * r[15],
     l[3] * r[12] + l[7] * r[13] + l[11] * r[14] + l[15] * r[15]]
  }

  datatype Vector = Vector(x: real, y: real, z: real, w: real)

  /** Component `i` of a column-major matrix applied to a column vector. */
  function Component(m: Matrix, i: nat, v: Vector): real
    requires i < 4
  {
    m[i] * v.x + m[i + 4] * v.y + m[i + 8] * v.z + m[i + 12] * v.w
  }

  function Apply(m: Matrix, v: Vector): Vector {
    Vector(Component(m, 0, v), Component(m, 1, v), Component(m, 2, v), Component(m, 3, v))
  }

  /** One row of the product, applied. */
  lemma RowProduct(a: real, b: real, c: real, d: real, r: Matrix, v: Vector)
    ensures a * Component(r, 0, v) + b * Component(r, 1, v) + c * Component(r, 2, v) + d * Component(r, 3, v)
         == (a * r[0] + b * r[1] + c * r[2] + d * r[3]) * v.x
          + (a * r[4] + b * r[5] + c * r[6] + d * r[7]) * v.y
          + (a * r[8] + b * r[9] + c * r[10] + d * r[11]) * v.z
          + (a * r[12] + b * r[13] + c * r[14] + d * r[15]) * v.w
  {
    Spread(a, r[0], r[4], r[8], r[12], v);
    Spread(b, r[1], r[5], r[9], r[13], v);
    Spread(c, r[2], r[6], r[10], r[14], v);
    Spread(d, r[3], r[7], r[11], r[15], v);
    Gather(a * r[0], b * r[1], c * r[2], d * r[3], v.x);
    Gather(a * r[4], b * r[5], c * r[6], d * r[7], v.y);
    Gather(a * r[8], b * r[9], c * r[10], d * r[11], v.z);
    Gather(a * r[12], b * r[13], c * r[14], d * r[15], v.w);
  }

  lemma Spread(a: real, x: real, y: real, z: real, w: real, v: Vector)
    ensures a * (x * v.x + y * v.y + z * v.z + w * v.w) == (a * x) * v.x + (a * y) * v.y + (a * z) * v.z + (a * w) * v.w
  {
  }

  lemma Gather(x: real, y: real, z: real, w: real, u: real)
    ensures (x + y + z + w) * u == x * u + y * u + z * u + w * u
  {
  }

  /** The product is the composition of the maps: the right factor acts first. */
  lemma ProductComposes(l: Matrix, r: Matrix, v: Vector)
    ensures Apply(MatrixProduct(l, r), v) == Apply(l, Apply(r, v))
  {
    RowProduct(l[0], l[4], l[8], l[12], r, v);
    RowProduct(l[1], l[5], l[9], l[13], r, v);
    RowProduct(l[2], l[6], l[10], l[14], r, v);
    RowProduct(l[3], l[7], l[11], l[15], r, v);
  }

  // ---- the matrix of a buffer ----

  /** ComputeTransformByMatrixV2 on the identity. */
  function RotationMatrix(t: GraphicTransformType): Matrix {
    match t
    case ROTATE_NONE => IDENTITY
    case ROTATE_90 => ROTATE90
    case ROTATE_180 => ROTATE180
    case ROTATE_270 => ROTATE270
    case FLIP_H => FLIPH
    case FLIP_V => FLIPV
    case FLIP_H_ROT90 => MatrixProduct(FLIPV, ROTATE90)
    case FLIP_V_ROT90 => MatrixProduct(FLIPH, ROTATE90)
    case FLIP_H_ROT180 => FLIPV
    case FLIP_V_ROT180 => FLIPH
    case FLIP_H_ROT270 => MatrixProduct(FLIPH, ROTATE90)
    case FLIP_V_ROT270 => MatrixProduct(FLIPV, ROTATE90)
  }

  /** What ComputeTransformMatrixV2 leaves in the caller's variable. */
  function Swapped(t: GraphicTransformType): GraphicTransformType {
    match t
    case ROTATE_90 => ROTATE_270
    case ROTATE_270 => ROTATE_90
    case _ => t
  }

  /** Translation and scale along one axis; an axis that is not cropped keeps 0 and 1. */
  function Shift(from: int, length: int, size: int): real {
    if length < size && size != 0 then from as real / size as real else 0.0
  }

  function Scale(length: int, size: int): real {
    if length < size && size != 0 then length as real / size as real else 1.0
  }

  function CropMatrix(width: int, height: int, crop: Rect): Matrix {
    [Scale(crop.w, width), 0.0, 0.0, 0.0, 0.0, Scale(crop.h, height), 0.0, 0.0, 0.0, 0.0, 1.0, 0.0,
     Shift(crop.x, crop.w, width), Shift(height - crop.y - crop.h, crop.h, height), 0.0, 1.0]
  }

  predicate Crops(width: int, height: int, crop: Rect) {
    (crop.w < width && width != 0) || (crop.h < height && height != 0)
  }

  /** ComputeTransformMatrixV2. */
  function TextureMatrix(width: int, height: int, t: GraphicTransformType, crop: Rect): Matrix {
    var rotation := RotationMatrix(Swapped(t));
    var cropped := if Crops(width, height, crop) then MatrixProduct(CropMatrix(width, height, crop), rotation) else rotation;
    MatrixProduct(FLIPV, cropped)
  }

  // ---- what the transforms mean ----

  datatype Point = Point(x: real, y: real)

  function At(p: Point): Vector { Vector(p.x, p.y, 0.0, 1.0) }

  predicate InUnitSquare(p: Point) { 0.0 <= p.x <= 1.0 && 0.0 <= p.y <= 1.0 }

  /** A quarter turn of the unit square about its centre. */
  function Turn(p: Point): Point { Point(1.0 - p.y, p.x) }

  function Turns(p: Point, k: nat): Point { if k == 0 then p else Turn(Turns(p, k - 1)) }

  /** The number of quarter turns in the name of a transform. */
  function Quarters(t: GraphicTransformType): (k: nat)
    ensures k < 4
  {
    match t
    case ROTATE_90 => 1 case FLIP_H_ROT90 => 1 case FLIP_V_ROT90 => 1
    case ROTATE_180 => 2 case FLIP_H_ROT180 => 2 case FLIP_V_ROT180 => 2
    case ROTATE_270 => 3 case FLIP_H_ROT270 => 3 case FLIP_V_ROT270 => 3
    case _ => 0
  }

  function Mirror(t: GraphicTransformType, p: Point): Point {
    if t in {FLIP_H, FLIP_H_ROT90, FLIP_H_ROT180, FLIP_H_ROT270} then Point(1.0 - p.x, p.y)
    else if t in {FLIP_V, FLIP_V_ROT90, FLIP_V_ROT180, FLIP_V_ROT270} then Point(p.x, 1.0 - p.y)
    else p
  }

  /** The reference: the quarter turns backwards, then the flip. */
  function Reference(t: GraphicTransformType, p: Point): Point { Mirror(t, Turns(p, (4 - Quarters(t)) % 4)) }

  lemma TurnsUnfold(p: Point)
    ensures Turns(p, 0) == p && Turns(p, 1) == Point(1.0 - p.y, p.x)
    ensures Turns(p, 2) == Point(1.0 - p.x, 1.0 - p.y) && Turns(p, 3) == Point(p.y, 1.0 - p.x)
  {
    assert Turns(p, 1) == Turn(Turns(p, 0));
    assert Turns(p, 2) == Turn(Turns(p, 1));
    assert Turns(p, 3) == Turn(Turns(p, 2));
  }

  lemma ConstantMaps(p: Point)
    ensures Apply(IDENTITY, At(p)) == At(p)
    ensures Apply(ROTATE90, At(p)) == At(Turns(p, 1)) && Apply(ROTATE180, At(p)) == At(Turns(p, 2))
    ensures Apply(ROTATE270, At(p)) == At(Turns(p, 3))
    ensures Apply(FLIPH, At(p)) == At(Point(1.0 - p.x, p.y)) && Apply(FLIPV, At(p)) == At(Point(p.x, 1.0 - p.y))
  {
    TurnsUnfold(p);
  }

  /** All twelve transforms follow one rule: turn back by the quarter turns of the name, then flip. */
  lemma RotationRule(t: GraphicTransformType, p: Point)
    ensures Apply(RotationMatrix(Swapped(t)), At(p)) == At(Reference(t, p))
  {
    TurnsUnfold(p);
    ConstantMaps(p);
    ConstantMaps(Turns(p, 1));
    ProductComposes(FLIPV, ROTATE90, At(p));
    ProductComposes(FLIPH, ROTATE90, At(p));
  }

  /** What the caller's transform becomes: the quarter turns are counted the other way round and
      nothing else changes, so doing it twice gives the transform back. */
  lemma SwapRule(t: GraphicTransformType)
    ensures Swapped(t) == (if t == ROTATE_90 then ROTATE_270 else if t == ROTATE_270 then ROTATE_90 else t)
    ensures Swapped(Swapped(t)) == t
    ensures t in {ROTATE_NONE, ROTATE_90, ROTATE_180, ROTATE_270} ==> Quarters(Swapped(t)) == (4 - Quarters(t)) % 4
  {
  }

  /** The table itself, without the swap, turns the four plain rotations forwards; the eight others it
      turns backwards, then flips. */
  lemma TableRule(t: GraphicTransformType, p: Point)
    ensures Apply(RotationMatrix(t), At(p)) ==
            At(if t in {ROTATE_NONE, ROTATE_90, ROTATE_180, ROTATE_270} then Turns(p, Quarters(t)) else Reference(t, p))
  {
    RotationRule(Swapped(t), p);
    SwapRule(t);
  }

  lemma ReferenceKeepsSquare(t: GraphicTransformType, p: Point)
    ensures InUnitSquare(Reference(t, p)) <==> InUnitSquare(p)
  {
    TurnsUnfold(p);
  }

  /** Every point of the unit square is reached. */
  lemma ReferenceOnto(t: GraphicTransformType, q: Point) returns (p: Point)
    ensures Reference(t, p) == q
  {
    var m := Mirror(t, q);
    TurnsUnfold(m);
    p := Turns(m, Quarters(t));
    TurnsUnfold(p);
  }

  // ---- the crop theorem ----

  predicate Inside(width: int, height: int, crop: Rect) {
    && width > 0 && height > 0
    && 0 <= crop.x && 0 <= crop.w && crop.x + crop.w <= width
    && 0 <= crop.y && 0 <= crop.h && crop.y + crop.h <= height
  }

  /** The place in the buffer, in texture coordinates, that the relative position `u` of a crop has. */
  function Place(from: int, length: int, size: int, u: real): real
    requires size > 0
  {
    (from as real + length as real * u) / size as real
  }

  lemma Divided(a: real, n: real, r: real)
    requires n > 0.0 && r * n == a
    ensures a / n == r
  {
    var d := a / n;
    assert d * n == a;
    assert d > r ==> (d - r) * n > 0.0;
    assert d < r ==> (r - d) * n > 0.0;
  }

  lemma Quotients(a: real, b: real, u: real, n: real)
    requires n > 0.0
    ensures b / n * u + a / n == (a + b * u) / n
  {
    var s, r := b / n, a / n;
    assert s * n == b && r * n == a;
    assert (s * u) * n == (s * n) * u;
    assert (s * u + r) * n == a + b * u;
    Divided(a + b * u, n, s * u + r);
  }

  lemma AxisPlace(from: int, length: int, size: int, u: real)
    requires size > 0 && 0 <= from && 0 <= length && from + length <= size
    ensures Scale(length, size) * u + Shift(from, length, size) == Place(from, length, size, u)
  {
    var n := size as real;
    Quotients(from as real, length as real, u, n);
    if length == size {
      Divided(n * u, n, u);
      assert from as real + length as real * u == n * u;
      assert Place(from, length, size, u) == u;
    }
  }

  lemma FlippedPlace(from: int, length: int, size: int, u: real)
    requires size > 0
    ensures 1.0 - Place(size - from - length, length, size, u) == Place(from, length, size, 1.0 - u)
  {
    var n, a, b := size as real, from as real, length as real;
    var x := (n - a - b) + b * u;
    assert (size - from - length) as real + b * u == x && a + b * (1.0 - u) == n - x;
    var d := x / n;
    assert d * n == x;
    Divided(n - x, n, 1.0 - d);
    assert Place(size - from - length, length, size, u) == d;
    assert Place(from, length, size, 1.0 - u) == (n - x) / n;
  }

  /** Where a point of the unit square ends up in the buffer. */
  function Mapped(width: int, height: int, crop: Rect, q: Point): Point
    requires width > 0 && height > 0
  {
    Point(Place(crop.x, crop.w, width, q.x), Place(crop.y, crop.h, height, 1.0 - q.y))
  }

  lemma CropMaps(width: int, height: int, crop: Rect, q: Point)
    requires Inside(width, height, crop)
    ensures Apply(FLIPV, Apply(CropMatrix(width, height, crop), At(q))) == At(Mapped(width, height, crop, q))
  {
    AxisPlace(crop.x, crop.w, width, q.x);
    AxisPlace(height - crop.y - crop.h, crop.h, height, q.y);
    FlippedPlace(crop.y, crop.h, height, q.y);
    var r := Point(Place(crop.x, crop.w, width, q.x), Place(height - crop.y - crop.h, crop.h, height, q.y));
    assert Apply(CropMatrix(width, height, crop), At(q)) == At(r);
    ConstantMaps(r);
  }

  lemma UncroppedMaps(width: int, height: int, crop: Rect, q: Point)
    requires Inside(width, height, crop) && !Crops(width, height, crop)
    ensures Apply(CropMatrix(width, height, crop), At(q)) == At(q)
  {
  }

  /** The final matrix, point by point: for every transform and every crop inside a buffer of any
      size it is the reference map, followed by the crop seen from the top left. */
  lemma PointMap(width: int, height: int, t: GraphicTransformType, crop: Rect, p: Point)
    requires Inside(width, height, crop)
    ensures Apply(TextureMatrix(width, height, t, crop), At(p)) == At(Mapped(width, height, crop, Reference(t, p)))
  {
    var rotation, q := RotationMatrix(Swapped(t)), Reference(t, p);
    RotationRule(t, p);
    CropMaps(width, height, crop, q);
    ProductComposes(CropMatrix(width, height, crop), rotation, At(p));
    if Crops(width, height, crop) {
      ProductComposes(FLIPV, MatrixProduct(CropMatrix(width, height, crop), rotation), At(p));
    } else {
      UncroppedMaps(width, height, crop, q);
      ProductComposes(FLIPV, rotation, At(p));
    }
  }

  /** The crop that takes effect: an axis that is not smaller than the buffer is not cropped, whatever
      the offset says. */
  function Effective(width: int, height: int, crop: Rect): Rect {
    Rect(if crop.w < width then crop.x else 0, if crop.h < height then crop.y else 0,
         if crop.w < width then crop.w else width, if crop.h < height then crop.h else height)
  }

  lemma AxisPlaceAny(from: int, length: int, size: int, u: real)
    requires size > 0
    ensures Scale(length, size) * u + Shift(from, length, size) ==
            if length < size then Place(from, length, size, u) else Place(0, size, size, u)
  {
    var n := size as real;
    Quotients(from as real, length as real, u, n);
    Divided(n * u, n, u);
    assert 0.0 + n * u == n * u;
  }

  lemma CropMapsAny(width: int, height: int, crop: Rect, q: Point)
    requires width > 0 && height > 0
    ensures Apply(FLIPV, Apply(CropMatrix(width, height, crop), At(q))) == At(Mapped(width, height, Effective(width, height, crop), q))
  {
    var e := Effective(width, height, crop);
    AxisPlaceAny(crop.x, crop.w, width, q.x);
    AxisPlaceAny(height - crop.y - crop.h, crop.h, height, q.y);
    FlippedPlace(e.y, e.h, height, q.y);
    var r := Point(Place(e.x, e.w, width, q.x), Place(height - e.y - e.h, e.h, height, q.y));
    assert Apply(CropMatrix(width, height, crop), At(q)) == At(r);
    ConstantMaps(r);
  }

  lemma UncroppedAny(width: int, height: int, crop: Rect, q: Point)
    requires !Crops(width, height, crop)
    ensures Apply(CropMatrix(width, height, crop), At(q)) == At(q)
  {
  }

  /** The final matrix, point by point, for every crop whatsoever, inside the buffer or not. */
  lemma PointMapAny(width: int, height: int, t: GraphicTransformType, crop: Rect, p: Point)
    requires width > 0 && height > 0
    ensures Apply(TextureMatrix(width, height, t, crop), At(p)) == At(Mapped(width, height, Effective(width, height, crop), Reference(t, p)))
  {
    var rotation, q := RotationMatrix(Swapped(t)), Reference(t, p);
    RotationRule(t, p);
    CropMapsAny(width, height, crop, q);
    ProductComposes(CropMatrix(width, height, crop), rotation, At(p));
    if Crops(width, height, crop) {
      ProductComposes(FLIPV, MatrixProduct(CropMatrix(width, height, crop), rotation), At(p));
    } else {
      UncroppedAny(width, height, crop, q);
      ProductComposes(FLIPV, rotation, At(p));
    }
  }

  /** The crop in texture coordinates. */
  predicate InCrop(width: int, height: int, crop: Rect, q: Point)
    requires width > 0 && height > 0
  {
    && crop.x as real / width as real <= q.x <= (crop.x + crop.w) as real / width as real
    && crop.y as real / height as real <= q.y <= (crop.y + crop.h) as real / height as real
  }

  lemma PlaceInside(from: int, length: int, size: int, u: real)
    requires size > 0 && 0 <= length && 0.0 <= u <= 1.0
    ensures from as real / size as real <= Place(from, length, size, u) <= (from + length) as real / size as real
  {
    var b := length as real;
    assert 0.0 <= b * u <= b;
    Monotone(from as real, from as real + b * u, size as real);
    Monotone(from as real + b * u, (from + length) as real, size as real);
  }

  lemma Monotone(a: real, b: real, n: real)
    requires n > 0.0 && a <= b
    ensures a / n <= b / n
  {
    assert (b - a) / n >= 0.0;
    assert b / n == a / n + (b - a) / n;
  }

  /** Clearing the denominator. */
  lemma Cleared(a: real, x: real, n: real)
    requires n > 0.0
    ensures a / n <= x <==> a <= x * n
    ensures x <= a / n <==> x * n <= a
  {
    var d := a / n;
    assert d * n == a;
    assert (x - d) * n == x * n - a;
    if x > d { assert (x - d) * n > 0.0; } else if x < d { assert (d - x) * n > 0.0; }
  }

  /** Every place in the crop is the place of some relative position. */
  lemma PlaceOnto(from: int, length: int, size: int, x: real) returns (u: real)
    requires size > 0 && 0 <= length
    requires from as real / size as real <= x <= (from + length) as real / size as real
    ensures 0.0 <= u <= 1.0 && Place(from, length, size, u) == x
  {
    var a, b, n := from as real, length as real, size as real;
    Cleared(a, x, n);
    Cleared(a + b, x, n);
    u := Between(a, b, x * n);
    Divided(a + b * u, n, x);
  }

  lemma Between(a: real, b: real, y: real) returns (u: real)
    requires 0.0 <= b && a <= y <= a + b
    ensures 0.0 <= u <= 1.0 && a + b * u == y
  {
    if b == 0.0 {
      u := 0.0;
    } else {
      u := (y - a) / b;
      assert u * b == y - a;
      Cleared(y - a, 1.0, b);
      Cleared(y - a, 0.0, b);
    }
  }

  /** The crop theorem: the unit square is mapped into the crop ... */
  lemma SquareIntoCrop(width: int, height: int, t: GraphicTransformType, crop: Rect, p: Point)
    requires Inside(width, height, crop) && InUnitSquare(p)
    ensures var v := Apply(TextureMatrix(width, height, t, crop), At(p));
            v.z == 0.0 && v.w == 1.0 && InCrop(width, height, crop, Point(v.x, v.y))
  {
    PointMap(width, height, t, crop, p);
    ReferenceKeepsSquare(t, p);
    var q := Reference(t, p);
    PlaceInside(crop.x, crop.w, width, q.x);
    PlaceInside(crop.y, crop.h, height, 1.0 - q.y);
  }

  /** ... and onto it. */
  lemma SquareOntoCrop(width: int, height: int, t: GraphicTransformType, crop: Rect, q: Point) returns (p: Point)
    requires Inside(width, height, crop) && InCrop(width, height, crop, q)
    ensures InUnitSquare(p) && Apply(TextureMatrix(width, height, t, crop), At(p)) == At(q)
  {
    var u := PlaceOnto(crop.x, crop.w, width, q.x);
    var v := PlaceOnto(crop.y, crop.h, height, q.y);
    p := ReferenceOnto(t, Point(u, 1.0 - v));
    ReferenceKeepsSquare(t, p);
    PointMap(width, height, t, crop, p);
  }

  // ---- the method ----

  method ComputeTransformByMatrixV2(transform: GraphicTransformType, transformMatrix: array<real>)
    requires transformMatrix.Length == 16 && transformMatrix[..] == IDENTITY
    modifies transformMatrix
    ensures transformMatrix[..] == RotationMatrix(transform)
  {
    match transform
    case ROTATE_NONE =>
    case ROTATE_90 => Store(transformMatrix, ROTATE90);
    case ROTATE_180 => Store(transformMatrix, ROTATE180);
    case ROTATE_270 => Store(transformMatrix, ROTATE270);
    case FLIP_H => Store(transformMatrix, FLIPH);
    case FLIP_V => Store(transformMatrix, FLIPV);
    case FLIP_H_ROT90 => Store(transformMatrix, MatrixProduct(FLIPV, ROTATE90));
    case FLIP_V_ROT90 => Store(transformMatrix, MatrixProduct(FLIPH, ROTATE90));
    case FLIP_H_ROT180 => Store(transformMatrix, FLIPV);
    case FLIP_V_ROT180 => Store(transformMatrix, FLIPH);
    case FLIP_H_ROT270 => Store(transformMatrix, MatrixProduct(FLIPH, ROTATE90));
    case FLIP_V_ROT270 => Store(transformMatrix, MatrixProduct(FLIPV, ROTATE90));
  }

  /** Assignment of a whole `std::array`. */
  method Store(to: array<real>, m: Matrix)
    requires to.Length == 16
    modifies to
    ensures to[..] == m
  {
    for i := 0 to 16
      invariant forall j :: 0 <= j < i ==> to[j] == m[j]
    {
      to[i] := m[i];
    }
  }

  method ComputeTransformMatrixV2(matrix: array<real>, bufferWidth: int, bufferHeight: int, transform: GraphicTransformType, crop: Rect)
    returns (swapped: GraphicTransformType)
    requires matrix.Length == 16
    modifies matrix
    ensures swapped == Swapped(transform) && matrix[..] == TextureMatrix(bufferWidth, bufferHeight, transform, crop)
  {
    swapped := transform;
    match transform {
      case ROTATE_90 => swapped := ROTATE_270;
      case ROTATE_270 => swapped := ROTATE_90;
      case _ =>
    }
    Store(matrix, IDENTITY);
    ComputeTransformByMatrixV2(swapped, matrix);
    var transformMatrix: Matrix := matrix[..];
    var changeFlag, cropMatrix := MakeCropMatrix(bufferWidth, bufferHeight, crop);
    if changeFlag {
      transformMatrix := MatrixProduct(cropMatrix, transformMatrix);
    }
    transformMatrix := MatrixProduct(FLIPV, transformMatrix);
    Store(matrix, transformMatrix);
  }

  /** The two tests of ComputeTransformMatrixV2 and the matrix they fill in. */
  method MakeCropMatrix(bufferWidth: int, bufferHeight: int, crop: Rect) returns (changeFlag: bool, cropMatrix: Matrix)
    ensures changeFlag == Crops(bufferWidth, bufferHeight, crop) && cropMatrix == CropMatrix(bufferWidth, bufferHeight, crop)
  {
    var tx, ty, sx, sy := 0.0, 0.0, 1.0, 1.0;
    changeFlag := false;
    if crop.w < bufferWidth && bufferWidth != 0 {
      tx := crop.x as real / bufferWidth as real;
      sx := crop.w as real / bufferWidth as real;
      changeFlag := true;
    }
    if crop.h < bufferHeight && bufferHeight != 0 {
      ty := (bufferHeight - crop.y - crop.h) as real / bufferHeight as real;
      sy := crop.h as real / bufferHeight as real;
      changeFlag := true;
    }
    cropMatrix := [sx, 0.0, 0.0, 0.0, 0.0, sy, 0.0, 0.0, 0.0, 0.0, 1.0, 0.0, tx, ty, 0.0, 1.0];
  }
}
