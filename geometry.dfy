/** Optional values: the model's stand-in for JavaScript's null/undefined. */
module Wrappers {
  datatype Option<+T> = None | Some(value: T)

  /** JavaScript truthiness of a value that is a string or null/undefined:
      null, undefined and "" are falsy. */
  predicate Truthy(s: Option<string>) {
    s.Some? && s.value != ""
  }
}

/** Three-dimensional vectors over the reals, the three.js operations the
    scene uses on them, and the host's trigonometry taken as a parameter. */
module Geometry {

  /** A point or displacement (a three.js Vector3), with exact real coordinates. */
  datatype Vec3 = Vec3(x: real, y: real, z: real)

  const Origin: Vec3 := Vec3(0.0, 0.0, 0.0)

  /** Vector3.add. */
  function Add(a: Vec3, b: Vec3): Vec3 {
    Vec3(a.x + b.x, a.y + b.y, a.z + b.z)
  }

  function Abs(v: real): (r: real)
    ensures r >= 0.0 && (r == v || r == -v)
  {
    if v < 0.0 then -v else v
  }

  function Min(a: real, b: real): (r: real)
    ensures r <= a && r <= b && (r == a || r == b)
  {
    if a <= b then a else b
  }

  function Max(a: real, b: real): (r: real)
    ensures r >= a && r >= b && (r == a || r == b)
  {
    if a <= b then b else a
  }

  /** The square of a real. Every square in the model goes through this
      function, so that the solver sees one term per square. */
  function Sq(u: real): real {
    u * u
  }

  lemma SquareNonNegative(u: real)
    ensures Sq(u) >= 0.0
  {
  }

  lemma SquareOfProduct(k: real, u: real)
    ensures Sq(k * u) == Sq(k) * Sq(u)
  {
  }

  lemma SquareMonotone(a: real, b: real)
    requires 0.0 <= a <= b
    ensures Sq(a) <= Sq(b)
  {
  }

  /** Squared Euclidean distance. */
  function DistSq(a: Vec3, b: Vec3): (d: real)
    ensures d >= 0.0
  {
    SquareNonNegative(b.x - a.x);
    SquareNonNegative(b.y - a.y);
    SquareNonNegative(b.z - a.z);
    Sq(b.x - a.x) + Sq(b.y - a.y) + Sq(b.z - a.z)
  }

  /** Adding b moves a point as far as b lies from the origin. */
  lemma AddDistance(a: Vec3, b: Vec3)
    ensures DistSq(a, Add(a, b)) == DistSq(Origin, b)
  {
    var r := Add(a, b);
    assert r.x - a.x == b.x - 0.0 && r.y - a.y == b.y - 0.0 && r.z - a.z == b.z - 0.0;
  }

  /** Vector3.lerp: a moved the fraction alpha of the way towards b, each
      coordinate by a += (b - a) * alpha. The gap left to b is the old gap
      scaled by 1 - alpha. */
  function Lerp(a: Vec3, b: Vec3, alpha: real): (r: Vec3)
    ensures b.x - r.x == (1.0 - alpha) * (b.x - a.x)
    ensures b.y - r.y == (1.0 - alpha) * (b.y - a.y)
    ensures b.z - r.z == (1.0 - alpha) * (b.z - a.z)
  {
    Vec3(a.x + (b.x - a.x) * alpha, a.y + (b.y - a.y) * alpha, a.z + (b.z - a.z) * alpha)
  }

  /** v lies between lo and hi, in either order. */
  predicate Between(v: real, lo: real, hi: real) {
    (lo <= v <= hi) || (hi <= v <= lo)
  }

  /** The squared distance left to the goal after a lerp is the old one
      scaled by (1 - alpha)^2. */
  lemma LerpScalesDistSq(a: Vec3, b: Vec3, alpha: real)
    ensures DistSq(Lerp(a, b, alpha), b) == Sq(1.0 - alpha) * DistSq(a, b)
  {
    var r := Lerp(a, b, alpha);
    var k := Sq(1.0 - alpha);
    GapScalesSq(a.x, b.x, r.x, alpha);
    GapScalesSq(a.y, b.y, r.y, alpha);
    GapScalesSq(a.z, b.z, r.z, alpha);
    Distribute(k, Sq(b.x - a.x), Sq(b.y - a.y), Sq(b.z - a.z));
  }

  lemma GapScalesSq(u: real, v: real, w: real, alpha: real)
    requires v - w == (1.0 - alpha) * (v - u)
    ensures Sq(v - w) == Sq(1.0 - alpha) * Sq(v - u)
  {
    SquareOfProduct(1.0 - alpha, v - u);
  }

  lemma Distribute(k: real, p: real, q: real, s: real)
    ensures k * p + k * q + k * s == k * (p + q + s)
  {
  }

  /** The host's Math.cos and Math.sin. Nothing is computed about them: the
      only fact the model relies on is the Pythagorean identity, which every
      member that needs it takes as a precondition through Valid(). */
  datatype Trig = Trig(cos: real -> real, sin: real -> real) {
    function Cos(a: real): real {
      cos(a)
    }

    function Sin(a: real): real {
      sin(a)
    }

    /** The Pythagorean identity at one angle. */
    predicate OnUnitCircle(a: real) {
      Sq(Cos(a)) + Sq(Sin(a)) == 1.0
    }

    /** The Pythagorean identity at every angle. */
    ghost predicate Valid() {
      forall a: real :: OnUnitCircle(a)
    }
  }

  /** Of two reals whose squares sum to one, the first lies in [-1, 1]. */
  lemma UnitSquareBound(u: real, v: real)
    requires Sq(u) + Sq(v) == 1.0
    ensures -1.0 <= u <= 1.0
  {
  }

  /** |cos a| <= 1 and |sin a| <= 1, from the Pythagorean identity alone. */
  lemma TrigBounds(tr: Trig, a: real)
    requires tr.Valid()
    ensures -1.0 <= tr.Cos(a) <= 1.0
    ensures -1.0 <= tr.Sin(a) <= 1.0
  {
    var c, s := tr.Cos(a), tr.Sin(a);
    assert tr.OnUnitCircle(a);
    UnitSquareBound(c, s);
    UnitSquareBound(s, c);
  }

  /** A term k * r * w with |w| <= 1 and k >= 0 has magnitude at most k * |r|. */
  lemma ScaledBound(k: real, r: real, w: real)
    requires k >= 0.0 && -1.0 <= w <= 1.0
    ensures Abs(k * r * w) <= k * Abs(r)
  {
    var kr := k * Abs(r);
    assert kr >= 0.0;
    if w >= 0.0 {
      assert Abs(k * r * w) == kr * w;
      assert kr * w <= kr * 1.0;
    } else {
      assert Abs(k * r * w) == kr * -w;
      assert kr * -w <= kr * 1.0;
    }
  }
}
