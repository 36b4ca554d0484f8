/**
 * Vector algebra and the world-to-view change of basis (transform.py).
 * Coordinates are exact reals, so the algebraic laws hold exactly.
 */
module Transform {

  datatype Vec3 = Vec3(x: real, y: real, z: real)

  /** Camera frame: origin `c`, right `u`, up `v`, forward `n`. */
  datatype Basis = Basis(c: Vec3, u: Vec3, v: Vec3, n: Vec3)

  const Zero := Vec3(0.0, 0.0, 0.0)

  function Dot(a: Vec3, b: Vec3): real {
    a.x * b.x + a.y * b.y + a.z * b.z
  }

  function Add(a: Vec3, b: Vec3): Vec3 {
    Vec3(a.x + b.x, a.y + b.y, a.z + b.z)
  }

  function Sub(a: Vec3, b: Vec3): Vec3 {
    Vec3(a.x - b.x, a.y - b.y, a.z - b.z)
  }

  function Scale(v: Vec3, s: real): Vec3 {
    Vec3(v.x * s, v.y * s, v.z * s)
  }

  function Cross(a: Vec3, b: Vec3): Vec3 {
    Vec3(a.y * b.z - a.z * b.y,
         a.z * b.x - a.x * b.z,
         a.x * b.y - a.y * b.x)
  }

  /** View coordinates of the world point `p`: `p - C` projected on u, v, n. */
  function WorldToViewPoint(p: Vec3, basis: Basis): Vec3 {
    var pv := Sub(p, basis.c);
    Vec3(Dot(pv, basis.u), Dot(pv, basis.v), Dot(pv, basis.n))
  }

  /** Every vertex, in order, through `WorldToViewPoint`. */
  function WorldToViewVertices(vertices: seq<Vec3>, basis: Basis): (r: seq<Vec3>)
    ensures |r| == |vertices|
    ensures forall i :: 0 <= i < |vertices| ==> r[i] == WorldToViewPoint(vertices[i], basis)
    decreases |vertices|
  {
    if vertices == [] then []
    else [WorldToViewPoint(vertices[0], basis)] + WorldToViewVertices(vertices[1..], basis)
  }

  /** The inverse map: the world point with view coordinates `q`. */
  function ViewToWorldPoint(q: Vec3, basis: Basis): Vec3 {
    Add(Add(Add(basis.c, Scale(basis.u, q.x)), Scale(basis.v, q.y)), Scale(basis.n, q.z))
  }

  ghost predicate Orthonormal(basis: Basis) {
    && Dot(basis.u, basis.u) == 1.0 && Dot(basis.v, basis.v) == 1.0 && Dot(basis.n, basis.n) == 1.0
    && Dot(basis.u, basis.v) == 0.0 && Dot(basis.u, basis.n) == 0.0 && Dot(basis.v, basis.n) == 0.0
  }

  // ---------------------------------------------------------------------------
  // Algebraic laws

  lemma AddSubCancel(a: Vec3, b: Vec3)
    ensures Add(Sub(a, b), b) == a
    ensures Sub(a, b) == Zero <==> a == b
    ensures Scale(a, 1.0) == a
  {
    if Sub(a, b) == Zero {
      assert a.x == b.x && a.y == b.y && a.z == b.z;
    }
  }

  /** The cross product is orthogonal to both of its arguments. */
  lemma CrossIsOrthogonal(a: Vec3, b: Vec3)
    ensures Dot(Cross(a, b), a) == 0.0 && Dot(Cross(a, b), b) == 0.0
  {
  }

  lemma CrossSelfIsZero(a: Vec3)
    ensures Cross(a, a) == Zero
  {
  }

  lemma CrossAntiCommutes(a: Vec3, b: Vec3)
    ensures Cross(a, b) == Scale(Cross(b, a), -1.0)
  {
  }

  /** Dot is linear in its first argument. */
  lemma DotLinear(a: Vec3, b: Vec3, w: Vec3, s: real)
    ensures Dot(Add(a, b), w) == Dot(a, w) + Dot(b, w)
    ensures Dot(Sub(a, b), w) == Dot(a, w) - Dot(b, w)
    ensures Dot(Scale(a, s), w) == s * Dot(a, w)
  {
  }

  /** The Gram-Schmidt step: with a unit `n`, `V - (V.n) n` is orthogonal to `n`. */
  lemma OrthogonalizeStep(vHint: Vec3, n: Vec3)
    requires Dot(n, n) == 1.0
    ensures Dot(Sub(vHint, Scale(n, Dot(vHint, n))), n) == 0.0
  {
    DotLinear(vHint, Scale(n, Dot(vHint, n)), n, Dot(vHint, n));
    DotLinear(n, n, n, Dot(vHint, n));
  }

  /** The camera origin maps to the view-space origin. */
  lemma WorldToViewOfOrigin(basis: Basis)
    ensures WorldToViewPoint(basis.c, basis) == Zero
  {
  }

  /** The affine law for one axis `w`, written out on coordinates. */
  lemma AffineAxis(p: Vec3, q: Vec3, c: Vec3, w: Vec3, t: real)
    ensures Dot(Sub(Lerp(p, q, t), c), w)
         == Dot(Sub(p, c), w) + (Dot(Sub(q, c), w) - Dot(Sub(p, c), w)) * t
  {
    AffineScalar(p.x, p.y, p.z, q.x, q.y, q.z, c.x, c.y, c.z, w.x, w.y, w.z, t);
  }

  lemma AffineScalar(p1: real, p2: real, p3: real, q1: real, q2: real, q3: real,
                     c1: real, c2: real, c3: real, w1: real, w2: real, w3: real, t: real)
    ensures (p1 + (q1 - p1) * t - c1) * w1 + (p2 + (q2 - p2) * t - c2) * w2 + (p3 + (q3 - p3) * t - c3) * w3
         == ((p1 - c1) * w1 + (p2 - c2) * w2 + (p3 - c3) * w3)
            + (((q1 - c1) * w1 + (q2 - c2) * w2 + (q3 - c3) * w3) - ((p1 - c1) * w1 + (p2 - c2) * w2 + (p3 - c3) * w3)) * t
  {
  }

  lemma MulCongruence(a: real, b: real, t: real)
    requires a == b
    ensures a * t == b * t
  {
  }

  /** The point a fraction `t` of the way from `p` to `q`. */
  function Lerp(p: Vec3, q: Vec3, t: real): Vec3 {
    Add(p, Scale(Sub(q, p), t))
  }

  lemma AffineX(p: Vec3, q: Vec3, t: real, basis: Basis)
    ensures WorldToViewPoint(Lerp(p, q, t), basis).x
         == Lerp(WorldToViewPoint(p, basis), WorldToViewPoint(q, basis), t).x
  {
    ViewX(Lerp(p, q, t), basis);
    ViewX(p, basis);
    ViewX(q, basis);
    AffineAxis(p, q, basis.c, basis.u, t);
    LerpX(WorldToViewPoint(p, basis), WorldToViewPoint(q, basis), t);
    MulCongruence(WorldToViewPoint(q, basis).x - WorldToViewPoint(p, basis).x,
                  Dot(Sub(q, basis.c), basis.u) - Dot(Sub(p, basis.c), basis.u), t);
  }

  lemma ViewX(p: Vec3, basis: Basis)
    ensures WorldToViewPoint(p, basis).x == Dot(Sub(p, basis.c), basis.u)
  {
  }

  lemma LerpX(a: Vec3, b: Vec3, t: real)
    ensures Lerp(a, b, t).x == a.x + (b.x - a.x) * t
  {
  }

  lemma AffineY(p: Vec3, q: Vec3, t: real, basis: Basis)
    ensures WorldToViewPoint(Lerp(p, q, t), basis).y
         == Lerp(WorldToViewPoint(p, basis), WorldToViewPoint(q, basis), t).y
  {
    ViewY(Lerp(p, q, t), basis);
    ViewY(p, basis);
    ViewY(q, basis);
    AffineAxis(p, q, basis.c, basis.v, t);
    LerpY(WorldToViewPoint(p, basis), WorldToViewPoint(q, basis), t);
    MulCongruence(WorldToViewPoint(q, basis).y - WorldToViewPoint(p, basis).y,
                  Dot(Sub(q, basis.c), basis.v) - Dot(Sub(p, basis.c), basis.v), t);
  }

  lemma ViewY(p: Vec3, basis: Basis)
    ensures WorldToViewPoint(p, basis).y == Dot(Sub(p, basis.c), basis.v)
  {
  }

  lemma LerpY(a: Vec3, b: Vec3, t: real)
    ensures Lerp(a, b, t).y == a.y + (b.y - a.y) * t
  {
  }

  lemma AffineZ(p: Vec3, q: Vec3, t: real, basis: Basis)
    ensures WorldToViewPoint(Lerp(p, q, t), basis).z
         == Lerp(WorldToViewPoint(p, basis), WorldToViewPoint(q, basis), t).z
  {
    ViewZ(Lerp(p, q, t), basis);
    ViewZ(p, basis);
    ViewZ(q, basis);
    AffineAxis(p, q, basis.c, basis.n, t);
    LerpZ(WorldToViewPoint(p, basis), WorldToViewPoint(q, basis), t);
    MulCongruence(WorldToViewPoint(q, basis).z - WorldToViewPoint(p, basis).z,
                  Dot(Sub(q, basis.c), basis.n) - Dot(Sub(p, basis.c), basis.n), t);
  }

  lemma ViewZ(p: Vec3, basis: Basis)
    ensures WorldToViewPoint(p, basis).z == Dot(Sub(p, basis.c), basis.n)
  {
  }

  lemma LerpZ(a: Vec3, b: Vec3, t: real)
    ensures Lerp(a, b, t).z == a.z + (b.z - a.z) * t
  {
  }

  /** The transform is affine: it maps the point a fraction `t` along a segment
      to the point the same fraction along the image segment. */
  lemma {:induction false} WorldToViewIsAffine(p: Vec3, q: Vec3, t: real, basis: Basis)
    ensures WorldToViewPoint(Lerp(p, q, t), basis)
         == Lerp(WorldToViewPoint(p, basis), WorldToViewPoint(q, basis), t)
  {
    AffineX(p, q, t, basis);
    AffineY(p, q, t, basis);
    AffineZ(p, q, t, basis);
  }

  /** |a x b|^2 = |a|^2 |b|^2 - (a.b)^2. */
  lemma LagrangeIdentity(a: Vec3, b: Vec3)
    ensures Dot(Cross(a, b), Cross(a, b)) == Dot(a, a) * Dot(b, b) - Dot(a, b) * Dot(a, b)
  {
  }

  /** The triple product a.(b x c), the determinant of the rows a, b, c. */
  function Det(a: Vec3, b: Vec3, c: Vec3): real {
    Dot(a, Cross(b, c))
  }

  /** The triple expansion for one coordinate, as an identity on reals. */
  lemma TripleScalar(a1: real, a2: real, a3: real, b1: real, b2: real, b3: real,
                     c1: real, c2: real, c3: real, r1: real, r2: real, r3: real)
    ensures r1 * (a1 * (b2 * c3 - b3 * c2) + a2 * (b3 * c1 - b1 * c3) + a3 * (b1 * c2 - b2 * c1))
         == (b2 * c3 - b3 * c2) * (r1 * a1 + r2 * a2 + r3 * a3)
            + (c2 * a3 - c3 * a2) * (r1 * b1 + r2 * b2 + r3 * b3)
            + (a2 * b3 - a3 * b2) * (r1 * c1 + r2 * c2 + r3 * c3)
  {
  }

  /** The same identity with the cross-product components (`x1..x3` of b x c,
      `y1` of c x a, `z1` of a x b), the determinant `d` and the dot products
      `da`, `db`, `dc` named. */
  lemma TripleNamed(a1: real, a2: real, a3: real, b1: real, b2: real, b3: real,
                    c1: real, c2: real, c3: real, r1: real, r2: real, r3: real,
                    x1: real, x2: real, x3: real, y1: real, z1: real,
                    d: real, da: real, db: real, dc: real)
    requires x1 == b2 * c3 - b3 * c2 && x2 == b3 * c1 - b1 * c3 && x3 == b1 * c2 - b2 * c1
    requires y1 == c2 * a3 - c3 * a2 && z1 == a2 * b3 - a3 * b2
    requires d == a1 * x1 + a2 * x2 + a3 * x3
    requires da == r1 * a1 + r2 * a2 + r3 * a3 && db == r1 * b1 + r2 * b2 + r3 * b3 && dc == r1 * c1 + r2 * c2 + r3 * c3
    ensures r1 * d == x1 * da + y1 * db + z1 * dc
  {
    calc {
      r1 * d;
      r1 * (a1 * x1 + a2 * x2 + a3 * x3);
      r1 * (a1 * (b2 * c3 - b3 * c2) + a2 * (b3 * c1 - b1 * c3) + a3 * (b1 * c2 - b2 * c1));
      { TripleScalar(a1, a2, a3, b1, b2, b3, c1, c2, c3, r1, r2, r3); }
      (b2 * c3 - b3 * c2) * (r1 * a1 + r2 * a2 + r3 * a3)
        + (c2 * a3 - c3 * a2) * (r1 * b1 + r2 * b2 + r3 * b3)
        + (a2 * b3 - a3 * b2) * (r1 * c1 + r2 * c2 + r3 * c3);
      x1 * da + y1 * db + z1 * dc;
    }
  }

  lemma CrossParts(a: Vec3, b: Vec3)
    ensures Cross(a, b).x == a.y * b.z - a.z * b.y
    ensures Cross(a, b).y == a.z * b.x - a.x * b.z
    ensures Cross(a, b).z == a.x * b.y - a.y * b.x
  {
  }

  lemma DetParts(a: Vec3, b: Vec3, c: Vec3)
    ensures Det(a, b, c) == a.x * Cross(b, c).x + a.y * Cross(b, c).y + a.z * Cross(b, c).z
  {
  }

  lemma DotParts(a: Vec3, b: Vec3)
    ensures Dot(a, b) == a.x * b.x + a.y * b.y + a.z * b.z
  {
  }

  /** Every component of the products that appear in the triple expansion,
      written out. */
  lemma TripleParts(a: Vec3, b: Vec3, c: Vec3, r: Vec3)
    ensures Cross(b, c).x == b.y * c.z - b.z * c.y && Cross(b, c).y == b.z * c.x - b.x * c.z && Cross(b, c).z == b.x * c.y - b.y * c.x
    ensures Cross(c, a).x == c.y * a.z - c.z * a.y && Cross(c, a).y == c.z * a.x - c.x * a.z && Cross(c, a).z == c.x * a.y - c.y * a.x
    ensures Cross(a, b).x == a.y * b.z - a.z * b.y && Cross(a, b).y == a.z * b.x - a.x * b.z && Cross(a, b).z == a.x * b.y - a.y * b.x
    ensures Det(a, b, c) == a.x * Cross(b, c).x + a.y * Cross(b, c).y + a.z * Cross(b, c).z
    ensures Dot(r, a) == r.x * a.x + r.y * a.y + r.z * a.z
    ensures Dot(r, b) == r.x * b.x + r.y * b.y + r.z * b.z
    ensures Dot(r, c) == r.x * c.x + r.y * c.y + r.z * c.z
  {
    CrossParts(b, c);
    CrossParts(c, a);
    CrossParts(a, b);
    DetParts(a, b, c);
    DotParts(r, a);
    DotParts(r, b);
    DotParts(r, c);
  }

  lemma TripleX(a: Vec3, b: Vec3, c: Vec3, r: Vec3)
    ensures r.x * Det(a, b, c) == Cross(b, c).x * Dot(r, a) + Cross(c, a).x * Dot(r, b) + Cross(a, b).x * Dot(r, c)
  {
    TripleParts(a, b, c, r);
    TripleNamed(a.x, a.y, a.z, b.x, b.y, b.z, c.x, c.y, c.z, r.x, r.y, r.z,
                Cross(b, c).x, Cross(b, c).y, Cross(b, c).z, Cross(c, a).x, Cross(a, b).x,
                Det(a, b, c), Dot(r, a), Dot(r, b), Dot(r, c));
  }

  lemma TripleY(a: Vec3, b: Vec3, c: Vec3, r: Vec3)
    ensures r.y * Det(a, b, c) == Cross(b, c).y * Dot(r, a) + Cross(c, a).y * Dot(r, b) + Cross(a, b).y * Dot(r, c)
  {
    TripleParts(a, b, c, r);
    TripleNamed(a.y, a.z, a.x, b.y, b.z, b.x, c.y, c.z, c.x, r.y, r.z, r.x,
                Cross(b, c).y, Cross(b, c).z, Cross(b, c).x, Cross(c, a).y, Cross(a, b).y,
                Det(a, b, c), Dot(r, a), Dot(r, b), Dot(r, c));
  }

  lemma TripleZ(a: Vec3, b: Vec3, c: Vec3, r: Vec3)
    ensures r.z * Det(a, b, c) == Cross(b, c).z * Dot(r, a) + Cross(c, a).z * Dot(r, b) + Cross(a, b).z * Dot(r, c)
  {
    TripleParts(a, b, c, r);
    TripleNamed(a.z, a.x, a.y, b.z, b.x, b.y, c.z, c.x, c.y, r.z, r.x, r.y,
                Cross(b, c).z, Cross(b, c).x, Cross(b, c).y, Cross(c, a).z, Cross(a, b).z,
                Det(a, b, c), Dot(r, a), Dot(r, b), Dot(r, c));
  }

  /** det(a,b,c) r = (r.a)(b x c) + (r.b)(c x a) + (r.c)(a x b). */
  lemma {:induction false} TripleExpansion(a: Vec3, b: Vec3, c: Vec3, r: Vec3)
    ensures Scale(r, Det(a, b, c))
         == Add(Add(Scale(Cross(b, c), Dot(r, a)), Scale(Cross(c, a), Dot(r, b))), Scale(Cross(a, b), Dot(r, c)))
  {
    TripleX(a, b, c, r);
    TripleY(a, b, c, r);
    TripleZ(a, b, c, r);
  }

  /** The expansion with the three dot products already known. */
  lemma ExpandWithKnownDots(a: Vec3, b: Vec3, c: Vec3, r: Vec3, ka: real, kb: real, kc: real)
    requires Dot(r, a) == ka && Dot(r, b) == kb && Dot(r, c) == kc
    ensures Scale(r, Det(a, b, c))
         == Add(Add(Scale(Cross(b, c), ka), Scale(Cross(c, a), kb)), Scale(Cross(a, b), kc))
  {
    TripleExpansion(a, b, c, r);
  }

  lemma ScaleByUnitOrZero(x: Vec3)
    ensures Scale(x, 1.0) == x && Scale(x, 0.0) == Zero
  {
  }

  lemma SelectFirst(x: Vec3, y: Vec3, z: Vec3)
    ensures Add(Add(Scale(x, 1.0), Scale(y, 0.0)), Scale(z, 0.0)) == x
  {
    ScaleByUnitOrZero(x);
    ScaleByUnitOrZero(y);
    ScaleByUnitOrZero(z);
  }

  lemma SelectSecond(x: Vec3, y: Vec3, z: Vec3)
    ensures Add(Add(Scale(x, 0.0), Scale(y, 1.0)), Scale(z, 0.0)) == y
  {
    ScaleByUnitOrZero(x);
    ScaleByUnitOrZero(y);
    ScaleByUnitOrZero(z);
  }

  lemma SelectThird(x: Vec3, y: Vec3, z: Vec3)
    ensures Add(Add(Scale(x, 0.0), Scale(y, 0.0)), Scale(z, 1.0)) == z
  {
    ScaleByUnitOrZero(x);
    ScaleByUnitOrZero(y);
    ScaleByUnitOrZero(z);
  }

  lemma DotCommutes(a: Vec3, b: Vec3)
    ensures Dot(a, b) == Dot(b, a)
  {
  }

  /** In an orthonormal frame each axis, scaled by the determinant, is the
      cross product of the other two. */
  lemma DualAxes(basis: Basis)
    requires Orthonormal(basis)
    ensures Scale(basis.u, Det(basis.u, basis.v, basis.n)) == Cross(basis.v, basis.n)
    ensures Scale(basis.v, Det(basis.u, basis.v, basis.n)) == Cross(basis.n, basis.u)
    ensures Scale(basis.n, Det(basis.u, basis.v, basis.n)) == Cross(basis.u, basis.v)
  {
    var u, v, n := basis.u, basis.v, basis.n;
    DotCommutes(u, v);
    DotCommutes(u, n);
    DotCommutes(v, n);
    ExpandWithKnownDots(u, v, n, u, 1.0, 0.0, 0.0);
    SelectFirst(Cross(v, n), Cross(n, u), Cross(u, v));
    ExpandWithKnownDots(u, v, n, v, 0.0, 1.0, 0.0);
    SelectSecond(Cross(v, n), Cross(n, u), Cross(u, v));
    ExpandWithKnownDots(u, v, n, n, 0.0, 0.0, 1.0);
    SelectThird(Cross(v, n), Cross(n, u), Cross(u, v));
  }

  lemma LagrangeUnit(a: Vec3, b: Vec3)
    requires Dot(a, a) == 1.0 && Dot(b, b) == 1.0 && Dot(a, b) == 0.0
    ensures Dot(Cross(a, b), Cross(a, b)) == 1.0
  {
    LagrangeIdentity(a, b);
    assert Dot(a, a) * Dot(b, b) == 1.0 * 1.0;
    assert Dot(a, b) * Dot(a, b) == 0.0 * 0.0;
  }

  lemma ScaledByZero(a: Vec3)
    ensures Dot(Scale(a, 0.0), Scale(a, 0.0)) == 0.0
  {
  }

  /** An orthonormal frame has a nonzero determinant. */
  lemma OrthonormalDetNonZero(basis: Basis)
    requires Orthonormal(basis)
    ensures Det(basis.u, basis.v, basis.n) != 0.0
  {
    DualAxes(basis);
    LagrangeUnit(basis.v, basis.n);
    ScaledByZero(basis.u);
  }

  lemma CancelScalar(det: real, w: real, u: real, v: real, n: real, su: real, sv: real, sn: real,
                      a: real, b: real, c: real)
    requires det != 0.0
    requires su == u * det && sv == v * det && sn == n * det
    requires w * det == su * a + sv * b + sn * c
    ensures w == u * a + v * b + n * c
  {
    assert w * det == (u * det) * a + (v * det) * b + (n * det) * c;
    var e := w - (u * a + v * b + n * c);
    assert e * det == 0.0;
  }

  /** A linear combination of three vectors, coordinate by coordinate. */
  lemma Combination(x: Vec3, y: Vec3, z: Vec3, a: real, b: real, c: real)
    ensures Add(Add(Scale(x, a), Scale(y, b)), Scale(z, c))
         == Vec3(x.x * a + y.x * b + z.x * c, x.y * a + y.y * b + z.y * c, x.z * a + y.z * b + z.z * c)
  {
  }

  lemma ScaleCoords(w: Vec3, k: real)
    ensures Scale(w, k) == Vec3(w.x * k, w.y * k, w.z * k)
  {
  }

  /** Cancelling a nonzero determinant from both sides of the expansion. */
  lemma CancelDet(w: Vec3, u: Vec3, v: Vec3, n: Vec3, det: real, a: real, b: real, c: real)
    requires det != 0.0
    requires Scale(w, det)
          == Add(Add(Scale(Scale(u, det), a), Scale(Scale(v, det), b)), Scale(Scale(n, det), c))
    ensures w == Add(Add(Scale(u, a), Scale(v, b)), Scale(n, c))
  {
    CancelDetX(w, u, v, n, det, a, b, c);
    CancelDetY(w, u, v, n, det, a, b, c);
    CancelDetZ(w, u, v, n, det, a, b, c);
  }

  lemma CancelDetX(w: Vec3, u: Vec3, v: Vec3, n: Vec3, det: real, a: real, b: real, c: real)
    requires det != 0.0
    requires Scale(w, det)
          == Add(Add(Scale(Scale(u, det), a), Scale(Scale(v, det), b)), Scale(Scale(n, det), c))
    ensures w.x == Add(Add(Scale(u, a), Scale(v, b)), Scale(n, c)).x
  {
    var su, sv, sn := Scale(u, det), Scale(v, det), Scale(n, det);
    ScaleCoords(w, det);
    ScaleCoords(u, det);
    ScaleCoords(v, det);
    ScaleCoords(n, det);
    Combination(su, sv, sn, a, b, c);
    Combination(u, v, n, a, b, c);
    CancelScalar(det, w.x, u.x, v.x, n.x, su.x, sv.x, sn.x, a, b, c);
  }

  lemma CancelDetY(w: Vec3, u: Vec3, v: Vec3, n: Vec3, det: real, a: real, b: real, c: real)
    requires det != 0.0
    requires Scale(w, det)
          == Add(Add(Scale(Scale(u, det), a), Scale(Scale(v, det), b)), Scale(Scale(n, det), c))
    ensures w.y == Add(Add(Scale(u, a), Scale(v, b)), Scale(n, c)).y
  {
    var su, sv, sn := Scale(u, det), Scale(v, det), Scale(n, det);
    ScaleCoords(w, det);
    ScaleCoords(u, det);
    ScaleCoords(v, det);
    ScaleCoords(n, det);
    Combination(su, sv, sn, a, b, c);
    Combination(u, v, n, a, b, c);
    CancelScalar(det, w.y, u.y, v.y, n.y, su.y, sv.y, sn.y, a, b, c);
  }

  lemma CancelDetZ(w: Vec3, u: Vec3, v: Vec3, n: Vec3, det: real, a: real, b: real, c: real)
    requires det != 0.0
    requires Scale(w, det)
          == Add(Add(Scale(Scale(u, det), a), Scale(Scale(v, det), b)), Scale(Scale(n, det), c))
    ensures w.z == Add(Add(Scale(u, a), Scale(v, b)), Scale(n, c)).z
  {
    var su, sv, sn := Scale(u, det), Scale(v, det), Scale(n, det);
    ScaleCoords(w, det);
    ScaleCoords(u, det);
    ScaleCoords(v, det);
    ScaleCoords(n, det);
    Combination(su, sv, sn, a, b, c);
    Combination(u, v, n, a, b, c);
    CancelScalar(det, w.z, u.z, v.z, n.z, su.z, sv.z, sn.z, a, b, c);
  }

  /** A point is reconstructed from its view coordinates when the frame is orthonormal. */
  lemma {:induction false} ViewRoundTrip(p: Vec3, basis: Basis)
    requires Orthonormal(basis)
    ensures ViewToWorldPoint(WorldToViewPoint(p, basis), basis) == p
  {
    var u, v, n := basis.u, basis.v, basis.n;
    var w := Sub(p, basis.c);
    var q := WorldToViewPoint(p, basis);
    var det := Det(u, v, n);
    DualAxes(basis);
    OrthonormalDetNonZero(basis);
    ExpandWithKnownDots(u, v, n, w, q.x, q.y, q.z);
    CancelDet(w, u, v, n, det, q.x, q.y, q.z);
    AddSubCancel(p, basis.c);
  }
}
