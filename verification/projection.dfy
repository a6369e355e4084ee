/**
 * The jittered projection: GetProjectionExtents, GetProjectionMatrix and
 * GetPerspectiveProjection of scenerendering.cpp, over the reals.
 * The tangent of half the vertical field of view is an input (`oneExtentY`),
 * so no trigonometry is needed.
 */
module Projection {
  import opened Vectors

  /**
   * The camera as the projection builder sees it: the frustum extent at unit
   * distance, the aspect ratio, the framebuffer size in pixels and the clip planes.
   */
  datatype Camera = Camera(oneExtentY: real, aspect: real, width: nat, height: nat, znear: real, zfar: real)

  /** What the example's camera guarantees: positive extents and size, 0 < near < far. */
  predicate ValidCamera(c: Camera)
  {
    c.oneExtentY > 0.0 && c.aspect > 0.0 && c.width > 0 && c.height > 0 &&
    c.znear > 0.0 && c.zfar > c.znear
  }

  /** Bounds of the near plane of an off-centre frustum. */
  datatype Frustum = Frustum(left: real, right: real, bottom: real, top: real)

  /**
   * xy: the frustum extents at unit distance; zw: the jitter at unit distance
   * for a jitter of (texelOffsetX, texelOffsetY) pixels.
   */
  function GetProjectionExtents(c: Camera, texelOffsetX: real, texelOffsetY: real): (e: Vec4)
    requires c.width > 0 && c.height > 0
    ensures e.x == c.oneExtentY * c.aspect && e.y == c.oneExtentY
    // one pixel spans 2 * extent / size at unit distance
    ensures e.z * (c.width as real) == 2.0 * e.x * texelOffsetX
    ensures e.w * (c.height as real) == 2.0 * e.y * texelOffsetY
  {
    var oneExtentY := c.oneExtentY;
    var oneExtentX := oneExtentY * c.aspect;
    var texelSizeX := oneExtentX / (0.5 * c.width as real);
    var texelSizeY := oneExtentY / (0.5 * c.height as real);
    Vec4(oneExtentX, oneExtentY, texelSizeX * texelOffsetX, texelSizeY * texelOffsetY)
  }

  /** The near-plane bounds GetProjectionMatrix hands to GetPerspectiveProjection. */
  function JitteredFrustum(c: Camera, texelOffsetX: real, texelOffsetY: real): (b: Frustum)
    requires c.width > 0 && c.height > 0
    // jitter moves the frustum but never changes its size
    ensures b.right - b.left == 2.0 * (c.oneExtentY * c.aspect) * c.znear
    ensures b.top - b.bottom == 2.0 * c.oneExtentY * c.znear
  {
    var e := GetProjectionExtents(c, texelOffsetX, texelOffsetY);
    var cn := c.znear;
    var xm := e.z - e.x;
    var xp := e.z + e.x;
    var ym := e.w - e.y;
    var yp := e.w + e.y;
    Frustum(xm * cn, xp * cn, ym * cn, yp * cn)
  }

  /** Off-centre perspective matrix with depth range [0, 1]; row i of the matrix the shaders use is mi. */
  function GetPerspectiveProjection(left: real, right: real, bottom: real, top: real, n: real, f: real): Mat4
    requires right != left && top != bottom && f != n
  {
    var x := (2.0 * n) / (right - left);
    var y := (2.0 * n) / (top - bottom);
    var a := (right + left) / (right - left);
    var b := (top + bottom) / (top - bottom);
    var c := -f / (f - n);
    var d := -(f * n) / (f - n);
    var e := -1.0;
    Mat4(Vec4(x, 0.0, a, 0.0),
         Vec4(0.0, y, b, 0.0),
         Vec4(0.0, 0.0, c, d),
         Vec4(0.0, 0.0, e, 0.0))
  }

  /** The jittered projection of the camera. */
  function GetProjectionMatrix(c: Camera, texelOffsetX: real, texelOffsetY: real): Mat4
    requires ValidCamera(c)
  {
    var b := JitteredFrustum(c, texelOffsetX, texelOffsetY);
    PositiveProduct(c.oneExtentY, c.aspect, c.znear);
    GetPerspectiveProjection(b.left, b.right, b.bottom, b.top, c.znear, c.zfar)
  }

  lemma PositiveProduct(a: real, b: real, n: real)
    requires a > 0.0 && b > 0.0 && n > 0.0
    ensures 2.0 * (a * b) * n > 0.0 && 2.0 * a * n > 0.0
  {
    assert a * b > 0.0;
  }

  function Dot(u: Vec4, v: Vec4): real
  {
    u.x * v.x + u.y * v.y + u.z * v.z + u.w * v.w
  }

  /**
   * The clip-space image of a point. Line 792 transposes the matrix before it
   * reaches the shaders, so `m[i]` as filled at lines 125-128 is row i.
   */
  function Apply(m: Mat4, p: Vec4): Vec4
  {
    Vec4(Dot(m.m0, p), Dot(m.m1, p), Dot(m.m2, p), Dot(m.m3, p))
  }

  /** One row of the off-centre projection: the bounds lo and hi go to -n and n. */
  lemma OffCentreRow(n: real, lo: real, hi: real)
    requires hi != lo
    ensures (2.0 * n) / (hi - lo) * lo + (hi + lo) / (hi - lo) * -n == -n
    ensures (2.0 * n) / (hi - lo) * hi + (hi + lo) / (hi - lo) * -n == n
  {
    var w := hi - lo;
    var x := (2.0 * n) / w;
    var a := (hi + lo) / w;
    assert x * w == 2.0 * n;
    assert a * w == hi + lo;
    assert (x * lo - a * n) * w == x * w * lo - a * w * n;
    assert (x * lo - a * n) * w == -n * w;
    CancelFactor(x * lo - a * n, -n, w);
    assert (x * hi - a * n) * w == x * w * hi - a * w * n;
    assert (x * hi - a * n) * w == n * w;
    CancelFactor(x * hi - a * n, n, w);
  }

  lemma CancelFactor(p: real, q: real, w: real)
    requires w != 0.0 && p * w == q * w
    ensures p == q
  {
    assert (p - q) * w == 0.0;
  }

  /** The near-plane corners of the frustum land on the corners (+-1, +-1, 0) of clip space. */
  lemma NearCornersMapToClipCorners(left: real, right: real, bottom: real, top: real, n: real, f: real)
    requires right != left && top != bottom && f != n
    ensures Apply(GetPerspectiveProjection(left, right, bottom, top, n, f), Vec4(left, bottom, -n, 1.0))
            == Vec4(-n, -n, 0.0, n)
    ensures Apply(GetPerspectiveProjection(left, right, bottom, top, n, f), Vec4(right, top, -n, 1.0))
            == Vec4(n, n, 0.0, n)
  {
    OffCentreRow(n, left, right);
    OffCentreRow(n, bottom, top);
    assert -f / (f - n) * -n + -(f * n) / (f - n) == 0.0;
  }

  /** The far-plane corners land on (+-1, +-1, 1): the matrix maps depth onto [0, 1]. */
  lemma FarCornersMapToClipCorners(left: real, right: real, bottom: real, top: real, n: real, f: real)
    requires right != left && top != bottom && f != n && n != 0.0
    ensures Apply(GetPerspectiveProjection(left, right, bottom, top, n, f), Vec4(left * (f / n), bottom * (f / n), -f, 1.0))
            == Vec4(-f, -f, f, f)
    ensures Apply(GetPerspectiveProjection(left, right, bottom, top, n, f), Vec4(right * (f / n), top * (f / n), -f, 1.0))
            == Vec4(f, f, f, f)
  {
    var s := f / n;
    assert s * n == f;
    var x, a := (2.0 * n) / (right - left), (right + left) / (right - left);
    var y, b := (2.0 * n) / (top - bottom), (top + bottom) / (top - bottom);
    OffCentreRow(n, left, right);
    OffCentreRow(n, bottom, top);
    ScaledRow(x, a, left, n, s, -n, f);
    ScaledRow(x, a, right, n, s, n, f);
    ScaledRow(y, b, bottom, n, s, -n, f);
    ScaledRow(y, b, top, n, s, n, f);
    var g := f - n;
    var c := -f / g;
    var d := -(f * n) / g;
    assert c * g == -f;
    assert d * g == -(f * n);
    assert (c * -f + d) * g == f * g;
    CancelFactor(c * -f + d, f, g);
  }

  lemma ScaledRow(x: real, a: real, bound: real, n: real, s: real, r: real, f: real)
    requires x * bound + a * -n == r && s * n == f
    ensures x * (bound * s) + a * -f == s * r
  {
    assert x * (bound * s) + a * -(s * n) == s * (x * bound + a * -n);
  }

  /** With no jitter the frustum is symmetric, so the off-centre terms of the matrix vanish. */
  lemma ZeroJitterIsSymmetric(c: Camera)
    requires ValidCamera(c)
    ensures JitteredFrustum(c, 0.0, 0.0).left == -JitteredFrustum(c, 0.0, 0.0).right
    ensures JitteredFrustum(c, 0.0, 0.0).bottom == -JitteredFrustum(c, 0.0, 0.0).top
    ensures GetProjectionMatrix(c, 0.0, 0.0).m0.z == 0.0 && GetProjectionMatrix(c, 0.0, 0.0).m1.z == 0.0
  {
    var e := GetProjectionExtents(c, 0.0, 0.0);
    assert e.z == 0.0 && e.w == 0.0;
    var b := JitteredFrustum(c, 0.0, 0.0);
    assert b.left == -e.x * c.znear && b.right == e.x * c.znear;
    assert b.bottom == -e.y * c.znear && b.top == e.y * c.znear;
  }

  /**
   * Jitter shifts every bound by the jitter at unit distance times the near
   * distance: the difference from the unjittered frustum is exactly
   * texelSize * texelOffset * near on each axis.
   */
  lemma JitterShiftsFrustum(c: Camera, texelOffsetX: real, texelOffsetY: real)
    requires ValidCamera(c)
    ensures var e := GetProjectionExtents(c, texelOffsetX, texelOffsetY);
            var b, b0 := JitteredFrustum(c, texelOffsetX, texelOffsetY), JitteredFrustum(c, 0.0, 0.0);
            b.left == b0.left + e.z * c.znear && b.right == b0.right + e.z * c.znear &&
            b.bottom == b0.bottom + e.w * c.znear && b.top == b0.top + e.w * c.znear
  {
    var e := GetProjectionExtents(c, texelOffsetX, texelOffsetY);
    var e0 := GetProjectionExtents(c, 0.0, 0.0);
    assert e0 == Vec4(e.x, e.y, 0.0, 0.0);
    var cn := c.znear;
    assert (e.z - e.x) * cn == (0.0 - e.x) * cn + e.z * cn;
    assert (e.z + e.x) * cn == (0.0 + e.x) * cn + e.z * cn;
    assert (e.w - e.y) * cn == (0.0 - e.y) * cn + e.w * cn;
    assert (e.w + e.y) * cn == (0.0 + e.y) * cn + e.w * cn;
  }

  /**
   * Jitter changes only the two off-centre entries of the matrix, and sets
   * them to the pixel offset in clip-space units (2 / size per pixel): a
   * jitter of one pixel moves the image by exactly one pixel.
   */
  lemma JitterOnlySkewsByPixelOffset(c: Camera, texelOffsetX: real, texelOffsetY: real)
    requires ValidCamera(c)
    ensures var m0 := GetProjectionMatrix(c, 0.0, 0.0);
            GetProjectionMatrix(c, texelOffsetX, texelOffsetY)
            == m0.(m0 := m0.m0.(z := 2.0 * texelOffsetX / (c.width as real)),
                   m1 := m0.m1.(z := 2.0 * texelOffsetY / (c.height as real)))
  {
    var e := GetProjectionExtents(c, texelOffsetX, texelOffsetY);
    var b := JitteredFrustum(c, texelOffsetX, texelOffsetY);
    var b0 := JitteredFrustum(c, 0.0, 0.0);
    PositiveProduct(c.oneExtentY, c.aspect, c.znear);
    SkewTerm(b.left, b.right, e.z, e.x, c.znear, texelOffsetX, c.width as real);
    SkewTerm(b.bottom, b.top, e.w, e.y, c.znear, texelOffsetY, c.height as real);
    SameSizeSameScale(b.left, b.right, b.bottom, b.top, b0.left, b0.right, b0.bottom, b0.top, c.znear, c.zfar);
  }

  /** Two frusta of the same size differ in their projections only by the off-centre terms. */
  lemma SameSizeSameScale(l: real, r: real, b: real, t: real, l0: real, r0: real, b0: real, t0: real, n: real, f: real)
    requires r - l == r0 - l0 && t - b == t0 - b0 && r != l && t != b && f != n
    ensures var m0 := GetPerspectiveProjection(l0, r0, b0, t0, n, f);
            GetPerspectiveProjection(l, r, b, t, n, f)
            == m0.(m0 := m0.m0.(z := (r + l) / (r - l)), m1 := m0.m1.(z := (t + b) / (t - b)))
  {
    var w, h := r - l, t - b;
    assert r0 - l0 == w && t0 - b0 == h;
  }

  /** (hi + lo) / (hi - lo) for bounds (j -+ x) * n, where j * size == 2 * x * offset. */
  lemma SkewTerm(lo: real, hi: real, j: real, x: real, n: real, offset: real, size: real)
    requires lo == (j - x) * n && hi == (j + x) * n
    requires x > 0.0 && n > 0.0 && size > 0.0 && j * size == 2.0 * x * offset
    ensures hi - lo != 0.0 && (hi + lo) / (hi - lo) == 2.0 * offset / size
  {
    assert hi - lo == 2.0 * x * n;
    assert hi + lo == 2.0 * j * n;
    assert x * n > 0.0;
    var q := (hi + lo) / (hi - lo);
    assert q * (2.0 * x * n) == 2.0 * j * n;
    assert q * x == j by {
      assert (q * x - j) * (2.0 * n) == 0.0;
    }
    assert q * x * size == 2.0 * x * offset;
    assert q * size == 2.0 * offset by {
      assert (q * size - 2.0 * offset) * x == 0.0;
    }
  }
}
