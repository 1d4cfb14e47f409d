/**
  The escape-time evaluator that the fragment shader runs once per pixel:
  map the pixel to a point c of the complex plane, iterate z := z^2 + c
  from z = 0 while |z|^2 < 4 and the iteration count is below the bound,
  and turn the count into a colour.

  GLSL `float` is modelled by `real`: the structure, signs and bounds carry
  over, rounding does not.
*/
module EscapeTime {

  /** A GLSL vec2; as a complex number, x is the real part and y the imaginary part. */
  datatype Vec2 = Vec2(x: real, y: real)

  /** A GLSL vec4 colour: red, green, blue, alpha. */
  datatype Color = Color(r: real, g: real, b: real, a: real)

  /** The loop runs while dot(z, z) stays below this value, i.e. |z| < 2. */
  const EscapeRadiusSquared: real := 4.0

  const Origin: Vec2 := Vec2(0.0, 0.0)

  /** dot(v, v), the squared modulus. */
  function Dot(v: Vec2): real {
    v.x * v.x + v.y * v.y
  }

  /** One step of the recurrence, z^2 + c written on the two components. */
  function Next(z: Vec2, c: Vec2): Vec2 {
    Vec2(z.x * z.x - z.y * z.y + c.x, 2.0 * z.x * z.y + c.y)
  }

  /** z_n of the orbit of 0 under z := z^2 + c. */
  function Orbit(c: Vec2, n: nat): Vec2 {
    if n == 0 then Origin else Next(Orbit(c, n - 1), c)
  }

  /**
    The point of the plane a fragment samples: the half-resolution shift puts
    the view's centre at `offset`, division by `zoom` turns pixels into plane
    units. The contract states the inverse map, plane point back to pixel.
  */
  function MapPixel(fragCoord: Vec2, resolution: Vec2, zoom: real, offset: Vec2): (c: Vec2)
    requires zoom > 0.0
    ensures fragCoord.x == resolution.x * 0.5 + (c.x - offset.x) * zoom
    ensures fragCoord.y == resolution.y * 0.5 + (c.y - offset.y) * zoom
  {
    Vec2((fragCoord.x - resolution.x * 0.5) / zoom + offset.x,
         (fragCoord.y - resolution.y * 0.5) / zoom + offset.y)
  }

  /**
    The count the loop reaches when it is entered with iteration == i (and
    z == Orbit(c, i)): the first k >= i at which the orbit has escaped or the
    bound is reached.
  */
  function CountFrom(c: Vec2, i: nat, maxIterations: int): (n: nat)
    decreases maxIterations - i
    ensures i <= n
    ensures n == i || n <= maxIterations
    ensures forall k :: i <= k < n ==> Dot(Orbit(c, k)) < EscapeRadiusSquared
    ensures n < maxIterations ==> Dot(Orbit(c, n)) >= EscapeRadiusSquared
  {
    if Dot(Orbit(c, i)) < EscapeRadiusSquared && i < maxIterations then
      CountFrom(c, i + 1, maxIterations)
    else
      i
  }

  /**
    The final value of `iteration` for the point c: every orbit point before
    it is inside the escape radius, and it stops short of the bound only at an
    escaped orbit point. Since z_0 = 0, at least one iteration runs whenever
    the bound allows one.
  */
  function EscapeCount(c: Vec2, maxIterations: int): (n: nat)
    ensures maxIterations <= 0 ==> n == 0
    ensures maxIterations >= 1 ==> 1 <= n <= maxIterations
    ensures forall k :: 0 <= k < n ==> Dot(Orbit(c, k)) < EscapeRadiusSquared
    ensures n < maxIterations ==> Dot(Orbit(c, n)) >= EscapeRadiusSquared
  {
    assert Orbit(c, 0) == Origin;
    CountFrom(c, 0, maxIterations)
  }

  /** The colour of a count: t = count / bound mapped to (t, t^2, t/2, 1). */
  function ColorOf(iteration: nat, maxIterations: int): (col: Color)
    requires maxIterations >= 1
    requires iteration <= maxIterations
    ensures 0.0 <= col.r <= 1.0 && 0.0 <= col.g <= col.r && 0.0 <= col.b <= 0.5 && col.a == 1.0
    ensures col.r * (maxIterations as real) == iteration as real
    ensures col.g == col.r * col.r && col.b == col.r * 0.5
    ensures col.r == 1.0 <==> iteration == maxIterations
    ensures col.r > 0.0 <==> iteration >= 1
  {
    var t := iteration as real / maxIterations as real;
    Fraction(iteration as real, maxIterations as real);
    ProductMonotone(t, 1.0, t);
    Color(t, t * t, t * 0.5, 1.0)
  }

  /** The colour of one fragment, as a function of the shader's inputs. */
  function Shade(fragCoord: Vec2, resolution: Vec2, zoom: real, offset: Vec2, maxIterations: int): Color
    requires zoom > 0.0 && maxIterations >= 1
  {
    ColorOf(EscapeCount(MapPixel(fragCoord, resolution, zoom, offset), maxIterations), maxIterations)
  }

  /**
    The fragment shader's main: the loop over z and iteration, then the colour.
    The result is never black (t > 0) and never brighter than t = 1.
  */
  method FragmentMain(fragCoord: Vec2, resolution: Vec2, zoom: real, offset: Vec2, maxIterations: int)
    returns (fragColor: Color)
    requires zoom > 0.0 && maxIterations >= 1
    ensures fragColor == Shade(fragCoord, resolution, zoom, offset, maxIterations)
    ensures 0.0 < fragColor.r <= 1.0 && fragColor.a == 1.0
    ensures fragColor.g == fragColor.r * fragColor.r && fragColor.b == fragColor.r * 0.5
  {
    var c := MapPixel(fragCoord, resolution, zoom, offset);
    var z := Origin;
    var iteration := 0;
    while Dot(z) < EscapeRadiusSquared && iteration < maxIterations
      invariant 0 <= iteration <= maxIterations
      invariant z == Orbit(c, iteration)
      invariant CountFrom(c, iteration, maxIterations) == EscapeCount(c, maxIterations)
      decreases maxIterations - iteration
    {
      z := Next(z, c);
      iteration := iteration + 1;
    }
    fragColor := ColorOf(iteration, maxIterations);
  }

  /** The colour is monotone in the count on each channel: more iterations, warmer colour. */
  lemma ColorMonotone(n1: nat, n2: nat, maxIterations: int)
    requires maxIterations >= 1 && n1 <= n2 <= maxIterations
    ensures ColorOf(n1, maxIterations).r <= ColorOf(n2, maxIterations).r
    ensures ColorOf(n1, maxIterations).g <= ColorOf(n2, maxIterations).g
    ensures ColorOf(n1, maxIterations).b <= ColorOf(n2, maxIterations).b
  {
    var m := maxIterations as real;
    var t1, t2 := n1 as real / m, n2 as real / m;
    QuotientMonotone(n1 as real, n2 as real, m);
    SquareBounds(t1, 0.0, t2);
  }

  /** The orbit of c = 0 never leaves 0. */
  lemma {:induction false} OriginIsFixed(n: nat)
    ensures Orbit(Origin, n) == Origin
  {
    if n > 0 {
      OriginIsFixed(n - 1);
    }
  }

  /** A point whose orbit stays inside the radius up to the bound runs the loop to the bound. */
  lemma InteriorReachesBound(c: Vec2, maxIterations: nat)
    requires forall k :: 0 <= k < maxIterations ==> Dot(Orbit(c, k)) < EscapeRadiusSquared
    ensures EscapeCount(c, maxIterations) == maxIterations
  {
  }

  /** c = 0 lies in the set: the loop runs to the bound and the colour is (1, 1, 0.5, 1). */
  lemma OriginRunsToBound(maxIterations: int)
    requires maxIterations >= 1
    ensures EscapeCount(Origin, maxIterations) == maxIterations
    ensures ColorOf(EscapeCount(Origin, maxIterations), maxIterations) == Color(1.0, 1.0, 0.5, 1.0)
  {
    forall k | 0 <= k < maxIterations
      ensures Dot(Orbit(Origin, k)) < EscapeRadiusSquared
    {
      OriginIsFixed(k);
    }
    InteriorReachesBound(Origin, maxIterations);
  }

  /**
    A point outside the escape radius escapes after exactly one iteration:
    z_0 = 0 is always inside, z_1 = c is not. Its colour is the darkest the
    shader can produce, t = 1 / maxIterations, never pure black.
  */
  lemma OutsideEscapesAfterOne(c: Vec2, maxIterations: int)
    requires maxIterations >= 1
    requires Dot(c) >= EscapeRadiusSquared
    ensures EscapeCount(c, maxIterations) == 1
    ensures ColorOf(EscapeCount(c, maxIterations), maxIterations).r == 1.0 / maxIterations as real
  {
    assert Orbit(c, 1) == c;
  }

  // ---------------------------------------------------------------------
  // A trapping box for points near c = -1/2 (the centre of the default view).

  /** The region of c values the trap below works for: c within 1/400 of -1/2 on each axis. */
  predicate NearMinusHalf(c: Vec2) {
    -0.5025 <= c.x <= -0.4975 && -0.0025 <= c.y <= 0.0025
  }

  /** The box that z_2 enters and z := z^2 + c never leaves, for such c. */
  predicate InTrap(z: Vec2) {
    -0.45 <= z.x <= -0.24 && -0.05 <= z.y <= 0.05
  }

  lemma SquareBounds(x: real, lo: real, hi: real)
    requires 0.0 <= lo <= hi && lo <= x <= hi
    ensures lo * lo <= x * x <= hi * hi
  {
    ProductMonotone(lo, x, lo);
    ProductMonotone(lo, x, x);
    ProductMonotone(x, hi, x);
    ProductMonotone(x, hi, hi);
  }

  lemma QuotientMonotone(p: real, q: real, m: real)
    requires p <= q && m > 0.0
    ensures p / m <= q / m
  {
  }

  function Abs(x: real): real {
    if x >= 0.0 then x else -x
  }

  /** Squares of numbers in [-hi, -lo] lie in [lo^2, hi^2]. */
  lemma NegativeSquareBounds(x: real, lo: real, hi: real)
    requires 0.0 <= lo <= hi && -hi <= x <= -lo
    ensures lo * lo <= x * x <= hi * hi
  {
    SquareBounds(-x, lo, hi);
    assert (-x) * (-x) == x * x;
  }

  /** Squares of numbers in [-b, b] lie in [0, b^2]. */
  lemma SmallSquareBounds(y: real, b: real)
    requires 0.0 <= b && -b <= y <= b
    ensures 0.0 <= y * y <= b * b
  {
    SquareBounds(Abs(y), 0.0, b);
    assert Abs(y) * Abs(y) == y * y;
  }

  /** n / m for 0 <= n <= m lies in [0, 1], is 1 exactly when n == m and positive exactly when n is. */
  lemma Fraction(n: real, m: real)
    requires 0.0 <= n <= m && m > 0.0
    ensures (n / m) * m == n
    ensures 0.0 <= n / m <= 1.0
    ensures n / m == 1.0 <==> n == m
    ensures n / m > 0.0 <==> n > 0.0
  {
    QuotientMonotone(n, m, m);
    QuotientMonotone(0.0, n, m);
  }

  lemma ProductMonotone(p: real, q: real, r: real)
    requires p <= q && 0.0 <= r
    ensures p * r <= q * r
  {
  }

  lemma ProductBound(x: real, y: real, a: real, b: real)
    requires 0.0 <= a && 0.0 <= b
    requires -a <= x <= a && -b <= y <= b
    ensures -(a * b) <= x * y <= a * b
  {
    ProductMonotone(Abs(x), a, Abs(y));
    ProductMonotone(Abs(y), b, a);
    assert x * y == Abs(x) * Abs(y) || x * y == -(Abs(x) * Abs(y));
  }

  /** The box is mapped into itself. */
  lemma TrapIsInvariant(z: Vec2, c: Vec2)
    requires NearMinusHalf(c) && InTrap(z)
    ensures InTrap(Next(z, c))
  {
    var xx, yy, xy := z.x * z.x, z.y * z.y, z.x * z.y;
    NegativeSquareBounds(z.x, 0.24, 0.45);
    SmallSquareBounds(z.y, 0.05);
    ProductBound(z.x, z.y, 0.45, 0.05);
    assert 0.0576 <= xx <= 0.2025;
    assert 0.0 <= yy <= 0.0025;
    assert -0.0225 <= xy <= 0.0225;
    var w := Next(z, c);
    assert w.x == xx - yy + c.x;
    assert w.y == 2.0 * xy + c.y;
  }

  /** z_2 = c^2 + c lands in the box. */
  lemma SecondIterateTrapped(c: Vec2)
    requires NearMinusHalf(c)
    ensures InTrap(Orbit(c, 2))
  {
    var xx, yy, p := c.x * c.x, c.y * c.y, (2.0 * c.x + 1.0) * c.y;
    NegativeSquareBounds(c.x, 0.4975, 0.5025);
    SmallSquareBounds(c.y, 0.0025);
    ProductBound(2.0 * c.x + 1.0, c.y, 0.005, 0.0025);
    assert 0.24750625 <= xx <= 0.25250625;
    assert 0.0 <= yy <= 0.00000625;
    assert -0.0000125 <= p <= 0.0000125;
    assert Orbit(c, 1) == c;
    var w := Orbit(c, 2);
    assert w.x == xx - yy + c.x;
    assert w.y == p;
  }

  lemma {:induction false} OrbitTrapped(c: Vec2, n: nat)
    requires NearMinusHalf(c) && n >= 2
    ensures InTrap(Orbit(c, n))
  {
    if n == 2 {
      SecondIterateTrapped(c);
    } else {
      OrbitTrapped(c, n - 1);
      TrapIsInvariant(Orbit(c, n - 1), c);
    }
  }

  /** Every c within 1/400 of -1/2 lies in the set: the loop always runs to the bound. */
  lemma NearMinusHalfRunsToBound(c: Vec2, maxIterations: int)
    requires NearMinusHalf(c) && maxIterations >= 1
    ensures EscapeCount(c, maxIterations) == maxIterations
  {
    forall k | 0 <= k < maxIterations
      ensures Dot(Orbit(c, k)) < EscapeRadiusSquared
    {
      if k == 1 {
        assert Orbit(c, 1) == c;
        NegativeSquareBounds(c.x, 0.4975, 0.5025);
        SmallSquareBounds(c.y, 0.0025);
      } else if k >= 2 {
        OrbitTrapped(c, k);
        var z := Orbit(c, k);
        NegativeSquareBounds(z.x, 0.24, 0.45);
        SmallSquareBounds(z.y, 0.05);
      }
    }
    InteriorReachesBound(c, maxIterations);
  }
}
