/**
 Zone geometry (server/src/ai/zone.ts): even-odd ray casting over exact reals, and the
 rectangle and polygon branches of the detection test.
 */
module Zone {
  import opened Wrappers

  datatype Point = Point(x: real, y: real)

  datatype BBox = BBox(x: real, y: real, w: real, h: real)

  function Center(b: BBox): Point {
    Point(b.x + b.w / 2.0, b.y + b.h / 2.0)
  }

  // ---------------------------------------------------------------- one edge

  /** The edge from a to b has its ends on different sides of the horizontal line at height y. */
  predicate Straddles(y: real, a: Point, b: Point) {
    (a.y > y) != (b.y > y)
  }

  /** Where the line through a and b meets height y. The straddle test keeps the denominator away from zero. */
  function MeetX(y: real, a: Point, b: Point): real
    requires Straddles(y, a, b)
  {
    (b.x - a.x) * (y - a.y) / (b.y - a.y) + a.x
  }

  /** The rightward ray from p crosses the edge between a (vertex i) and b (vertex j). */
  predicate Crosses(p: Point, a: Point, b: Point) {
    Straddles(p.y, a, b) && p.x < MeetX(p.y, a, b)
  }

  /** The meeting point does not depend on the direction the edge is walked. */
  lemma {:induction false} MeetXSymmetric(y: real, a: Point, b: Point)
    requires Straddles(y, a, b)
    ensures MeetX(y, a, b) == MeetX(y, b, a)
  {
    var d := b.y - a.y;
    var t := (y - a.y) / d;
    OneMinus(y - a.y, d);
    ScaleOut(b.x - a.x, y - a.y, d);
    ScaleOut(a.x - b.x, y - b.y, a.y - b.y);
    Mirror(a.x, b.x, t);
  }

  /** Seen from the other end, the fraction of the way is what is left of it. */
  lemma OneMinus(n: real, d: real)
    requires d != 0.0
    ensures (n - d) / -d == 1.0 - n / d
  {
    var t := n / d;
    assert t * d == n;
    assert (1.0 - t) * -d == t * d - d;
    DivideBack(1.0 - t, -d, n - d);
  }

  lemma Mirror(u: real, v: real, t: real)
    ensures (v - u) * t + u == (u - v) * (1.0 - t) + v
  {
  }

  /** The distance of a point between u and v from a bound, as a mean of the ends' distances. */
  lemma Mean(u: real, v: real, bound: real, t: real)
    ensures (v - u) * t + u - bound == (v - bound) * t + (u - bound) * (1.0 - t)
    ensures bound - ((v - u) * t + u) == (bound - v) * t + (bound - u) * (1.0 - t)
  {
  }

  lemma DivideBack(q: real, d: real, n: real)
    requires d != 0.0 && q * d == n
    ensures n / d == q
  {
  }

  lemma Fraction(n: real, d: real)
    requires (0.0 < d && 0.0 <= n <= d) || (d < 0.0 && d <= n <= 0.0)
    ensures 0.0 <= n / d <= 1.0
  {
  }

  lemma ScaleOut(k: real, n: real, d: real)
    requires d != 0.0
    ensures k * n / d == k * (n / d)
  {
    assert n / d * d == n;
    assert (k * (n / d)) * d == k * n;
    DivideBack(k * (n / d), d, k * n);
  }

  /** The meeting point lies between the two ends. */
  lemma {:induction false} MeetXBetween(y: real, a: Point, b: Point, lo: real, hi: real)
    requires Straddles(y, a, b)
    requires lo <= a.x <= hi && lo <= b.x <= hi
    ensures lo <= MeetX(y, a, b) <= hi
  {
    var d := b.y - a.y;
    var t := (y - a.y) / d;
    Fraction(y - a.y, d);
    ScaleOut(b.x - a.x, y - a.y, d);
    Mean(a.x, b.x, lo, t);
    Mean(a.x, b.x, hi, t);
    MulNonNeg(b.x - lo, t);
    MulNonNeg(a.x - lo, 1.0 - t);
    MulNonNeg(hi - b.x, t);
    MulNonNeg(hi - a.x, 1.0 - t);
  }

  lemma MulNonNeg(x: real, y: real)
    requires x >= 0.0 && y >= 0.0
    ensures x * y >= 0.0
  {
  }

  lemma CrossesSymmetric(p: Point, a: Point, b: Point)
    ensures Crosses(p, a, b) == Crosses(p, b, a)
  {
    if Straddles(p.y, a, b) { MeetXSymmetric(p.y, a, b); }
  }

  /** On which side of the line from a to b the point lies: positive on the left, negative on the right, zero on it. */
  function Side(p: Point, a: Point, b: Point): real {
    (b.x - a.x) * (p.y - a.y) - (p.x - a.x) * (b.y - a.y)
  }

  lemma QuotientBelow(q: real, d: real, n: real)
    requires d != 0.0 && q * d == n
    ensures q < 0.0 <==> if d > 0.0 then n < 0.0 else n > 0.0
  {
    if d > 0.0 && q >= 0.0 { MulNonNeg(q, d); }
    if d < 0.0 && q >= 0.0 { MulNonNeg(q, -d); }
    if d > 0.0 && q < 0.0 { MulPositive(-q, d); }
    if d < 0.0 && q < 0.0 { MulPositive(-q, -d); }
  }

  lemma MulPositive(x: real, y: real)
    requires x > 0.0 && y > 0.0
    ensures x * y > 0.0
  {
  }

  /** The rightward ray crosses an edge exactly when the point lies left of one going up past it, or right of one going
      down past it; the lower end of an edge belongs to it and the upper does not. */
  lemma {:induction false} CrossesMeans(p: Point, a: Point, b: Point)
    ensures Crosses(p, a, b)
       <==> (a.y <= p.y < b.y && Side(p, a, b) > 0.0) || (b.y <= p.y < a.y && Side(p, a, b) < 0.0)
  {
    if Straddles(p.y, a, b) {
      var d, m := b.y - a.y, (b.x - a.x) * (p.y - a.y);
      var x := m / d + a.x;
      assert m / d * d == m;
      assert (p.x - x) * d == (p.x - a.x) * d - m / d * d;
      QuotientBelow(p.x - x, d, -Side(p, a, b));
    }
  }

  // ---------------------------------------------------------------- the whole polygon

  /** Parity of the crossed edges along an open path. */
  ghost function PathParity(p: Point, path: seq<Point>): bool {
    if |path| < 2 then false else Crosses(p, path[1], path[0]) != PathParity(p, path[1..])
  }

  /** Even-odd rule: an odd number of edges of the closed polygon is crossed. */
  ghost predicate Inside(p: Point, poly: seq<Point>) {
    |poly| > 0 && PathParity(p, poly) != Crosses(p, poly[0], poly[|poly| - 1])
  }

  /** The loop of the source: i walks the vertices, j trails by one and starts at the last. */
  method PointInPolygon(p: Point, points: seq<Point>) returns (inside: bool)
    ensures inside == Inside(p, points)
  {
    inside := false;
    var i, j := 0, |points| - 1;
    while i < |points|
      invariant 0 <= i <= |points|
      invariant j == if i == 0 then |points| - 1 else i - 1
      invariant i == 0 ==> !inside
      invariant i > 0 ==> inside == (PathParity(p, points[..i]) != Crosses(p, points[0], points[|points| - 1]))
    {
      var intersect := Crosses(p, points[i], points[j]);
      if i > 0 {
        PathAppend(p, points[..i], points[i]);
        assert points[..i] + [points[i]] == points[..i + 1];
      }
      if intersect { inside := !inside; }
      j := i;
      i := i + 1;
    }
    assert points[..|points|] == points;
  }

  lemma {:induction false} PathAppend(p: Point, path: seq<Point>, v: Point)
    requires |path| > 0
    ensures PathParity(p, path + [v]) == (PathParity(p, path) != Crosses(p, v, path[|path| - 1]))
  {
    if |path| > 1 {
      PathAppend(p, path[1..], v);
      assert (path + [v])[1..] == path[1..] + [v];
    } else {
      assert (path + [v])[1..] == [v];
    }
  }

  /** Cutting a path at a vertex splits its parity. */
  lemma {:induction false} PathSplit(p: Point, path: seq<Point>, k: nat)
    requires k < |path|
    ensures PathParity(p, path) == (PathParity(p, path[..k + 1]) != PathParity(p, path[k..]))
  {
    if k > 0 {
      PathSplit(p, path[1..], k - 1);
      assert path[1..][..k] == path[..k + 1][1..];
      assert path[1..][k - 1..] == path[k..];
    } else {
      assert path[0..] == path;
    }
  }

  /** Two paths that meet end to end: [.. u] followed by [v ..]. */
  lemma {:induction false} PathJoin(p: Point, left: seq<Point>, right: seq<Point>)
    requires |left| > 0 && |right| > 0
    ensures PathParity(p, left + right)
         == (PathParity(p, left) != (Crosses(p, right[0], left[|left| - 1]) != PathParity(p, right)))
  {
    var k := |left|;
    PathSplit(p, left + right, k);
    assert (left + right)[..k + 1] == left + [right[0]];
    assert (left + right)[k..] == right;
    PathAppend(p, left, right[0]);
  }

  // ---------------------------------------------------------------- theorems

  /** Cutting a polygon along the diagonal between vertices i and j: inside exactly one of the two pieces. */
  lemma {:induction false} DiagonalAdditivity(p: Point, poly: seq<Point>, i: nat, j: nat)
    requires i < j < |poly|
    ensures Inside(p, poly) == (Inside(p, poly[i..j + 1]) != Inside(p, poly[..i + 1] + poly[j..]))
  {
    PathSplit(p, poly, j);
    PathSplit(p, poly[..j + 1], i);
    assert poly[..j + 1][..i + 1] == poly[..i + 1];
    assert poly[..j + 1][i..] == poly[i..j + 1];
    PathJoin(p, poly[..i + 1], poly[j..]);
    CrossesSymmetric(p, poly[i], poly[j]);
  }

  /** Starting the vertex list at another vertex changes nothing. */
  lemma {:induction false} RotationInvariance(p: Point, poly: seq<Point>, k: nat)
    requires k <= |poly|
    ensures Inside(p, poly[k..] + poly[..k]) == Inside(p, poly)
  {
    if 0 < k < |poly| {
      PathJoin(p, poly[k..], poly[..k]);
      PathJoin(p, poly[..k], poly[k..]);
      assert poly[..k] + poly[k..] == poly;
    } else {
      assert poly[k..] + poly[..k] == poly;
    }
  }

  function Reverse(poly: seq<Point>): (r: seq<Point>)
    ensures |r| == |poly|
    ensures forall i :: 0 <= i < |poly| ==> r[i] == poly[|poly| - 1 - i]
  {
    if poly == [] then [] else Reverse(poly[1..]) + [poly[0]]
  }

  lemma {:induction false} ReversePath(p: Point, path: seq<Point>)
    ensures PathParity(p, Reverse(path)) == PathParity(p, path)
  {
    if |path| > 1 {
      ReversePath(p, path[1..]);
      PathAppend(p, Reverse(path[1..]), path[0]);
      CrossesSymmetric(p, path[0], path[1]);
    }
  }

  /** Walking the polygon the other way round changes nothing. */
  lemma {:induction false} ReversalInvariance(p: Point, poly: seq<Point>)
    ensures Inside(p, Reverse(poly)) == Inside(p, poly)
  {
    if poly != [] {
      ReversePath(p, poly);
      CrossesSymmetric(p, poly[0], poly[|poly| - 1]);
    }
  }

  /** Parity over the triangles of the fan at vertex 0 that end at vertices 2 .. n. */
  ghost function FanParity(p: Point, poly: seq<Point>, n: nat): bool
    requires n < |poly|
  {
    if n < 2 then false
    else Inside(p, [poly[0], poly[n - 1], poly[n]]) != FanParity(p, poly, n - 1)
  }

  /** Additivity applied all the way down: a polygon is the exclusive-or of its fan of triangles. */
  lemma {:induction false} FanTriangulation(p: Point, poly: seq<Point>)
    requires |poly| >= 2
    ensures Inside(p, poly) == FanParity(p, poly, |poly| - 1)
    decreases |poly|
  {
    var n := |poly| - 1;
    if n < 2 {
      assert PathParity(p, poly) == Crosses(p, poly[1], poly[0]);
      CrossesSymmetric(p, poly[0], poly[1]);
    } else {
      var rest := poly[..n];
      RotationInvariance(p, poly, n - 1);
      DiagonalAdditivity(p, poly, 0, n - 1);
      assert poly[0..n] == rest;
      assert poly[..1] + poly[n - 1..] == [poly[0], poly[n - 1], poly[n]];
      FanTriangulation(p, rest);
      FanPrefix(p, poly, rest, n - 1);
    }
  }

  lemma {:induction false} FanPrefix(p: Point, poly: seq<Point>, rest: seq<Point>, n: nat)
    requires n < |rest| <= |poly| && rest == poly[..|rest|]
    ensures FanParity(p, poly, n) == FanParity(p, rest, n)
  {
    if n >= 2 { FanPrefix(p, poly, rest, n - 1); }
  }

  // ---------------------------------------------------------------- triangles

  /** Twice the signed area of the triangle: positive when a, b, c go round counterclockwise. */
  function Orientation(a: Point, b: Point, c: Point): real {
    Side(c, a, b)
  }

  /** The point lies strictly on the inner side of all three edges. */
  predicate StrictlyIn(p: Point, a: Point, b: Point, c: Point) {
    || (Side(p, a, b) > 0.0 && Side(p, b, c) > 0.0 && Side(p, c, a) > 0.0)
    || (Side(p, a, b) < 0.0 && Side(p, b, c) < 0.0 && Side(p, c, a) < 0.0)
  }

  /** The point lies strictly on the outer side of some edge, or there is no inner side. */
  predicate StrictlyOut(p: Point, a: Point, b: Point, c: Point) {
    var o := Orientation(a, b, c);
    || (o >= 0.0 && (Side(p, a, b) < 0.0 || Side(p, b, c) < 0.0 || Side(p, c, a) < 0.0))
    || (o <= 0.0 && (Side(p, a, b) > 0.0 || Side(p, b, c) > 0.0 || Side(p, c, a) > 0.0))
  }

  /** The three sides of a point: their sum is the orientation, and they weigh the opposite vertices' heights. */
  lemma SidesBalance(p: Point, a: Point, b: Point, c: Point, v: real)
    ensures Side(p, a, b) + Side(p, b, c) + Side(p, c, a) == Orientation(a, b, c)
    ensures Side(p, b, c) * (a.y - v) + Side(p, c, a) * (b.y - v) + Side(p, a, b) * (c.y - v)
         == Orientation(a, b, c) * (p.y - v)
  {
  }

  /** What CrossesMeans says of an edge from height u to height v. */
  predicate Passes(y: real, u: real, v: real, side: real) {
    (u <= y < v && side > 0.0) || (v <= y < u && side < 0.0)
  }

  lemma {:induction false} TriangleParity(p: Point, a: Point, b: Point, c: Point)
    ensures Inside(p, [a, b, c])
         == ((Passes(p.y, a.y, b.y, Side(p, a, b)) != Passes(p.y, b.y, c.y, Side(p, b, c)))
             != Passes(p.y, c.y, a.y, Side(p, c, a)))
  {
    CrossesMeans(p, a, b);
    CrossesMeans(p, b, c);
    CrossesMeans(p, c, a);
    CrossesSymmetric(p, a, b);
    CrossesSymmetric(p, b, c);
    CrossesSymmetric(p, c, a);
    hide Crosses, Side;
    var t := [a, b, c];
    assert t[1..] == [b, c] && [b, c][1..] == [c];
    assert PathParity(p, [b, c]) == Crosses(p, c, b) && PathParity(p, t) == (Crosses(p, b, a) != Crosses(p, c, b));
    assert t[|t| - 1] == c && t[0] == a;
  }

  /** The product of x and y is positive. */
  predicate Agree(x: real, y: real) {
    (x > 0.0 && y > 0.0) || (x < 0.0 && y < 0.0)
  }

  lemma ProductSign(x: real, y: real)
    ensures x * y > 0.0 <==> Agree(x, y)
    ensures x * y < 0.0 <==> Agree(-x, y)
  {
    if x > 0.0 && y > 0.0 { MulPositive(x, y); }
    if x < 0.0 && y < 0.0 { MulPositive(-x, -y); }
    if x > 0.0 && y < 0.0 { MulPositive(x, -y); }
    if x < 0.0 && y > 0.0 { MulPositive(-x, y); }
  }

  /** The signs in s * (u - v) + r * (w - v) == o * (y - v). */
  predicate Balances(v: real, y: real, o: real, u: real, s: real, w: real, r: real) {
    && (Agree(s, u - v) && !Agree(-r, w - v) ==> Agree(o, y - v))
    && (!Agree(-s, u - v) && Agree(r, w - v) ==> Agree(o, y - v))
    && (Agree(-s, u - v) && !Agree(r, w - v) ==> Agree(-o, y - v))
    && (!Agree(s, u - v) && Agree(-r, w - v) ==> Agree(-o, y - v))
    && (!Agree(s, u - v) && !Agree(-s, u - v) && !Agree(r, w - v) && !Agree(-r, w - v) ==>
          !Agree(o, y - v) && !Agree(-o, y - v))
  }

  lemma Balance(v: real, y: real, o: real, u: real, s: real, w: real, r: real)
    requires s * (u - v) + r * (w - v) == o * (y - v)
    ensures Balances(v, y, o, u, s, w, r)
  {
    var m, n, k := s * (u - v), r * (w - v), o * (y - v);
    ProductSign(s, u - v);
    ProductSign(r, w - v);
    ProductSign(o, y - v);
    assert m > 0.0 <==> Agree(s, u - v);
    assert m < 0.0 <==> Agree(-s, u - v);
    assert n > 0.0 <==> Agree(r, w - v);
    assert n < 0.0 <==> Agree(-r, w - v);
    assert k > 0.0 <==> Agree(o, y - v);
    assert k < 0.0 <==> Agree(-o, y - v);
    hide Agree;
  }

  /** Strictly inside: of the three edges exactly one goes up past the point's height. */
  lemma InnerParity(y: real, ya: real, yb: real, yc: real, s1: real, s2: real, s3: real)
    requires s1 > 0.0 && s2 > 0.0 && s3 > 0.0 && !(ya == yb == yc)
    requires Balances(ya, y, s1 + s2 + s3, yb, s3, yc, s1)
    requires Balances(yb, y, s1 + s2 + s3, ya, s2, yc, s1)
    requires Balances(yc, y, s1 + s2 + s3, ya, s2, yb, s3)
    ensures (Passes(y, ya, yb, s1) != Passes(y, yb, yc, s2)) != Passes(y, yc, ya, s3)
  {
  }

  /** Strictly beyond one edge: of the edges the ray crosses none or two. */
  lemma OuterParity(y: real, ya: real, yb: real, yc: real, s1: real, s2: real, s3: real)
    requires s1 < 0.0 && s1 + s2 + s3 >= 0.0
    requires Balances(ya, y, s1 + s2 + s3, yb, s3, yc, s1)
    requires Balances(yb, y, s1 + s2 + s3, ya, s2, yc, s1)
    requires Balances(yc, y, s1 + s2 + s3, ya, s2, yb, s3)
    ensures (Passes(y, ya, yb, s1) != Passes(y, yb, yc, s2)) == Passes(y, yc, ya, s3)
  {
  }

  lemma {:induction false} SidesAgree(p: Point, a: Point, b: Point, c: Point)
    ensures var s1, s2, s3 := Side(p, a, b), Side(p, b, c), Side(p, c, a);
            && s1 + s2 + s3 == Orientation(a, b, c)
            && Balances(a.y, p.y, s1 + s2 + s3, b.y, s3, c.y, s1)
            && Balances(b.y, p.y, s1 + s2 + s3, a.y, s2, c.y, s1)
            && Balances(c.y, p.y, s1 + s2 + s3, a.y, s2, b.y, s3)
  {
    var s1, s2, s3 := Side(p, a, b), Side(p, b, c), Side(p, c, a);
    SidesBalance(p, a, b, c, a.y);
    SidesBalance(p, a, b, c, b.y);
    SidesBalance(p, a, b, c, c.y);
    hide Side, Orientation, Balances;
    assert s2 * (a.y - a.y) == 0.0 && s3 * (b.y - b.y) == 0.0 && s1 * (c.y - c.y) == 0.0;
    Balance(a.y, p.y, s1 + s2 + s3, b.y, s3, c.y, s1);
    Balance(b.y, p.y, s1 + s2 + s3, a.y, s2, c.y, s1);
    Balance(c.y, p.y, s1 + s2 + s3, a.y, s2, b.y, s3);
  }

  lemma OnOneLine(p: Point, a: Point, b: Point, c: Point)
    requires a.y == b.y == c.y
    ensures Orientation(a, b, c) == 0.0
  {
  }

  lemma SideTurned(p: Point, a: Point, b: Point)
    ensures Side(p, b, a) == -Side(p, a, b)
  {
  }

  /** Counterclockwise, or without area. */
  lemma {:induction false} TriangleTurningLeft(p: Point, a: Point, b: Point, c: Point)
    requires Orientation(a, b, c) >= 0.0
    ensures Side(p, a, b) > 0.0 && Side(p, b, c) > 0.0 && Side(p, c, a) > 0.0 ==> Inside(p, [a, b, c])
    ensures Side(p, a, b) < 0.0 || Side(p, b, c) < 0.0 || Side(p, c, a) < 0.0 ==> !Inside(p, [a, b, c])
  {
    var s1, s2, s3 := Side(p, a, b), Side(p, b, c), Side(p, c, a);
    TriangleParity(p, a, b, c);
    SidesAgree(p, a, b, c);
    SidesAgree(p, b, c, a);
    SidesAgree(p, c, a, b);
    if a.y == b.y == c.y { OnOneLine(p, a, b, c); }
    hide Inside, Side, Orientation, Passes, Balances;
    if s1 < 0.0 { OuterParity(p.y, a.y, b.y, c.y, s1, s2, s3); }
    if s2 < 0.0 { OuterParity(p.y, b.y, c.y, a.y, s2, s3, s1); }
    if s3 < 0.0 { OuterParity(p.y, c.y, a.y, b.y, s3, s1, s2); }
    if s1 > 0.0 && s2 > 0.0 && s3 > 0.0 { InnerParity(p.y, a.y, b.y, c.y, s1, s2, s3); }
  }

  /** Off the lines of its edges the even-odd rule means a triangle, whichever way round its corners are listed. */
  lemma {:induction false} TriangleMeans(p: Point, a: Point, b: Point, c: Point)
    ensures StrictlyIn(p, a, b, c) ==> Inside(p, [a, b, c])
    ensures StrictlyOut(p, a, b, c) ==> !Inside(p, [a, b, c])
  {
    SidesBalance(p, a, b, c, 0.0);
    SideTurned(p, a, b);
    SideTurned(p, b, c);
    SideTurned(p, c, a);
    SidesBalance(p, c, b, a, 0.0);
    ReversalInvariance(p, [a, b, c]);
    assert Reverse([a, b, c]) == [c, b, a];
    hide Inside, Side, Orientation, Reverse;
    if Orientation(a, b, c) >= 0.0 { TriangleTurningLeft(p, a, b, c); }
    if Orientation(a, b, c) <= 0.0 { TriangleTurningLeft(p, c, b, a); }
  }

  /** How many triangles of the fan at vertex 0, up to the one that ends at vertex n, hold the point strictly inside. */
  ghost function Enclosing(p: Point, poly: seq<Point>, n: nat): nat
    requires n < |poly|
  {
    if n < 2 then 0
    else Enclosing(p, poly, n - 1) + if StrictlyIn(p, poly[0], poly[n - 1], poly[n]) then 1 else 0
  }

  /** The point is off the edges of the fan's triangles up to vertex n. */
  ghost predicate OffEdges(p: Point, poly: seq<Point>, n: nat)
    requires n < |poly|
  {
    forall k :: 2 <= k <= n ==>
      StrictlyIn(p, poly[0], poly[k - 1], poly[k]) || StrictlyOut(p, poly[0], poly[k - 1], poly[k])
  }

  lemma {:induction false} FanEncloses(p: Point, poly: seq<Point>, n: nat)
    requires n < |poly| && OffEdges(p, poly, n)
    ensures FanParity(p, poly, n) == (Enclosing(p, poly, n) % 2 == 1)
  {
    hide StrictlyIn, StrictlyOut, Inside;
    if n >= 2 {
      FanEncloses(p, poly, n - 1);
      TriangleMeans(p, poly[0], poly[n - 1], poly[n]);
    }
  }

  /** What a polygon of any shape means: a point off the edges of its fan is inside exactly when an odd number of the
      fan's triangles hold it. */
  lemma {:induction false} PolygonMeans(p: Point, poly: seq<Point>)
    requires |poly| >= 2 && OffEdges(p, poly, |poly| - 1)
    ensures Inside(p, poly) <==> Enclosing(p, poly, |poly| - 1) % 2 == 1
  {
    FanTriangulation(p, poly);
    FanEncloses(p, poly, |poly| - 1);
  }

  // ---------------------------------------------------------------- crossings of a horizontal line

  ghost function PathStraddles(y: real, path: seq<Point>): nat {
    if |path| < 2 then 0 else (if Straddles(y, path[1], path[0]) then 1 else 0) + PathStraddles(y, path[1..])
  }

  /** How many edges of the closed polygon straddle the line at height y. */
  ghost function StraddleCount(y: real, poly: seq<Point>): nat
    requires |poly| > 0
  {
    PathStraddles(y, poly) + if Straddles(y, poly[0], poly[|poly| - 1]) then 1 else 0
  }

  lemma {:induction false} PathStraddlesParity(y: real, path: seq<Point>)
    requires |path| > 0
    ensures (PathStraddles(y, path) % 2 == 1) == Straddles(y, path[0], path[|path| - 1])
  {
    if |path| > 1 { PathStraddlesParity(y, path[1..]); }
  }

  /** A closed vertex list crosses any horizontal line an even number of times. */
  lemma {:induction false} EvenCrossings(y: real, poly: seq<Point>)
    requires |poly| > 0
    ensures StraddleCount(y, poly) % 2 == 0
  {
    PathStraddlesParity(y, poly);
  }

  /** p is outside the half-open bounding box of the vertices. */
  ghost predicate OutsideBounds(p: Point, poly: seq<Point>) {
    || (forall v :: v in poly ==> p.x < v.x)
    || (forall v :: v in poly ==> v.x <= p.x)
    || (forall v :: v in poly ==> p.y < v.y)
    || (forall v :: v in poly ==> v.y <= p.y)
  }

  /** Left of every vertex the ray crosses exactly the straddling edges; on the other sides it crosses none. */
  lemma {:induction false} PathOutside(p: Point, path: seq<Point>, left: bool)
    requires |path| > 0
    requires left ==> forall v :: v in path ==> p.x < v.x
    requires !left ==> || (forall v :: v in path ==> v.x <= p.x)
                       || (forall v :: v in path ==> p.y < v.y)
                       || (forall v :: v in path ==> v.y <= p.y)
    ensures PathParity(p, path) == (left && PathStraddles(p.y, path) % 2 == 1)
  {
    if |path| > 1 {
      EdgeOutside(p, path[1], path[0], left);
      PathOutside(p, path[1..], left);
    }
  }

  lemma EdgeOutside(p: Point, a: Point, b: Point, left: bool)
    requires left ==> p.x < a.x && p.x < b.x
    requires !left ==> (a.x <= p.x && b.x <= p.x) || (p.y < a.y && p.y < b.y) || (a.y <= p.y && b.y <= p.y)
    ensures Crosses(p, a, b) == (left && Straddles(p.y, a, b))
  {
    if Straddles(p.y, a, b) {
      MeetXBetween(p.y, a, b, if a.x < b.x then a.x else b.x, if a.x < b.x then b.x else a.x);
    }
  }

  /** Every point outside the (half-open) bounding box is reported outside. */
  lemma {:induction false} OutsideBoundsIsOutside(p: Point, poly: seq<Point>)
    requires OutsideBounds(p, poly)
    ensures !Inside(p, poly)
  {
    if poly != [] {
      var left := forall v :: v in poly ==> p.x < v.x;
      PathOutside(p, poly, left);
      EdgeOutside(p, poly[0], poly[|poly| - 1], left);
      EvenCrossings(p.y, poly);
    }
  }

  // ---------------------------------------------------------------- zones

  datatype Kind = Polygon | Rectangle | OtherKind

  /** The stored jsonb: every key is optional. */
  datatype Geometry = Geometry(
    kind: Option<Kind>, points: Option<seq<Point>>,
    x: Option<real>, y: Option<real>, width: Option<real>, height: Option<real>)

  const EMPTY_GEOMETRY := Geometry(None, None, None, None, None, None)

  /** What detectionInZone decides; no geometry, an empty one and an unknown one all mean the whole frame. */
  ghost predicate InZone(b: BBox, geometry: Option<Geometry>) {
    var c := Center(b);
    if geometry.None? || geometry.value == EMPTY_GEOMETRY then true
    else
      var g := geometry.value;
      if g.kind == Some(Rectangle) || (g.width.Some? && g.height.Some?) then
        && g.x.GetOr(0.0) <= c.x <= g.x.GetOr(0.0) + g.width.GetOr(1.0)
        && g.y.GetOr(0.0) <= c.y <= g.y.GetOr(0.0) + g.height.GetOr(1.0)
      else if g.kind == Some(Polygon) && g.points.Some? && |g.points.value| >= 3 then
        Inside(c, g.points.value)
      else true
  }

  method DetectionInZone(b: BBox, geometry: Option<Geometry>) returns (matched: bool)
    ensures matched == InZone(b, geometry)
  {
    var c := Center(b);
    if geometry.None? || geometry.value == EMPTY_GEOMETRY { return true; }
    var g := geometry.value;
    if g.kind == Some(Rectangle) || (g.width.Some? && g.height.Some?) {
      var gx, gy := g.x.GetOr(0.0), g.y.GetOr(0.0);
      var gw, gh := g.width.GetOr(1.0), g.height.GetOr(1.0);
      return c.x >= gx && c.x <= gx + gw && c.y >= gy && c.y <= gy + gh;
    }
    if g.kind == Some(Polygon) && g.points.Some? && |g.points.value| >= 3 {
      matched := PointInPolygon(c, g.points.value);
      return;
    }
    return true;
  }

  /** What a stored shape means for the middle q of a detection's box, key by key: a rectangle by kind or by having both
      extents, where missing numbers make it the unit square; otherwise a polygon of three points or more; otherwise the
      whole frame. */
  lemma GeometryMeans(b: BBox, q: Point, g: Geometry)
    requires q.x - b.x == b.x + b.w - q.x && q.y - b.y == b.y + b.h - q.y
    ensures InZone(b, None)
    ensures InZone(b, Some(g))
       <==> if g.kind == Some(Rectangle) || !(g.width.None? || g.height.None?) then
              && (if g.x.Some? then g.x.value else 0.0) <= q.x && (if g.y.Some? then g.y.value else 0.0) <= q.y
              && q.x - (if g.x.Some? then g.x.value else 0.0) <= (if g.width.Some? then g.width.value else 1.0)
              && q.y - (if g.y.Some? then g.y.value else 0.0) <= (if g.height.Some? then g.height.value else 1.0)
            else g.kind == Some(Polygon) && g.points.Some? && |g.points.value| > 2 ==> Inside(q, g.points.value)
  {
    assert Center(b) == q;
    hide Inside;
  }

  /** The corners of an axis-aligned box. */
  function Corners(x: real, y: real, w: real, h: real): seq<Point> {
    [Point(x, y), Point(x + w, y), Point(x + w, y + h), Point(x, y + h)]
  }

  lemma {:induction false} SinglePath(p: Point, u: Point, v: Point)
    ensures PathParity(p, [u, v]) == Crosses(p, v, u)
  {
    assert [u, v][1..] == [v];
  }

  /** Between a start and a start plus an extent of either sign, the lower end included and the upper not. */
  predicate HalfOpen(v: real, start: real, extent: real) {
    if extent >= 0.0 then start <= v < start + extent else start + extent <= v < start
  }

  /** A rectangle drawn as a polygon is exactly the half-open box, whatever the signs of its width and height. */
  lemma {:induction false} RectangleAsPolygon(p: Point, x: real, y: real, w: real, h: real)
    ensures Inside(p, Corners(x, y, w, h)) == (HalfOpen(p.x, x, w) && HalfOpen(p.y, y, h))
  {
    var c := Corners(x, y, w, h);
    PathSplit(p, c, 1);
    PathSplit(p, c[1..], 1);
    assert c[..2] == [c[0], c[1]] && c[1..][..2] == [c[1], c[2]] && c[1..][1..] == [c[2], c[3]];
    SinglePath(p, c[0], c[1]);
    SinglePath(p, c[1], c[2]);
    SinglePath(p, c[2], c[3]);
    if Straddles(p.y, c[2], c[1]) { MeetXBetween(p.y, c[2], c[1], x + w, x + w); }
    if Straddles(p.y, c[0], c[3]) { MeetXBetween(p.y, c[0], c[3], x, x); }
  }

  /** The rectangle branch and the polygon branch disagree exactly on the right and top edges of the box. A negative
      width or height leaves the rectangle branch nothing, and the polygon branch the whole half-open box. */
  lemma {:induction false} RectangleBranchesAgree(b: BBox, x: real, y: real, w: real, h: real)
    ensures var c := Center(b);
            var rectangle := Geometry(Some(Rectangle), None, Some(x), Some(y), Some(w), Some(h));
            var polygon := Geometry(Some(Polygon), Some(Corners(x, y, w, h)), None, None, None, None);
            InZone(b, Some(rectangle)) != InZone(b, Some(polygon))
            <==> if w >= 0.0 && h >= 0.0
                 then x <= c.x <= x + w && y <= c.y <= y + h && (c.x == x + w || c.y == y + h)
                 else HalfOpen(c.x, x, w) && HalfOpen(c.y, y, h)
  {
    RectangleAsPolygon(Center(b), x, y, w, h);
  }
}
