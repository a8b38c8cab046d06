/** The procedural weather icons of src/c/utility/graphics.c. An icon is the
    sequence of primitives it draws, in drawing order: stroked lines (in the
    sun or the cloud stroke colour) and filled paths. The lengths the source
    obtains with `round(size * fraction)` and the other float-derived
    offsets are parameters, so everything here is integer arithmetic, with
    the C conversions to `int8_t` and `int16_t` written out. */
module Graphics {
  import opened IntTypes
  import opened CInt

  /** A `GPoint`. */
  datatype Point = Point(x: int16, y: int16)

  /** The `GPoint(x, y)` macro applied to `int` arguments: each one is converted to `int16_t`. */
  function P(x: int, y: int): Point {
    Point(Wrap16(x), Wrap16(y))
  }

  /** The stroke colour set before a line is drawn: SCORE_SUN_COLOR or SCORE_CLOUD_COLOR. */
  datatype Stroke = SunStroke | CloudStroke

  /** graphics_draw_line and gpath_draw_filled. */
  datatype Prim = Line(stroke: Stroke, from: Point, to: Point) | FilledPath(points: seq<Point>)

  /** A point far enough from the int16_t limits that nothing an icon adds to it wraps. */
  predicate Interior(p: Point) {
    -32000 <= p.x <= 32000 && -32000 <= p.y <= 32000
  }

  /** The point has exactly these coordinates. */
  predicate At(p: Point, x: int, y: int) {
    p.x as int == x && p.y as int == y
  }

  // ---------------------------------------------------------------- sun

  /** The rounded lengths of draw_sun for one size: round(size * 0.15),
      round(size * 0.12) and round(size * 0.46). */
  datatype SunLengths = SunLengths(rayLength: int8, angleRayLength: int8, boxSize: int8)

  /** The free space between the rays and the box, before division by two. */
  function Slack(size: int8, d: SunLengths): int {
    size as int - d.boxSize as int - d.rayLength as int * 2
  }

  /** The gap is a truncating integer division whose result is converted from
      `double` to `int8_t`; that conversion is undefined outside int8_t, so the
      model admits only lengths whose gap is in range. */
  predicate GapFits(size: int8, d: SunLengths) {
    IsInt8(DivC(Slack(size, d), 2))
  }

  /** `gap`: half the slack, truncated toward zero. */
  function Gap(size: int8, d: SunLengths): (g: int8)
    requires GapFits(size, d)
    ensures Slack(size, d) >= 0 ==> 2 * g as int == Slack(size, d) || 2 * g as int + 1 == Slack(size, d)
    ensures Slack(size, d) < 0 ==> 2 * g as int == Slack(size, d) || 2 * g as int - 1 == Slack(size, d)
  {
    DivC(Slack(size, d), 2) as int8
  }

  /** `center_x` and `center_y`, stored in `int8_t` and so wrapped. */
  function CentreX(pos: Point, size: int8): int8 { Wrap8(pos.x as int + DivC(size as int, 2)) }
  function CentreY(pos: Point, size: int8): int8 { Wrap8(pos.y as int + DivC(size as int, 2)) }

  /** The four sides of the sun box: top, right, bottom, left. */
  function SunBox(pos: Point, size: int8, d: SunLengths): seq<Prim>
    requires GapFits(size, d)
  {
    var inset := d.rayLength as int + Gap(size, d) as int;
    var box := d.boxSize as int;
    var topLeft := P(inset + pos.x as int, inset + pos.y as int);
    var topRight := P(inset + pos.x as int + box, inset + pos.y as int);
    var bottomLeft := P(inset + pos.x as int, inset + pos.y as int + box);
    var bottomRight := P(inset + pos.x as int + box, inset + pos.y as int + box);
    [Line(SunStroke, topLeft, topRight), Line(SunStroke, topRight, bottomRight),
     Line(SunStroke, bottomRight, bottomLeft), Line(SunStroke, bottomLeft, topLeft)]
  }

  datatype Ray = Ray(start: Point, end: Point)

  /** The `rays` table of draw_sun: four straight rays (top, bottom, left,
      right), then four diagonal rays (top-left, top-right, bottom-left, bottom-right). */
  function SunRays(pos: Point, size: int8, d: SunLengths): (rays: seq<Ray>)
    requires GapFits(size, d)
    ensures |rays| == 8
  {
    var x, y, s := pos.x as int, pos.y as int, size as int;
    var cx, cy := CentreX(pos, size) as int, CentreY(pos, size) as int;
    var ray, angle, gap := d.rayLength as int, d.angleRayLength as int, Gap(size, d) as int;
    [Ray(P(cx, y), P(cx, y + ray)),
     Ray(P(cx, y + s - ray), P(cx, y + s)),
     Ray(P(x, cy), P(x + ray, cy)),
     Ray(P(x + s - ray, cy), P(x + s, cy)),
     Ray(P(x + gap, y + gap), P(x + gap + angle, y + gap + angle)),
     Ray(P(x + s - gap, y + gap), P(x + s - gap - angle, y + gap + angle)),
     Ray(P(x + gap, y + s - gap), P(x + gap + angle, y + s - gap - angle)),
     Ray(P(x + s - gap, y + s - gap), P(x + s - gap - angle, y + s - gap - angle))]
  }

  /** One sun-coloured line per ray, in table order. */
  function RayLines(rays: seq<Ray>): (lines: seq<Prim>)
    ensures |lines| == |rays|
  {
    if rays == [] then []
    else RayLines(rays[..|rays| - 1]) + [Line(SunStroke, rays[|rays| - 1].start, rays[|rays| - 1].end)]
  }

  /** Everything draw_sun draws: the box, then the rays. */
  function Sun(pos: Point, size: int8, d: SunLengths): seq<Prim>
    requires GapFits(size, d)
  {
    SunBox(pos, size, d) + RayLines(SunRays(pos, size, d))
  }

  /** draw_sun: the box, then one line per entry of the ray table. */
  method DrawSun(pos: Point, size: int8, d: SunLengths) returns (prims: seq<Prim>)
    requires GapFits(size, d)
    ensures prims == Sun(pos, size, d)
  {
    prims := SunBox(pos, size, d);
    var rays := SunRays(pos, size, d);
    for i := 0 to |rays|
      invariant prims == SunBox(pos, size, d) + RayLines(rays[..i])
    {
      assert rays[..i + 1][..i] == rays[..i];
      prims := prims + [Line(SunStroke, rays[i].start, rays[i].end)];
    }
    assert rays[..|rays|] == rays;
  }

  lemma {:induction false} RayLinesAt(rays: seq<Ray>, k: nat)
    requires k < |rays|
    ensures RayLines(rays)[k] == Line(SunStroke, rays[k].start, rays[k].end)
  {
    if k < |rays| - 1 {
      RayLinesAt(rays[..|rays| - 1], k);
    }
  }

  /** The sun is twelve sun-coloured lines: four box sides, then the eight rays in table order. */
  lemma SunLines(pos: Point, size: int8, d: SunLengths)
    requires GapFits(size, d)
    ensures var s := Sun(pos, size, d);
      && |s| == 12
      && (forall i :: 0 <= i < 12 ==> s[i].Line? && s[i].stroke == SunStroke)
      && forall k :: 0 <= k < 8 ==> s[4 + k] == Line(SunStroke, SunRays(pos, size, d)[k].start, SunRays(pos, size, d)[k].end)
  {
    var rays := SunRays(pos, size, d);
    forall k | 0 <= k < 8 ensures RayLines(rays)[k] == Line(SunStroke, rays[k].start, rays[k].end) {
      RayLinesAt(rays, k);
    }
  }

  /** The box is a closed chain of four lines (each ends where the next begins),
      whatever wraps. */
  lemma SunBoxClosed(pos: Point, size: int8, d: SunLengths)
    requires GapFits(size, d)
    ensures var b := SunBox(pos, size, d);
      |b| == 4 && forall i :: 0 <= i < 4 ==> b[i].Line? && b[i].to == b[(i + 1) % 4].from
  {
  }

  /** Away from the int16_t limits the box is a square of side `boxSize` whose
      top-left corner is `pos + (rayLength + gap, rayLength + gap)`. */
  lemma SunBoxSquare(pos: Point, size: int8, d: SunLengths)
    requires GapFits(size, d) && Interior(pos)
    ensures var b := SunBox(pos, size, d);
      var inset := d.rayLength as int + Gap(size, d) as int;
      var side := d.boxSize as int;
      && b[0].from.x as int == pos.x as int + inset && b[0].from.y as int == pos.y as int + inset
      && b[0].to.x as int == b[0].from.x as int + side && b[0].to.y == b[0].from.y
      && b[1].to.y as int == b[1].from.y as int + side && b[1].to.x == b[1].from.x
      && b[2].to.x as int == b[2].from.x as int - side && b[2].to.y == b[2].from.y
      && b[3].to.y as int == b[3].from.y as int - side && b[3].to.x == b[3].from.x
  {
  }

  /** With a slack of at least zero the box is centred up to one pixel: the
      margin on its right and bottom is the margin on its left and top, or one more. */
  lemma SunBoxCentred(size: int8, d: SunLengths)
    requires GapFits(size, d) && Slack(size, d) >= 0
    ensures var inset := d.rayLength as int + Gap(size, d) as int;
      var far := size as int - inset - d.boxSize as int;
      far == inset || far == inset + 1
  {
  }

  /** The straight rays are axis-parallel lines of length `rayLength` whose outer
      ends lie on the edges y = pos.y, y = pos.y + size, x = pos.x and x = pos.x + size. */
  lemma SunStraightRays(pos: Point, size: int8, d: SunLengths)
    requires GapFits(size, d) && Interior(pos)
    ensures var r := SunRays(pos, size, d);
      var len := d.rayLength as int;
      && r[0].start.x == r[0].end.x && r[0].start.y == pos.y && r[0].end.y as int == pos.y as int + len
      && r[1].start.x == r[1].end.x && r[1].end.y as int == pos.y as int + size as int
         && r[1].start.y as int == r[1].end.y as int - len
      && r[2].start.y == r[2].end.y && r[2].start.x == pos.x && r[2].end.x as int == pos.x as int + len
      && r[3].start.y == r[3].end.y && r[3].end.x as int == pos.x as int + size as int
         && r[3].start.x as int == r[3].end.x as int - len
  {
  }

  /** The diagonal rays start at the corners of the size x size box moved
      inward by `gap` and run `angleRayLength` inward along both axes. */
  lemma SunDiagonalRays(pos: Point, size: int8, d: SunLengths)
    requires GapFits(size, d) && Interior(pos)
    ensures var r := SunRays(pos, size, d);
      var g, a := Gap(size, d) as int, d.angleRayLength as int;
      var x0, y0 := pos.x as int + g, pos.y as int + g;
      var x1, y1 := pos.x as int + size as int - g, pos.y as int + size as int - g;
      && At(r[4].start, x0, y0) && At(r[4].end, x0 + a, y0 + a)
      && At(r[5].start, x1, y0) && At(r[5].end, x1 - a, y0 + a)
      && At(r[6].start, x0, y1) && At(r[6].end, x0 + a, y1 - a)
      && At(r[7].start, x1, y1) && At(r[7].end, x1 - a, y1 - a)
  {
  }

  /** `center_y` is an `int8_t`: a sun 44 pixels tall drawn at y = 106 has its
      centre at -128, not 128, so its left and right rays are drawn far above it. */
  lemma SunCentreWraps()
    ensures CentreY(Point(24, 106), 44) == -128
  {
  }

  // ---------------------------------------------------------------- cloud

  /** The fractions of the icon size that the cloud's segments use. */
  datatype Fraction = F11 | F12 | F13 | F18 | F19 | F23 | F40 | F41

  /** One entry of the `segments` table: a unit direction and a length fraction. */
  datatype Segment = Segment(dx: int, dy: int, scale: Fraction)

  /** The outline, counter-clockwise from the top centre, in four runs of four
      segments: the left half's upper and lower bumps, then the right half's lower
      and upper bumps. */
  const Segments: seq<Segment> := LeftUpper + LeftLower + RightLower + RightUpper

  const LeftUpper: seq<Segment> := [Segment(-1, 0, F19), Segment(-1, 1, F11), Segment(0, 1, F13), Segment(-1, 0, F12)]
  const LeftLower: seq<Segment> := [Segment(-1, 1, F11), Segment(0, 1, F23), Segment(1, 1, F11), Segment(1, 0, F40)]
  const RightLower: seq<Segment> := [Segment(1, 0, F41), Segment(1, -1, F11), Segment(0, -1, F23), Segment(-1, -1, F11)]
  const RightUpper: seq<Segment> := [Segment(-1, 0, F18), Segment(0, -1, F13), Segment(-1, -1, F11), Segment(-1, 0, F11)]

  /** Every segment moves by -1, 0 or 1 along each axis. */
  predicate UnitSteps(segs: seq<Segment>) {
    forall i :: 0 <= i < |segs| ==> -1 <= segs[i].dx <= 1 && -1 <= segs[i].dy <= 1
  }

  lemma SegmentDirections()
    ensures |Segments| == 16 && UnitSteps(Segments)
  {
  }

  /** `(center_x, top_y)`: both `int8_t`, so wrapped. */
  function CloudStart(pos: Point, size: int8): Point {
    Point(Wrap8(pos.x as int + DivC(size as int, 2)) as int16, Wrap8(pos.y as int + 16) as int16)
  }

  /** One step of the walk: `current + (dx * length, dy * length)`, stored in int16_t. */
  function Advance(p: Point, seg: Segment, length: int8): Point {
    P(p.x as int + seg.dx * length as int, p.y as int + seg.dy * length as int)
  }

  /** The i-th point of the walk along `segs` from `start`; `lengths` gives
      round(size * fraction) for this cloud's size. */
  function CloudPoint(start: Point, segs: seq<Segment>, lengths: Fraction -> int8, i: nat): Point
    requires i <= |segs|
  {
    if i == 0 then start
    else Advance(CloudPoint(start, segs, lengths, i - 1), segs[i - 1], lengths(segs[i - 1].scale))
  }

  /** All points of the walk: the filled path. */
  function CloudPath(start: Point, segs: seq<Segment>, lengths: Fraction -> int8): (path: seq<Point>)
    ensures |path| == |segs| + 1
  {
    seq(|segs| + 1, i requires 0 <= i < |segs| + 1 => CloudPoint(start, segs, lengths, i))
  }

  /** The first n lines of the outline walk. */
  function Outline(start: Point, segs: seq<Segment>, lengths: Fraction -> int8, n: nat): (lines: seq<Prim>)
    requires n <= |segs|
    ensures |lines| == n
  {
    if n == 0 then []
    else Outline(start, segs, lengths, n - 1)
         + [Line(CloudStroke, CloudPoint(start, segs, lengths, n - 1), CloudPoint(start, segs, lengths, n))]
  }

  /** Everything draw_cloud draws: the filled path when asked to fill, then the outline. */
  function Cloud(pos: Point, size: int8, lengths: Fraction -> int8, fill: bool): seq<Prim> {
    var start := CloudStart(pos, size);
    (if fill then [FilledPath(CloudPath(start, Segments, lengths))] else [])
    + Outline(start, Segments, lengths, |Segments|)
  }

  /** draw_cloud */
  method DrawCloud(pos: Point, size: int8, lengths: Fraction -> int8, fill: bool) returns (prims: seq<Prim>)
    ensures prims == Cloud(pos, size, lengths, fill)
  {
    var centerX := Wrap8(pos.x as int + DivC(size as int, 2));
    var topY := Wrap8(pos.y as int + 16);
    var start := Point(centerX as int16, topY as int16);
    prims := [];
    if fill {
      var path := TracePath(start, Segments, lengths);
      prims := [FilledPath(path[..])];
    }
    var outline := TraceOutline(start, Segments, lengths);
    prims := prims + outline;
  }

  /** The path loop of draw_cloud: the start point, then one point per segment,
      written into a fresh array of |segs| + 1 points. */
  method TracePath(start: Point, segs: seq<Segment>, lengths: Fraction -> int8) returns (path: array<Point>)
    ensures fresh(path)
    ensures path[..] == CloudPath(start, segs, lengths)
  {
    path := new Point[|segs| + 1];
    path[0] := start;
    var current := path[0];
    for i := 0 to |segs|
      invariant path[0] == start && current == path[i]
      invariant forall k {:trigger path[k]} :: 0 < k <= i ==>
        path[k] == Advance(path[k - 1], segs[k - 1], lengths(segs[k - 1].scale))
    {
      var length := lengths(segs[i].scale);
      current := Advance(current, segs[i], length);
      path[i + 1] := current;
    }
    WalkIsCloudPath(path[..], start, segs, lengths);
  }

  /** The outline loop of draw_cloud: one line per segment, from the current
      point to the next. */
  method TraceOutline(start: Point, segs: seq<Segment>, lengths: Fraction -> int8) returns (lines: seq<Prim>)
    ensures lines == Outline(start, segs, lengths, |segs|)
  {
    lines := [];
    var current := start;
    for i := 0 to |segs|
      invariant current == CloudPoint(start, segs, lengths, i)
      invariant lines == Outline(start, segs, lengths, i)
    {
      var length := lengths(segs[i].scale);
      var next := Advance(current, segs[i], length);
      lines := lines + [Line(CloudStroke, current, next)];
      current := next;
    }
  }

  /** A sequence that starts at `start` and takes each next point one segment on
      from the previous one is the cloud path: the walk determines the path. */
  lemma WalkIsCloudPath(s: seq<Point>, start: Point, segs: seq<Segment>, lengths: Fraction -> int8)
    requires |s| == |segs| + 1 && s[0] == start
    requires forall k :: 0 < k < |s| ==> s[k] == Advance(s[k - 1], segs[k - 1], lengths(segs[k - 1].scale))
    ensures s == CloudPath(start, segs, lengths)
  {
    forall n | 0 <= n < |s| ensures s[n] == CloudPoint(start, segs, lengths, n) {
      WalkPrefix(s, start, segs, lengths, n);
    }
  }

  lemma {:induction false} WalkPrefix(s: seq<Point>, start: Point, segs: seq<Segment>, lengths: Fraction -> int8, n: nat)
    requires |s| == |segs| + 1 && s[0] == start && n < |s|
    requires forall k :: 0 < k < |s| ==> s[k] == Advance(s[k - 1], segs[k - 1], lengths(segs[k - 1].scale))
    ensures s[n] == CloudPoint(start, segs, lengths, n)
  {
    if n > 0 {
      WalkPrefix(s, start, segs, lengths, n - 1);
    }
  }

  lemma {:induction false} OutlineAt(start: Point, segs: seq<Segment>, lengths: Fraction -> int8, n: nat, k: nat)
    requires k < n <= |segs|
    ensures Outline(start, segs, lengths, n)[k]
      == Line(CloudStroke, CloudPoint(start, segs, lengths, k), CloudPoint(start, segs, lengths, k + 1))
  {
    if k < n - 1 {
      OutlineAt(start, segs, lengths, n - 1, k);
    }
  }

  /** The path starts at (center_x, top_y) and each next point is the previous one
      moved by one segment; the outline draws the 16 lines between consecutive
      points of that same path. */
  lemma CloudShape(pos: Point, size: int8, lengths: Fraction -> int8)
    ensures var c := Cloud(pos, size, lengths, true);
      var path := CloudPath(CloudStart(pos, size), Segments, lengths);
      && |path| == 17 && |c| == 17 && c[0] == FilledPath(path)
      && path[0] == CloudStart(pos, size)
      && (forall i :: 0 <= i < 16 ==> path[i + 1] == Advance(path[i], Segments[i], lengths(Segments[i].scale)))
      && forall i :: 1 <= i < 17 ==> c[i] == Line(CloudStroke, path[i - 1], path[i])
  {
    var start := CloudStart(pos, size);
    var segs := Segments;
    forall i | 0 <= i < |segs|
      ensures Outline(start, segs, lengths, |segs|)[i]
        == Line(CloudStroke, CloudPoint(start, segs, lengths, i), CloudPoint(start, segs, lengths, i + 1))
    {
      OutlineAt(start, segs, lengths, |segs|, i);
    }
  }

  /** Without the filled path, the cloud is just the 16 outline lines. */
  lemma CloudOutlineOnly(pos: Point, size: int8, lengths: Fraction -> int8)
    ensures Cloud(pos, size, lengths, false) == Cloud(pos, size, lengths, true)[1..]
  {
  }

  /** The sums of the horizontal and of the vertical moves of the first n segments. */
  function MoveX(segs: seq<Segment>, lengths: Fraction -> int8, n: nat): int
    requires n <= |segs|
  {
    if n == 0 then 0 else MoveX(segs, lengths, n - 1) + segs[n - 1].dx * lengths(segs[n - 1].scale) as int
  }

  function MoveY(segs: seq<Segment>, lengths: Fraction -> int8, n: nat): int
    requires n <= |segs|
  {
    if n == 0 then 0 else MoveY(segs, lengths, n - 1) + segs[n - 1].dy * lengths(segs[n - 1].scale) as int
  }

  lemma UnitTimes(d: int, n: int)
    requires -1 <= d <= 1
    ensures d * n == (if d == 1 then n else if d == -1 then -n else 0)
  {
  }

  /** A walk of unit steps from an `int8_t` point moves at most 128 per segment, so
      for up to 200 segments it never wraps int16_t: each point is the start plus
      the moves made so far. */
  lemma {:induction false} CloudPointExact(start: Point, segs: seq<Segment>, lengths: Fraction -> int8, i: nat)
    requires UnitSteps(segs) && i <= |segs| && |segs| <= 200
    requires IsInt8(start.x as int) && IsInt8(start.y as int)
    ensures CloudPoint(start, segs, lengths, i).x as int == start.x as int + MoveX(segs, lengths, i)
    ensures CloudPoint(start, segs, lengths, i).y as int == start.y as int + MoveY(segs, lengths, i)
    ensures -128 * i <= MoveX(segs, lengths, i) <= 128 * i && -128 * i <= MoveY(segs, lengths, i) <= 128 * i
  {
    if i > 0 {
      CloudPointExact(start, segs, lengths, i - 1);
      var seg := segs[i - 1];
      var length := lengths(seg.scale) as int;
      UnitTimes(seg.dx, length);
      UnitTimes(seg.dy, length);
    }
  }

  /** The moves of the first four segments: the upper left of the outline. */
  lemma CloudMoves4(l: Fraction -> int8)
    ensures MoveX(Segments, l, 4) == 0 - l(F19) as int - l(F11) as int - l(F12) as int
    ensures MoveY(Segments, l, 4) == l(F11) as int + l(F13) as int
  {
    assert MoveX(Segments, l, 1) == MoveX(Segments, l, 0) - l(F19) as int;
    assert MoveX(Segments, l, 2) == MoveX(Segments, l, 1) - l(F11) as int;
    assert MoveX(Segments, l, 3) == MoveX(Segments, l, 2);
    assert MoveX(Segments, l, 4) == MoveX(Segments, l, 3) - l(F12) as int;
    assert MoveY(Segments, l, 1) == MoveY(Segments, l, 0);
    assert MoveY(Segments, l, 2) == MoveY(Segments, l, 1) + l(F11) as int;
    assert MoveY(Segments, l, 3) == MoveY(Segments, l, 2) + l(F13) as int;
    assert MoveY(Segments, l, 4) == MoveY(Segments, l, 3);
  }

  /** After eight segments the walk has gone down the left side and along the bottom. */
  lemma CloudMoves8(l: Fraction -> int8)
    ensures MoveX(Segments, l, 8) == l(F40) as int - l(F19) as int - l(F12) as int - l(F11) as int
    ensures MoveY(Segments, l, 8) == 3 * l(F11) as int + l(F13) as int + l(F23) as int
  {
    CloudMoves4(l);
    assert MoveX(Segments, l, 5) == MoveX(Segments, l, 4) - l(F11) as int;
    assert MoveX(Segments, l, 6) == MoveX(Segments, l, 5);
    assert MoveX(Segments, l, 7) == MoveX(Segments, l, 6) + l(F11) as int;
    assert MoveX(Segments, l, 8) == MoveX(Segments, l, 7) + l(F40) as int;
    assert MoveY(Segments, l, 5) == MoveY(Segments, l, 4) + l(F11) as int;
    assert MoveY(Segments, l, 6) == MoveY(Segments, l, 5) + l(F23) as int;
    assert MoveY(Segments, l, 7) == MoveY(Segments, l, 6) + l(F11) as int;
    assert MoveY(Segments, l, 8) == MoveY(Segments, l, 7);
  }

  /** After twelve segments the walk has come back up the lower right side. */
  lemma CloudMoves12(l: Fraction -> int8)
    ensures MoveX(Segments, l, 12) == l(F40) as int + l(F41) as int - l(F19) as int - l(F12) as int - l(F11) as int
    ensures MoveY(Segments, l, 12) == l(F11) as int + l(F13) as int
  {
    CloudMoves8(l);
    assert MoveX(Segments, l, 9) == MoveX(Segments, l, 8) + l(F41) as int;
    assert MoveX(Segments, l, 10) == MoveX(Segments, l, 9) + l(F11) as int;
    assert MoveX(Segments, l, 11) == MoveX(Segments, l, 10);
    assert MoveX(Segments, l, 12) == MoveX(Segments, l, 11) - l(F11) as int;
    assert MoveY(Segments, l, 9) == MoveY(Segments, l, 8);
    assert MoveY(Segments, l, 10) == MoveY(Segments, l, 9) - l(F11) as int;
    assert MoveY(Segments, l, 11) == MoveY(Segments, l, 10) - l(F23) as int;
    assert MoveY(Segments, l, 12) == MoveY(Segments, l, 11) - l(F11) as int;
  }

  /** Over the whole outline the vertical moves cancel, and the horizontal ones add up to
      0.40 + 0.41 - 0.19 - 0.12 - 0.18 - 3 * 0.11 of the size, rounded per fraction. */
  lemma CloudMoves16(l: Fraction -> int8)
    ensures MoveX(Segments, l, 16) == l(F40) as int + l(F41) as int - l(F19) as int - l(F12) as int - l(F18) as int - 3 * l(F11) as int
    ensures MoveY(Segments, l, 16) == 0
  {
    CloudMoves12(l);
    assert MoveX(Segments, l, 13) == MoveX(Segments, l, 12) - l(F18) as int;
    assert MoveX(Segments, l, 14) == MoveX(Segments, l, 13);
    assert MoveX(Segments, l, 15) == MoveX(Segments, l, 14) - l(F11) as int;
    assert MoveX(Segments, l, 16) == MoveX(Segments, l, 15) - l(F11) as int;
    assert MoveY(Segments, l, 13) == MoveY(Segments, l, 12);
    assert MoveY(Segments, l, 14) == MoveY(Segments, l, 13) - l(F13) as int;
    assert MoveY(Segments, l, 15) == MoveY(Segments, l, 14) - l(F11) as int;
    assert MoveY(Segments, l, 16) == MoveY(Segments, l, 15);
  }

  /** The last point of the cloud path is level with the first, and lies the
      net horizontal move of the walk to its right. */
  lemma CloudEnd(pos: Point, size: int8, lengths: Fraction -> int8)
    ensures var path := CloudPath(CloudStart(pos, size), Segments, lengths);
      && |path| == 17
      && path[16].y == path[0].y
      && path[16].x as int == path[0].x as int
         + lengths(F40) as int + lengths(F41) as int - lengths(F19) as int - lengths(F12) as int
         - lengths(F18) as int - 3 * lengths(F11) as int
  {
    SegmentDirections();
    CloudPointExact(CloudStart(pos, size), Segments, lengths, 16);
    CloudMoves16(lengths);
  }

  // ---------------------------------------------------------------- icons

  /** The quantities the composite icons derive from `size` or `pos` in floating point:
      the lengths of the full-size sun and of the sun drawn at size * 0.66, the
      size * 0.66 itself, the cloud lengths at size * 0.66, at full size and at the
      reduced size, the cloud and sun positions of the partly and mostly cloudy
      icons, and the two adjustments of the very cloudy icon. `adjustment_size` is
      round(size * 0.1), but `adjustment_y` is -round(pos.x * 0.1): it is computed from
      the icon's x coordinate, yet moves the clouds vertically. Both are free parameters
      here, so the model does not tie `adjustmentY` to `pos.x`. */
  datatype IconMetrics = IconMetrics(
    sun: SunLengths,
    smallSun: SunLengths,
    smallSize: int8,
    smallCloud: Fraction -> int8,
    cloud: Fraction -> int8,
    reducedCloud: Fraction -> int8,
    partlyCloudY: int16,
    mostlySunX: int16,
    mostlyCloudY: int16,
    adjustmentY: int8,
    adjustmentSize: int8)

  /** The sun the score's icon draws, if any, has its gap in range: the full-size sun
      for the sun and partly cloudy icons, the smaller sun for the mostly cloudy icon. */
  predicate ImageFits(score: int8, size: int8, m: IconMetrics) {
    && (score >= 6 ==> GapFits(size, m.sun))
    && (3 <= score < 6 ==> GapFits(m.smallSize, m.smallSun))
  }

  /** draw_partly_cloudy: the sun at `pos`, then a smaller cloud over its lower part. */
  function PartlyCloudy(pos: Point, size: int8, m: IconMetrics): seq<Prim>
    requires GapFits(size, m.sun)
  {
    Sun(pos, size, m.sun) + Cloud(Point(pos.x, m.partlyCloudY), m.smallSize, m.smallCloud, true)
  }

  /** draw_mostly_cloudy: a smaller sun to the right, then a full-size cloud raised over it. */
  function MostlyCloudy(pos: Point, size: int8, m: IconMetrics): seq<Prim>
    requires GapFits(m.smallSize, m.smallSun)
  {
    Sun(Point(m.mostlySunX, pos.y), m.smallSize, m.smallSun) + Cloud(Point(pos.x, m.mostlyCloudY), size, m.cloud, true)
  }

  /** The size of both very-cloudy clouds: `size - adjustment_size` passed as `int8_t`. */
  function ReducedSize(size: int8, m: IconMetrics): int8 {
    Wrap8(size as int - m.adjustmentSize as int)
  }

  /** Where the very cloudy icon's back cloud goes: right by 3 * adjustment_size,
      up by 2 * adjustment_size, both moved by adjustment_y. */
  function BackCloudPos(pos: Point, m: IconMetrics): Point {
    P(pos.x as int + m.adjustmentSize as int * 3, pos.y as int + m.adjustmentY as int - m.adjustmentSize as int * 2)
  }

  /** Where the very cloudy icon's front cloud goes: `pos` moved by adjustment_y. */
  function FrontCloudPos(pos: Point, m: IconMetrics): Point {
    P(pos.x as int, pos.y as int + m.adjustmentY as int)
  }

  /** draw_very_cloudy: a cloud up and to the right, then a cloud at `pos`; no sun. */
  function VeryCloudy(pos: Point, size: int8, m: IconMetrics): seq<Prim> {
    Cloud(BackCloudPos(pos, m), ReducedSize(size, m), m.reducedCloud, true)
    + Cloud(FrontCloudPos(pos, m), ReducedSize(size, m), m.reducedCloud, true)
  }

  datatype Icon = SunIcon | PartlyCloudyIcon | MostlyCloudyIcon | VeryCloudyIcon

  /** The icon draw_score_image picks: inclusive lower bounds 8, 6 and 3; every
      lower score, the sentinel -1 included, is very cloudy. */
  function IconFor(score: int8): (icon: Icon)
    ensures icon == SunIcon <==> score >= 8
    ensures icon == PartlyCloudyIcon <==> 6 <= score < 8
    ensures icon == MostlyCloudyIcon <==> 3 <= score < 6
    ensures icon == VeryCloudyIcon <==> score < 3
  {
    if score >= 8 then SunIcon
    else if score >= 6 then PartlyCloudyIcon
    else if score >= 3 then MostlyCloudyIcon
    else VeryCloudyIcon
  }

  /** What draw_score_image draws. */
  function ScoreImage(score: int8, pos: Point, size: int8, m: IconMetrics): seq<Prim>
    requires ImageFits(score, size, m)
  {
    match IconFor(score)
    case SunIcon => Sun(pos, size, m.sun)
    case PartlyCloudyIcon => PartlyCloudy(pos, size, m)
    case MostlyCloudyIcon => MostlyCloudy(pos, size, m)
    case VeryCloudyIcon => VeryCloudy(pos, size, m)
  }

  method DrawPartlyCloudy(pos: Point, size: int8, m: IconMetrics) returns (prims: seq<Prim>)
    requires GapFits(size, m.sun)
    ensures prims == PartlyCloudy(pos, size, m)
  {
    var sun := DrawSun(pos, size, m.sun);
    var cloud := DrawCloud(Point(pos.x, m.partlyCloudY), m.smallSize, m.smallCloud, true);
    prims := sun + cloud;
  }

  method DrawMostlyCloudy(pos: Point, size: int8, m: IconMetrics) returns (prims: seq<Prim>)
    requires GapFits(m.smallSize, m.smallSun)
    ensures prims == MostlyCloudy(pos, size, m)
  {
    var sun := DrawSun(Point(m.mostlySunX, pos.y), m.smallSize, m.smallSun);
    var cloud := DrawCloud(Point(pos.x, m.mostlyCloudY), size, m.cloud, true);
    prims := sun + cloud;
  }

  method DrawVeryCloudy(pos: Point, size: int8, m: IconMetrics) returns (prims: seq<Prim>)
    ensures prims == VeryCloudy(pos, size, m)
  {
    var back := DrawCloud(BackCloudPos(pos, m), ReducedSize(size, m), m.reducedCloud, true);
    var front := DrawCloud(FrontCloudPos(pos, m), ReducedSize(size, m), m.reducedCloud, true);
    prims := back + front;
  }

  /** draw_score_image */
  method DrawScoreImage(score: int8, pos: Point, size: int8, m: IconMetrics) returns (prims: seq<Prim>)
    requires ImageFits(score, size, m)
    ensures prims == ScoreImage(score, pos, size, m)
  {
    if score >= 8 {
      prims := DrawSun(pos, size, m.sun);
    } else if score >= 6 {
      prims := DrawPartlyCloudy(pos, size, m);
    } else if score >= 3 {
      prims := DrawMostlyCloudy(pos, size, m);
    } else {
      prims := DrawVeryCloudy(pos, size, m);
    }
  }

  /** Twelve sun-coloured lines. */
  predicate IsSun(ps: seq<Prim>) {
    |ps| == 12 && forall i :: 0 <= i < 12 ==> ps[i].Line? && ps[i].stroke == SunStroke
  }

  /** A 17-point filled path followed by 16 cloud-coloured lines. */
  predicate IsFilledCloud(ps: seq<Prim>) {
    && |ps| == 17 && ps[0].FilledPath? && |ps[0].points| == 17
    && forall i :: 1 <= i < 17 ==> ps[i].Line? && ps[i].stroke == CloudStroke
  }

  predicate HasSunLine(ps: seq<Prim>) {
    exists i :: 0 <= i < |ps| && ps[i].Line? && ps[i].stroke == SunStroke
  }

  lemma FilledCloudShape(pos: Point, size: int8, lengths: Fraction -> int8)
    ensures IsFilledCloud(Cloud(pos, size, lengths, true))
  {
    CloudShape(pos, size, lengths);
    var c := Cloud(pos, size, lengths, true);
    var path := CloudPath(CloudStart(pos, size), Segments, lengths);
    forall i | 1 <= i < 17 ensures c[i].Line? && c[i].stroke == CloudStroke {
      assert c[i] == Line(CloudStroke, path[i - 1], path[i]);
    }
  }

  /** A sun drawn first and a filled cloud drawn over it. */
  predicate SunUnderCloud(img: seq<Prim>) {
    |img| == 29 && IsSun(img[..12]) && IsFilledCloud(img[12..])
  }

  /** Two filled clouds, the back one first. */
  predicate TwoFilledClouds(img: seq<Prim>) {
    |img| == 34 && IsFilledCloud(img[..17]) && IsFilledCloud(img[17..])
  }

  lemma SunThenCloud(sunPos: Point, sunSize: int8, d: SunLengths,
                     cloudPos: Point, cloudSize: int8, lengths: Fraction -> int8)
    requires GapFits(sunSize, d)
    ensures var img := Sun(sunPos, sunSize, d) + Cloud(cloudPos, cloudSize, lengths, true);
      SunUnderCloud(img) && HasSunLine(img)
  {
    var sun := Sun(sunPos, sunSize, d);
    var cloud := Cloud(cloudPos, cloudSize, lengths, true);
    SunLines(sunPos, sunSize, d);
    FilledCloudShape(cloudPos, cloudSize, lengths);
    var img := sun + cloud;
    assert img[..12] == sun && img[12..] == cloud;
    assert img[0] == sun[0];
  }

  lemma TwoClouds(back: Point, front: Point, size: int8, lengths: Fraction -> int8)
    ensures var img := Cloud(back, size, lengths, true) + Cloud(front, size, lengths, true);
      TwoFilledClouds(img) && !HasSunLine(img)
  {
    var b := Cloud(back, size, lengths, true);
    var f := Cloud(front, size, lengths, true);
    FilledCloudShape(back, size, lengths);
    FilledCloudShape(front, size, lengths);
    var img := b + f;
    assert img[..17] == b && img[17..] == f;
    forall i | 0 <= i < |img| ensures !(img[i].Line? && img[i].stroke == SunStroke) {
      if i < 17 {
        assert img[i] == b[i];
      } else {
        assert img[i] == f[i - 17];
      }
    }
  }

  /** The partly cloudy icon: the full-size sun under a smaller cloud. */
  lemma PartlyCloudyLayers(pos: Point, size: int8, m: IconMetrics)
    requires GapFits(size, m.sun)
    ensures SunUnderCloud(PartlyCloudy(pos, size, m)) && HasSunLine(PartlyCloudy(pos, size, m))
  {
    SunThenCloud(pos, size, m.sun, Point(pos.x, m.partlyCloudY), m.smallSize, m.smallCloud);
  }

  /** The mostly cloudy icon: a smaller sun under the full-size cloud. */
  lemma MostlyCloudyLayers(pos: Point, size: int8, m: IconMetrics)
    requires GapFits(m.smallSize, m.smallSun)
    ensures SunUnderCloud(MostlyCloudy(pos, size, m)) && HasSunLine(MostlyCloudy(pos, size, m))
  {
    SunThenCloud(Point(m.mostlySunX, pos.y), m.smallSize, m.smallSun, Point(pos.x, m.mostlyCloudY), size, m.cloud);
  }

  /** The very cloudy icon: two clouds and no sun. */
  lemma VeryCloudyLayers(pos: Point, size: int8, m: IconMetrics)
    ensures TwoFilledClouds(VeryCloudy(pos, size, m)) && !HasSunLine(VeryCloudy(pos, size, m))
  {
    TwoClouds(BackCloudPos(pos, m), FrontCloudPos(pos, m), ReducedSize(size, m), m.reducedCloud);
  }

  /** The sun icon: the sun alone. */
  lemma SunLayers(pos: Point, size: int8, d: SunLengths)
    requires GapFits(size, d)
    ensures IsSun(Sun(pos, size, d)) && HasSunLine(Sun(pos, size, d))
  {
    SunLines(pos, size, d);
    assert Sun(pos, size, d)[0].Line?;
  }

  /** The layering of the icon draw_score_image draws for each score: the sun alone;
      a sun with a cloud over it (partly and mostly cloudy); two clouds (very cloudy).
      An icon shows a sun exactly when the score is at least 3. */
  lemma IconLayers(score: int8, pos: Point, size: int8, m: IconMetrics)
    requires ImageFits(score, size, m)
    ensures var img := ScoreImage(score, pos, size, m);
      && (score >= 8 ==> IsSun(img))
      && (3 <= score < 8 ==> SunUnderCloud(img))
      && (score < 3 ==> TwoFilledClouds(img))
      && (HasSunLine(img) <==> score >= 3)
  {
    match IconFor(score)
    case SunIcon => SunLayers(pos, size, m.sun);
    case PartlyCloudyIcon => PartlyCloudyLayers(pos, size, m);
    case MostlyCloudyIcon => MostlyCloudyLayers(pos, size, m);
    case VeryCloudyIcon => VeryCloudyLayers(pos, size, m);
  }
}
