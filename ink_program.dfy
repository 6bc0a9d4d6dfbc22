/**
 * The drawing program of an ink annotation's normal appearance, as a pure
 * function of the annotation and its resolved border, and the properties
 * of that program.
 *
 * Ink annotations are those of section 12.5.6.13 of ISO 32000-1; the
 * operators are the path-construction and path-painting operators of
 * section 8.5.2 and the graphics-state operators of section 8.4.4.
 */
module InkProgram {
  import opened Wrappers
  import opened Floats

  /** A stroking colour: only its components matter here. */
  datatype Color = Color(components: seq<Float>)

  /** The `(width, dashArray)` pair that `AnnotationBorder` resolves. */
  datatype Border = Border(width: Float, dashArray: Option<seq<Float>>)

  /** What the generator reads from the ink annotation. */
  datatype InkAnnotation = InkAnnotation(
    color: Option<Color>,
    constantOpacity: Float,
    inkList: seq<seq<Float>>)

  /** One content-stream operator. */
  datatype Op =
    | SetAlpha(alpha: Float)                        // gs with a constant alpha
    | SetStrokeColor(color: Color)                  // RG, G, K or SC
    | SetDash(dashArray: seq<Float>, phase: Float)  // d
    | SetWidth(width: Float)                        // w
    | MoveTo(x: Float, y: Float)                    // m
    | LineTo(x: Float, y: Float)                    // l
    | Stroke                                        // S
  {
    /** Path construction and painting, as opposed to graphics state. */
    predicate IsPathOp()
    {
      MoveTo? || LineTo? || Stroke?
    }
  }

  /**
   * The guard of the generator: something is drawn only for a colour with
   * at least one component and a width that `Float.compare` does not find
   * equal to 0.
   */
  predicate ShouldDraw(color: Option<Color>, width: Float)
  {
    color.Some? && |color.value.components| != 0 && Compare(width, PositiveZero) != 0
  }

  /** The graphics-state operators that precede every path. */
  function StateOps(opacity: Float, color: Color, b: Border): seq<Op>
  {
    [SetAlpha(opacity), SetStrokeColor(color)]
    + (if b.dashArray.Some? then [SetDash(b.dashArray.value, PositiveZero)] else [])
    + [SetWidth(b.width)]
  }

  /** How many graphics-state operators precede the paths. */
  function StateCount(b: Border): nat
  {
    if b.dashArray.Some? then 4 else 3
  }

  /** The number of points in a flat coordinate array (Java's truncating `/ 2`). */
  function PointCount(p: seq<Float>): (n: nat)
    ensures 2 * n <= |p| < 2 * n + 2
  {
    |p| / 2
  }

  /** The operator for point `i` of a path: a move for the first, a line otherwise. */
  function PointOp(p: seq<Float>, i: nat): Op
    requires i < PointCount(p)
  {
    if i == 0 then MoveTo(p[0], p[1]) else LineTo(p[2 * i], p[2 * i + 1])
  }

  /** The operators for the first `n` points of a path. */
  function PointOps(p: seq<Float>, n: nat): (r: seq<Op>)
    requires n <= PointCount(p)
    ensures |r| == n
    decreases n
  {
    if n == 0 then [] else PointOps(p, n - 1) + [PointOp(p, n - 1)]
  }

  /** The operators for one coordinate array: its points, then one stroke. */
  function PathOps(p: seq<Float>): seq<Op>
  {
    PointOps(p, PointCount(p)) + [Stroke]
  }

  /** The operators for the first `j` coordinate arrays of an ink list, in list order. */
  function PathsOps(ink: seq<seq<Float>>, j: nat): seq<Op>
    requires j <= |ink|
    decreases j
  {
    if j == 0 then [] else PathsOps(ink, j - 1) + PathOps(ink[j - 1])
  }

  /** The whole drawing program of the normal appearance. */
  function Program(a: InkAnnotation, b: Border): seq<Op>
  {
    if ShouldDraw(a.color, b.width) then
      StateOps(a.constantOpacity, a.color.value, b) + PathsOps(a.inkList, |a.inkList|)
    else []
  }

  // ---------------------------------------------------------------------
  // Reference quantities the properties are stated with

  /** The number of operators the first `j` paths contribute: points plus a stroke each. */
  function PathsBudget(ink: seq<seq<Float>>, j: nat): nat
    requires j <= |ink|
    decreases j
  {
    if j == 0 then 0 else PathsBudget(ink, j - 1) + PointCount(ink[j - 1]) + 1
  }

  /** The number of stroke operators in a program. */
  function Strokes(ops: seq<Op>): nat
    decreases |ops|
  {
    if ops == [] then 0
    else Strokes(ops[..|ops| - 1]) + (if ops[|ops| - 1].Stroke? then 1 else 0)
  }

  /** The coordinates an operator draws through. */
  function OpCoords(op: Op): seq<Float>
  {
    match op
    case MoveTo(x, y) => [x, y]
    case LineTo(x, y) => [x, y]
    case _ => []
  }

  /** The vertices the first `j` operators of a program draw, flattened in order. */
  function Coords(ops: seq<Op>, j: nat): seq<Float>
    requires j <= |ops|
    decreases j
  {
    if j == 0 then [] else Coords(ops, j - 1) + OpCoords(ops[j - 1])
  }

  // ---------------------------------------------------------------------
  // Early exit

  /**
   * Nothing is drawn exactly when the colour is missing, has no components,
   * or the width is +0.0. A width of -0.0 or NaN passes the guard.
   */
  lemma EarlyExit(a: InkAnnotation, b: Border)
    ensures Program(a, b) == [] <==>
      a.color.None? || |a.color.value.components| == 0 || b.width == PositiveZero
  {
    CompareWithZero(b.width);
  }

  // ---------------------------------------------------------------------
  // The graphics-state prefix

  /** Operators of a single path's points are moves and lines. */
  lemma {:induction false} PointOpsArePathOps(p: seq<Float>, n: nat)
    requires n <= PointCount(p)
    ensures forall k :: 0 <= k < n ==> PointOps(p, n)[k].IsPathOp() && !PointOps(p, n)[k].Stroke?
    decreases n
  {
    if n > 0 {
      PointOpsArePathOps(p, n - 1);
    }
  }

  /** Operators of the path list are path operators. */
  lemma {:induction false} PathsOpsArePathOps(ink: seq<seq<Float>>, j: nat)
    requires j <= |ink|
    ensures forall k :: 0 <= k < |PathsOps(ink, j)| ==> PathsOps(ink, j)[k].IsPathOp()
    decreases j
  {
    if j > 0 {
      var p := ink[j - 1];
      PathsOpsArePathOps(ink, j - 1);
      PointOpsArePathOps(p, PointCount(p));
    }
  }

  /** The graphics-state operators followed by any run of path operators. */
  lemma StatePrefix(opacity: Float, color: Color, b: Border, t: seq<Op>)
    requires forall k :: 0 <= k < |t| ==> t[k].IsPathOp()
    ensures var r := StateOps(opacity, color, b) + t; var n := StateCount(b);
      && |r| >= n
      && r[0] == SetAlpha(opacity)
      && r[1] == SetStrokeColor(color)
      && r[n - 1] == SetWidth(b.width)
      && (b.dashArray.Some? ==> r[2] == SetDash(b.dashArray.value, PositiveZero))
      && (forall k :: 0 <= k < n ==> !r[k].IsPathOp())
      && (forall k :: n <= k < |r| ==> r[k].IsPathOp())
      && (forall k :: 0 <= k < |r| && r[k].SetAlpha? ==> k == 0)
      && (forall k :: 0 <= k < |r| && r[k].SetStrokeColor? ==> k == 1)
      && (forall k :: 0 <= k < |r| && r[k].SetDash? ==> k == 2 && b.dashArray.Some?)
      && (forall k :: 0 <= k < |r| && r[k].SetWidth? ==> k == n - 1)
  {
    var s := StateOps(opacity, color, b);
    var r := s + t;
    var n := StateCount(b);
    if b.dashArray.Some? {
      assert s == [SetAlpha(opacity), SetStrokeColor(color),
                   SetDash(b.dashArray.value, PositiveZero), SetWidth(b.width)];
    } else {
      assert s == [SetAlpha(opacity), SetStrokeColor(color), SetWidth(b.width)];
    }
    forall k | n <= k < |r|
      ensures r[k].IsPathOp()
    {
      assert r[k] == t[k - n];
    }
  }

  /**
   * When something is drawn, the program opens with set-alpha(opacity),
   * set-stroke-color(color), the dash when there is one, and
   * set-width(width), in that order; every graphics-state operator comes
   * before every path operator, and each state operator occurs once.
   */
  lemma StateOpsComeFirst(a: InkAnnotation, b: Border)
    requires ShouldDraw(a.color, b.width)
    ensures var r := Program(a, b); var n := StateCount(b);
      && |r| >= n
      && r[0] == SetAlpha(a.constantOpacity)
      && r[1] == SetStrokeColor(a.color.value)
      && r[n - 1] == SetWidth(b.width)
      && (forall k :: 0 <= k < n ==> !r[k].IsPathOp())
      && (forall k :: n <= k < |r| ==> r[k].IsPathOp())
      && (forall k :: 0 <= k < |r| && r[k].SetAlpha? ==> k == 0)
      && (forall k :: 0 <= k < |r| && r[k].SetStrokeColor? ==> k == 1)
      && (forall k :: 0 <= k < |r| && r[k].SetWidth? ==> k == n - 1)
  {
    var t := PathsOps(a.inkList, |a.inkList|);
    PathsOpsArePathOps(a.inkList, |a.inkList|);
    StatePrefix(a.constantOpacity, a.color.value, b, t);
  }

  /**
   * A set-dash operator, with phase 0, is emitted if and only if the dash
   * array is present, whatever its length; it then directly follows the
   * stroke colour.
   */
  lemma DashIff(a: InkAnnotation, b: Border)
    requires ShouldDraw(a.color, b.width)
    ensures var r := Program(a, b);
      && ((exists k :: 0 <= k < |r| && r[k].SetDash?) <==> b.dashArray.Some?)
      && (b.dashArray.Some? ==> r[2] == SetDash(b.dashArray.value, PositiveZero))
      && (forall k :: 0 <= k < |r| && r[k].SetDash? ==> k == 2)
  {
    var r := Program(a, b);
    var t := PathsOps(a.inkList, |a.inkList|);
    PathsOpsArePathOps(a.inkList, |a.inkList|);
    StatePrefix(a.constantOpacity, a.color.value, b, t);
    if b.dashArray.Some? {
      assert r[2].SetDash?;
    }
  }

  // ---------------------------------------------------------------------
  // One path

  /** Point `i` of the first `n` is emitted at position `i`. */
  lemma {:induction false} PointOpsAt(p: seq<Float>, n: nat, i: nat)
    requires n <= PointCount(p) && i < n
    ensures PointOps(p, n)[i] == PointOp(p, i)
    decreases n
  {
    if i < n - 1 {
      PointOpsAt(p, n - 1, i);
    }
  }

  /**
   * A path of n points is one move to (p[0], p[1]), then lines to
   * (p[2i], p[2i+1]) for i = 1 .. n-1 in index order, then one stroke; a
   * path of no points is a lone stroke.
   */
  lemma PathOpsShape(p: seq<Float>)
    ensures var n := |p| / 2; var r := PathOps(p);
      && |r| == n + 1
      && r[n] == Stroke
      && (n >= 1 ==> r[0] == MoveTo(p[0], p[1]))
      && (forall i :: 1 <= i < n ==> r[i] == LineTo(p[2 * i], p[2 * i + 1]))
      && (forall i :: 0 <= i < n ==> !r[i].Stroke?)
      && (forall i :: 0 <= i < |r| && r[i].MoveTo? ==> i == 0)
      && (n == 0 ==> r == [Stroke])
  {
    var n := PointCount(p);
    var r := PathOps(p);
    forall i | 0 <= i < n
      ensures r[i] == PointOp(p, i)
    {
      PointOpsAt(p, n, i);
    }
  }

  /** Appending one coordinate to an even-length array leaves the points alone. */
  lemma {:induction false} PointOpsIgnoreTail(p: seq<Float>, x: Float, n: nat)
    requires |p| % 2 == 0 && n <= PointCount(p)
    ensures PointOps(p + [x], n) == PointOps(p, n)
    decreases n
  {
    if n > 0 {
      PointOpsIgnoreTail(p, x, n - 1);
      assert PointOp(p + [x], n - 1) == PointOp(p, n - 1);
    }
  }

  /** A trailing odd coordinate is never emitted. */
  lemma PathOpsDropOddCoordinate(p: seq<Float>, x: Float)
    requires |p| % 2 == 0
    ensures PathOps(p + [x]) == PathOps(p)
  {
    assert PointCount(p + [x]) == PointCount(p);
    PointOpsIgnoreTail(p, x, PointCount(p));
  }

  /** Two programs that agree on their first `j` operators draw the same vertices with them. */
  lemma {:induction false} CoordsAgree(x: seq<Op>, y: seq<Op>, j: nat)
    requires j <= |x| && j <= |y|
    requires forall k :: 0 <= k < j ==> x[k] == y[k]
    ensures Coords(x, j) == Coords(y, j)
    decreases j
  {
    if j > 0 {
      CoordsAgree(x, y, j - 1);
    }
  }

  /** Point `n - 1` adds its two coordinates to the vertices drawn. */
  lemma PointOpsCoordsStep(p: seq<Float>, n: nat)
    requires 0 < n <= PointCount(p)
    ensures Coords(PointOps(p, n), n) == Coords(PointOps(p, n - 1), n - 1) + [p[2 * n - 2], p[2 * n - 1]]
  {
    var prev, op := PointOps(p, n - 1), PointOp(p, n - 1);
    assert PointOps(p, n) == prev + [op];
    CoordsAgree(prev + [op], prev, n - 1);
  }

  /** The vertices of the first `n` points are the first `2n` coordinates. */
  lemma {:induction false} PointOpsCoords(p: seq<Float>, n: nat)
    requires n <= PointCount(p)
    ensures Coords(PointOps(p, n), n) == p[..2 * n]
    decreases n
  {
    if n > 0 {
      var k := 2 * n - 2;
      PointOpsCoords(p, n - 1);
      PointOpsCoordsStep(p, n);
      assert p[..k + 2] == p[..k] + [p[k], p[k + 1]];
    }
  }

  /**
   * The polyline a path draws runs through the array's coordinate pairs in
   * order: all of them, except a trailing odd coordinate.
   */
  lemma PathOpsCoords(p: seq<Float>)
    ensures var r := PathOps(p); Coords(r, |r|) == p[..PointCount(p) * 2]
  {
    var n := PointCount(p);
    var points := PointOps(p, n);
    PointOpsCoords(p, n);
    CoordsAgree(points + [Stroke], points, n);
  }

  // ---------------------------------------------------------------------
  // The path list

  /** Two lists that agree on their first `i` paths give the same operators for them. */
  lemma {:induction false} PathsOpsAgree(x: seq<seq<Float>>, y: seq<seq<Float>>, i: nat)
    requires i <= |x| && i <= |y|
    requires forall k :: 0 <= k < i ==> x[k] == y[k]
    ensures PathsOps(x, i) == PathsOps(y, i)
    decreases i
  {
    if i > 0 {
      PathsOpsAgree(x, y, i - 1);
    }
  }

  /** The operators of two lists of paths are those of each, in order. */
  lemma {:induction false} PathsOpsAppend(x: seq<seq<Float>>, y: seq<seq<Float>>, m: nat)
    requires m <= |y|
    ensures PathsOps(x + y, |x| + m) == PathsOps(x, |x|) + PathsOps(y, m)
    decreases m
  {
    if m == 0 {
      PathsOpsAgree(x + y, x, |x|);
    } else {
      var a, b, c := PathsOps(x, |x|), PathsOps(y, m - 1), PathOps(y[m - 1]);
      PathsOpsAppend(x, y, m - 1);
      assert (x + y)[|x| + m - 1] == y[m - 1];
      assert PathsOps(x + y, |x| + m) == (a + b) + c;
      assert PathsOps(y, m) == b + c;
      assert (a + b) + c == a + (b + c);
    }
  }

  /**
   * Paths are emitted in list order, each bracketed by its own operators:
   * path k's operators sit between those of the paths before and after it.
   */
  lemma PathsOpsSplit(ink: seq<seq<Float>>, k: nat)
    requires k < |ink|
    ensures PathsOps(ink, |ink|) ==
      PathsOps(ink, k) + PathOps(ink[k]) + PathsOps(ink[k + 1..], |ink| - k - 1)
  {
    var front, back := ink[..k + 1], ink[k + 1..];
    assert front + back == ink;
    PathsOpsAppend(front, back, |back|);
    PathsOpsAgree(front, ink, k);
  }

  /** The first `i` paths' operators are a prefix of the first `j` paths' operators. */
  lemma {:induction false} PathsOpsPrefix(ink: seq<seq<Float>>, i: nat, j: nat)
    requires i <= j <= |ink|
    ensures PathsOps(ink, i) <= PathsOps(ink, j)
    decreases j
  {
    if i < j {
      PathsOpsPrefix(ink, i, j - 1);
    }
  }

  /** The path list contributes, per path, its point count plus one operators. */
  lemma {:induction false} PathsOpsLength(ink: seq<seq<Float>>, j: nat)
    requires j <= |ink|
    ensures |PathsOps(ink, j)| == PathsBudget(ink, j)
    decreases j
  {
    if j > 0 {
      PathsOpsLength(ink, j - 1);
    }
  }

  /** Counting strokes distributes over appending one operator. */
  lemma StrokesSnoc(ops: seq<Op>, op: Op)
    ensures Strokes(ops + [op]) == Strokes(ops) + (if op.Stroke? then 1 else 0)
  {
    assert (ops + [op])[..|ops|] == ops;
  }

  /** The stroke count of a concatenation is the sum of the stroke counts. */
  lemma {:induction false} StrokesAppend(x: seq<Op>, y: seq<Op>)
    ensures Strokes(x + y) == Strokes(x) + Strokes(y)
    decreases |y|
  {
    if y == [] {
      assert x + y == x;
    } else {
      var y', last := y[..|y| - 1], y[|y| - 1];
      assert y == y' + [last];
      assert x + y == (x + y') + [last];
      StrokesAppend(x, y');
      StrokesSnoc(x + y', last);
    }
  }

  /** A program without a stroke operator has a stroke count of zero. */
  lemma {:induction false} NoStrokes(ops: seq<Op>)
    requires forall k :: 0 <= k < |ops| ==> !ops[k].Stroke?
    ensures Strokes(ops) == 0
    decreases |ops|
  {
    if ops != [] {
      NoStrokes(ops[..|ops| - 1]);
    }
  }

  /** The first `j` paths end in exactly one stroke each. */
  lemma {:induction false} PathsOpsStrokes(ink: seq<seq<Float>>, j: nat)
    requires j <= |ink|
    ensures Strokes(PathsOps(ink, j)) == j
    decreases j
  {
    if j > 0 {
      var p := ink[j - 1];
      PathsOpsStrokes(ink, j - 1);
      PointOpsArePathOps(p, PointCount(p));
      NoStrokes(PointOps(p, PointCount(p)));
      StrokesSnoc(PointOps(p, PointCount(p)), Stroke);
      StrokesAppend(PathsOps(ink, j - 1), PathOps(p));
    }
  }

  /**
   * The number of strokes equals the number of paths, and the program has
   * 3 operators, one more with a dash, plus n + 1 for every path of n points.
   */
  lemma ProgramCounts(a: InkAnnotation, b: Border)
    requires ShouldDraw(a.color, b.width)
    ensures Strokes(Program(a, b)) == |a.inkList|
    ensures |Program(a, b)| == 3 + (if b.dashArray.Some? then 1 else 0) + PathsBudget(a.inkList, |a.inkList|)
  {
    var s := StateOps(a.constantOpacity, a.color.value, b);
    var t := PathsOps(a.inkList, |a.inkList|);
    NoStrokes(s);
    PathsOpsStrokes(a.inkList, |a.inkList|);
    StrokesAppend(s, t);
    PathsOpsLength(a.inkList, |a.inkList|);
  }

  // ---------------------------------------------------------------------
  // Partial paths, as left by a write that fails

  /** The first `i` points of a path are a prefix of its first `n` points. */
  lemma {:induction false} PointOpsPrefix(p: seq<Float>, i: nat, n: nat)
    requires i <= n <= PointCount(p)
    ensures PointOps(p, i) <= PointOps(p, n)
    decreases n
  {
    if i < n {
      PointOpsPrefix(p, i, n - 1);
    }
  }

  // ---------------------------------------------------------------------
  // Worked examples

  /**
   * Black, opaque, width 2, no dash, one path through (0, 0), (10, 0) and
   * (10, 10): alpha, colour, width, one move, two lines and a stroke.
   */
  lemma ExampleOnePath()
    ensures var black := Color([Finite(0.0), Finite(0.0), Finite(0.0)]);
      var a := InkAnnotation(Some(black), Finite(1.0),
        [[Finite(0.0), Finite(0.0), Finite(10.0), Finite(0.0), Finite(10.0), Finite(10.0)]]);
      Program(a, Border(Finite(2.0), None)) ==
        [SetAlpha(Finite(1.0)), SetStrokeColor(black), SetWidth(Finite(2.0)),
         MoveTo(Finite(0.0), Finite(0.0)), LineTo(Finite(10.0), Finite(0.0)),
         LineTo(Finite(10.0), Finite(10.0)), Stroke]
  {
    var p := [Finite(0.0), Finite(0.0), Finite(10.0), Finite(0.0), Finite(10.0), Finite(10.0)];
    assert PointOps(p, 3) == [MoveTo(Finite(0.0), Finite(0.0)), LineTo(Finite(10.0), Finite(0.0)),
                              LineTo(Finite(10.0), Finite(10.0))];
  }

  /** An empty dash array is still emitted, and a path of one point is a move and a stroke. */
  lemma ExampleEmptyDashAndOnePoint()
    ensures var red := Color([Finite(1.0), Finite(0.0), Finite(0.0)]);
      var a := InkAnnotation(Some(red), Finite(0.5), [[Finite(3.0), Finite(4.0), Finite(5.0)]]);
      Program(a, Border(Finite(1.0), Some([]))) ==
        [SetAlpha(Finite(0.5)), SetStrokeColor(red), SetDash([], PositiveZero), SetWidth(Finite(1.0)),
         MoveTo(Finite(3.0), Finite(4.0)), Stroke]
  {
    var p := [Finite(3.0), Finite(4.0), Finite(5.0)];
    assert PointOps(p, 1) == [MoveTo(Finite(3.0), Finite(4.0))];
  }
}
