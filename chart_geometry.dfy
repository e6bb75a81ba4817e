/**
 * The drawing side of the North-Indian chart: thirteen construction points
 * inside a square of side `s`, the twelve house outlines built from them,
 * the label anchor of each house (the mean of its vertices), the two font
 * sizes, and the text chosen for each house label. Coordinates are exact
 * reals; nothing here is rounded.
 */
module ChartGeometry {
  import opened Wrappers
  import opened JsBuiltins
  import opened VedicChart

  /** The inset `m` of the outer square and the diamond's tips; fixed, not a parameter. */
  const Margin: real := 2.0

  datatype Point = Point(x: real, y: real)

  /**
   * The construction points: corners A-D (inset by the margin), edge
   * midpoints E-H (inset across their edge only), the centre O, and the
   * quarter points P1-P4 (not inset at all).
   */
  datatype Vertex = A | B | C | D | E | F | G | H | O | P1 | P2 | P3 | P4

  /**
   * The coordinates of a construction point for a chart of side `s`. Once the
   * chart is at least four margins wide, every point lies in the inset square.
   */
  function Locate(v: Vertex, s: real): (p: Point)
    ensures 4.0 * Margin <= s ==> Margin <= p.x <= s - Margin && Margin <= p.y <= s - Margin
  {
    match v
    case A => Point(Margin, Margin)
    case B => Point(s - Margin, Margin)
    case C => Point(s - Margin, s - Margin)
    case D => Point(Margin, s - Margin)
    case E => Point(s / 2.0, Margin)
    case F => Point(s - Margin, s / 2.0)
    case G => Point(s / 2.0, s - Margin)
    case H => Point(Margin, s / 2.0)
    case O => Point(s / 2.0, s / 2.0)
    case P1 => Point(s / 4.0, s / 4.0)
    case P2 => Point(3.0 * s / 4.0, s / 4.0)
    case P3 => Point(3.0 * s / 4.0, 3.0 * s / 4.0)
    case P4 => Point(s / 4.0, 3.0 * s / 4.0)
  }

  /** The twelve house outlines, house 1 (the top kite) first, then clockwise. */
  const HouseOutlines: seq<seq<Vertex>> := [
    [E, P2, O, P1], [B, E, P2], [B, P2, F],
    [P2, F, P3, O], [F, C, P3], [C, G, P3],
    [G, P3, O, P4], [D, G, P4], [D, P4, H],
    [P4, H, P1, O], [A, P1, H], [A, E, P1]
  ]

  /** An outline placed in a chart of side `s`. */
  function Place(outline: seq<Vertex>, s: real): (pts: seq<Point>)
    ensures |pts| == |outline|
    ensures forall j :: 0 <= j < |pts| ==> pts[j] == Locate(outline[j], s)
  {
    if outline == [] then [] else [Locate(outline[0], s)] + Place(outline[1..], s)
  }

  /**
   * `housePolygons[i]` for a chart of side `s`: a kite for houses 1, 4, 7 and
   * 10, a triangle otherwise, drawn inside the inset square.
   */
  function HousePolygon(s: real, i: nat): (pts: seq<Point>)
    requires i < 12
    ensures |pts| == (if i % 3 == 0 then 4 else 3)
    ensures 4.0 * Margin <= s ==>
      forall j :: 0 <= j < |pts| ==> Margin <= pts[j].x <= s - Margin && Margin <= pts[j].y <= s - Margin
  {
    Place(HouseOutlines[i], s)
  }

  // ----------------------------------------------------------- centroid

  /** `pts.reduce((sum, p) => sum + p[0], 0)`. */
  function SumX(pts: seq<Point>): real {
    if pts == [] then 0.0 else SumX(pts[..|pts| - 1]) + pts[|pts| - 1].x
  }

  /** `pts.reduce((sum, p) => sum + p[1], 0)`. */
  function SumY(pts: seq<Point>): real {
    if pts == [] then 0.0 else SumY(pts[..|pts| - 1]) + pts[|pts| - 1].y
  }

  /** The `x` coordinates of the points, in order. */
  function Xs(pts: seq<Point>): (xs: seq<real>)
    ensures |xs| == |pts| && forall j :: 0 <= j < |pts| ==> xs[j] == pts[j].x
  {
    if pts == [] then [] else Xs(pts[..|pts| - 1]) + [pts[|pts| - 1].x]
  }

  /** The `y` coordinates of the points, in order. */
  function Ys(pts: seq<Point>): (ys: seq<real>)
    ensures |ys| == |pts| && forall j :: 0 <= j < |pts| ==> ys[j] == pts[j].y
  {
    if pts == [] then [] else Ys(pts[..|pts| - 1]) + [pts[|pts| - 1].y]
  }

  /** The smallest of a non-empty list of reals. */
  function Least(xs: seq<real>): (m: real)
    requires xs != []
    ensures m in xs && forall j :: 0 <= j < |xs| ==> m <= xs[j]
  {
    if |xs| == 1 then xs[0]
    else
      var rest := Least(xs[1..]);
      assert forall j :: 1 <= j < |xs| ==> xs[j] == xs[1..][j - 1];
      if xs[0] <= rest then xs[0] else rest
  }

  /** The largest of a non-empty list of reals. */
  function Greatest(xs: seq<real>): (m: real)
    requires xs != []
    ensures m in xs && forall j :: 0 <= j < |xs| ==> xs[j] <= m
  {
    if |xs| == 1 then xs[0]
    else
      var rest := Greatest(xs[1..]);
      assert forall j :: 1 <= j < |xs| ==> xs[j] == xs[1..][j - 1];
      if rest <= xs[0] then xs[0] else rest
  }

  /**
   * `centroid(pts)`: the mean of the vertices, where the house label is
   * anchored. It lies in the bounding box of the vertices.
   */
  function Centroid(pts: seq<Point>): (c: Point)
    requires pts != []
    ensures exists j :: 0 <= j < |pts| && pts[j].x <= c.x
    ensures exists j :: 0 <= j < |pts| && c.x <= pts[j].x
    ensures exists j :: 0 <= j < |pts| && pts[j].y <= c.y
    ensures exists j :: 0 <= j < |pts| && c.y <= pts[j].y
  {
    MeanInBox(pts);
    Point(SumX(pts) / (|pts| as real), SumY(pts) / (|pts| as real))
  }

  /** The means of the coordinates lie between the least and the greatest vertex coordinate. */
  lemma MeanInBox(pts: seq<Point>)
    requires pts != []
    ensures var n := |pts| as real;
      Least(Xs(pts)) <= SumX(pts) / n <= Greatest(Xs(pts)) &&
      Least(Ys(pts)) <= SumY(pts) / n <= Greatest(Ys(pts))
  {
    var xs, ys := Xs(pts), Ys(pts);
    var lx, hx, ly, hy := Least(xs), Greatest(xs), Least(ys), Greatest(ys);
    forall j | 0 <= j < |pts|
      ensures lx <= pts[j].x <= hx && ly <= pts[j].y <= hy
    {
      assert xs[j] == pts[j].x && ys[j] == pts[j].y;
    }
    MeanXWithin(pts, lx, hx);
    MeanYWithin(pts, ly, hy);
  }

  /** The mean `x` coordinate lies in any band `lo..hi` that holds every `x`. */
  lemma MeanXWithin(pts: seq<Point>, lo: real, hi: real)
    requires pts != []
    requires forall j :: 0 <= j < |pts| ==> lo <= pts[j].x <= hi
    ensures lo <= SumX(pts) / (|pts| as real) <= hi
  {
    SumXWithin(pts, lo, hi);
    MeanWithin(SumX(pts), |pts| as real, lo, hi);
  }

  /** The mean `y` coordinate lies in any band `lo..hi` that holds every `y`. */
  lemma MeanYWithin(pts: seq<Point>, lo: real, hi: real)
    requires pts != []
    requires forall j :: 0 <= j < |pts| ==> lo <= pts[j].y <= hi
    ensures lo <= SumY(pts) / (|pts| as real) <= hi
  {
    SumYWithin(pts, lo, hi);
    MeanWithin(SumY(pts), |pts| as real, lo, hi);
  }

  /** A sum of `x` coordinates each within `lo..hi` is within `n * lo .. n * hi`. */
  lemma {:induction false} SumXWithin(pts: seq<Point>, lo: real, hi: real)
    requires forall j :: 0 <= j < |pts| ==> lo <= pts[j].x <= hi
    ensures (|pts| as real) * lo <= SumX(pts) <= (|pts| as real) * hi
  {
    if pts != [] {
      var init := pts[..|pts| - 1];
      SumXWithin(init, lo, hi);
      var k := |init| as real;
      assert (|pts| as real) * lo == k * lo + lo && (|pts| as real) * hi == k * hi + hi;
    }
  }

  /** A sum of `y` coordinates each within `lo..hi` is within `n * lo .. n * hi`. */
  lemma {:induction false} SumYWithin(pts: seq<Point>, lo: real, hi: real)
    requires forall j :: 0 <= j < |pts| ==> lo <= pts[j].y <= hi
    ensures (|pts| as real) * lo <= SumY(pts) <= (|pts| as real) * hi
  {
    if pts != [] {
      var init := pts[..|pts| - 1];
      SumYWithin(init, lo, hi);
      var k := |init| as real;
      assert (|pts| as real) * lo == k * lo + lo && (|pts| as real) * hi == k * hi + hi;
    }
  }

  /** The centroid lies in any square band `lo..hi` that holds all the vertices. */
  lemma CentroidWithin(pts: seq<Point>, lo: real, hi: real)
    requires pts != []
    requires forall j :: 0 <= j < |pts| ==> lo <= pts[j].x <= hi && lo <= pts[j].y <= hi
    ensures lo <= Centroid(pts).x <= hi && lo <= Centroid(pts).y <= hi
  {
    MeanXWithin(pts, lo, hi);
    MeanYWithin(pts, lo, hi);
  }

  /** A sum of `n` values each within `lo..hi`, divided by `n`, stays within `lo..hi`. */
  lemma MeanWithin(sum: real, n: real, lo: real, hi: real)
    requires n > 0.0 && n * lo <= sum <= n * hi
    ensures lo <= sum / n <= hi
  {
  }

  /** The centroid of a triangle, written out. */
  lemma CentroidOfThree(p: Point, q: Point, r: Point)
    ensures Centroid([p, q, r]) == Point((p.x + q.x + r.x) / 3.0, (p.y + q.y + r.y) / 3.0)
  {
    SumsOfThree(p, q, r);
  }

  lemma SumsOfThree(p: Point, q: Point, r: Point)
    ensures SumX([p, q, r]) == p.x + q.x + r.x && SumY([p, q, r]) == p.y + q.y + r.y
  {
    assert [p, q, r][..2] == [p, q] && [p, q][..1] == [p] && [p][..0] == [];
    assert SumX([p]) == p.x && SumY([p]) == p.y;
    assert SumX([p, q]) == p.x + q.x && SumY([p, q]) == p.y + q.y;
  }

  /** The centroid of a quadrilateral, written out. */
  lemma CentroidOfFour(p: Point, q: Point, r: Point, t: Point)
    ensures Centroid([p, q, r, t]) ==
      Point((p.x + q.x + r.x + t.x) / 4.0, (p.y + q.y + r.y + t.y) / 4.0)
  {
    assert [p, q, r, t][..3] == [p, q, r];
    SumsOfThree(p, q, r);
  }

  // ------------------------------------------------------------ properties

  /** The kites (houses 1, 4, 7, 10) have four vertices, around the centre; the others are triangles. */
  lemma OutlineShapes(i: nat)
    requires i < 12
    ensures |HouseOutlines[i]| == (if i % 3 == 0 then 4 else 3)
    ensures O in HouseOutlines[i] <==> i % 3 == 0
  {
  }

  /** Every house draws on four distinct construction points (kites) or three (triangles). */
  lemma OutlinesHaveDistinctVertices(i: nat)
    requires i < 12
    ensures forall j, k :: 0 <= j < k < |HouseOutlines[i]| ==> HouseOutlines[i][j] != HouseOutlines[i][k]
  {
  }

  /** The corners and midpoints lie on the inset border; the centre and the quarter points do not. */
  lemma BorderPoints(v: Vertex, s: real)
    requires s > 8.0
    ensures var p := Locate(v, s);
      (p.x == Margin || p.x == s - Margin || p.y == Margin || p.y == s - Margin)
      <==> v in {A, B, C, D, E, F, G, H}
  {
  }

  /** For a chart larger than 8 units the thirteen construction points are pairwise distinct. */
  lemma PointsDistinct(v: Vertex, w: Vertex, s: real)
    requires s > 8.0 && v != w
    ensures Locate(v, s) != Locate(w, s)
  {
  }

  /** At exactly 8 units the corner A coincides with the quarter point P1: the figure degenerates. */
  lemma DegenerateAtEight()
    ensures Locate(A, 8.0) == Locate(P1, 8.0)
  {
  }

  /**
   * The quarter points lie on the diagonals A-C and B-D, but half a margin
   * outside the inner diamond: the diamond edge E-H is the line
   * x + y = s/2 + m, while P1 has x + y = s/2.
   */
  lemma QuarterPointsOffDiamond(s: real)
    ensures Locate(P1, s).x == Locate(P1, s).y
    ensures Locate(P1, s).x + Locate(P1, s).y + Margin ==
            Locate(E, s).x + Locate(E, s).y
    ensures Locate(H, s).x + Locate(H, s).y == Locate(E, s).x + Locate(E, s).y
  {
  }

  /** Turning the chart half-way round about its centre. */
  function Reflect(p: Point, s: real): Point {
    Point(s - p.x, s - p.y)
  }

  /** Mirroring the chart about its vertical axis. */
  function MirrorX(p: Point, s: real): Point {
    Point(s - p.x, p.y)
  }

  /** The label anchor of house `i + 1`, computed in closed form. */
  function LabelAnchor(s: real, i: nat): (c: Point)
    requires i < 12
  {
    Centroid(HousePolygon(s, i))
  }

  /**
   * The label anchors in closed form, from the vertex coordinates: the
   * kites' anchors sit on the chart's axes, a margin's quarter in from the
   * centre line of the square's half.
   */
  function AnchorTable(s: real, i: nat): Point
    requires i < 12
  {
    var m := Margin;
    if i == 0 then Point(s / 2.0, (s + m) / 4.0)
    else if i == 1 then Point((9.0 * s / 4.0 - m) / 3.0, (s / 4.0 + 2.0 * m) / 3.0)
    else if i == 2 then Point((11.0 * s / 4.0 - 2.0 * m) / 3.0, (3.0 * s / 4.0 + m) / 3.0)
    else if i == 3 then Point((3.0 * s - m) / 4.0, s / 2.0)
    else if i == 4 then Point((11.0 * s / 4.0 - 2.0 * m) / 3.0, (9.0 * s / 4.0 - m) / 3.0)
    else if i == 5 then Point((9.0 * s / 4.0 - m) / 3.0, (11.0 * s / 4.0 - 2.0 * m) / 3.0)
    else if i == 6 then Point(s / 2.0, (3.0 * s - m) / 4.0)
    else if i == 7 then Point((3.0 * s / 4.0 + m) / 3.0, (11.0 * s / 4.0 - 2.0 * m) / 3.0)
    else if i == 8 then Point((s / 4.0 + 2.0 * m) / 3.0, (9.0 * s / 4.0 - m) / 3.0)
    else if i == 9 then Point((s + m) / 4.0, s / 2.0)
    else if i == 10 then Point((s / 4.0 + 2.0 * m) / 3.0, (3.0 * s / 4.0 + m) / 3.0)
    else Point((3.0 * s / 4.0 + m) / 3.0, (s / 4.0 + 2.0 * m) / 3.0)
  }

  /** The centroid of each house outline agrees with the closed form. */
  lemma LabelAnchorValue(s: real, i: nat)
    requires i < 12
    ensures LabelAnchor(s, i) == AnchorTable(s, i)
  {
    if i % 3 == 0 {
      KiteAnchorValue(s, i);
    } else {
      TriangleAnchorValue(s, i);
    }
  }

  /** The anchors of the kites, houses 1, 4, 7 and 10. */
  lemma KiteAnchorValue(s: real, i: nat)
    requires i < 12 && i % 3 == 0
    ensures LabelAnchor(s, i) == AnchorTable(s, i)
  {
    var pts := HousePolygon(s, i);
    assert pts == [pts[0], pts[1], pts[2], pts[3]];
    if i < 6 {
      UpperKiteAnchor(s, i, pts);
    } else {
      LowerKiteAnchor(s, i, pts);
    }
  }

  lemma UpperKiteAnchor(s: real, i: nat, pts: seq<Point>)
    requires i < 6 && i % 3 == 0 && pts == HousePolygon(s, i) && |pts| == 4
    ensures Centroid([pts[0], pts[1], pts[2], pts[3]]) == AnchorTable(s, i)
  {
    CentroidOfFour(pts[0], pts[1], pts[2], pts[3]);
  }

  lemma LowerKiteAnchor(s: real, i: nat, pts: seq<Point>)
    requires 6 <= i < 12 && i % 3 == 0 && pts == HousePolygon(s, i) && |pts| == 4
    ensures Centroid([pts[0], pts[1], pts[2], pts[3]]) == AnchorTable(s, i)
  {
    CentroidOfFour(pts[0], pts[1], pts[2], pts[3]);
  }

  /** The anchors of the triangles. */
  lemma TriangleAnchorValue(s: real, i: nat)
    requires i < 12 && i % 3 != 0
    ensures LabelAnchor(s, i) == AnchorTable(s, i)
  {
    var pts := HousePolygon(s, i);
    assert pts == [pts[0], pts[1], pts[2]];
    if i < 6 {
      UpperTriangleAnchor(s, i, pts);
    } else {
      LowerTriangleAnchor(s, i, pts);
    }
  }

  lemma UpperTriangleAnchor(s: real, i: nat, pts: seq<Point>)
    requires i < 6 && i % 3 != 0 && pts == HousePolygon(s, i) && |pts| == 3
    ensures Centroid([pts[0], pts[1], pts[2]]) == AnchorTable(s, i)
  {
    CentroidOfThree(pts[0], pts[1], pts[2]);
  }

  lemma LowerTriangleAnchor(s: real, i: nat, pts: seq<Point>)
    requires 6 <= i < 12 && i % 3 != 0 && pts == HousePolygon(s, i) && |pts| == 3
    ensures Centroid([pts[0], pts[1], pts[2]]) == AnchorTable(s, i)
  {
    CentroidOfThree(pts[0], pts[1], pts[2]);
  }

  /** The closed-form anchors are symmetric under the half turn. */
  lemma AnchorTableHalfTurn(s: real, i: nat)
    requires i < 12
    ensures AnchorTable(s, (i + 6) % 12) == Reflect(AnchorTable(s, i), s)
  {
    if i < 6 {
      assert (i + 6) % 12 == i + 6;
    } else {
      assert (i + 6) % 12 == i - 6;
    }
  }

  /** The closed-form anchors are symmetric under the left-right mirror. */
  lemma AnchorTableMirror(s: real, i: nat)
    requires i < 12
    ensures AnchorTable(s, (12 - i) % 12) == MirrorX(AnchorTable(s, i), s)
  {
    if i == 0 {
      assert (12 - i) % 12 == 0;
    } else {
      assert (12 - i) % 12 == 12 - i;
    }
  }

  /** House `i + 7` is house `i + 1` turned half-way round: their label anchors are reflections. */
  lemma OppositeHousesSymmetric(s: real, i: nat)
    requires i < 12
    ensures LabelAnchor(s, (i + 6) % 12) == Reflect(LabelAnchor(s, i), s)
  {
    LabelAnchorValue(s, i);
    LabelAnchorValue(s, (i + 6) % 12);
    AnchorTableHalfTurn(s, i);
  }

  /** The chart is mirror-symmetric left to right: house `i + 1` faces house `13 - i` (houses 1 and 7 face themselves). */
  lemma MirrorHousesSymmetric(s: real, i: nat)
    requires i < 12
    ensures LabelAnchor(s, (12 - i) % 12) == MirrorX(LabelAnchor(s, i), s)
  {
    LabelAnchorValue(s, i);
    LabelAnchorValue(s, (12 - i) % 12);
    AnchorTableMirror(s, i);
  }

  /** For a chart of at least 8 units every label anchor lies inside the inset frame. */
  lemma LabelAnchorInsideFrame(s: real, i: nat)
    requires s >= 8.0 && i < 12
    ensures Margin <= LabelAnchor(s, i).x <= s - Margin
    ensures Margin <= LabelAnchor(s, i).y <= s - Margin
  {
    var pts := HousePolygon(s, i);
    forall j | 0 <= j < |pts|
      ensures Margin <= pts[j].x <= s - Margin && Margin <= pts[j].y <= s - Margin
    {
      var v := HouseOutlines[i][j];
      assert pts[j] == Locate(v, s);
    }
    CentroidWithin(pts, Margin, s - Margin);
  }

  // ----------------------------------------------------------------- fonts

  /** `Math.max(8, s / 30)`: the sign font size. */
  function FontSize(s: real): (f: real)
    ensures f >= 8.0 && f >= s / 30.0
    ensures f == 8.0 || f == s / 30.0
  {
    if s / 30.0 > 8.0 then s / 30.0 else 8.0
  }

  /** `Math.max(7, s / 35)`: the occupant font size. */
  function PlanetFontSize(s: real): (f: real)
    ensures f >= 7.0 && f >= s / 35.0
    ensures f == 7.0 || f == s / 35.0
  {
    if s / 35.0 > 7.0 then s / 35.0 else 7.0
  }

  /** The occupant line is never set larger than the sign, whatever the chart size. */
  lemma PlanetFontNotLarger(s: real)
    ensures PlanetFontSize(s) <= FontSize(s)
  {
  }

  /** Below 240 units the sign font stays at its floor; from 240 on it grows linearly. */
  lemma FontSizeRegimes(s: real)
    ensures s <= 240.0 ==> FontSize(s) == 8.0
    ensures s >= 240.0 ==> FontSize(s) == s / 30.0
    ensures s <= 245.0 ==> PlanetFontSize(s) == 7.0
    ensures s >= 245.0 ==> PlanetFontSize(s) == s / 35.0
  {
  }

  // ---------------------------------------------------------------- labels

  /** What the label code produces for polygon `i`. */
  datatype Label = Label(
    x: real,
    number: int, numberY: real,
    signText: string, signY: real, highlighted: bool,
    occupantText: Option<string>, occupantY: real)

  /**
   * `Nothing` where `houses[i]` is missing (the code returns null), `Throws`
   * where the sign is `undefined` (`undefined.slice(0, 3)` raises a
   * TypeError), else the drawn label.
   */
  datatype LabelOutcome = Nothing | Throws | Drawn(content: Label)

  /**
   * `SIGN_ABBR[sign] ?? sign.slice(0, 3)` for a defined sign. Every entry of
   * the table is its key's first three letters, so the two ways agree.
   */
  function SignAbbreviation(sign: string): (r: string)
    ensures r == Prefix(sign, 3)
  {
    if sign in SignAbbr then SignAbbr[sign] else Prefix(sign, 3)
  }

  /** The label of polygon `i` for the house list `houses`, in a chart of side `s`. */
  function HouseLabel(houses: seq<House>, i: nat, s: real): (r: LabelOutcome)
    requires i < 12
    ensures r.Nothing? <==> i >= |houses|
    ensures r.Throws? <==> i < |houses| && houses[i].sign.None?
  {
    if i >= |houses| then Nothing
    else
      var house := houses[i];
      match house.sign
      case None => Throws
      case Some(sign) =>
        var abbr := SignAbbreviation(sign);
        var occupants := Join(house.planets, " ");
        var anchor := LabelAnchor(s, i);
        var f := FontSize(s);
        Drawn(Label(
          anchor.x,
          house.house, anchor.y - f * 0.8,
          if i == 0 then abbr + "*" else abbr, anchor.y + f * 0.3, i == 0,
          if |occupants| > 0 then Some(occupants) else None, anchor.y + f * 1.4))
  }

  /** The joined occupant text is empty exactly when there is no occupant or a single empty one. */
  lemma {:induction false} JoinEmpty(parts: seq<string>, sep: string)
    requires sep != ""
    ensures Join(parts, sep) == "" <==> parts == [] || (|parts| == 1 && parts[0] == "")
  {
    if |parts| > 1 {
      assert |Join(parts, sep)| >= |sep|;
    }
  }

  /**
   * A drawn label: the house number, the sign (only polygon 0 is starred
   * and emphasised) and, when the joined occupants are non-empty, the
   * occupant line, stacked top to bottom at the house's anchor.
   */
  lemma DrawnLabel(houses: seq<House>, i: nat, s: real)
    requires i < |houses| && i < 12 && houses[i].sign.Some?
    ensures var r := HouseLabel(houses, i, s);
      r.Drawn? &&
      r.content.number == houses[i].house &&
      r.content.x == LabelAnchor(s, i).x &&
      r.content.signText == Prefix(houses[i].sign.value, 3) + (if i == 0 then "*" else "") &&
      r.content.highlighted == (i == 0) &&
      (r.content.occupantText.Some? <==> houses[i].planets != [] && houses[i].planets != [""]) &&
      (r.content.occupantText.Some? ==> r.content.occupantText.value == Join(houses[i].planets, " ")) &&
      r.content.numberY < r.content.signY < r.content.occupantY
  {
    JoinEmpty(houses[i].planets, " ");
  }

  /** With a recognised Ascendant all twelve labels of the chart are drawn, numbered 1..12. */
  lemma RecognisedAscendantDrawsAll(planets: seq<Planet>, i: nat, s: real)
    requires AscIndex(planets) >= 0 && i < 12
    ensures HouseLabel(Houses(planets), i, s).Drawn?
    ensures HouseLabel(Houses(planets), i, s).content.number == i + 1
  {
    SignsCycleFromAscendant(planets);
  }

  /** With an unrecognised Ascendant sign the first label throws, so the chart cannot be drawn. */
  lemma UnrecognisedAscendantThrows(planets: seq<Planet>, s: real)
    requires AscendantSign(planets) !in ZodiacSigns
    ensures HouseLabel(Houses(planets), 0, s).Throws?
  {
    UnrecognisedAscendantSigns(planets);
  }
}
