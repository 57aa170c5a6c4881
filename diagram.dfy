/**
 * The "Data Connections" diagram of the horizontal-scroll section: eight
 * lifestyle markers on the left, ten blood markers on the right, and one cubic
 * curve per link, drawn in a 100 x 100 SVG view box whose rows line up with
 * the two label columns.
 */
module Diagram {

  // ---------------------------------------------------------------------------
  // The data

  /** One lifestyle marker (by row) and the blood markers (by row) it links to. */
  datatype Connection = Connection(start: int, ends: seq<int>)

  const LifestyleMarkers: seq<string> := ["Sleep", "HRV", "RHR", "Steps", "Active", "Glucose", "Oxygen", "VO2"]

  const BloodMarkers: seq<string> := ["Cortisol", "HbA1c", "Iron", "Magnesium", "Hs-CRP", "Vit D", "Haemo", "Insulin", "RBC", "TSH"]

  const Connections: seq<Connection> := [
    Connection(0, [0, 1, 3]),
    Connection(1, [1, 4, 6]),
    Connection(2, [2, 3, 5]),
    Connection(3, [4, 7]),
    Connection(4, [6, 8]),
    Connection(5, [1, 7, 8]),
    Connection(6, [5, 9]),
    Connection(7, [0, 9])
  ]

  /** Every start names a lifestyle row and every end a blood-marker row. */
  predicate WellFormed(cs: seq<Connection>)
  {
    forall k :: 0 <= k < |cs| ==>
      && 0 <= cs[k].start < |LifestyleMarkers|
      && forall j :: 0 <= j < |cs[k].ends| ==> 0 <= cs[k].ends[j] < |BloodMarkers|
  }

  /**
   * The mapping as written indexes only existing markers, and its starts are
   * the lifestyle rows 0 to 7 in order: one connection per lifestyle marker.
   */
  lemma ConnectionsWellFormed()
    ensures WellFormed(Connections)
    ensures |Connections| == |LifestyleMarkers|
    ensures forall k :: 0 <= k < |Connections| ==> Connections[k].start == k
  {
  }

  // ---------------------------------------------------------------------------
  // Row geometry

  function Max(a: int, b: int): (m: int)
    ensures a <= m && b <= m
    ensures m == a || m == b
  {
    if a < b then b else a
  }

  /** The number of rows both columns are laid out on: the longer column's length. */
  function TotalRows(): (n: int)
    ensures |LifestyleMarkers| <= n && |BloodMarkers| <= n
    ensures n == 10
  {
    Max(|LifestyleMarkers|, |BloodMarkers|)
  }

  /** The height of one row, as a percentage of the diagram's height. */
  function RowPct(): (p: real)
    ensures p * (TotalRows() as real) == 100.0
    ensures p == 10.0
  {
    100.0 / (TotalRows() as real)
  }

  /** The top edge of label row `idx`: the rows are stacked from the top, each `RowPct()` high. */
  function RowTop(idx: int): real
  {
    (idx as real) * RowPct()
  }

  /** The vertical centre, in view-box units, of row `idx`. */
  function RowCenter(idx: int): (y: real)
    ensures 0 <= idx < TotalRows() ==> 0.0 < y < 100.0
  {
    (idx as real) * RowPct() + RowPct() / 2.0
  }

  /** The centre of each row is the midpoint of its label box, and the boxes of all rows fit in the view box. */
  lemma RowCenterIsLabelMidpoint(idx: int)
    requires 0 <= idx < TotalRows()
    ensures RowCenter(idx) == (RowTop(idx) + RowTop(idx + 1)) / 2.0
    ensures RowTop(idx) < RowCenter(idx) < RowTop(idx + 1)
    ensures 0.0 <= RowTop(idx) && RowTop(idx + 1) <= 100.0
  {
  }

  /** Lower rows have strictly larger centres. */
  lemma RowCenterIncreasing(a: int, b: int)
    requires a < b
    ensures RowCenter(a) < RowCenter(b)
  {
  }

  // ---------------------------------------------------------------------------
  // Keys

  predicate IsDigit(c: char)
  {
    '0' <= c <= '9'
  }

  function DigitChar(d: int): (c: char)
    requires 0 <= d < 10
    ensures IsDigit(c)
  {
    (48 + d) as char
  }

  function DigitValue(c: char): int
  {
    (c as int) - 48
  }

  /** The decimal rendering of a natural number, as a template literal produces it. */
  function Decimal(n: nat): (s: string)
    ensures |s| > 0
    ensures forall k :: 0 <= k < |s| ==> IsDigit(s[k])
  {
    if n < 10 then [DigitChar(n)] else Decimal(n / 10) + [DigitChar(n % 10)]
  }

  /** Reads a string of decimal digits back as a number. */
  function ParseDecimal(s: string): int
  {
    if s == [] then 0 else ParseDecimal(s[..|s| - 1]) * 10 + DigitValue(s[|s| - 1])
  }

  lemma {:induction false} ParseDecimalOfDecimal(n: nat)
    ensures ParseDecimal(Decimal(n)) == n
  {
    var s := Decimal(n);
    if n >= 10 {
      assert s[..|s| - 1] == Decimal(n / 10);
      ParseDecimalOfDecimal(n / 10);
    }
  }

  /** The key of the `j`-th curve of the `i`-th connection group. */
  function Key(i: nat, j: nat): string
  {
    Decimal(i) + "-" + Decimal(j)
  }

  /** Distinct index pairs give distinct keys. */
  lemma KeyInjective(i: nat, j: nat, i2: nat, j2: nat)
    requires Key(i, j) == Key(i2, j2)
    ensures i == i2 && j == j2
  {
    var a, a2 := Decimal(i), Decimal(i2);
    var s := Key(i, j);
    assert s[|a|] == '-';
    assert Key(i2, j2)[|a2|] == '-';
    if |a| < |a2| {
      assert false;
    }
    if |a2| < |a| {
      assert false;
    }
    assert a == s[..|a|] == a2;
    assert Decimal(j) == s[|a| + 1..] == Decimal(j2);
    ParseDecimalOfDecimal(i);
    ParseDecimalOfDecimal(i2);
    ParseDecimalOfDecimal(j);
    ParseDecimalOfDecimal(j2);
  }

  // ---------------------------------------------------------------------------
  // Paths

  datatype Point = Point(x: real, y: real)

  /** A path `M from C c1, c2, to`: a move followed by one cubic Bezier segment. */
  datatype Curve = Curve(from: Point, c1: Point, c2: Point, to: Point)

  /** One rendered path: the indices `group` (connection) and `slot` (end) of the render loops, its key and its geometry. */
  datatype FlowPath = FlowPath(group: nat, slot: nat, key: string, curve: Curve)

  /** The curve linking lifestyle row `start` on the left edge to blood-marker row `end` on the right edge. */
  function LinkCurve(start: int, end: int): Curve
  {
    var y0, y1 := RowCenter(start), RowCenter(end);
    Curve(Point(0.0, y0), Point(50.0, y0), Point(50.0, y1), Point(100.0, y1))
  }

  function MakePath(i: nat, j: nat, c: Connection): FlowPath
    requires j < |c.ends|
  {
    FlowPath(i, j, Key(i, j), LinkCurve(c.start, c.ends[j]))
  }

  /** The paths of one group: one per end, in order. */
  function GroupPaths(i: nat, c: Connection): (ps: seq<FlowPath>)
    ensures |ps| == |c.ends|
    ensures forall j :: 0 <= j < |ps| ==> ps[j] == MakePath(i, j, c)
  {
    seq(|c.ends|, j requires 0 <= j < |c.ends| => MakePath(i, j, c))
  }

  /** The paths of the groups `cs`, the first of which has index `i`. */
  function PathsFrom(cs: seq<Connection>, i: nat): seq<FlowPath>
    decreases |cs|
  {
    if cs == [] then [] else GroupPaths(i, cs[0]) + PathsFrom(cs[1..], i + 1)
  }

  /** Every path rendered by the diagram, in document order. */
  function FlowPaths(): seq<FlowPath>
  {
    PathsFrom(Connections, 0)
  }

  function TotalEnds(cs: seq<Connection>): nat
    decreases |cs|
  {
    if cs == [] then 0 else |cs[0].ends| + TotalEnds(cs[1..])
  }

  /** Path `q` is the path of end `q.slot` of group `q.group`, among the groups `cs` starting at index `i`. */
  predicate Describes(cs: seq<Connection>, i: nat, q: FlowPath)
  {
    && i <= q.group < i + |cs|
    && q.slot < |cs[q.group - i].ends|
    && q == MakePath(q.group, q.slot, cs[q.group - i])
  }

  lemma {:induction false} PathsFromShape(cs: seq<Connection>, i: nat)
    ensures |PathsFrom(cs, i)| == TotalEnds(cs)
    ensures forall q :: q in PathsFrom(cs, i) ==> Describes(cs, i, q)
    decreases |cs|
  {
    if cs != [] {
      PathsFromShape(cs[1..], i + 1);
      var g, rest := GroupPaths(i, cs[0]), PathsFrom(cs[1..], i + 1);
      forall q | q in PathsFrom(cs, i)
        ensures Describes(cs, i, q)
      {
        if q in g {
          var j :| 0 <= j < |g| && g[j] == q;
        } else {
          assert q in rest;
          assert Describes(cs[1..], i + 1, q);
          assert cs[1..][q.group - (i + 1)] == cs[q.group - i];
        }
      }
    }
  }

  /** The `j`-th end of the `k`-th group is drawn. */
  lemma {:induction false} PathsFromContains(cs: seq<Connection>, i: nat, k: nat, j: nat)
    requires k < |cs| && j < |cs[k].ends|
    ensures MakePath(i + k, j, cs[k]) in PathsFrom(cs, i)
    decreases k
  {
    if k == 0 {
      assert GroupPaths(i, cs[0])[j] == MakePath(i, j, cs[0]);
    } else {
      PathsFromContains(cs[1..], i + 1, k - 1, j);
      assert cs[1..][k - 1] == cs[k];
    }
  }

  /** No two paths come from the same pair of render-loop indices. */
  lemma {:induction false} PathsFromIndicesDistinct(cs: seq<Connection>, i: nat)
    ensures forall a, b :: 0 <= a < b < |PathsFrom(cs, i)| ==>
      (PathsFrom(cs, i)[a].group, PathsFrom(cs, i)[a].slot) != (PathsFrom(cs, i)[b].group, PathsFrom(cs, i)[b].slot)
    decreases |cs|
  {
    if cs != [] {
      var ps := PathsFrom(cs, i);
      var g, rest := GroupPaths(i, cs[0]), PathsFrom(cs[1..], i + 1);
      PathsFromIndicesDistinct(cs[1..], i + 1);
      PathsFromShape(cs[1..], i + 1);
      forall a, b | 0 <= a < b < |ps|
        ensures (ps[a].group, ps[a].slot) != (ps[b].group, ps[b].slot)
      {
        if b < |g| {
          assert ps[a] == g[a] && ps[b] == g[b];
        } else if a < |g| {
          assert ps[a] == g[a];
          assert ps[b] == rest[b - |g|];
          assert ps[b] in rest;
        } else {
          assert ps[a] == rest[a - |g|] && ps[b] == rest[b - |g|];
        }
      }
    }
  }

  // ---------------------------------------------------------------------------
  // Dots

  /**
   * The start dot of each group, on the left edge at the centre of its
   * lifestyle row; the dots run top to bottom in group order.
   */
  function StartDots(): (dots: seq<Point>)
    ensures |dots| == |Connections|
    ensures forall k :: 0 <= k < |dots| ==> dots[k].x == 0.0 && 0.0 < dots[k].y < 100.0
    ensures forall k :: 0 <= k < |dots| ==> dots[k].y == RowCenter(Connections[k].start)
    ensures forall a, b :: 0 <= a < b < |dots| ==> dots[a].y < dots[b].y
  {
    seq(|Connections|, k requires 0 <= k < |Connections| => Point(0.0, RowCenter(Connections[k].start)))
  }

  /**
   * One end dot per blood marker, on the right edge at the centre of its row;
   * the dots run top to bottom, so no two of them coincide.
   */
  function EndDots(): (dots: seq<Point>)
    ensures |dots| == |BloodMarkers|
    ensures forall b :: 0 <= b < |dots| ==> dots[b].x == 100.0 && 0.0 < dots[b].y < 100.0
    ensures forall b :: 0 <= b < |dots| ==> dots[b].y == RowCenter(b)
    ensures forall a, b :: 0 <= a < b < |dots| ==> dots[a].y < dots[b].y
  {
    seq(|BloodMarkers|, b requires 0 <= b < |BloodMarkers| => Point(100.0, RowCenter(b)))
  }

  // ---------------------------------------------------------------------------
  // Properties of the diagram as drawn

  /** With the data as written there are 20 paths, one per listed end. */
  lemma FlowPathCount()
    ensures |FlowPaths()| == TotalEnds(Connections) == 20
  {
    PathsFromShape(Connections, 0);
  }

  /**
   * Every path runs from its group's start dot on the left edge, at the
   * centre of its lifestyle row, to the end dot of its blood marker on the
   * right edge, at the centre of that marker's row, with both control points
   * on the vertical midline, and stays inside the view box vertically.
   */
  lemma FlowPathGeometry()
    ensures forall q :: q in FlowPaths() ==>
      && q.group < |Connections|
      && q.slot < |Connections[q.group].ends|
      && q.curve.from == StartDots()[q.group]
      && q.curve.to == EndDots()[Connections[q.group].ends[q.slot]]
      && q.curve.from.y == RowCenter(Connections[q.group].start)
      && q.curve.to.y == RowCenter(Connections[q.group].ends[q.slot])
      && q.curve.c1 == Point(50.0, q.curve.from.y)
      && q.curve.c2 == Point(50.0, q.curve.to.y)
      && 0.0 < q.curve.from.y < 100.0
      && 0.0 < q.curve.to.y < 100.0
  {
    PathsFromShape(Connections, 0);
    ConnectionsWellFormed();
  }

  /** The keys of the rendered paths are pairwise distinct. */
  lemma FlowPathKeysDistinct()
    ensures forall a, b :: 0 <= a < b < |FlowPaths()| ==> FlowPaths()[a].key != FlowPaths()[b].key
  {
    var ps := FlowPaths();
    PathsFromShape(Connections, 0);
    PathsFromIndicesDistinct(Connections, 0);
    forall a, b | 0 <= a < b < |ps|
      ensures ps[a].key != ps[b].key
    {
      assert ps[a] in ps && ps[b] in ps;
      if ps[a].key == ps[b].key {
        KeyInjective(ps[a].group, ps[a].slot, ps[b].group, ps[b].slot);
        assert false;
      }
    }
  }

  /** Some path links to blood marker `b` and ends at its dot. */
  predicate EndDotReached(b: int)
    requires 0 <= b < |BloodMarkers|
  {
    exists q :: q in FlowPaths() && q.group < |Connections| && q.slot < |Connections[q.group].ends|
      && Connections[q.group].ends[q.slot] == b && q.curve.to == EndDots()[b]
  }

  /** The end dot of row `b` is reached by the path of end `j` of group `k` when that end is `b`. */
  lemma EndDotReachedBy(b: nat, k: nat, j: nat)
    requires k < |Connections| && j < |Connections[k].ends| && Connections[k].ends[j] == b
    requires b < |BloodMarkers|
    ensures EndDotReached(b)
  {
    PathsFromContains(Connections, 0, k, j);
    var q := MakePath(k, j, Connections[k]);
    assert q in FlowPaths() && q.group < |Connections| && q.slot < |Connections[q.group].ends|
      && Connections[q.group].ends[q.slot] == b && q.curve.to == EndDots()[b];
  }

  /**
   * With the data as written, every blood marker 0 to 9 ends at least one
   * connection, and a path reaches its dot; the dots are at distinct heights.
   */
  lemma EveryEndDotReached()
    ensures forall b :: 0 <= b < |BloodMarkers| ==> EndDotReached(b)
  {
    forall b | 0 <= b < |BloodMarkers|
      ensures EndDotReached(b)
    {
      if b == 0 { EndDotReachedBy(b, 0, 0); }
      else if b == 1 { EndDotReachedBy(b, 0, 1); }
      else if b == 2 { EndDotReachedBy(b, 2, 0); }
      else if b == 3 { EndDotReachedBy(b, 0, 2); }
      else if b == 4 { EndDotReachedBy(b, 1, 1); }
      else if b == 5 { EndDotReachedBy(b, 2, 2); }
      else if b == 6 { EndDotReachedBy(b, 1, 2); }
      else if b == 7 { EndDotReachedBy(b, 3, 1); }
      else if b == 8 { EndDotReachedBy(b, 4, 1); }
      else { EndDotReachedBy(b, 6, 1); }
    }
  }
}
