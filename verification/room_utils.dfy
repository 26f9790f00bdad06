// utils/roomUtils.ts: reading a vertex list typed as text, and deciding
// whether a vertex cycle is an orthogonal polygon.

module RoomUtils {
  import opened Types
  import opened JsString
  import opened JsNumber

  // ---------------------------------------------------------------------
  // parseVertices

  /** One `x,y` token: the text is split at commas and the first two fields
      go through `Number`; a missing `y` is `undefined`, which is NaN, and
      fields after the second are ignored. */
  function ParsePair(token: string): Option<Point2D> {
    var fields := SplitOn(token, ',');
    var x := ToNumber(fields[0]);
    var y := if |fields| >= 2 then ToNumber(fields[1]) else None;
    if x.Some? && y.Some? then Some(Point2D(x.value, y.value)) else None
  }

  /** The `map` over the read tokens, where one NaN coordinate throws: all
      the points, or nothing. */
  function Collect(parsed: seq<Option<Point2D>>): (r: Option<seq<Point2D>>)
    ensures r.Some? <==> forall k :: 0 <= k < |parsed| ==> parsed[k].Some?
    ensures r.Some? ==> (|r.value| == |parsed|
                         && forall k :: 0 <= k < |parsed| ==> Some(r.value[k]) == parsed[k])
  {
    if parsed == [] then Some([])
    else
      match parsed[0]
      case None => None
      case Some(p) =>
        match Collect(parsed[1..])
        case None => None
        case Some(rest) => Some([p] + rest)
  }

  /** Every token read as a point, in order. */
  function ParseAll(tokens: seq<string>): (r: Option<seq<Point2D>>)
    ensures r.Some? <==> forall k :: 0 <= k < |tokens| ==> ParsePair(tokens[k]).Some?
    ensures r.Some? ==> (|r.value| == |tokens|
                         && forall k :: 0 <= k < |tokens| ==> r.value[k] == ParsePair(tokens[k]).value)
  {
    var parsed := seq(|tokens|, k requires 0 <= k < |tokens| => ParsePair(tokens[k]));
    assert forall k :: 0 <= k < |tokens| ==> parsed[k] == ParsePair(tokens[k]);
    Collect(parsed)
  }

  /** `parseVertices`: the points of the white-space separated `x,y` tokens,
      or the empty list when a coordinate is not a number or there are fewer
      than three tokens (both are thrown and caught). */
  function ParseVertices(input: string): (r: seq<Point2D>)
    ensures r == [] || |r| >= 3
  {
    var tokens := SplitWhitespace(input);
    match ParseAll(tokens)
    case None => []
    case Some(vertices) => if |vertices| < 3 then [] else vertices
  }

  /** One point per token, in input order, when every token reads as a
      point and there are at least three of them; otherwise nothing. */
  lemma ParseVerticesTokens(input: string)
    ensures var tokens := SplitWhitespace(input);
      var r := ParseVertices(input);
      && (r != [] <==> (|tokens| >= 3 && forall k :: 0 <= k < |tokens| ==> ParsePair(tokens[k]).Some?))
      && (r != [] ==> |r| == |tokens| && forall k :: 0 <= k < |tokens| ==> r[k] == ParsePair(tokens[k]).value)
  {
    var tokens := SplitWhitespace(input);
    var parsed := ParseAll(tokens);
  }

  /** One token whose coordinate is not a number empties the whole result. */
  lemma BadTokenEmptiesResult(input: string, k: nat)
    requires k < |SplitWhitespace(input)| && ParsePair(SplitWhitespace(input)[k]).None?
    ensures ParseVertices(input) == []
  {
    ParseVerticesTokens(input);
  }

  /** `Number` reads a single digit as its value. */
  lemma ToNumberDigit(c: char)
    requires IsDigit(c)
    ensures ToNumber([c]) == Some(DigitValue(c) as real)
  {
    assert NatValue([c]) == DigitValue(c) by { assert [c][..0] == []; }
    assert ToNumber([c]) == Some(NatValue([c]) as real) by { ParseDigits([c]); }
  }

  lemma ParseDigitPair(token: string, a: char, b: char)
    requires IsDigit(a) && IsDigit(b) && token == [a, ',', b]
    ensures ParsePair(token) == Some(Point2D(DigitValue(a) as real, DigitValue(b) as real))
  {
    assert SplitOn(token, ',') == [[a], [b]] by {
      assert ',' !in [a] && ',' !in [b];
      assert Join([[a], [b]], ',') == token;
      SplitOnJoin([[a], [b]], ',');
    }
    ToNumberDigit(a);
    ToNumberDigit(b);
  }

  /** Single-digit `x,y` tokens joined by single spaces read back as their
      points, in order: the doc comment's "0,0 5,0 5,3 0,3" is the instance
      `xs = "0550"`, `ys = "0033"`. */
  lemma DigitPairsRead(xs: string, ys: string)
    requires |xs| == |ys| >= 3 && AllDigits(xs) && AllDigits(ys)
    ensures var r := ParseVertices(Join(PairTokens(xs, ys), ' '));
      |r| == |xs| && forall k :: 0 <= k < |xs| ==> r[k] == Point2D(DigitValue(xs[k]) as real, DigitValue(ys[k]) as real)
  {
    var tokens := PairTokens(xs, ys);
    var input := Join(tokens, ' ');
    var pts := seq(|xs|, k requires 0 <= k < |xs| => Point2D(DigitValue(xs[k]) as real, DigitValue(ys[k]) as real));
    assert SplitWhitespace(input) == tokens by {
      forall k | 0 <= k < |tokens| ensures tokens[k] != [] && NoSpace(tokens[k]) {
        assert !IsSpace(xs[k]) && !IsSpace(ys[k]);
      }
      SplitWhitespaceJoin(tokens);
    }
    forall k | 0 <= k < |tokens| ensures ParsePair(tokens[k]) == Some(pts[k]) {
      ParseDigitPair(tokens[k], xs[k], ys[k]);
    }
    PointsOfTokens(input, pts);
  }

  /** When every token reads as the matching point, and there are at least
      three, the result is those points. */
  lemma PointsOfTokens(input: string, pts: seq<Point2D>)
    requires |pts| >= 3 && |SplitWhitespace(input)| == |pts|
    requires forall k :: 0 <= k < |pts| ==> ParsePair(SplitWhitespace(input)[k]) == Some(pts[k])
    ensures ParseVertices(input) == pts
  {
    ParseVerticesTokens(input);
  }

  /** The tokens `xs[k] + "," + ys[k]`. */
  function PairTokens(xs: string, ys: string): (tokens: seq<string>)
    requires |xs| == |ys|
    ensures |tokens| == |xs|
    ensures forall k :: 0 <= k < |tokens| ==> tokens[k] == [xs[k], ',', ys[k]]
  {
    seq(|xs|, k requires 0 <= k < |xs| => [xs[k], ',', ys[k]])
  }

  /** A token without a comma has no `y` and does not read as a point. */
  lemma NoCommaNoPoint(token: string)
    requires ',' !in token
    ensures ParsePair(token) == None
  {
    assert SplitOn(token, ',') == [token] by {
      SplitOnJoin([token], ',');
    }
  }

  /** A token whose `y` is empty reads it as `Number("")`, which is 0: "5,"
      is the point (5, 0). */
  lemma EmptyYIsZero(x: string)
    requires ',' !in x
    ensures ParsePair(x + [',']) == if ToNumber(x).Some? then Some(Point2D(ToNumber(x).value, 0.0)) else None
  {
    assert SplitOn(x + [','], ',') == [x, []] by {
      assert Join([x, []], ',') == x + [','];
      SplitOnJoin([x, []], ',');
    }
    assert ToNumber([]) == Some(0.0) by {
      assert Trim([]) == [];
    }
  }

  // ---------------------------------------------------------------------
  // validateOrthogonalPolygon

  /** The test the loop applies at vertex `i`: both edges meeting there are
      horizontal or vertical, and not both of the same orientation. */
  predicate CornerOk(vs: seq<Point2D>, i: nat)
    requires i < |vs|
  {
    var prev := vs[Prev(i, |vs|)];
    var curr := vs[i];
    var next := vs[Next(i, |vs|)];
    var edge1Horizontal := prev.y == curr.y;
    var edge1Vertical := prev.x == curr.x;
    var edge2Horizontal := curr.y == next.y;
    var edge2Vertical := curr.x == next.x;
    (edge1Horizontal || edge1Vertical) && (edge2Horizontal || edge2Vertical)
    && !((edge1Horizontal && edge2Horizontal) || (edge1Vertical && edge2Vertical))
  }

  /** What `validateOrthogonalPolygon` accepts. */
  predicate IsOrthogonal(vs: seq<Point2D>) {
    |vs| >= 3 && forall i :: 0 <= i < |vs| ==> CornerOk(vs, i)
  }

  lemma ModSmall(a: int, n: int)
    requires 0 <= a < n
    ensures a % n == a && (a + n) % n == a && n % n == 0
  {
  }

  /** The source's `(i + 1) % n` and `(i - 1 + n) % n` are `Next` and `Prev`. */
  lemma ModCycle(i: nat, n: nat)
    requires i < n
    ensures (i + 1) % n == Next(i, n)
    ensures (i - 1 + n) % n == Prev(i, n)
  {
    if i + 1 < n {
      ModSmall(i + 1, n);
    } else {
      ModSmall(0, n);
    }
    if i == 0 {
      ModSmall(n - 1, n);
    } else {
      ModSmall(i - 1, n);
    }
  }

  /** `validateOrthogonalPolygon`: the loop over all vertices, returning
      false at the first bad corner. */
  method ValidateOrthogonalPolygon(vertices: seq<Point2D>) returns (ok: bool)
    ensures ok == IsOrthogonal(vertices)
    ensures |vertices| < 3 ==> !ok
  {
    var n := |vertices|;
    if n < 3 {
      return false;
    }
    var i := 0;
    while i < n
      invariant 0 <= i <= n
      invariant forall k :: 0 <= k < i ==> CornerOk(vertices, k)
    {
      ModCycle(i, n);
      var prev := vertices[(i - 1 + n) % n];
      var curr := vertices[i];
      var next := vertices[(i + 1) % n];
      var edge1Horizontal := prev.y == curr.y;
      var edge1Vertical := prev.x == curr.x;
      var edge2Horizontal := curr.y == next.y;
      var edge2Vertical := curr.x == next.x;
      assert prev == vertices[Prev(i, n)] && next == vertices[Next(i, n)];
      if !edge1Horizontal && !edge1Vertical {
        assert !CornerOk(vertices, i);
        return false;
      }
      if !edge2Horizontal && !edge2Vertical {
        assert !CornerOk(vertices, i);
        return false;
      }
      if (edge1Horizontal && edge2Horizontal) || (edge1Vertical && edge2Vertical) {
        assert !CornerOk(vertices, i);
        return false;
      }
      i := i + 1;
    }
    return true;
  }

  // ---------------------------------------------------------------------
  // What an accepted cycle looks like

  /** Edge `i` runs from vertex `i` to the next one. */
  predicate HorizontalEdge(vs: seq<Point2D>, i: nat)
    requires i < |vs|
  {
    vs[i].y == vs[Next(i, |vs|)].y
  }

  predicate VerticalEdge(vs: seq<Point2D>, i: nat)
    requires i < |vs|
  {
    vs[i].x == vs[Next(i, |vs|)].x
  }

  /** Every edge is horizontal or vertical but not both (so not of length
      zero), and horizontal and vertical edges alternate around the cycle. */
  predicate AlternatingEdges(vs: seq<Point2D>) {
    && |vs| >= 3
    && (forall i :: 0 <= i < |vs| ==> HorizontalEdge(vs, i) != VerticalEdge(vs, i))
    && (forall i, j :: 0 <= i < |vs| && j == Next(i, |vs|) ==> HorizontalEdge(vs, i) != HorizontalEdge(vs, j))
  }

  lemma CornerOkIffEdges(vs: seq<Point2D>, i: nat)
    requires i < |vs|
    ensures var p := Prev(i, |vs|);
      CornerOk(vs, i) <==>
        (HorizontalEdge(vs, p) != VerticalEdge(vs, p)
         && HorizontalEdge(vs, i) != VerticalEdge(vs, i)
         && HorizontalEdge(vs, p) != HorizontalEdge(vs, i))
  {
  }

  /** The corner-by-corner test accepts exactly the cycles whose edges are
      each horizontal or vertical and alternate. */
  lemma OrthogonalIffAlternating(vs: seq<Point2D>)
    ensures IsOrthogonal(vs) <==> AlternatingEdges(vs)
  {
    var n := |vs|;
    if IsOrthogonal(vs) {
      forall i | 0 <= i < n ensures HorizontalEdge(vs, i) != VerticalEdge(vs, i) {
        CornerOkIffEdges(vs, i);
      }
      forall i, j | 0 <= i < n && j == Next(i, n) ensures HorizontalEdge(vs, i) != HorizontalEdge(vs, j) {
        CornerOkIffEdges(vs, j);
      }
    }
    if AlternatingEdges(vs) {
      forall i | 0 <= i < n ensures CornerOk(vs, i) {
        CornerOkIffEdges(vs, i);
      }
    }
  }

  lemma ParityStep(i: nat)
    requires i > 0
    ensures ((i - 1) % 2 == 0) != (i % 2 == 0)
  {
    var q := (i - 1) / 2;
    assert i - 1 == 2 * q + (i - 1) % 2;
    if (i - 1) % 2 == 0 {
      assert i == 2 * q + 1;
    } else {
      assert i == 2 * (q + 1);
    }
  }

  lemma {:induction false} AlternationParity(vs: seq<Point2D>, i: nat)
    requires AlternatingEdges(vs) && i < |vs|
    ensures HorizontalEdge(vs, i) == (HorizontalEdge(vs, 0) == (i % 2 == 0))
  {
    if i > 0 {
      AlternationParity(vs, i - 1);
      assert Next(i - 1, |vs|) == i;
      assert HorizontalEdge(vs, i - 1) != HorizontalEdge(vs, i);
      ParityStep(i);
    }
  }

  /** An accepted cycle has an even number of vertices: every triangle and
      every other odd cycle is rejected. */
  lemma {:induction false} OrthogonalHasEvenLength(vs: seq<Point2D>)
    requires IsOrthogonal(vs)
    ensures |vs| % 2 == 0
  {
    OrthogonalIffAlternating(vs);
    var n := |vs|;
    AlternationParity(vs, n - 1);
    assert Next(n - 1, n) == 0;
  }

  /** A zero-length edge (a vertex repeated next to itself) is rejected. */
  lemma RepeatedVertexRejected(vs: seq<Point2D>, i: nat)
    requires i < |vs| && vs[i] == vs[Next(i, |vs|)]
    ensures !IsOrthogonal(vs)
  {
    OrthogonalIffAlternating(vs);
    assert HorizontalEdge(vs, i) && VerticalEdge(vs, i);
  }

  /** A diagonal edge is rejected. */
  lemma DiagonalEdgeRejected(vs: seq<Point2D>, i: nat)
    requires i < |vs| && vs[i].x != vs[Next(i, |vs|)].x && vs[i].y != vs[Next(i, |vs|)].y
    ensures !IsOrthogonal(vs)
  {
    OrthogonalIffAlternating(vs);
    assert !HorizontalEdge(vs, i) && !VerticalEdge(vs, i);
  }

  /** Accepted cycles have only horizontal and vertical edges. */
  lemma OrthogonalIsAxisAligned(vs: seq<Point2D>)
    requires IsOrthogonal(vs)
    ensures EdgesAxisAligned(vs)
  {
    OrthogonalIffAlternating(vs);
    forall i | 0 <= i < |vs|
      ensures vs[i].x == vs[Next(i, |vs|)].x || vs[i].y == vs[Next(i, |vs|)].y
    {
      assert HorizontalEdge(vs, i) != VerticalEdge(vs, i);
    }
  }

  // ---------------------------------------------------------------------
  // Rotating the vertex list

  /** The same cycle started at vertex `k`. */
  function Rotate(vs: seq<Point2D>, k: nat): (r: seq<Point2D>)
    requires k <= |vs|
    ensures |r| == |vs|
  {
    vs[k..] + vs[..k]
  }

  lemma RotateOneStep(vs: seq<Point2D>)
    requires |vs| >= 3
    ensures IsOrthogonal(Rotate(vs, 1)) == IsOrthogonal(vs)
  {
    var n := |vs|;
    var r := Rotate(vs, 1);
    assert forall i :: 0 <= i < n ==> r[i] == vs[Next(i, n)];
    assert forall i :: 0 <= i < n ==> r[Prev(i, n)] == vs[i];
    if IsOrthogonal(vs) {
      forall i | 0 <= i < n ensures CornerOk(r, i) {
        assert CornerOk(vs, Next(i, n));
      }
    }
    if IsOrthogonal(r) {
      forall i | 0 <= i < n ensures CornerOk(vs, i) {
        assert CornerOk(r, Prev(i, n));
      }
    }
  }

  /** Whether a cycle is accepted does not depend on which vertex the list
      starts at. */
  lemma {:induction false} OrthogonalRotationInvariant(vs: seq<Point2D>, k: nat)
    requires k <= |vs|
    ensures IsOrthogonal(Rotate(vs, k)) == IsOrthogonal(vs)
  {
    if k == 0 {
      assert Rotate(vs, k) == vs;
    } else if |vs| >= 3 {
      OrthogonalRotationInvariant(vs, k - 1);
      var r := Rotate(vs, k - 1);
      RotateOneStep(r);
      assert r[1..] == vs[k..] + vs[..k - 1];
      assert r[..1] == [vs[k - 1]];
      assert vs[..k] == vs[..k - 1] + [vs[k - 1]];
      assert Rotate(r, 1) == Rotate(vs, k);
    }
  }
}
