/**
 * `to_graph_points` and the conversion of a point list into a response
 * series (site/src/request_handlers/graph.rs).
 *
 * Values are `real`: the f64/f32 rounding of the source is not modelled, and
 * the divisions are only taken where their divisor is non-zero (in the
 * source a zero divisor yields NaN or an infinity).
 */
module GraphPoints {
  import opened Wrappers

  datatype GraphKind = Raw | PercentRelative | PercentFromFirst

  /** One point of an interpolated series: its value and whether interpolation filled it in. */
  datatype InputPoint = InputPoint(value: Option<real>, isInterpolated: bool)

  datatype GraphPoint = GraphPoint(value: real, isInterpolated: bool)

  /** Every point has a value (`point.expect("interpolated")` never fails). */
  predicate AllPresent(points: seq<InputPoint>) {
    forall i :: 0 <= i < |points| ==> points[i].value.Some?
  }

  /** The point whose value serves as point `i`'s predecessor: the first point is its own. */
  function Prev(i: nat): nat {
    if i == 0 then 0 else i - 1
  }

  /** The divisions `kind` asks for are all by non-zero values. */
  predicate DivisorsNonZero(kind: GraphKind, points: seq<InputPoint>)
    requires AllPresent(points)
  {
    match kind
    case Raw => true
    case PercentFromFirst => |points| > 0 ==> points[0].value.value != 0.0
    case PercentRelative => forall i :: 0 <= i < |points| ==> points[Prev(i)].value.value != 0.0
  }

  /** Reference definition of output point `i`'s value. */
  function PointValue(kind: GraphKind, points: seq<InputPoint>, i: nat): real
    requires AllPresent(points) && DivisorsNonZero(kind, points) && i < |points|
  {
    var v := points[i].value.value;
    match kind
    case Raw => v
    case PercentFromFirst =>
      var first := points[0].value.value;
      (v - first) / first * 100.0
    case PercentRelative =>
      var prev := points[Prev(i)].value.value;
      (v - prev) / prev * 100.0
  }

  /** Reference definition of the whole output. */
  function GraphPointsOf(kind: GraphKind, points: seq<InputPoint>): (r: seq<GraphPoint>)
    requires AllPresent(points) && DivisorsNonZero(kind, points)
    ensures |r| == |points|
  {
    seq(|points|, i requires 0 <= i < |points| => GraphPoint(PointValue(kind, points, i), points[i].isInterpolated))
  }

  /**
   * `to_graph_points`: one point per input, in input order, keeping the
   * interpolation flag. It remembers the first and the previous value as it
   * goes, as the source's closure does.
   */
  method ToGraphPoints(kind: GraphKind, points: seq<InputPoint>) returns (out: seq<GraphPoint>)
    requires AllPresent(points) && DivisorsNonZero(kind, points)
    ensures out == GraphPointsOf(kind, points)
    ensures |out| == |points|
    ensures forall i :: 0 <= i < |points| ==> out[i].isInterpolated == points[i].isInterpolated
  {
    var first: Option<real> := None;
    var prev: Option<real> := None;
    out := [];
    var i := 0;
    while i < |points|
      invariant 0 <= i <= |points|
      invariant first == if i == 0 then None else Some(points[0].value.value)
      invariant prev == if i == 0 then None else Some(points[i - 1].value.value)
      invariant out == GraphPointsOf(kind, points)[..i]
    {
      var point := points[i].value.value;
      first := Some(first.UnwrapOr(point));
      var firstValue := first.value;
      var previous := prev.UnwrapOr(point);
      prev := Some(point);
      var value := match kind
        case Raw => point
        case PercentRelative => (point - previous) / previous * 100.0
        case PercentFromFirst => (point - firstValue) / firstValue * 100.0;
      out := out + [GraphPoint(value, points[i].isInterpolated)];
      i := i + 1;
    }
  }

  /** The values of a series whose every point is present. */
  function Values(points: seq<InputPoint>): (vs: seq<real>)
    requires AllPresent(points)
    ensures |vs| == |points|
  {
    seq(|points|, i requires 0 <= i < |points| => points[i].value.value)
  }

  /** Percent change from `base` to `v`, read back. */
  lemma PercentInverse(base: real, v: real)
    requires base != 0.0
    ensures base * (1.0 + ((v - base) / base * 100.0) / 100.0) == v
  {
    var q := (v - base) / base;
    assert (q * 100.0) / 100.0 == q;
    assert base * q == v - base;
  }

  /** Both percent kinds give 0 for the first point. */
  lemma {:induction false} FirstPercentIsZero(kind: GraphKind, points: seq<InputPoint>)
    requires AllPresent(points) && DivisorsNonZero(kind, points) && |points| > 0 && kind != Raw
    ensures GraphPointsOf(kind, points)[0].value == 0.0
  {
    var v := points[0].value.value;
    assert (v - v) / v * 100.0 == 0.0;
  }

  /** `Raw` passes every value through. */
  lemma RawIsIdentity(points: seq<InputPoint>)
    requires AllPresent(points)
    ensures forall i :: 0 <= i < |points| ==> GraphPointsOf(Raw, points)[i].value == points[i].value.value
  {
  }

  /** `PercentFromFirst` loses nothing: each value is the first value scaled by its percentage. */
  lemma {:induction false} PercentFromFirstInverse(points: seq<InputPoint>)
    requires AllPresent(points) && DivisorsNonZero(PercentFromFirst, points) && |points| > 0
    ensures forall i :: 0 <= i < |points| ==>
              points[0].value.value * (1.0 + GraphPointsOf(PercentFromFirst, points)[i].value / 100.0)
              == points[i].value.value
  {
    forall i | 0 <= i < |points|
      ensures points[0].value.value * (1.0 + GraphPointsOf(PercentFromFirst, points)[i].value / 100.0)
              == points[i].value.value
    {
      PercentInverse(points[0].value.value, points[i].value.value);
    }
  }

  /** Compounds percent changes onto a start value: the inverse of `PercentRelative`. */
  function Compound(start: real, percents: seq<real>): (vs: seq<real>)
    ensures |vs| == |percents|
    decreases |percents|
  {
    if percents == [] then []
    else
      var v := start * (1.0 + percents[0] / 100.0);
      [v] + Compound(v, percents[1..])
  }

  /** The values carried by output points. */
  function OutputValues(gps: seq<GraphPoint>): (vs: seq<real>)
    ensures |vs| == |gps|
  {
    seq(|gps|, i requires 0 <= i < |gps| => gps[i].value)
  }

  lemma CompoundStep(start: real, percents: seq<real>)
    requires percents != []
    ensures Compound(start, percents)
            == [start * (1.0 + percents[0] / 100.0)] + Compound(start * (1.0 + percents[0] / 100.0), percents[1..])
  {
  }

  lemma {:induction false} CompoundSuffix(points: seq<InputPoint>, j: nat)
    requires AllPresent(points) && DivisorsNonZero(PercentRelative, points) && 0 < |points| && j <= |points|
    ensures Compound(points[Prev(j)].value.value, OutputValues(GraphPointsOf(PercentRelative, points))[j..])
            == Values(points)[j..]
    decreases |points| - j
  {
    var percents := OutputValues(GraphPointsOf(PercentRelative, points));
    if j < |points| {
      var prev := points[Prev(j)].value.value;
      var v := points[j].value.value;
      var ps := percents[j..];
      assert ps[0] == (v - prev) / prev * 100.0;
      PercentInverse(prev, v);
      var w := prev * (1.0 + ps[0] / 100.0);
      assert w == v;
      CompoundStep(prev, ps);
      assert Compound(prev, ps) == [w] + Compound(w, ps[1..]);
      assert ps[1..] == percents[j + 1..];
      CompoundSuffix(points, j + 1);
      assert Prev(j + 1) == j;
      assert Compound(w, ps[1..]) == Values(points)[j + 1..];
      assert Values(points)[j..] == [v] + Values(points)[j + 1..];
    }
  }

  /**
   * `PercentRelative` loses nothing: compounding its percentages onto the
   * first value gives back the input series.
   */
  lemma PercentRelativeInverse(points: seq<InputPoint>)
    requires AllPresent(points) && DivisorsNonZero(PercentRelative, points) && |points| > 0
    ensures Compound(points[0].value.value, OutputValues(GraphPointsOf(PercentRelative, points))) == Values(points)
  {
    CompoundSuffix(points, 0);
    assert OutputValues(GraphPointsOf(PercentRelative, points))[0..] == OutputValues(GraphPointsOf(PercentRelative, points));
    assert Values(points)[0..] == Values(points);
  }

  /** PercentRelative of 10, 20, 15 is 0, 100, -25. */
  lemma PercentRelativeExample()
    ensures OutputValues(GraphPointsOf(PercentRelative,
              [InputPoint(Some(10.0), false), InputPoint(Some(20.0), false), InputPoint(Some(15.0), false)]))
            == [0.0, 100.0, -25.0]
  {
  }

  /** PercentFromFirst of 10, 20, 15 is 0, 100, 50. */
  lemma PercentFromFirstExample()
    ensures OutputValues(GraphPointsOf(PercentFromFirst,
              [InputPoint(Some(10.0), false), InputPoint(Some(20.0), true), InputPoint(Some(15.0), false)]))
            == [0.0, 100.0, 50.0]
  {
  }

  // ---------------------------------------------------------------------------
  // Response series
  // ---------------------------------------------------------------------------

  /** `graph::Series`: the values, and the indices of the interpolated points as `u16`. */
  datatype Series = Series(points: seq<real>, isInterpolated: set<nat>)

  /** `idx as u16` keeps an index modulo 2^16. */
  const IndexModulus: nat := 0x1_0000

  function InterpolatedIndices(points: seq<GraphPoint>): set<nat> {
    set i | 0 <= i < |points| && points[i].isInterpolated :: i % IndexModulus
  }

  /** `series` holds the values of `points` in order and the (truncated) indices of the interpolated ones. */
  predicate Encodes(series: Series, points: seq<GraphPoint>) {
    && |series.points| == |points|
    && (forall i :: 0 <= i < |points| ==> series.points[i] == points[i].value)
    && series.isInterpolated == InterpolatedIndices(points)
  }

  /** The loop that turns a point list into a response series. */
  method ToSeries(points: seq<GraphPoint>) returns (series: Series)
    ensures Encodes(series, points)
  {
    series := Series([], {});
    var idx := 0;
    while idx < |points|
      invariant 0 <= idx <= |points|
      invariant |series.points| == idx
      invariant forall i :: 0 <= i < idx ==> series.points[i] == points[i].value
      invariant series.isInterpolated == InterpolatedIndices(points[..idx])
    {
      var point := points[idx];
      ghost var before := InterpolatedIndices(points[..idx]);
      assert points[..idx + 1] == points[..idx] + [point];
      assert InterpolatedIndices(points[..idx + 1])
             == before + (if point.isInterpolated then {idx % IndexModulus} else {});
      series := series.(points := series.points + [point.value]);
      if point.isInterpolated {
        series := series.(isInterpolated := series.isInterpolated + {idx % IndexModulus});
      }
      idx := idx + 1;
    }
    assert points[..idx] == points;
  }

  /** Up to 2^16 points, an index is recorded exactly when its point is interpolated. */
  lemma InterpolatedIndicesExact(points: seq<GraphPoint>)
    requires |points| <= IndexModulus
    ensures forall x: nat :: x in InterpolatedIndices(points) <==> x < |points| && points[x].isInterpolated
  {
    forall x: nat | x < |points| && points[x].isInterpolated ensures x in InterpolatedIndices(points) {
      assert x % IndexModulus == x;
    }
  }

  /**
   * Past 2^16 points the truncated indices alias: with only point 65536
   * interpolated, index 0 is recorded although point 0 is not interpolated.
   */
  lemma InterpolatedIndicesWrap()
    ensures var points := seq(IndexModulus + 1, i => GraphPoint(0.0, i == IndexModulus));
            0 in InterpolatedIndices(points) && !points[0].isInterpolated
  {
    var points := seq(IndexModulus + 1, i => GraphPoint(0.0, i == IndexModulus));
    assert points[IndexModulus].isInterpolated;
    assert IndexModulus % IndexModulus == 0;
  }
}
