/**
 * `createCurveFunc` (utils.py): choosing an interpolation for a list of
 * control points. The interpolator itself is returned as a descriptor of the
 * call that builds it.
 */
module Utils {

  import opened Wrappers

  /** A control point: input channel value `x` maps to output value `y`. */
  datatype Point = Point(x: real, y: real)

  /** Interpolation kinds of the interpolator; only two are ever chosen. */
  datatype Kind = Linear | Quadratic | Cubic

  /** The interpolator built over `xs`/`ys` with the given kind and bounds checking. */
  datatype CurveSpec = CurveSpec(xs: seq<real>, ys: seq<real>, kind: Kind, boundsError: bool)

  /** Splits a list of points into its list of inputs and its list of outputs. */
  function Unzip(points: seq<Point>): (r: (seq<real>, seq<real>))
    ensures |r.0| == |points| && |r.1| == |points|
    ensures forall i :: 0 <= i < |points| ==> r.0[i] == points[i].x && r.1[i] == points[i].y
  {
    if points == [] then ([], [])
    else
      var rest := Unzip(points[1..]);
      ([points[0].x] + rest.0, [points[0].y] + rest.1)
  }

  /** Pairs up inputs and outputs into points. */
  function Zip(xs: seq<real>, ys: seq<real>): (r: seq<Point>)
    requires |xs| == |ys|
    ensures |r| == |xs|
    ensures forall i :: 0 <= i < |r| ==> r[i] == Point(xs[i], ys[i])
  {
    if xs == [] then [] else [Point(xs[0], ys[0])] + Zip(xs[1..], ys[1..])
  }

  /** Unzipping and zipping again gives back the points. */
  lemma ZipUnzip(points: seq<Point>)
    ensures Zip(Unzip(points).0, Unzip(points).1) == points
  {
  }

  /** Zipping and unzipping again gives back both lists. */
  lemma {:induction false} UnzipZip(xs: seq<real>, ys: seq<real>)
    requires |xs| == |ys|
    ensures Unzip(Zip(xs, ys)) == (xs, ys)
  {
    if xs != [] {
      UnzipZip(xs[1..], ys[1..]);
      assert Zip(xs, ys)[1..] == Zip(xs[1..], ys[1..]);
      var p := Zip(xs, ys);
      assert p == [Point(xs[0], ys[0])] + p[1..];
      assert Unzip(p).0 == [xs[0]] + Unzip(p[1..]).0 == [xs[0]] + xs[1..] == xs;
      assert Unzip(p).1 == [ys[0]] + Unzip(p[1..]).1 == [ys[0]] + ys[1..] == ys;
    }
  }

  /** The interpolator for `points`, or `None` when there are too few of them. */
  function CreateCurveFunc(points: Option<seq<Point>>): (r: Option<CurveSpec>)
    // no interpolator for a missing list or one with fewer than two points
    ensures r.None? <==> points.None? || |points.value| < 2
    ensures r.Some? ==> |r.value.xs| == |points.value| && |r.value.ys| == |points.value|
    ensures r.Some? ==> forall i :: 0 <= i < |points.value| ==>
              r.value.xs[i] == points.value[i].x && r.value.ys[i] == points.value[i].y
    ensures r.Some? && |points.value| < 4 ==> r.value.kind == Linear
    ensures r.Some? && |points.value| >= 4 ==> r.value.kind == Cubic
    ensures r.Some? ==> r.value.kind != Quadratic && !r.value.boundsError
  {
    if points.None? then None
    else
      var numPoints := |points.value|;
      if numPoints < 2 then None
      else
        var (xs, ys) := Unzip(points.value);
        // quadratic interpolation is deliberately not used
        var kind := if numPoints < 4 then Linear else Cubic;
        Some(CurveSpec(xs, ys, kind, false))
  }

  /** The points can be recovered from the interpolator built over them. */
  lemma CurvePointsRecovered(points: seq<Point>)
    requires |points| >= 2
    ensures CreateCurveFunc(Some(points)).Some?
    ensures Zip(CreateCurveFunc(Some(points)).value.xs, CreateCurveFunc(Some(points)).value.ys) == points
  {
    ZipUnzip(points);
  }
}
