/**
 * The request helpers of OhsomeQgis/common/data_extractions_core.py: pairing
 * start and end locations into routes (lines 56-100) and the output field
 * list (lines 103-142). The file's simple GeoJSON splitter is modelled in
 * GeoJsonSplit, its interval reconstructor in Temporal.
 */
module ExtractionsCore {

  /** `itertools.product(xs, ys)`: every pair, the first component varying slowest. */
  function Product<X, Y>(xs: seq<X>, ys: seq<Y>): (r: seq<(X, Y)>)
    ensures |r| == |xs| * |ys|
  {
    if |xs| == 0 then []
    else
      var rest := Product(xs[1..], ys);
      assert |xs| * |ys| == |ys| + (|xs| - 1) * |ys|;
      seq(|ys|, j requires 0 <= j < |ys| => (xs[0], ys[j])) + rest
  }

  /** `zip(xs, ys)`: pairs by position, as long as the shorter input. */
  function Zip<X, Y>(xs: seq<X>, ys: seq<Y>): (r: seq<(X, Y)>)
    ensures |r| == if |xs| < |ys| then |xs| else |ys|
    ensures forall k :: 0 <= k < |r| ==> r[k] == (xs[k], ys[k])
  {
    var n := if |xs| < |ys| then |xs| else |ys|;
    seq(n, k requires 0 <= k < n => (xs[k], ys[k]))
  }

  /**
   * The loop body of lines 92-100 over the zipped location and value pairs:
   * a pair whose start equals its end is skipped, the others are yielded
   * as the list [start, end] with their pair of id values.
   */
  function Routes<P(==), V>(pairs: seq<((P, P), (V, V))>): (r: seq<(seq<P>, (V, V))>)
    ensures |r| <= |pairs|
  {
    if |pairs| == 0 then []
    else
      var rest := Routes(pairs[1..]);
      var ((first, last), values) := pairs[0];
      if first == last then rest else [([first, last], values)] + rest
  }

  /** `get_request_point_features`: zip in "Row-by-Row" mode, every combination otherwise. */
  function PointFeatures<P(==), V>(starts: seq<P>, ends: seq<P>, startValues: seq<V>, endValues: seq<V>,
                                   mode: string): seq<(seq<P>, (V, V))>
  {
    var locations := if mode == "Row-by-Row" then Zip(starts, ends) else Product(starts, ends);
    var values := if mode == "Row-by-Row" then Zip(startValues, endValues) else Product(startValues, endValues);
    Routes(Zip(locations, values))
  }

  /** A route is yielded exactly for the pairs whose ends differ. */
  lemma {:induction false} RoutesMembers<P, V>(pairs: seq<((P, P), (V, V))>, x: (seq<P>, (V, V)))
    ensures x in Routes(pairs) <==>
            exists k :: 0 <= k < |pairs| && pairs[k].0.0 != pairs[k].0.1
                        && x == ([pairs[k].0.0, pairs[k].0.1], pairs[k].1)
  {
    if |pairs| > 0 {
      RoutesMembers(pairs[1..], x);
      if exists k :: 0 <= k < |pairs| && pairs[k].0.0 != pairs[k].0.1
                     && x == ([pairs[k].0.0, pairs[k].0.1], pairs[k].1) {
        var k :| 0 <= k < |pairs| && pairs[k].0.0 != pairs[k].0.1
                 && x == ([pairs[k].0.0, pairs[k].0.1], pairs[k].1);
        if k > 0 {
          assert pairs[1..][k - 1] == pairs[k];
        }
      }
      if exists k :: 0 <= k < |pairs| - 1 && pairs[1..][k].0.0 != pairs[1..][k].0.1
                     && x == ([pairs[1..][k].0.0, pairs[1..][k].0.1], pairs[1..][k].1) {
        var k :| 0 <= k < |pairs| - 1 && pairs[1..][k].0.0 != pairs[1..][k].0.1
                 && x == ([pairs[1..][k].0.0, pairs[1..][k].0.1], pairs[1..][k].1);
        assert pairs[k + 1] == pairs[1..][k];
      }
    }
  }

  /** No yielded route starts where it ends. */
  lemma {:induction false} RoutesProper<P, V>(pairs: seq<((P, P), (V, V))>)
    ensures forall x :: x in Routes(pairs) ==> |x.0| == 2 && x.0[0] != x.0[1]
  {
    forall x | x in Routes(pairs) ensures |x.0| == 2 && x.0[0] != x.0[1] {
      RoutesMembers(pairs, x);
    }
  }

  /** Position `i * |ys| + j` of the product holds `(xs[i], ys[j])`. */
  lemma {:induction false} ProductAt<X, Y>(xs: seq<X>, ys: seq<Y>, i: nat, j: nat)
    requires i < |xs| && j < |ys|
    ensures i * |ys| + j < |Product(xs, ys)| && Product(xs, ys)[i * |ys| + j] == (xs[i], ys[j])
  {
    if i > 0 {
      ProductAt(xs[1..], ys, i - 1, j);
      assert i * |ys| + j == |ys| + ((i - 1) * |ys| + j);
    }
  }

  /** Two products over inputs of the same lengths line up: position `k` holds the same combination in both. */
  lemma {:induction false} ProductsAligned<X, Y, U, W>(xs: seq<X>, ys: seq<Y>, us: seq<U>, vs: seq<W>, k: nat)
    requires |us| == |xs| && |vs| == |ys| && k < |xs| * |ys|
    ensures exists i, j :: 0 <= i < |xs| && 0 <= j < |ys|
                           && Product(xs, ys)[k] == (xs[i], ys[j]) && Product(us, vs)[k] == (us[i], vs[j])
  {
    assert |xs| > 0;
    if k < |ys| {
      assert Product(xs, ys)[k] == (xs[0], ys[k]) && Product(us, vs)[k] == (us[0], vs[k]);
    } else {
      assert |xs| * |ys| == |ys| + (|xs| - 1) * |ys|;
      ProductsAligned(xs[1..], ys, us[1..], vs, k - |ys|);
      var i, j :| 0 <= i < |xs| - 1 && 0 <= j < |ys|
                  && Product(xs[1..], ys)[k - |ys|] == (xs[1..][i], ys[j])
                  && Product(us[1..], vs)[k - |ys|] == (us[1..][i], vs[j]);
      assert Product(xs, ys)[k] == (xs[i + 1], ys[j]) && Product(us, vs)[k] == (us[i + 1], vs[j]);
    }
  }

  /**
   * "Row-by-Row": the i-th start goes with the i-th end (as far as all four
   * lists reach), and a pair is yielded exactly when its ends differ.
   */
  lemma RowByRow<P, V>(starts: seq<P>, ends: seq<P>, startValues: seq<V>, endValues: seq<V>, x: (seq<P>, (V, V)))
    ensures x in PointFeatures(starts, ends, startValues, endValues, "Row-by-Row") <==>
            exists i :: 0 <= i < |starts| && i < |ends| && i < |startValues| && i < |endValues|
                        && starts[i] != ends[i] && x == ([starts[i], ends[i]], (startValues[i], endValues[i]))
  {
    var pairs := Zip(Zip(starts, ends), Zip(startValues, endValues));
    RoutesMembers(pairs, x);
  }

  /**
   * Any other mode: every start with every end, each with its own pair of id
   * values when the value lists are as long as the location lists; pairs
   * with equal ends are skipped.
   */
  lemma AllByAll<P, V>(starts: seq<P>, ends: seq<P>, startValues: seq<V>, endValues: seq<V>, mode: string,
                       x: (seq<P>, (V, V)))
    requires mode != "Row-by-Row"
    requires |startValues| == |starts| && |endValues| == |ends|
    ensures x in PointFeatures(starts, ends, startValues, endValues, mode) <==>
            exists i, j :: 0 <= i < |starts| && 0 <= j < |ends| && starts[i] != ends[j]
                           && x == ([starts[i], ends[j]], (startValues[i], endValues[j]))
  {
    var locations := Product(starts, ends);
    var values := Product(startValues, endValues);
    var pairs := Zip(locations, values);
    RoutesMembers(pairs, x);
    if x in Routes(pairs) {
      var k :| 0 <= k < |pairs| && pairs[k].0.0 != pairs[k].0.1 && x == ([pairs[k].0.0, pairs[k].0.1], pairs[k].1);
      ProductsAligned(starts, ends, startValues, endValues, k);
    }
    if exists i, j :: 0 <= i < |starts| && 0 <= j < |ends| && starts[i] != ends[j]
                      && x == ([starts[i], ends[j]], (startValues[i], endValues[j])) {
      var i, j :| 0 <= i < |starts| && 0 <= j < |ends| && starts[i] != ends[j]
                  && x == ([starts[i], ends[j]], (startValues[i], endValues[j]));
      ProductAt(starts, ends, i, j);
      ProductAt(startValues, endValues, i, j);
      assert pairs[i * |ends| + j] == ((starts[i], ends[j]), (startValues[i], endValues[j]));
    }
  }

  // ---------------------------------------------------------------------
  // get_fields

  /** The QVariant types the field list uses; any other type is carried by its code. */
  datatype VariantType = Double | String | Other(code: int)

  datatype Field = Field(name: string, kind: VariantType)

  /** The five result fields every output layer has (lines 132-137). */
  const ResultFields: seq<Field> := [Field("DIST_KM", Double), Field("DURATION_H", Double),
                                     Field("PROFILE", String), Field("PREF", String), Field("OPTIONS", String)]

  /** The fields `get_fields` appends, in order. */
  function FieldList(fromType: VariantType, toType: VariantType, fromName: string, toName: string, line: bool): seq<Field>
  {
    ResultFields + [Field(fromName, fromType)] + (if line then [] else [Field(toName, toType)])
  }

  /** `get_fields` (lines 103-142). */
  method GetFields(fromType: VariantType := String, toType: VariantType := String,
                   fromName: string := "FROM_ID", toName: string := "TO_ID", line: bool := false)
    returns (fields: seq<Field>)
    ensures fields == FieldList(fromType, toType, fromName, toName, line)
  {
    fields := [];
    fields := fields + [Field("DIST_KM", Double)];
    fields := fields + [Field("DURATION_H", Double)];
    fields := fields + [Field("PROFILE", String)];
    fields := fields + [Field("PREF", String)];
    fields := fields + [Field("OPTIONS", String)];
    fields := fields + [Field(fromName, fromType)];
    if !line {
      fields := fields + [Field(toName, toType)];
    }
  }

  /**
   * Seven fields, or six for a line layer; the from-field always comes sixth
   * and the to-field, when present, last. With id names of their own, no
   * two fields share a name.
   */
  lemma FieldListShape(fromType: VariantType, toType: VariantType, fromName: string, toName: string, line: bool)
    ensures var fields := FieldList(fromType, toType, fromName, toName, line);
            && |fields| == (if line then 6 else 7)
            && fields[..5] == ResultFields
            && fields[5] == Field(fromName, fromType)
            && (!line ==> fields[6] == Field(toName, toType))
    ensures var fields := FieldList(fromType, toType, fromName, toName, line);
            fromName != toName && (forall f :: f in ResultFields ==> f.name != fromName && f.name != toName) ==>
              forall i, j :: 0 <= i < j < |fields| ==> fields[i].name != fields[j].name
  {
  }
}
