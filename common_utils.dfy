/**
 * The small list and string helpers of common/utils.py and
 * OhsomeQgis/utils/datamanager.py: the group-by names of a URL, the
 * duplicate check of a list widget, and the coordinate string of a
 * polygon collection.
 */
module CommonUtils {
  import opened Wrappers
  import opened Strings
  import opened Json

  // ---------------------------------------------------------------------
  // find_groupby_names

  const GroupBy := "groupBy"

  /** The characters `name.strip("/")` removes. */
  const Slash: Strippable := Given({'/'})

  /** `find_groupby_names`: the piece after each `groupBy`, slashes stripped off both ends. */
  function FindGroupByNames(url: string): (names: seq<string>)
    ensures |names| == |Split(url, GroupBy)| - 1
    ensures |names| == 0 <==> !Contains(url, GroupBy)
  {
    var parts := Split(url, GroupBy);
    FindFromContains(url, GroupBy);
    seq(|parts| - 1, k requires 0 <= k < |parts| - 1 => StripWith(parts[k + 1], Slash))
  }

  /** A piece of a string free of `sub` is free of it too. */
  lemma SliceFree(s: string, i: nat, j: nat, sub: string)
    requires i <= j <= |s| && !Contains(s, sub)
    ensures !Contains(s[i..j], sub)
  {
    if Contains(s[i..j], sub) {
      var p :| 0 <= p <= j - i - |sub| && OccursAt(s[i..j], sub, p);
      forall m | 0 <= m < |sub| ensures s[i + p..i + p + |sub|][m] == sub[m] {
        assert s[i..j][p..p + |sub|][m] == sub[m];
      }
      assert s[i + p..i + p + |sub|] == sub;
      assert OccursAt(s, sub, i + p);
    }
  }

  /**
   * Every name is a piece of the URL between two `groupBy`s (or after the
   * last), so it holds no `groupBy` itself, and it neither starts nor ends
   * with a slash.
   */
  lemma GroupByNamesClean(url: string, k: nat)
    requires k < |FindGroupByNames(url)|
    ensures var name := FindGroupByNames(url)[k];
            && !Contains(name, GroupBy)
            && (|name| > 0 ==> name[0] != '/' && name[|name| - 1] != '/')
  {
    var parts := Split(url, GroupBy);
    var part := parts[k + 1];
    SplitPartsFree(url, GroupBy);
    assert !Contains(part, GroupBy);
    var left := StripLeft(part, Slash);
    SliceFree(part, |part| - |left|, |part|, GroupBy);
    assert part[|part| - |left|..|part|] == left;
    var name := StripRight(left, Slash);
    SliceFree(left, 0, |name|, GroupBy);
    assert left[0..|name|] == name;
    StripEnds(part, Slash);
  }

  /**
   * The URL of a grouped request, `<path>groupBy/<name>` with `groupBy`
   * occurring once, gives back exactly that name when it has no slash at
   * either end.
   */
  lemma GroupByNamesOfUrl(path: string, name: string)
    requires OnlyAt(path + GroupBy + "/" + name, GroupBy, |path|)
    requires |name| > 0 ==> name[0] != '/' && name[|name| - 1] != '/'
    ensures FindGroupByNames(path + GroupBy + "/" + name) == [name]
  {
    var url := path + GroupBy + "/" + name;
    SplitOnlyAt(url, GroupBy, |path|);
    assert url[|path| + |GroupBy|..] == "/" + name + "";
    StripExact("/", name, "", Slash);
  }

  // ---------------------------------------------------------------------
  // check_list_duplicates

  /**
   * `check_list_duplicates` (common/utils.py and OhsomeQgis/utils/datamanager.py):
   * scans the item texts and answers True at the first one equal to the name.
   */
  method CheckListDuplicates(items: seq<string>, itemName: string) returns (found: bool)
    ensures found <==> itemName in items
  {
    var i := 0;
    while i < |items|
      invariant i <= |items|
      invariant itemName !in items[..i]
    {
      if items[i] == itemName {
        return true;
      }
      assert items[..i + 1] == items[..i] + [items[i]];
      i := i + 1;
    }
    assert items[..i] == items;
    return false;
  }

  predicate NoDuplicates(items: seq<string>)
  {
    forall i, j :: 0 <= i < j < |items| ==> items[i] != items[j]
  }

  /** The list after the dialog adds a name only when the check finds none. */
  function AddUnlisted(items: seq<string>, itemName: string): seq<string>
  {
    if itemName in items then items else items + [itemName]
  }

  /**
   * Guarding every addition with the duplicate check keeps the list free of
   * duplicates, and the name is listed afterwards.
   */
  lemma AddUnlistedKeepsDistinct(items: seq<string>, itemName: string)
    requires NoDuplicates(items)
    ensures NoDuplicates(AddUnlisted(items, itemName))
    ensures itemName in AddUnlisted(items, itemName)
  {
    if itemName !in items {
      var r := items + [itemName];
      forall i, j | 0 <= i < j < |r| ensures r[i] != r[j] {
        if j == |items| {
          assert r[i] == items[i];
        }
      }
    }
  }

  // ---------------------------------------------------------------------
  // format_coordinates

  /** One position: its coordinate values as `str` renders them. */
  type Position = seq<string>

  type Ring = seq<Position>

  /** A feature's geometry, as far as `format_coordinates` looks at it. */
  datatype Geometry =
    | Polygon(rings: seq<Ring>)
    | MultiPolygon(polygons: seq<seq<Ring>>)
    | OtherGeometry
    | NullGeometry

  predicate IsPosition(c: Position) { |c| >= 2 }

  /** `str(c[0]) + "," + str(c[1])` for every position of a well-formed ring. */
  function PairTexts(ring: Ring): (r: seq<string>)
    requires forall k :: 0 <= k < |ring| ==> IsPosition(ring[k])
    ensures |r| == |ring|
  {
    if ring == [] then []
    else
      assert IsPosition(ring[0]);
      [ring[0][0] + "," + ring[0][1]] + PairTexts(ring[1..])
  }

  /** A ring's text: the pairs joined by commas; a position with fewer than two values raises IndexError. */
  function RingText(ring: Ring): (r: Result<string, PyError>)
    ensures r.Success? <==> forall k :: 0 <= k < |ring| ==> IsPosition(ring[k])
    ensures r.Failure? ==> r.error == IndexError
  {
    if forall k :: 0 <= k < |ring| ==> IsPosition(ring[k]) then Success(Join(",", PairTexts(ring)))
    else Failure(IndexError)
  }

  /** The texts of several rings, failing at the first ill-formed one. */
  function RingTexts(rings: seq<Ring>): (r: Result<seq<string>, PyError>)
    ensures r.Success? <==> forall k :: 0 <= k < |rings| ==> RingText(rings[k]).Success?
    ensures r.Failure? ==> r.error == IndexError
    ensures r.Success? ==> |r.value| == |rings|
    ensures r.Success? ==> forall k :: 0 <= k < |rings| ==> RingText(rings[k]) == Success(r.value[k])
  {
    if rings == [] then Success([])
    else
      var init := rings[..|rings| - 1];
      match RingTexts(init)
      case Failure(e) => Failure(e)
      case Success(texts) =>
        match RingText(rings[|rings| - 1])
        case Failure(e) => Failure(e)
        case Success(t) => Success(texts + [t])
  }

  /** How many ring texts a geometry contributes. */
  function Pieces(g: Geometry): nat
  {
    match g
    case Polygon(_) => 1
    case MultiPolygon(polygons) => if |polygons| == 0 then 0 else |polygons[0]|
    case _ => 0
  }

  /**
   * The ring texts of one feature: a Polygon's outer ring, every ring of a
   * MultiPolygon's first polygon, nothing for any other type. An empty
   * coordinate list raises IndexError and a null geometry TypeError.
   */
  function GeometryStrings(g: Geometry): (r: Result<seq<string>, PyError>)
    ensures r.Success? ==> |r.value| == Pieces(g)
    ensures g.OtherGeometry? ==> r == Success([])
    ensures g.NullGeometry? ==> r == Failure(TypeError)
    ensures g.Polygon? ==> (r.Success? <==> |g.rings| > 0 && RingText(g.rings[0]).Success?)
    ensures g.MultiPolygon? ==> (r.Success? <==> |g.polygons| > 0 && RingTexts(g.polygons[0]).Success?)
  {
    match g
    case Polygon(rings) =>
      if |rings| == 0 then Failure(IndexError)
      else (match RingText(rings[0]) case Failure(e) => Failure(e) case Success(t) => Success([t]))
    case MultiPolygon(polygons) =>
      if |polygons| == 0 then Failure(IndexError) else RingTexts(polygons[0])
    case OtherGeometry => Success([])
    case NullGeometry => Failure(TypeError)
  }

  /** The ring texts of all features in order, failing at the first feature that raises. */
  function FeatureStrings(features: seq<Geometry>): (r: Result<seq<string>, PyError>)
    ensures r.Success? <==> forall k :: 0 <= k < |features| ==> GeometryStrings(features[k]).Success?
  {
    if features == [] then Success([])
    else
      var init := features[..|features| - 1];
      assert forall k :: 0 <= k < |init| ==> init[k] == features[k];
      match FeatureStrings(init)
      case Failure(e) => Failure(e)
      case Success(texts) =>
        match GeometryStrings(features[|features| - 1])
        case Failure(e) => Failure(e)
        case Success(more) => Success(texts + more)
  }

  /** `format_coordinates`: all ring texts joined by `|`. */
  function FormatCoordinatesSpec(features: seq<Geometry>): Result<string, PyError>
  {
    match FeatureStrings(features)
    case Failure(e) => Failure(e)
    case Success(texts) => Success(Join("|", texts))
  }

  /** The loop over a MultiPolygon's first polygon, appending one text per ring. */
  method AppendRings(texts: seq<string>, rings: seq<Ring>) returns (r: Result<seq<string>, PyError>)
    ensures r == (match RingTexts(rings) case Failure(e) => Failure(e) case Success(more) => Success(texts + more))
  {
    var acc := texts;
    ghost var more: seq<string> := [];
    var i := 0;
    while i < |rings|
      invariant i <= |rings|
      invariant RingTexts(rings[..i]) == Success(more)
      invariant acc == texts + more
    {
      assert rings[..i + 1][..i] == rings[..i];
      assert rings[..i + 1][i] == rings[i];
      var t := RingText(rings[i]);
      if t.Failure? {
        assert !RingTexts(rings).Success?;
        return Failure(IndexError);
      }
      acc := acc + [t.value];
      more := more + [t.value];
      i := i + 1;
    }
    assert rings[..i] == rings;
    return Success(acc);
  }

  /** One pass of the loop: the texts of one feature appended, or the error it raises. */
  method AppendGeometry(texts: seq<string>, g: Geometry) returns (r: Result<seq<string>, PyError>)
    ensures r == (match GeometryStrings(g) case Failure(e) => Failure(e) case Success(more) => Success(texts + more))
  {
    match g {
      case Polygon(rings) =>
        if |rings| == 0 {
          return Failure(IndexError);
        }
        var t := RingText(rings[0]);
        if t.Failure? {
          return Failure(t.error);
        }
        return Success(texts + [t.value]);
      case MultiPolygon(polygons) =>
        if |polygons| == 0 {
          return Failure(IndexError);
        }
        r := AppendRings(texts, polygons[0]);
      case OtherGeometry =>
        assert texts + [] == texts;
        return Success(texts);
      case NullGeometry =>
        return Failure(TypeError);
    }
  }

  /** FeatureStrings of one more feature. */
  lemma FeatureStringsStep(features: seq<Geometry>, i: nat)
    requires i < |features|
    ensures FeatureStrings(features[..i + 1])
            == match FeatureStrings(features[..i])
               case Failure(e) => Failure(e)
               case Success(texts) =>
                 (match GeometryStrings(features[i]) case Failure(e) => Failure(e) case Success(more) => Success(texts + more))
  {
    assert features[..i + 1][..i] == features[..i];
    assert features[..i + 1][i] == features[i];
  }

  /**
   * `format_coordinates` (common/utils.py:37-62): the loop over the
   * features, the outer ring of each Polygon and each ring of each
   * MultiPolygon's first polygon appended, the texts joined by `|`.
   */
  method FormatCoordinates(features: seq<Geometry>) returns (r: Result<string, PyError>)
    ensures r == FormatCoordinatesSpec(features)
  {
    var geometryStrings: seq<string> := [];
    var i := 0;
    while i < |features|
      invariant i <= |features|
      invariant FeatureStrings(features[..i]) == Success(geometryStrings)
    {
      FeatureStringsStep(features, i);
      var step := AppendGeometry(geometryStrings, features[i]);
      if step.Failure? {
        FailureSticks(features, i + 1);
        return Failure(step.error);
      }
      geometryStrings := step.value;
      i := i + 1;
    }
    assert features[..i] == features;
    return Success(Join("|", geometryStrings));
  }

  /** A failure in a prefix is the failure of the whole list. */
  lemma {:induction false} FailureSticks(features: seq<Geometry>, n: nat)
    requires n <= |features| && FeatureStrings(features[..n]).Failure?
    ensures FeatureStrings(features) == FeatureStrings(features[..n])
    decreases |features| - n
  {
    if n < |features| {
      FeatureStringsStep(features, n);
      FailureSticks(features, n + 1);
    } else {
      assert features[..n] == features;
    }
  }

  // ---------------------------------------------------------------------
  // Reading the coordinate string back

  /** The coordinate values of a ring in order, two per position. */
  function Flat(ring: Ring): (r: seq<string>)
    requires forall k :: 0 <= k < |ring| ==> IsPosition(ring[k])
    ensures |r| == 2 * |ring|
  {
    if ring == [] then []
    else
      assert IsPosition(ring[0]);
      [ring[0][0], ring[0][1]] + Flat(ring[1..])
  }

  /** Joining the pairs with commas is joining the values with commas. */
  lemma {:induction false} PairsAreFlat(ring: Ring)
    requires |ring| > 0 && forall k :: 0 <= k < |ring| ==> IsPosition(ring[k])
    ensures Join(",", PairTexts(ring)) == Join(",", Flat(ring))
    decreases |ring|
  {
    var x, y := ring[0][0], ring[0][1];
    var flat := Flat(ring);
    assert flat[1..] == [y] + Flat(ring[1..]);
    if |ring| == 1 {
      assert Join(",", flat[1..]) == y;
    } else {
      PairsAreFlat(ring[1..]);
      assert ([y] + Flat(ring[1..]))[1..] == Flat(ring[1..]);
      assert Join(",", flat[1..]) == y + "," + Join(",", Flat(ring[1..]));
    }
  }

  /** No value of a ring holds the character `c`. */
  predicate RingFree(ring: Ring, c: char)
  {
    forall k, m :: 0 <= k < |ring| && 0 <= m < |ring[k]| ==> c !in ring[k][m]
  }

  lemma {:induction false} FlatFree(ring: Ring, c: char)
    requires forall k :: 0 <= k < |ring| ==> IsPosition(ring[k])
    requires RingFree(ring, c)
    ensures forall k :: 0 <= k < |Flat(ring)| ==> c !in Flat(ring)[k]
    decreases |ring|
  {
    if ring != [] {
      assert RingFree(ring[1..], c) by {
        forall k, m | 0 <= k < |ring| - 1 && 0 <= m < |ring[1..][k]| ensures c !in ring[1..][k][m] {
          assert ring[1..][k] == ring[k + 1];
        }
      }
      FlatFree(ring[1..], c);
      assert c !in ring[0][0] && c !in ring[0][1];
    }
  }

  /**
   * A ring text splits back at its commas into the ring's coordinate
   * values, two per position, when no value holds a comma (as no float
   * rendering does).
   */
  lemma RingTextRoundTrip(ring: Ring)
    requires |ring| > 0 && RingText(ring).Success? && RingFree(ring, ',')
    ensures Split(RingText(ring).value, ",") == Flat(ring)
  {
    PairsAreFlat(ring);
    FlatFree(ring, ',');
    SplitJoin(',', Flat(ring));
  }

  /** A join holds a character only when the separator or some part does. */
  lemma {:induction false} JoinFree(sep: string, parts: seq<string>, c: char)
    requires c !in sep && forall k :: 0 <= k < |parts| ==> c !in parts[k]
    ensures c !in Join(sep, parts)
    decreases |parts|
  {
    if |parts| > 1 {
      JoinFree(sep, parts[1..], c);
    }
  }

  /** No coordinate value of any ring of any feature holds the character `c`. */
  predicate GeometryFree(g: Geometry, c: char)
  {
    match g
    case Polygon(rings) => forall k :: 0 <= k < |rings| ==> RingFree(rings[k], c)
    case MultiPolygon(polygons) =>
      forall p, k :: 0 <= p < |polygons| && 0 <= k < |polygons[p]| ==> RingFree(polygons[p][k], c)
    case _ => true
  }

  /** The ring text of a ring whose values lack `c` lacks `c` too, unless `c` is the comma. */
  lemma RingTextFree(ring: Ring, c: char)
    requires c != ',' && RingFree(ring, c) && RingText(ring).Success?
    ensures c !in RingText(ring).value
  {
    if |ring| > 0 {
      PairsAreFlat(ring);
      FlatFree(ring, c);
      JoinFree(",", Flat(ring), c);
    }
  }

  lemma {:induction false} RingTextsFree(rings: seq<Ring>, c: char)
    requires c != ',' && RingTexts(rings).Success?
    requires forall k :: 0 <= k < |rings| ==> RingFree(rings[k], c)
    ensures forall k :: 0 <= k < |RingTexts(rings).value| ==> c !in RingTexts(rings).value[k]
  {
    forall k | 0 <= k < |rings| ensures c !in RingTexts(rings).value[k] {
      RingTextFree(rings[k], c);
    }
  }

  lemma {:induction false} FeatureStringsFree(features: seq<Geometry>, c: char)
    requires c != ',' && FeatureStrings(features).Success?
    requires forall k :: 0 <= k < |features| ==> GeometryFree(features[k], c)
    ensures forall k :: 0 <= k < |FeatureStrings(features).value| ==> c !in FeatureStrings(features).value[k]
    decreases |features|
  {
    if features != [] {
      var init := features[..|features| - 1];
      var g := features[|features| - 1];
      FeatureStringsFree(init, c);
      match g
      case Polygon(rings) => RingTextFree(rings[0], c);
      case MultiPolygon(polygons) => RingTextsFree(polygons[0], c);
      case _ =>
    }
  }

  /**
   * The `|`-joined string splits back at its bars into exactly the ring
   * texts, one per contributed ring, when no coordinate value holds a bar.
   */
  lemma FormatRoundTrip(features: seq<Geometry>)
    requires FeatureStrings(features).Success? && |FeatureStrings(features).value| > 0
    requires forall k :: 0 <= k < |features| ==> GeometryFree(features[k], '|')
    ensures Split(FormatCoordinatesSpec(features).value, "|") == FeatureStrings(features).value
  {
    FeatureStringsFree(features, '|');
    SplitJoin('|', FeatureStrings(features).value);
  }

  /** The number of ring texts is the sum of what each feature contributes. */
  function TotalPieces(features: seq<Geometry>): nat
  {
    if features == [] then 0 else TotalPieces(features[..|features| - 1]) + Pieces(features[|features| - 1])
  }

  lemma {:induction false} FeatureStringsCount(features: seq<Geometry>)
    requires FeatureStrings(features).Success?
    ensures |FeatureStrings(features).value| == TotalPieces(features)
    decreases |features|
  {
    if features != [] {
      FeatureStringsCount(features[..|features| - 1]);
    }
  }
}
