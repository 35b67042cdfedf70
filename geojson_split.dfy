/**
 * Splitting a decoded GeoJSON response into one FeatureCollection per
 * geometry type, as the extraction task does before it writes layers
 * (OhsomeQgis/common/request_core.py:106-176), together with the simpler
 * copy in OhsomeQgis/common/data_extractions_core.py:155-172 and
 * `convert_mixed_collection` (common/utils.py:338-353).
 *
 * Feature objects are values here: the mutation the source applies to
 * them in place (the `properties` given to GeometryCollection members,
 * the `features` popped from a nested collection) shows in what the
 * splitter returns, not in other references to the same objects.
 */
module GeoJsonSplit {
  import opened Wrappers
  import opened Json
  import opened Buckets

  const GeometryCollection: Json := Str("GeometryCollection")

  /** What the as-written splitter raises: its own GeometryError, or a Python error outside its `try`. */
  datatype SplitError = GeometryError | Raised(error: PyError)

  /** The splitter returns a dict (per-geometry buckets, or `{}`) or a list of collections. */
  datatype Answer = PerType(buckets: Buckets) | Collections(collections: seq<Json>)

  /**
   * Where the features come from (lines 114-121): the popped `features`
   * member, else `geometry.geometries`, else `geometries`; `None` is the
   * `return {}` case. The fields are the input's members afterwards.
   */
  function Select(geojson: Json): (r: Result<Option<(Json, Fields)>, PyError>)
    ensures !geojson.Obj? ==> r == Failure(AttributeError)
    ensures r.Success? && r.value.Some? ==> Size(r.value.value.0) < Size(geojson)
    ensures r.Success? && r.value.Some? ==> Truthy(r.value.value.0)
    ensures r.Failure? && geojson.Obj? ==> r.error != KeyError
  {
    match geojson
    case Obj(fields) =>
      var features := Get(geojson, "features").value;
      if Truthy(features) then
        GetSmaller(geojson, "features");
        Success(Some((features, RemoveField(fields, "features"))))
      else
        var geometry := Get(geojson, "geometry").value;
        if Truthy(geometry) && Get(geometry, "geometries").Failure? then
          Failure(AttributeError)
        else if Truthy(geometry) && Truthy(Get(geometry, "geometries").value) then
          GetSmaller(geojson, "geometry");
          GetSmaller(geometry, "geometries");
          Success(Some((Get(geometry, "geometries").value, fields)))
        else
          var geometries := Get(geojson, "geometries").value;
          if Truthy(geometries) && Len(geometries).Failure? then Failure(TypeError)
          else if Truthy(geometries) then
            GetSmaller(geojson, "geometries");
            Success(Some((geometries, fields)))
          else Success(None)
    case _ => Failure(AttributeError)
  }

  /**
   * The key a feature is bucketed under (lines 124-129): the type of its
   * geometry when it has a non-null one, else its own non-null `type`, else
   * none (the feature is skipped). Errors are the Python errors of the
   * lookups, which the caller turns into GeometryError.
   */
  function TypeOf(feature: Json): Result<Option<Json>, PyError>
  {
    match In("geometry", feature)
    case Failure(e) => Failure(e)
    case Success(hasGeometry) =>
      var geometry := if hasGeometry then Index(feature, "geometry") else Success(Null);
      if geometry.Failure? then Failure(geometry.error)
      else if geometry.value != Null then
        match Index(geometry.value, "type")
        case Failure(e) => Failure(e)
        case Success(t) => Success(Some(t))
      else
        match In("type", feature)
        case Failure(e) => Failure(e)
        case Success(hasType) =>
          if !hasType then Success(None)
          else
            match Index(feature, "type")
            case Failure(e) => Failure(e)
            case Success(t) => if t == Null then Success(None) else Success(Some(t))
  }

  /**
   * `sub_feature["properties"] = feature["properties"]` for each member of
   * one bucket of a GeometryCollection (lines 137-138); `properties` is the
   * parent's lookup, evaluated once per member.
   */
  function WithProperties(subs: seq<Json>, properties: Result<Json, PyError>): (r: Result<seq<Json>, PyError>)
    ensures r.Success? ==> |r.value| == |subs|
    ensures r.Success? ==> forall x :: x in r.value ==> Index(x, "properties") == properties
  {
    if |subs| == 0 then Success([])
    else
      match properties
      case Failure(e) => Failure(e)
      case Success(p) =>
        match Assign(subs[0], "properties", p)
        case Failure(e) => Failure(e)
        case Success(s) =>
          match WithProperties(subs[1..], properties)
          case Failure(e) => Failure(e)
          case Success(rest) => Success([s] + rest)
  }

  /** The members of a GeometryCollection, bucket by bucket, moved into the outer buckets (lines 136-144). */
  function Absorb(b: Buckets, inner: Buckets, properties: Result<Json, PyError>): Result<Buckets, PyError>
    decreases |inner|
  {
    if |inner| == 0 then Success(b)
    else
      match WithProperties(inner[0].1, properties)
      case Failure(e) => Failure(e)
      case Success(subs) => Absorb(Extend(b, inner[0].0, subs), inner[1..], properties)
  }

  /**
   * One pass of the loop body (lines 123-152) on the buckets and the
   * `return_features_per_geometry` flag, which a GeometryCollection resets.
   */
  function Step(bound: nat, feature: Json, b: Buckets, perGeometry: bool): (r: Result<(Buckets, bool), SplitError>)
    requires Size(feature) < bound
    ensures r.Failure? ==> r.error == GeometryError
    ensures r.Success? && r.value.1 ==> perGeometry
    decreases bound, 0, 0
  {
    match TypeOf(feature)
    case Failure(_) => Failure(GeometryError)
    case Success(None) => Success((b, perGeometry))
    case Success(Some(t)) =>
      if t == GeometryCollection then
        match Split(feature, true, false, false)
        case Failure(_) => Failure(GeometryError)
        case Success((PerType(inner), _)) =>
          (match Absorb(b, inner, Index(feature, "properties"))
           case Failure(_) => Failure(GeometryError)
           case Success(b') => Success((b', false)))
        case Success((Collections(cs), _)) =>
          // iterating the list yields dicts, and a list indexed by a dict raises TypeError
          if |cs| == 0 then Success((b, false)) else Failure(GeometryError)
      else if Hashable(t) then Success((Extend(b, t, [feature]), perGeometry))
      else Failure(GeometryError)
  }

  /** The loop over the features from position `i` on. */
  function FoldFrom(bound: nat, items: seq<Json>, i: nat, b: Buckets, perGeometry: bool): (r: Result<(Buckets, bool), SplitError>)
    requires i <= |items|
    requires forall e :: e in items ==> Size(e) < bound
    ensures r.Failure? ==> r.error == GeometryError
    ensures r.Success? && r.value.1 ==> perGeometry
    decreases bound, 0, |items| - i
  {
    if i == |items| then Success((b, perGeometry))
    else
      match Step(bound, items[i], b, perGeometry)
      case Failure(e) => Failure(e)
      case Success((b', flag)) => FoldFrom(bound, items, i + 1, b', flag)
  }

  /** One collection per bucket: a shallow copy of the input's members with `features` set (lines 170-173). */
  function Copies(rest: Fields, b: Buckets): (r: seq<Json>)
    ensures |r| == |b|
    ensures forall k :: 0 <= k < |b| ==> r[k].Obj? && Index(r[k], "features") == Success(Arr(b[k].1))
    ensures forall k, key :: 0 <= k < |b| && key != "features" ==> Lookup(r[k].fields, key) == Lookup(rest, key)
  {
    seq(|b|, k requires 0 <= k < |b| => WithFeatures(rest, b[k].1))
  }

  /** A copy of a dict's members with `features` set to the given list. */
  function WithFeatures(fields: Fields, features: seq<Json>): (r: Json)
    ensures r.Obj? && Index(r, "features") == Success(Arr(features))
    ensures forall key :: key != "features" ==> Lookup(r.fields, key) == Lookup(fields, key)
  {
    Obj(SetField(fields, "features", Arr(features)))
  }

  /** `if all(i in d for i in [single, multi])`: pop the single bucket and extend the Multi one (lines 158-169). */
  function Merge(b: Buckets, single: string, multi: string): Buckets
  {
    if Find(b, Str(single)).Some? && Find(b, Str(multi)).Some? then
      Extend(Pop(b, Str(single)), Str(multi), Members(b, Str(single)))
    else b
  }

  function MergeSingles(b: Buckets): Buckets
  {
    Merge(Merge(Merge(b, "Polygon", "MultiPolygon"), "Point", "MultiPoint"), "LineString", "MultiLineString")
  }

  /** The `"Feature"` bucket is dropped when it is non-empty and geometry-less features are not kept (lines 155-156). */
  function DropGeometryLess(b: Buckets, keepGeometryLess: bool): Buckets
  {
    if !keepGeometryLess && |Members(b, Str("Feature"))| > 0 then Pop(b, Str("Feature")) else b
  }

  /** What the splitter returns once the loop is done (lines 153-175). */
  function Finish(b: Buckets, perGeometry: bool, rest: Fields, keepGeometryLess: bool, combine: bool): Answer
  {
    if perGeometry then PerType(b)
    else
      var kept := DropGeometryLess(b, keepGeometryLess);
      Collections(Copies(rest, if combine then MergeSingles(kept) else kept))
  }

  /**
   * `split_geojson_by_geometry` as written in request_core.py: the answer
   * and the input as the `pop` of line 115 leaves it.
   */
  function Split(geojson: Json, perGeometry: bool, keepGeometryLess: bool, combine: bool): (r: Result<(Answer, Json), SplitError>)
    ensures r.Failure? ==> r.error == GeometryError || r.error == Raised(AttributeError) || r.error == Raised(TypeError)
    decreases Size(geojson), 1, 0
  {
    match Select(geojson)
    case Failure(e) => Failure(Raised(e))
    case Success(None) => Success((PerType([]), geojson))
    case Success(Some((features, rest))) =>
      match Iterate(features)
      case Failure(e) => Failure(Raised(e))
      case Success(items) =>
        IterateSmaller(features);
        match FoldFrom(Size(geojson), items, 0, [], perGeometry)
        case Failure(e) => Failure(e)
        case Success((b, flag)) => Success((Finish(b, flag, rest, keepGeometryLess, combine), Obj(rest)))
  }

  /**
   * Called with `return_features_per_geometry` False, as the dispatcher does,
   * the splitter answers with a list of collections whenever it found
   * features, and with `{}` otherwise: the flag is never turned on.
   */
  lemma SplitOffAnswersList(geojson: Json, keepGeometryLess: bool, combine: bool)
    requires Split(geojson, false, keepGeometryLess, combine).Success?
    ensures var answer := Split(geojson, false, keepGeometryLess, combine).value.0;
            && (answer.Collections? <==> Select(geojson).value.Some?)
            && (answer.PerType? ==> answer.buckets == [])
  {
  }

  /**
   * The bucketing rule of lines 124-129 on a dict feature, restated with
   * `get`: a geometry that is present and not None decides, by its `type`;
   * otherwise the feature's own `type`, if not None; otherwise the feature
   * is skipped. A null-geometry Feature therefore lands under "Feature".
   */
  lemma BucketKeyRule(fields: Fields)
    ensures var geometry := Get(Obj(fields), "geometry").value;
            geometry != Null ==>
              TypeOf(Obj(fields)) == match Index(geometry, "type")
                                     case Success(t) => Success(Some(t))
                                     case Failure(e) => Failure(e)
    ensures var geometry := Get(Obj(fields), "geometry").value;
            var t := Get(Obj(fields), "type").value;
            geometry == Null ==> TypeOf(Obj(fields)) == if t == Null then Success(None) else Success(Some(t))
  {
  }

  /** The key of a feature that is bucketed directly: a dict key that is not "GeometryCollection". */
  function PlainKey(feature: Json): Option<Json>
  {
    match TypeOf(feature)
    case Success(Some(t)) => if t != GeometryCollection && Hashable(t) then Some(t) else None
    case _ => None
  }

  /** With only directly bucketed features, the loop is the grouping by their keys. */
  lemma {:induction false} FoldPlain(bound: nat, items: seq<Json>, i: nat, perGeometry: bool)
    requires i <= |items|
    requires forall e :: e in items ==> Size(e) < bound
    requires forall e :: e in items ==> PlainKey(e).Some?
    ensures FoldFrom(bound, items, i, GroupBy(items[..i], PlainKey), perGeometry)
            == Success((GroupBy(items, PlainKey), perGeometry))
    decreases |items| - i
  {
    if i < |items| {
      GroupByGroups(items[..i], PlainKey);
      GroupByStep(items, i, PlainKey);
      FoldPlain(bound, items, i + 1, perGeometry);
    } else {
      assert items[..i] == items;
    }
  }

  /**
   * Without GeometryCollections and without unusable features, the collections
   * are the input's features regrouped by type (lines 122-173): the loop's
   * buckets are exactly the grouping of the features, each holding the
   * features of its type in input order.
   */
  lemma Regrouped(geojson: Json, keepGeometryLess: bool, combine: bool)
    requires Select(geojson).Success? && Select(geojson).value.Some?
    requires Iterate(Select(geojson).value.value.0).Success?
    requires forall e :: e in Iterate(Select(geojson).value.value.0).value ==> PlainKey(e).Some?
    ensures var (features, rest) := Select(geojson).value.value;
            var items := Iterate(features).value;
            && GroupsOf(GroupBy(items, PlainKey), items, PlainKey)
            && Split(geojson, false, keepGeometryLess, combine)
               == Success((Finish(GroupBy(items, PlainKey), false, rest, keepGeometryLess, combine), Obj(rest)))
  {
    var (features, rest) := Select(geojson).value.value;
    var items := Iterate(features).value;
    IterateSmaller(features);
    GroupByGroups(items, PlainKey);
    FoldPlain(Size(geojson), items, 0, false);
  }

  /** Unless geometry-less features are kept, no non-empty "Feature" bucket survives; nothing else changes. */
  lemma DropGeometryLessMembers(b: Buckets, keepGeometryLess: bool)
    requires Distinct(b)
    ensures Distinct(DropGeometryLess(b, keepGeometryLess))
    ensures keepGeometryLess ==> DropGeometryLess(b, keepGeometryLess) == b
    ensures !keepGeometryLess ==> Members(DropGeometryLess(b, keepGeometryLess), Str("Feature")) == []
    ensures forall k :: !KeyEq(k, Str("Feature")) ==> Members(DropGeometryLess(b, keepGeometryLess), k) == Members(b, k)
  {
    PopMembers(b, Str("Feature"));
  }

  /**
   * Merging happens only when both buckets exist: the single-type list is
   * then appended to the Multi list and its key removed; a lone bucket of
   * either kind is left as it is.
   */
  lemma MergeMembers(b: Buckets, single: string, multi: string)
    requires Distinct(b) && single != multi
    ensures Distinct(Merge(b, single, multi))
    ensures !(Find(b, Str(single)).Some? && Find(b, Str(multi)).Some?) ==> Merge(b, single, multi) == b
    ensures Find(b, Str(single)).Some? && Find(b, Str(multi)).Some? ==>
              && Members(Merge(b, single, multi), Str(single)) == []
              && Members(Merge(b, single, multi), Str(multi)) == Members(b, Str(multi)) + Members(b, Str(single))
              && forall k :: !KeyEq(k, Str(single)) && !KeyEq(k, Str(multi)) ==>
                               Members(Merge(b, single, multi), k) == Members(b, k)
  {
    if Find(b, Str(single)).Some? && Find(b, Str(multi)).Some? {
      var popped := Pop(b, Str(single));
      PopMembers(b, Str(single));
      ExtendMembers(popped, Str(multi), Members(b, Str(single)));
    }
  }

  /** No bucket is keyed by "GeometryCollection". */
  predicate NoCollectionKey(b: Buckets)
  {
    forall i :: 0 <= i < |b| ==> !KeyEq(b[i].0, GeometryCollection)
  }

  /** Every feature in `xs` carries the given `properties` lookup. */
  predicate Carry(xs: seq<Json>, properties: Result<Json, PyError>)
  {
    forall x :: x in xs ==> Index(x, "properties") == properties
  }

  /** Absorbing a collection's buckets only appends, and everything appended carries the parent's properties. */
  lemma {:induction false} AbsorbMembers(b: Buckets, inner: Buckets, properties: Result<Json, PyError>)
    requires Distinct(b) && NoCollectionKey(b) && NoCollectionKey(inner)
    requires Absorb(b, inner, properties).Success?
    ensures Distinct(Absorb(b, inner, properties).value)
    ensures NoCollectionKey(Absorb(b, inner, properties).value)
    ensures forall k :: Members(b, k) <= Members(Absorb(b, inner, properties).value, k)
    ensures forall k :: Carry(Members(Absorb(b, inner, properties).value, k)[|Members(b, k)|..], properties)
    decreases |inner|
  {
    if |inner| > 0 {
      var subs := WithProperties(inner[0].1, properties).value;
      var b' := Extend(b, inner[0].0, subs);
      ExtendMembers(b, inner[0].0, subs);
      AbsorbMembers(b', inner[1..], properties);
      var r := Absorb(b', inner[1..], properties).value;
      assert NoCollectionKey(b');
      forall k
        ensures Members(b, k) <= Members(r, k)
        ensures Carry(Members(r, k)[|Members(b, k)|..], properties)
      {
        CarryAppended(Members(b, k), Members(b', k), Members(r, k),
                      if KeyEq(inner[0].0, k) then subs else [], properties);
      }
    }
  }

  lemma CarryAppended(before: seq<Json>, middle: seq<Json>, after: seq<Json>, added: seq<Json>,
                      properties: Result<Json, PyError>)
    requires middle == before + added && middle <= after
    requires Carry(added, properties) && Carry(after[|middle|..], properties)
    ensures before <= after && Carry(after[|before|..], properties)
  {
    assert after[|before|..] == added + after[|middle|..];
  }

  /**
   * A GeometryCollection is never a bucket of its own (lines 130-144): the
   * splitter's dict never has that key, whatever the nesting.
   */
  lemma {:induction false} SplitKeys(geojson: Json, perGeometry: bool, keepGeometryLess: bool, combine: bool)
    requires Split(geojson, perGeometry, keepGeometryLess, combine).Success?
    requires Split(geojson, perGeometry, keepGeometryLess, combine).value.0.PerType?
    ensures Distinct(Split(geojson, perGeometry, keepGeometryLess, combine).value.0.buckets)
    ensures NoCollectionKey(Split(geojson, perGeometry, keepGeometryLess, combine).value.0.buckets)
    decreases Size(geojson), 1, 0
  {
    match Select(geojson)
    case Success(Some((features, rest))) =>
      IterateSmaller(features);
      FoldKeys(Size(geojson), Iterate(features).value, 0, [], perGeometry);
    case _ =>
  }

  /** The loop keeps the dict's keys distinct and never adds "GeometryCollection". */
  lemma {:induction false} FoldKeys(bound: nat, items: seq<Json>, i: nat, b: Buckets, perGeometry: bool)
    requires i <= |items|
    requires forall e :: e in items ==> Size(e) < bound
    requires Distinct(b) && NoCollectionKey(b)
    requires FoldFrom(bound, items, i, b, perGeometry).Success?
    ensures Distinct(FoldFrom(bound, items, i, b, perGeometry).value.0)
    ensures NoCollectionKey(FoldFrom(bound, items, i, b, perGeometry).value.0)
    decreases bound, 0, |items| - i
  {
    if i < |items| {
      StepKeys(bound, items[i], b, perGeometry);
      var (b', flag) := Step(bound, items[i], b, perGeometry).value;
      FoldKeys(bound, items, i + 1, b', flag);
    }
  }

  /**
   * One feature: keys stay distinct and never "GeometryCollection"; a
   * GeometryCollection resets `return_features_per_geometry` and only appends
   * its members, each of which receives the parent's `properties`.
   */
  lemma {:induction false} StepKeys(bound: nat, feature: Json, b: Buckets, perGeometry: bool)
    requires Size(feature) < bound
    requires Distinct(b) && NoCollectionKey(b)
    requires Step(bound, feature, b, perGeometry).Success?
    ensures Distinct(Step(bound, feature, b, perGeometry).value.0)
    ensures NoCollectionKey(Step(bound, feature, b, perGeometry).value.0)
    ensures TypeOf(feature) == Success(Some(GeometryCollection)) ==>
              var b' := Step(bound, feature, b, perGeometry).value.0;
              && !Step(bound, feature, b, perGeometry).value.1
              && (forall k :: Members(b, k) <= Members(b', k))
              && (forall k :: Carry(Members(b', k)[|Members(b, k)|..], Index(feature, "properties")))
    decreases bound, 0, 0
  {
    match TypeOf(feature)
    case Success(Some(t)) =>
      if t == GeometryCollection {
        match Split(feature, true, false, false)
        case Success((PerType(inner), _)) =>
          SplitKeys(feature, true, false, false);
          AbsorbMembers(b, inner, Index(feature, "properties"));
        case Success((Collections(cs), _)) =>
          forall k
            ensures Carry(Members(b, k)[|Members(b, k)|..], Index(feature, "properties"))
          {
            assert Members(b, k)[|Members(b, k)|..] == [];
          }
      } else if Hashable(t) {
        ExtendMembers(b, t, [feature]);
      }
    case _ =>
  }

  /** A truthy `features` member is popped: the input is left without it (line 115). */
  lemma FeaturesPopped(geojson: Json, perGeometry: bool, keepGeometryLess: bool, combine: bool)
    requires geojson.Obj? && Truthy(Get(geojson, "features").value)
    requires Split(geojson, perGeometry, keepGeometryLess, combine).Success?
    ensures Split(geojson, perGeometry, keepGeometryLess, combine).value.1
            == Obj(RemoveField(geojson.fields, "features"))
    ensures !HasKey(Split(geojson, perGeometry, keepGeometryLess, combine).value.1.fields, "features")
  {
  }

  /** Without features, `geometry.geometries` or `geometries`, the answer is `{}` and the input is untouched. */
  lemma NothingToSplit(geojson: Json, perGeometry: bool, keepGeometryLess: bool, combine: bool)
    requires geojson.Obj?
    requires !Truthy(Get(geojson, "features").value)
    requires !Truthy(Get(geojson, "geometry").value)
    requires !Truthy(Get(geojson, "geometries").value)
    ensures Split(geojson, perGeometry, keepGeometryLess, combine) == Success((PerType([]), geojson))
  {
  }

  /**
   * The list answer has one collection per remaining bucket, each a dict
   * whose `features` is that bucket's list and whose other members are the
   * input's, as left by the `pop`.
   */
  lemma CollectionsShape(geojson: Json, keepGeometryLess: bool, combine: bool)
    requires Split(geojson, false, keepGeometryLess, combine).Success?
    requires Split(geojson, false, keepGeometryLess, combine).value.0.Collections?
    ensures var (answer, input) := Split(geojson, false, keepGeometryLess, combine).value;
            && input.Obj?
            && forall c :: c in answer.collections ==>
                 && c.Obj?
                 && Index(c, "features").Success? && Index(c, "features").value.Arr?
                 && forall key :: key != "features" ==> Lookup(c.fields, key) == Lookup(input.fields, key)
  {
    match Select(geojson)
    case Success(Some((features, rest))) =>
      IterateSmaller(features);
      var (b, flag) := FoldFrom(Size(geojson), Iterate(features).value, 0, [], false).value;
      var kept := DropGeometryLess(b, keepGeometryLess);
      var final := if combine then MergeSingles(kept) else kept;
      var cs := Copies(rest, final);
      forall c | c in cs
        ensures c.Obj? && Index(c, "features").Success? && Index(c, "features").value.Arr?
        ensures forall key :: key != "features" ==> Lookup(c.fields, key) == Lookup(rest, key)
      {
        var k :| 0 <= k < |cs| && cs[k] == c;
      }
    case _ =>
  }

  /** `prefix` followed by what a later part of the loop produces, or that part's error. */
  function Continue(prefix: seq<Json>, later: Result<seq<Json>, PyError>): Result<seq<Json>, PyError>
  {
    match later
    case Failure(e) => Failure(e)
    case Success(rest) => Success(prefix + rest)
  }

  /** One step of the inner loop over `subs[m..]`: the parent's properties fail, the copy fails, or one member is done. */
  lemma WithPropertiesAt(subs: seq<Json>, m: nat, properties: Result<Json, PyError>, updated: seq<Json>)
    requires m < |subs|
    ensures properties.Failure? ==>
              Continue(updated, WithProperties(subs[m..], properties)) == Failure(properties.error)
    ensures properties.Success? && Assign(subs[m], "properties", properties.value).Failure? ==>
              Continue(updated, WithProperties(subs[m..], properties))
              == Failure(Assign(subs[m], "properties", properties.value).error)
    ensures properties.Success? && Assign(subs[m], "properties", properties.value).Success? ==>
              Continue(updated, WithProperties(subs[m..], properties))
              == Continue(updated + [Assign(subs[m], "properties", properties.value).value],
                          WithProperties(subs[m + 1..], properties))
  {
    assert subs[m..][0] == subs[m] && subs[m..][1..] == subs[m + 1..];
    if properties.Success? && Assign(subs[m], "properties", properties.value).Success? {
      var replaced := Assign(subs[m], "properties", properties.value).value;
      var later := WithProperties(subs[m + 1..], properties);
      if later.Success? {
        assert updated + ([replaced] + later.value) == (updated + [replaced]) + later.value;
      }
    }
  }

  /** The inner loop of lines 137-138: each member of one bucket gets the parent's `properties`. */
  method SetProperties(subs: seq<Json>, properties: Result<Json, PyError>) returns (r: Result<seq<Json>, PyError>)
    ensures r == WithProperties(subs, properties)
  {
    var updated: seq<Json> := [];
    var m := 0;
    assert subs[m..] == subs;
    if WithProperties(subs, properties).Success? {
      assert updated + WithProperties(subs, properties).value == WithProperties(subs, properties).value;
    }
    while m < |subs|
      invariant m <= |subs|
      invariant WithProperties(subs, properties) == Continue(updated, WithProperties(subs[m..], properties))
    {
      WithPropertiesAt(subs, m, properties, updated);
      if properties.Failure? {
        return Failure(properties.error);
      }
      var replaced := Assign(subs[m], "properties", properties.value);
      if replaced.Failure? {
        return Failure(replaced.error);
      }
      updated := updated + [replaced.value];
      m := m + 1;
    }
    assert updated + [] == updated;
    return Success(updated);
  }

  /** The outer loop of lines 136-144: the members of a GeometryCollection, bucket by bucket. */
  method AbsorbCollection(b: Buckets, inner: Buckets, properties: Result<Json, PyError>)
    returns (r: Result<Buckets, PyError>)
    ensures r == Absorb(b, inner, properties)
  {
    var buckets := b;
    var j := 0;
    while j < |inner|
      invariant j <= |inner|
      invariant Absorb(b, inner, properties) == Absorb(buckets, inner[j..], properties)
    {
      assert inner[j..][1..] == inner[j + 1..];
      var updated := SetProperties(inner[j].1, properties);
      if updated.Failure? {
        return Failure(updated.error);
      }
      buckets := Extend(buckets, inner[j].0, updated.value);
      j := j + 1;
    }
    return Success(buckets);
  }

  /**
   * The loop body of lines 123-152 for one feature: its key decides, and a
   * GeometryCollection is split by a recursive call whose buckets are
   * absorbed.
   */
  method ProcessFeature(ghost bound: nat, feature: Json, buckets: Buckets, perGeometry: bool)
    returns (r: Result<(Buckets, bool), SplitError>)
    requires Size(feature) < bound
    ensures r == Step(bound, feature, buckets, perGeometry)
    decreases bound, 0
  {
    var typeOf := TypeOf(feature);
    if typeOf.Failure? {
      return Failure(GeometryError);
    }
    if typeOf.value.None? {
      return Success((buckets, perGeometry));
    }
    var t := typeOf.value.value;
    if t == GeometryCollection {
      var split := SplitGeoJsonByGeometry(feature, true, false, false);
      if split.Failure? {
        return Failure(GeometryError);
      }
      match split.value.0
      case Collections(cs) =>
        if |cs| > 0 {
          return Failure(GeometryError);
        }
        return Success((buckets, false));
      case PerType(inner) =>
        var absorbed := AbsorbCollection(buckets, inner, Index(feature, "properties"));
        if absorbed.Failure? {
          return Failure(GeometryError);
        }
        return Success((absorbed.value, false));
    } else if Hashable(t) {
      return Success((Extend(buckets, t, [feature]), perGeometry));
    } else {
      return Failure(GeometryError);
    }
  }

  /**
   * `split_geojson_by_geometry` of request_core.py as a loop that updates the
   * buckets and the flag feature by feature.
   */
  method SplitGeoJsonByGeometry(geojson: Json, perGeometry: bool, keepGeometryLess: bool, combine: bool)
    returns (r: Result<(Answer, Json), SplitError>)
    ensures r == Split(geojson, perGeometry, keepGeometryLess, combine)
    decreases Size(geojson), 1
  {
    var selected := Select(geojson);
    if selected.Failure? {
      return Failure(Raised(selected.error));
    }
    if selected.value.None? {
      return Success((PerType([]), geojson));
    }
    var (features, rest) := selected.value.value;
    var iterated := Iterate(features);
    if iterated.Failure? {
      return Failure(Raised(iterated.error));
    }
    var items := iterated.value;
    IterateSmaller(features);
    ghost var bound := Size(geojson);
    var buckets: Buckets := [];
    var flag := perGeometry;
    var i := 0;
    while i < |items|
      invariant i <= |items|
      invariant FoldFrom(bound, items, 0, [], perGeometry) == FoldFrom(bound, items, i, buckets, flag)
    {
      assert items[i] in items;
      var step := ProcessFeature(bound, items[i], buckets, flag);
      if step.Failure? {
        return Failure(GeometryError);
      }
      buckets, flag := step.value.0, step.value.1;
      i := i + 1;
    }
    return Success((Finish(buckets, flag, rest, keepGeometryLess, combine), Obj(rest)));
  }

  /**
   * The key the simpler splitter and `convert_mixed_collection` read:
   * `feature["geometry"]["type"]` when that lookup succeeds and can key a
   * dict. Any other feature is dropped by their `except` clause.
   */
  function SimpleKey(feature: Json): Option<Json>
  {
    match Index(feature, "geometry")
    case Failure(_) => None
    case Success(geometry) =>
      match Index(geometry, "type")
      case Failure(_) => None
      case Success(t) => if Hashable(t) then Some(t) else None
  }

  /** The loop both of them run (data_extractions_core.py:159-166, common/utils.py:342-349). */
  method GroupFeatures(items: seq<Json>) returns (b: Buckets)
    ensures b == GroupBy(items, SimpleKey)
  {
    b := [];
    var i := 0;
    while i < |items|
      invariant i <= |items|
      invariant b == GroupBy(items[..i], SimpleKey)
    {
      GroupByStep(items, i, SimpleKey);
      var key := SimpleKey(items[i]);
      if key.Some? {
        b := Extend(b, key.value, [items[i]]);
      }
      i := i + 1;
    }
    assert items[..i] == items;
  }

  /**
   * `split_geojson_by_geometry` of data_extractions_core.py: `features` is
   * popped (a KeyError when absent), then one shallow copy of the rest per
   * geometry type.
   */
  function SplitSimple(geojson: Json): Result<(seq<Json>, Json), PyError>
  {
    match geojson
    case Obj(fields) =>
      (match Lookup(fields, "features")
       case None => Failure(KeyError)
       case Some(features) =>
         var rest := RemoveField(fields, "features");
         match Iterate(features)
         case Failure(e) => Failure(e)
         case Success(items) => Success((Copies(rest, GroupBy(items, SimpleKey)), Obj(rest))))
    case Arr(_) => Failure(TypeError)
    case _ => Failure(AttributeError)
  }

  method SplitGeoJsonSimple(geojson: Json) returns (r: Result<(seq<Json>, Json), PyError>)
    ensures r == SplitSimple(geojson)
  {
    if geojson.Arr? {
      return Failure(TypeError);
    }
    if !geojson.Obj? {
      return Failure(AttributeError);
    }
    var features := Lookup(geojson.fields, "features");
    if features.None? {
      return Failure(KeyError);
    }
    var rest := RemoveField(geojson.fields, "features");
    var iterated := Iterate(features.value);
    if iterated.Failure? {
      return Failure(iterated.error);
    }
    var b := GroupFeatures(iterated.value);
    var collections := CopyPerBucket(rest, b);
    return Success((collections, Obj(rest)));
  }

  /** The loop of lines 167-171: a shallow copy of the input per bucket, holding that bucket's list. */
  method CopyPerBucket(rest: Fields, b: Buckets) returns (collections: seq<Json>)
    ensures collections == Copies(rest, b)
  {
    collections := [];
    var k := 0;
    while k < |b|
      invariant k <= |b|
      invariant collections == Copies(rest, b)[..k]
    {
      collections := collections + [WithFeatures(rest, b[k].1)];
      k := k + 1;
    }
    assert collections == Copies(rest, b);
  }

  /**
   * The simpler splitter keeps a feature exactly when its geometry's type
   * can be read and used as a key, and then puts it in the collection of
   * that type; a feature with a null or missing geometry is dropped.
   */
  lemma SimpleKeeps(geojson: Json, n: nat)
    requires SplitSimple(geojson).Success?
    ensures var items := Iterate(Lookup(geojson.fields, "features").value).value;
            var b := GroupBy(items, SimpleKey);
            && SplitSimple(geojson).value.0 == Copies(RemoveField(geojson.fields, "features"), b)
            && GroupsOf(b, items, SimpleKey)
            && (n < |items| && SimpleKey(items[n]).Some? ==>
                  exists j :: 0 <= j < |b| && KeyEq(b[j].0, SimpleKey(items[n]).value) && items[n] in b[j].1)
            && (n < |items| && SimpleKey(items[n]).None? ==>
                  forall j :: 0 <= j < |b| ==> items[n] !in b[j].1)
  {
    var items := Iterate(Lookup(geojson.fields, "features").value).value;
    var b := GroupBy(items, SimpleKey);
    GroupByGroups(items, SimpleKey);
    if n < |items| && SimpleKey(items[n]).Some? {
      GroupsCover(b, items, SimpleKey, n);
      var j := Find(b, SimpleKey(items[n]).value).value;
      assert KeyEq(b[j].0, SimpleKey(items[n]).value) && items[n] in b[j].1;
    }
    if n < |items| && SimpleKey(items[n]).None? {
      forall j | 0 <= j < |b|
        ensures items[n] !in b[j].1
      {
        GroupsKeys(b, items, SimpleKey, j);
      }
    }
  }

  /**
   * `convert_mixed_collection`: None without a `features` member; otherwise
   * the dict from geometry type to a copy of the collection holding that
   * type's features, and the input as it is left, with `features` set to
   * the last group's list.
   */
  function ConvertMixed(collection: Json): Result<Option<(seq<(Json, Json)>, Json)>, PyError>
  {
    match In("features", collection)
    case Failure(e) => Failure(e)
    case Success(false) => Success(None)
    case Success(true) =>
      match Index(collection, "features")
      case Failure(e) => Failure(e)
      case Success(features) =>
        match Iterate(features)
        case Failure(e) => Failure(e)
        case Success(items) =>
          var b := GroupBy(items, SimpleKey);
          var left := if |b| == 0 then collection else WithFeatures(collection.fields, b[|b| - 1].1);
          Success(Some((KeyedCopies(collection.fields, b), left)))
  }

  /** `sorted_collection[key] = deepcopy(collection)` after `collection["features"] = group`, for each group. */
  function KeyedCopies(fields: Fields, b: Buckets): (r: seq<(Json, Json)>)
    ensures |r| == |b|
  {
    seq(|b|, k requires 0 <= k < |b| => (b[k].0, WithFeatures(fields, b[k].1)))
  }

  method ConvertMixedCollection(collection: Json) returns (r: Result<Option<(seq<(Json, Json)>, Json)>, PyError>)
    ensures r == ConvertMixed(collection)
  {
    var present := In("features", collection);
    if present.Failure? {
      return Failure(present.error);
    }
    if !present.value {
      return Success(None);
    }
    var features := Index(collection, "features");
    if features.Failure? {
      return Failure(features.error);
    }
    var iterated := Iterate(features.value);
    if iterated.Failure? {
      return Failure(iterated.error);
    }
    var b := GroupFeatures(iterated.value);
    var sorted, input := CopyPerGroup(collection, b);
    return Success(Some((sorted, input)));
  }

  /** The loop of common/utils.py:350-352: set `features` to each group in turn and store a copy. */
  method CopyPerGroup(collection: Json, b: Buckets) returns (sorted: seq<(Json, Json)>, input: Json)
    requires collection.Obj?
    ensures sorted == KeyedCopies(collection.fields, b)
    ensures input == if |b| == 0 then collection else WithFeatures(collection.fields, b[|b| - 1].1)
  {
    var fields := collection.fields;
    input := collection;
    sorted := [];
    var k := 0;
    while k < |b|
      invariant k <= |b|
      invariant k == 0 ==> input == collection
      invariant k > 0 ==> input == WithFeatures(fields, b[k - 1].1)
      invariant sorted == KeyedCopies(fields, b)[..k]
    {
      ghost var copies := KeyedCopies(fields, b);
      assert copies[..k + 1] == copies[..k] + [copies[k]];
      input := WithFeatures(fields, b[k].1);
      sorted := sorted + [(b[k].0, input)];
      k := k + 1;
    }
    assert sorted == KeyedCopies(fields, b)[..k];
  }

  /**
   * Each entry of `convert_mixed_collection`'s answer is the collection with
   * exactly that type's features, and the input keeps the last group's list.
   */
  lemma ConvertMixedGroups(collection: Json)
    requires ConvertMixed(collection).Success? && ConvertMixed(collection).value.Some?
    ensures var items := Iterate(Index(collection, "features").value).value;
            var (copies, left) := ConvertMixed(collection).value.value;
            && (forall k :: 0 <= k < |copies| ==>
                  Index(copies[k].1, "features") == Success(Arr(Grouped(items, copies[k].0, SimpleKey))))
            && (|copies| > 0 ==> Index(left, "features") == Success(Arr(Grouped(items, copies[|copies| - 1].0, SimpleKey))))
            && (|copies| == 0 ==> left == collection)
  {
    var items := Iterate(Index(collection, "features").value).value;
    var b := GroupBy(items, SimpleKey);
    GroupByGroups(items, SimpleKey);
    forall k | 0 <= k < |b|
      ensures b[k].1 == Grouped(items, b[k].0, SimpleKey)
    {
      FindIs(b, b[k].0, k);
    }
  }
}
