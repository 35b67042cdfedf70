/**
 * `postprocess_qgsvectorlayer`: turns a layer of OSM element versions into
 * a temporal layer. The versions are sorted chronologically, then stably
 * by `@osmId`, and every version whose end is unset gets the start of the
 * next version of the same element, or "youngest start + 1 day" when it is
 * the last version of its element. Two copies exist:
 * OhsomeQgis/common/request_core.py:179-253 visits every record but the
 * last and returns early without `@osmId`;
 * OhsomeQgis/common/data_extractions_core.py:175-238 visits every record
 * and never checks for `@osmId`.
 *
 * Timestamps are integers (seconds); a record holds the values of the
 * chosen start and end fields, with a NULL end as None. Python cannot
 * order None, so sorting a `@validTo` layer of two or more records by an
 * end field that is NULL somewhere raises TypeError.
 */
module Temporal {
  import opened Wrappers
  import Strings
  import Sorting
  import Json

  /** `QDateTime.addDays(1)`, in seconds. */
  const Day: int := 86400

  const OsmIdField: string := "@osmId"

  datatype Record = Record(osmId: string, start: int, end: Option<int>)

  datatype Layer = Layer(fields: seq<string>, records: seq<Record>)

  datatype FieldPair = FieldPair(start: string, end: string)

  /**
   * The start/end field pair, in priority order: `@validFrom`/`@validTo`,
   * then `@snapshotTimestamp`/`endDate`, then `@timestamp`/`endDate`;
   * None when the layer has none of the start fields.
   */
  function TemporalFields(fields: seq<string>): (r: Option<FieldPair>)
    ensures r.None? <==> "@validFrom" !in fields && "@snapshotTimestamp" !in fields && "@timestamp" !in fields
    ensures r.Some? ==> r.value.start in fields
    ensures r.Some? ==> (r.value.end == "@validTo" <==> r.value.start == "@validFrom")
    ensures r.Some? && r.value.start != "@validFrom" ==> r.value.end == "endDate" && "@validFrom" !in fields
    ensures r.Some? && r.value.start == "@timestamp" ==> "@snapshotTimestamp" !in fields
  {
    if "@validFrom" in fields then Some(FieldPair("@validFrom", "@validTo"))
    else if "@snapshotTimestamp" in fields then Some(FieldPair("@snapshotTimestamp", "endDate"))
    else if "@timestamp" in fields then Some(FieldPair("@timestamp", "endDate"))
    else None
  }

  /** The end field is added to the layer when it is missing. */
  function WithField(fields: seq<string>, name: string): (r: seq<string>)
    ensures name in r && forall f :: f in fields ==> f in r
    ensures name in fields ==> r == fields
  {
    if name in fields then fields else fields + [name]
  }

  // ---------------------------------------------------------------------
  // The two sorts

  predicate StartLe(a: Record, b: Record)
  {
    a.start <= b.start
  }

  /**
   * Ordering by the end field. The sort only meets it without unset ends
   * or with a single record (see `EndSortRaises`); an unset end is put first.
   */
  predicate EndLe(a: Record, b: Record)
  {
    match a.end
    case None => true
    case Some(x) => b.end.Some? && x <= b.end.value
  }

  predicate IdLe(a: Record, b: Record)
  {
    Strings.StrLe(a.osmId, b.osmId)
  }

  /** The chronological key: the end field for `@validTo` layers, the start field otherwise. */
  function ChronoLe(byEnd: bool): (Record, Record) -> bool
  {
    if byEnd then EndLe else StartLe
  }

  lemma ChronoLeTotalPreorder(byEnd: bool)
    ensures Sorting.TotalPreorder(ChronoLe(byEnd))
  {
    if byEnd {
      forall a: Record, b: Record, c: Record | EndLe(a, b) && EndLe(b, c) ensures EndLe(a, c) {
      }
    }
  }

  lemma IdLeTotalPreorder()
    ensures Sorting.TotalPreorder(IdLe)
  {
    forall a: Record, b: Record ensures IdLe(a, b) || IdLe(b, a) {
      Strings.StrLeTotal(a.osmId, b.osmId);
    }
    forall a: Record, b: Record, c: Record | IdLe(a, b) && IdLe(b, c) ensures IdLe(a, c) {
      Strings.StrLeTransitive(a.osmId, b.osmId, c.osmId);
    }
  }

  function Chronological(records: seq<Record>, byEnd: bool): seq<Record>
  {
    Sorting.SortBy(records, ChronoLe(byEnd))
  }

  /** The records sorted chronologically and then stably by `@osmId`. */
  function Grouped(records: seq<Record>, byEnd: bool): seq<Record>
  {
    Sorting.SortBy(Chronological(records, byEnd), IdLe)
  }

  /**
   * After both sorts the records are a permutation of the input, ordered
   * by id, and the versions of one element are in chronological order.
   */
  lemma GroupedOrder(records: seq<Record>, byEnd: bool)
    ensures multiset(Grouped(records, byEnd)) == multiset(records)
    ensures forall i, j :: 0 <= i < j < |Grouped(records, byEnd)| ==>
      var g := Grouped(records, byEnd);
      IdLe(g[i], g[j]) && (g[i].osmId == g[j].osmId ==> ChronoLe(byEnd)(g[i], g[j]))
  {
    ChronoLeTotalPreorder(byEnd);
    IdLeTotalPreorder();
    Sorting.SortBySorted(records, ChronoLe(byEnd));
    Sorting.SortByStable(Chronological(records, byEnd), IdLe, ChronoLe(byEnd));
  }

  /** Versions of one element sit next to each other after both sorts. */
  lemma GroupedContiguous(records: seq<Record>, byEnd: bool, i: int, j: int, k: int)
    requires var g := Grouped(records, byEnd); 0 <= i < j < k < |g| && g[i].osmId == g[k].osmId
    ensures Grouped(records, byEnd)[j].osmId == Grouped(records, byEnd)[i].osmId
  {
    var g := Grouped(records, byEnd);
    GroupedOrder(records, byEnd);
    assert IdLe(g[i], g[j]) && IdLe(g[j], g[k]);
    Strings.StrLeAntisymmetric(g[i].osmId, g[j].osmId);
  }

  /** "youngest start + 1 day": the start of the chronologically last record, plus a day. */
  function Youngest(chrono: seq<Record>): int
    requires |chrono| > 0
  {
    chrono[|chrono| - 1].start + Day
  }

  /**
   * When the chronological key is the start field, the youngest
   * timestamp is a day after the latest start of the layer.
   */
  lemma YoungestIsLatestStart(records: seq<Record>)
    requires |records| > 0
    ensures |Chronological(records, false)| > 0
    ensures forall r :: r in records ==> r.start + Day <= Youngest(Chronological(records, false))
    ensures exists r :: r in records && r.start + Day == Youngest(Chronological(records, false))
  {
    var c := Chronological(records, false);
    ChronoLeTotalPreorder(false);
    Sorting.SortBySorted(records, ChronoLe(false));
    assert multiset(c) == multiset(records);
    forall r | r in records ensures r.start + Day <= Youngest(c) {
      assert r in multiset(c);
      var k :| 0 <= k < |c| && c[k] == r;
      if k < |c| - 1 {
        assert StartLe(c[k], c[|c| - 1]);
      }
    }
    assert c[|c| - 1] in multiset(records);
  }

  /**
   * When the chronological key is the end field (`@validTo` layers), the
   * youngest timestamp is a day after the start of a record whose end is
   * greatest, an unset end counting as the smallest.
   */
  lemma YoungestOfEndKeyed(records: seq<Record>)
    requires |records| > 0
    ensures |Chronological(records, true)| > 0
    ensures exists r :: (r in records && (forall q :: q in records ==> EndLe(q, r))
                         && Youngest(Chronological(records, true)) == r.start + Day)
  {
    var c := Chronological(records, true);
    ChronoLeTotalPreorder(true);
    Sorting.SortBySorted(records, ChronoLe(true));
    assert multiset(c) == multiset(records);
    var last := c[|c| - 1];
    forall q | q in records ensures EndLe(q, last) {
      assert q in multiset(c);
      var k :| 0 <= k < |c| && c[k] == q;
      if k < |c| - 1 {
        assert ChronoLe(true)(c[k], c[|c| - 1]);
      }
    }
    assert last in multiset(records);
    assert last in records && Youngest(c) == last.start + Day;
  }

  // ---------------------------------------------------------------------
  // Stitching the ends

  /**
   * The loop body for record i: the next record's start when it is the
   * same element and the end is unset; the end itself when it is set and
   * a next record exists; otherwise the youngest timestamp.
   */
  function StitchedEnd(s: seq<Record>, i: nat, youngest: int): Option<int>
    requires i < |s|
  {
    if i < |s| - 1 && s[i + 1].osmId == s[i].osmId && s[i].end.None? then Some(s[i + 1].start)
    else if i < |s| - 1 && s[i].end.Some? then s[i].end
    else Some(youngest)
  }

  /** The records after the loop has visited indices `0 .. visited - 1`. */
  function Stitched(s: seq<Record>, youngest: int, visited: nat): (r: seq<Record>)
    requires visited <= |s|
    ensures |r| == |s|
    ensures forall i :: 0 <= i < |s| ==> r[i].osmId == s[i].osmId && r[i].start == s[i].start
  {
    seq(|s|, i requires 0 <= i < |s| => if i < visited then s[i].(end := StitchedEnd(s, i, youngest)) else s[i])
  }

  /**
   * The stitching loop over the sorted list, setting end attributes in
   * place; `visited` is its range bound (|features| - 1 in request_core.py,
   * |features| in data_extractions_core.py).
   */
  method StitchEnds(features: array<Record>, youngest: int, visited: nat)
    requires visited <= features.Length
    modifies features
    ensures features[..] == Stitched(old(features[..]), youngest, visited)
  {
    ghost var s := features[..];
    for i := 0 to visited
      invariant forall k :: 0 <= k < features.Length ==>
        features[k] == (if k < i then s[k].(end := StitchedEnd(s, k, youngest)) else s[k])
    {
      var feature := features[i];
      if i < features.Length - 1 && features[i + 1].osmId == feature.osmId && feature.end.None? {
        features[i] := feature.(end := Some(features[i + 1].start));
      } else if i < features.Length - 1 && feature.end.Some? {
      } else {
        features[i] := feature.(end := Some(youngest));
      }
    }
  }

  /**
   * Within one element, a version whose end was unset ends where the next
   * version starts; a version whose end was set keeps it; every visited
   * record ends up with an end.
   */
  lemma StitchedChains(s: seq<Record>, youngest: int, visited: nat, i: nat)
    requires visited <= |s| && i < visited
    ensures var r := Stitched(s, youngest, visited);
      r[i].end.Some?
      && (i < |s| - 1 && s[i + 1].osmId == s[i].osmId && s[i].end.None? ==> r[i].end == Some(r[i + 1].start))
      && (i < |s| - 1 && s[i].end.Some? ==> r[i].end == s[i].end)
      && (i < |s| - 1 && s[i + 1].osmId != s[i].osmId && s[i].end.None? ==> r[i].end == Some(youngest))
  {
  }

  /** Stitching twice changes nothing more: every visited end is already set. */
  lemma StitchedIdempotent(s: seq<Record>, youngest: int, visited: nat)
    requires visited == |s| || visited == |s| - 1
    ensures Stitched(Stitched(s, youngest, visited), youngest, visited) == Stitched(s, youngest, visited)
  {
    var r := Stitched(s, youngest, visited);
    var r2 := Stitched(r, youngest, visited);
    forall i | 0 <= i < |s| ensures r2[i] == r[i] {
      if i < visited {
        assert r[i].end.Some?;
        if i == |s| - 1 {
          assert r[i].end == Some(youngest);
        }
      }
    }
  }

  // ---------------------------------------------------------------------
  // The layer

  /** The QGIS vector layer the post-processing edits in place. */
  class VectorLayer {
    var fields: seq<string>
    var records: seq<Record>

    constructor (fields: seq<string>, records: seq<Record>)
      ensures this.fields == fields && this.records == records
    {
      this.fields := fields;
      this.records := records;
    }

    function Snapshot(): Layer
      reads this
    {
      Layer(fields, records)
    }
  }

  /**
   * Whether `sorted(..., key=f[date_end])` raises TypeError: the key is the
   * end field, two or more records are compared, and some end is None.
   */
  predicate EndSortRaises(records: seq<Record>, byEnd: bool)
  {
    byEnd && |records| >= 2 && exists r :: r in records && r.end.None?
  }

  /**
   * request_core.py's post-processing, as a function of the layer: the
   * error it raises, if any, and the layer afterwards. The end field is
   * added before the chronological sort can raise.
   */
  function PostprocessCoreSpec(layer: Layer): (Option<Json.PyError>, Layer)
  {
    if |layer.records| == 0 || OsmIdField !in layer.fields then (None, layer)
    else
      match TemporalFields(layer.fields)
      case None => (None, layer)
      case Some(pair) =>
        var byEnd := pair.end == "@validTo";
        var fields := WithField(layer.fields, pair.end);
        if EndSortRaises(layer.records, byEnd) then (Some(Json.TypeError), Layer(fields, layer.records))
        else
          var chrono := Chronological(layer.records, byEnd);
          var grouped := Sorting.SortBy(chrono, IdLe);
          (None, Layer(fields, Stitched(grouped, Youngest(chrono), |grouped| - 1)))
  }

  /**
   * data_extractions_core.py's post-processing: every index is visited,
   * and a layer without `@osmId` fails with KeyError at the id sort, after
   * the end field has been added. The chronological sort raises TypeError
   * first, as in request_core.py.
   */
  function PostprocessExtractionSpec(layer: Layer): (Option<Json.PyError>, Layer)
  {
    if |layer.records| == 0 then (None, layer)
    else
      match TemporalFields(layer.fields)
      case None => (None, layer)
      case Some(pair) =>
        var fields := WithField(layer.fields, pair.end);
        var byEnd := pair.end == "@validTo";
        if EndSortRaises(layer.records, byEnd) then (Some(Json.TypeError), Layer(fields, layer.records))
        else if OsmIdField !in layer.fields then (Some(Json.KeyError), Layer(fields, layer.records))
        else
          var chrono := Chronological(layer.records, byEnd);
          var grouped := Sorting.SortBy(chrono, IdLe);
          (None, Layer(fields, Stitched(grouped, Youngest(chrono), |grouped|)))
  }

  method ToArray(s: seq<Record>) returns (a: array<Record>)
    ensures fresh(a) && a[..] == s
  {
    a := new Record[|s|](i requires 0 <= i < |s| => s[i]);
  }

  /** `postprocess_qgsvectorlayer` of request_core.py. */
  method PostprocessCore(layer: VectorLayer) returns (error: Option<Json.PyError>)
    modifies layer
    ensures (error, layer.Snapshot()) == PostprocessCoreSpec(old(layer.Snapshot()))
  {
    if |layer.records| == 0 || OsmIdField !in layer.fields {
      return None;
    }
    var pair := TemporalFields(layer.fields);
    if pair.None? {
      return None;
    }
    var dateEnd := pair.value.end;
    var records := layer.records;
    if EndSortRaises(records, dateEnd == "@validTo") {
      layer.fields := WithField(layer.fields, dateEnd);
      return Some(Json.TypeError);
    }
    var chrono := Chronological(records, dateEnd == "@validTo");
    var grouped := Sorting.SortBy(chrono, IdLe);
    var features := ToArray(grouped);
    StitchEnds(features, Youngest(chrono), |grouped| - 1);
    layer.fields, layer.records := WithField(layer.fields, dateEnd), features[..];
    return None;
  }

  /** `postprocess_qgsvectorlayer` of data_extractions_core.py. */
  method PostprocessExtraction(layer: VectorLayer) returns (error: Option<Json.PyError>)
    modifies layer
    ensures (error, layer.Snapshot()) == PostprocessExtractionSpec(old(layer.Snapshot()))
  {
    if |layer.records| == 0 {
      return None;
    }
    var pair := TemporalFields(layer.fields);
    if pair.None? {
      return None;
    }
    var dateEnd := pair.value.end;
    var hasId := OsmIdField in layer.fields;
    layer.fields := WithField(layer.fields, dateEnd);
    if EndSortRaises(layer.records, dateEnd == "@validTo") {
      return Some(Json.TypeError);
    }
    if !hasId {
      return Some(Json.KeyError);
    }
    var chrono := Chronological(layer.records, dateEnd == "@validTo");
    var youngest := Youngest(chrono);
    var features := ToArray(Sorting.SortBy(chrono, IdLe));
    StitchEnds(features, youngest, features.Length);
    layer.records := features[..];
    return None;
  }

  /**
   * The post-processing leaves a layer unchanged when it is empty, lacks
   * `@osmId`, or has no recognised start field.
   */
  lemma PostprocessCoreNoOp(layer: Layer)
    requires |layer.records| == 0 || OsmIdField !in layer.fields || TemporalFields(layer.fields).None?
    ensures PostprocessCoreSpec(layer) == (None, layer)
  {
  }

  /**
   * A `@validTo` layer of two or more records with an unset end raises
   * TypeError in both copies; the end field has been added and the
   * records are untouched.
   */
  lemma NullValidToRaises(layer: Layer)
    requires TemporalFields(layer.fields).Some? && TemporalFields(layer.fields).value.end == "@validTo"
    requires |layer.records| >= 2 && exists r :: r in layer.records && r.end.None?
    ensures OsmIdField in layer.fields ==>
      PostprocessCoreSpec(layer) == (Some(Json.TypeError), Layer(WithField(layer.fields, "@validTo"), layer.records))
    ensures PostprocessExtractionSpec(layer) == (Some(Json.TypeError), Layer(WithField(layer.fields, "@validTo"), layer.records))
  {
  }

  /** Without an unset end, or keyed on the start field, the sort does not raise and the post-processing succeeds. */
  lemma PostprocessSucceeds(layer: Layer)
    requires |layer.records| > 0 && OsmIdField in layer.fields && TemporalFields(layer.fields).Some?
    requires !EndSortRaises(layer.records, TemporalFields(layer.fields).value.end == "@validTo")
    ensures PostprocessCoreSpec(layer).0.None? && PostprocessExtractionSpec(layer).0.None?
  {
  }

  /**
   * Otherwise it keeps every record (same id and start, in a new order),
   * adds the end field, orders the records by id, and gives every record
   * but the last an end.
   */
  lemma PostprocessCoreResult(layer: Layer)
    requires |layer.records| > 0 && OsmIdField in layer.fields && TemporalFields(layer.fields).Some?
    requires !EndSortRaises(layer.records, TemporalFields(layer.fields).value.end == "@validTo")
    ensures var out := PostprocessCoreSpec(layer).1;
      |out.records| == |layer.records|
      && TemporalFields(layer.fields).value.end in out.fields
      && (forall i :: 0 <= i < |out.records| - 1 ==> out.records[i].end.Some?)
      && (forall i, j :: 0 <= i < j < |out.records| ==> IdLe(out.records[i], out.records[j]))
      && (forall r :: r in layer.records ==>
            exists k :: 0 <= k < |out.records| && out.records[k].osmId == r.osmId && out.records[k].start == r.start)
  {
    var pair := TemporalFields(layer.fields).value;
    var byEnd := pair.end == "@validTo";
    var g := Grouped(layer.records, byEnd);
    var y := Youngest(Chronological(layer.records, byEnd));
    GroupedOrder(layer.records, byEnd);
    assert PostprocessCoreSpec(layer).1.records == Stitched(g, y, |g| - 1);
    StitchedByIdShape(layer.records, g, y);
  }

  /** Stitching an id-ordered permutation as request_core.py does: the shape stated above. */
  lemma StitchedByIdShape(records: seq<Record>, g: seq<Record>, y: int)
    requires |g| > 0 && multiset(g) == multiset(records)
    requires forall i, j :: 0 <= i < j < |g| ==> IdLe(g[i], g[j])
    ensures var out := Stitched(g, y, |g| - 1);
      |out| == |records|
      && (forall i :: 0 <= i < |out| - 1 ==> out[i].end.Some?)
      && (forall i, j :: 0 <= i < j < |out| ==> IdLe(out[i], out[j]))
      && (forall r :: r in records ==>
            exists k :: 0 <= k < |out| && out[k].osmId == r.osmId && out[k].start == r.start)
  {
    var out := Stitched(g, y, |g| - 1);
    assert |records| == |multiset(records)| == |g|;
    forall i | 0 <= i < |out| - 1 ensures out[i].end.Some? {
      StitchedChains(g, y, |g| - 1, i);
    }
    forall i, j | 0 <= i < j < |out| ensures IdLe(out[i], out[j]) {
      assert IdLe(g[i], g[j]);
    }
    forall r | r in records
      ensures exists k :: 0 <= k < |out| && out[k].osmId == r.osmId && out[k].start == r.start
    {
      assert r in multiset(g);
      var k :| 0 <= k < |g| && g[k] == r;
      assert out[k].osmId == r.osmId && out[k].start == r.start;
    }
  }

  // ---------------------------------------------------------------------
  // The last record

  /**
   * As written in request_core.py: the loop stops before the last record,
   * so a last version with an unset end keeps it. A layer with a single
   * version of a single element is left without an end.
   */
  lemma CoreLeavesLastOpen(s: seq<Record>, youngest: int)
    requires |s| > 0 && s[|s| - 1].end.None?
    ensures Stitched(s, youngest, |s| - 1)[|s| - 1].end.None?
  {
  }

  /**
   * As written in data_extractions_core.py: the last record always gets
   * the youngest timestamp, replacing an end that was already set.
   */
  lemma ExtractionOverwritesLastEnd(s: seq<Record>, youngest: int)
    requires |s| > 0
    ensures Stitched(s, youngest, |s|)[|s| - 1].end == Some(youngest)
  {
  }

  /**
   * The stitching both loops evidently intend: every record is visited,
   * an end that is set is kept, an unset end is the next version's start,
   * or the youngest timestamp after an element's last version.
   */
  function IntendedEnd(s: seq<Record>, i: nat, youngest: int): Option<int>
    requires i < |s|
  {
    if s[i].end.Some? then s[i].end
    else if i < |s| - 1 && s[i + 1].osmId == s[i].osmId then Some(s[i + 1].start)
    else Some(youngest)
  }

  function StitchedIntended(s: seq<Record>, youngest: int): (r: seq<Record>)
    ensures |r| == |s|
    ensures forall i :: 0 <= i < |s| ==> r[i].osmId == s[i].osmId && r[i].start == s[i].start
  {
    seq(|s|, i requires 0 <= i < |s| => s[i].(end := IntendedEnd(s, i, youngest)))
  }

  /**
   * With the intended stitching every version ends, set ends survive,
   * versions of one element chain start to end, and an element's last
   * version ends at the youngest timestamp.
   */
  lemma IntendedStitchCloses(s: seq<Record>, youngest: int)
    ensures var r := StitchedIntended(s, youngest);
      (forall i :: 0 <= i < |s| ==> r[i].end.Some?)
      && (forall i :: 0 <= i < |s| && s[i].end.Some? ==> r[i].end == s[i].end)
      && (forall i :: 0 <= i < |s| - 1 && s[i].end.None? && s[i + 1].osmId == s[i].osmId ==> r[i].end == Some(r[i + 1].start))
      && (forall i :: 0 <= i < |s| && s[i].end.None? && (i == |s| - 1 || s[i + 1].osmId != s[i].osmId) ==> r[i].end == Some(youngest))
  {
  }

  /** The intended stitching agrees with request_core.py everywhere but at an open last record. */
  lemma IntendedAgreesWithCore(s: seq<Record>, youngest: int)
    requires |s| > 0
    ensures forall i :: 0 <= i < |s| - 1 ==> StitchedIntended(s, youngest)[i] == Stitched(s, youngest, |s| - 1)[i]
    ensures s[|s| - 1].end.Some? ==> StitchedIntended(s, youngest) == Stitched(s, youngest, |s| - 1)
  {
    var r, c := StitchedIntended(s, youngest), Stitched(s, youngest, |s| - 1);
    if s[|s| - 1].end.Some? {
      assert forall i :: 0 <= i < |s| ==> r[i] == c[i];
    }
  }
}
