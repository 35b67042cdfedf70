/**
 * What the plugin does with a decoded ohsome API response: the if/elif
 * chain that picks a materialisation route
 * (OhsomeQgis/common/request_core.py:286-375 and its copy in
 * ohsomeTools/proc/procRequest.py:13-136), and the extraction task's
 * `run` and `finished` (OhsomeQgis/common/request_core.py:377-531).
 * QGIS layers are abstract sinks: the model records which layer the code
 * asks QGIS to create, with what content.
 */
module Dispatch {
  import opened Wrappers
  import opened Json
  import Strings
  import GeoJsonSplit

  /** A layer the plugin asks QGIS to create. */
  datatype Sink =
    | ExtentLayer(extent: Json)
    | VectorLayer(collection: Json)
    | CsvLayer(rows: Json, header: seq<string>)
    | GroupCsvLayer(group: Json, rows: Json, header: seq<string>)

  /** The Boolean the chain returns, or the exception it raises, with the sinks created before that. */
  datatype Dispatched = Dispatched(answer: Result<bool, GeoJsonSplit.SplitError>, sinks: seq<Sink>)

  function Raise(e: PyError): Dispatched
  {
    Dispatched(Failure(GeoJsonSplit.Raised(e)), [])
  }

  function Keys(fields: Fields): (r: seq<string>)
    ensures |r| == |fields| && forall i :: 0 <= i < |fields| ==> r[i] == fields[i].0
  {
    seq(|fields|, i requires 0 <= i < |fields| => fields[i].0)
  }

  /** `rows[0].keys()`: a table's column names, taken from its first record. */
  function Header(rows: Json): Result<seq<string>, PyError>
  {
    match At(rows, 0)
    case Failure(e) => Failure(e)
    case Success(Obj(fields)) => Success(Keys(fields))
    case Success(_) => Failure(AttributeError)
  }

  /** `key in d.keys() and len(d.get(key)) > 0`. */
  function NonEmptyUnder(fields: Fields, key: string): (r: Result<bool, PyError>)
    ensures r == Success(true) ==> HasKey(fields, key)
    ensures !HasKey(fields, key) ==> r == Success(false)
  {
    if !HasKey(fields, key) then Success(false)
    else
      match Len(Get(Obj(fields), key).value)
      case Failure(e) => Failure(e)
      case Success(n) => Success(n > 0)
  }

  /** A flat table (`result` or `ratioResult`): one CSV layer with the first record's keys as header. */
  function FlatTable(fields: Fields, key: string): Dispatched
    requires HasKey(fields, key)
  {
    var rows := Index(Obj(fields), key).value;
    match Header(rows)
    case Failure(e) => Raise(e)
    case Success(header) => Dispatched(Success(true), [CsvLayer(rows, header)])
  }

  /** `results[0]["result"][0].keys()`: the header every group's table gets. */
  function GroupHeader(results: Json): Result<seq<string>, PyError>
  {
    match At(results, 0)
    case Failure(e) => Failure(e)
    case Success(group) =>
      match Index(group, "result")
      case Failure(e) => Failure(e)
      case Success(rows) => Header(rows)
  }

  /** The loop over the groups from position `i` on; each group's table is created before the next is read. */
  function GroupTablesFrom(groups: seq<Json>, i: nat, results: Json, sinks: seq<Sink>): Dispatched
    requires i <= |groups|
    decreases |groups| - i
  {
    if i == |groups| then Dispatched(Success(true), sinks)
    else
      match Index(groups[i], "groupByObject")
      case Failure(e) => Dispatched(Failure(GeoJsonSplit.Raised(e)), sinks)
      case Success(name) =>
        match GroupHeader(results)
        case Failure(e) => Dispatched(Failure(GeoJsonSplit.Raised(e)), sinks)
        case Success(header) =>
          match Index(groups[i], "result")
          case Failure(e) => Dispatched(Failure(GeoJsonSplit.Raised(e)), sinks)
          case Success(rows) => GroupTablesFrom(groups, i + 1, results, sinks + [GroupCsvLayer(name, rows, header)])
  }

  function GroupTables(fields: Fields): Dispatched
    requires HasKey(fields, "groupByResult")
  {
    var results := Index(Obj(fields), "groupByResult").value;
    match Iterate(results)
    case Failure(e) => Raise(e)
    case Success(groups) => GroupTablesFrom(groups, 0, results, [])
  }

  /** The table branches, in their order: `result`, `groupByResult`, `ratioResult`, else False. */
  function Tables(fields: Fields): Dispatched
  {
    match NonEmptyUnder(fields, "result")
    case Failure(e) => Raise(e)
    case Success(true) => FlatTable(fields, "result")
    case Success(false) =>
      match NonEmptyUnder(fields, "groupByResult")
      case Failure(e) => Raise(e)
      case Success(true) => GroupTables(fields)
      case Success(false) =>
        match NonEmptyUnder(fields, "ratioResult")
        case Failure(e) => Raise(e)
        case Success(true) => FlatTable(fields, "ratioResult")
        case Success(false) => Dispatched(Success(false), [])
  }

  /** One vector layer per FeatureCollection the splitter returns. */
  function Layers(answer: GeoJsonSplit.Answer): (r: seq<Sink>)
    ensures answer.Collections? ==> |r| == |answer.collections|
    ensures answer.Collections? ==> forall i :: 0 <= i < |r| ==> r[i] == VectorLayer(answer.collections[i])
  {
    match answer
    case Collections(cs) => seq(|cs|, i requires 0 <= i < |cs| => VectorLayer(cs[i]))
    case PerType(_) => []
  }

  /** `d.get("type").lower() == "featurecollection"` when both `type` and `features` are keys. */
  function IsFeatureCollection(fields: Fields): Result<bool, PyError>
  {
    if !(HasKey(fields, "type") && HasKey(fields, "features")) then Success(false)
    else
      match Get(Obj(fields), "type").value
      case Str(s) => Success(Strings.Lower(s) == "featurecollection")
      case _ => Failure(AttributeError)
  }

  /**
   * `postprocess_results` (request_core.py:286-375) and the same chain in
   * `processing_request` (procRequest.py:33-136). `extentLoads` is whether
   * QGIS returns a usable layer for the spatial extent.
   */
  function Postprocess(result: Json, extentLoads: bool, keepGeometryLess: bool, combine: bool): Dispatched
  {
    if !Truthy(result) then Dispatched(Success(false), [])
    else if Len(result).Failure? then Raise(TypeError)
    else if In("extractRegion", result) == Success(true) then
      match Get(result, "extractRegion")
      case Failure(e) => Raise(e)
      case Success(region) =>
        match Get(region, "spatialExtent")
        case Failure(e) => Raise(e)
        case Success(extent) => Dispatched(Success(extentLoads), [ExtentLayer(extent)])
    else if !result.Obj? then Raise(AttributeError)
    else
      match IsFeatureCollection(result.fields)
      case Failure(e) => Raise(e)
      case Success(true) =>
        (match GeoJsonSplit.Split(result, false, keepGeometryLess, combine)
         case Failure(e) => Dispatched(Failure(e), [])
         case Success((answer, _)) => Dispatched(Success(true), Layers(answer)))
      case Success(false) => Tables(result.fields)
  }

  /** An empty or missing response is answered False and creates nothing. */
  lemma FalsyIsFalse(result: Json, extentLoads: bool, keepGeometryLess: bool, combine: bool)
    requires !Truthy(result)
    ensures Postprocess(result, extentLoads, keepGeometryLess, combine) == Dispatched(Success(false), [])
  {
  }

  /** `extractRegion` wins over every other key: the extent layer is created, and the answer is whether it loaded. */
  lemma ExtractRegionFirst(fields: Fields, extentLoads: bool, keepGeometryLess: bool, combine: bool)
    requires HasKey(fields, "extractRegion")
    requires Get(Get(Obj(fields), "extractRegion").value, "spatialExtent").Success?
    ensures Postprocess(Obj(fields), extentLoads, keepGeometryLess, combine)
            == Dispatched(Success(extentLoads),
                          [ExtentLayer(Get(Get(Obj(fields), "extractRegion").value, "spatialExtent").value)])
  {
  }

  /**
   * Without `extractRegion`, a FeatureCollection (its `type` compared
   * case-insensitively) wins over the tables: one vector layer per
   * collection the splitter returns, none when it found no features.
   */
  lemma FeatureCollectionSecond(fields: Fields, extentLoads: bool, keepGeometryLess: bool, combine: bool)
    requires !HasKey(fields, "extractRegion")
    requires HasKey(fields, "type") && HasKey(fields, "features")
    requires Get(Obj(fields), "type").value.Str?
    requires Strings.Lower(Get(Obj(fields), "type").value.s) == "featurecollection"
    requires GeoJsonSplit.Split(Obj(fields), false, keepGeometryLess, combine).Success?
    ensures var (answer, _) := GeoJsonSplit.Split(Obj(fields), false, keepGeometryLess, combine).value;
            && (answer.Collections? || answer == GeoJsonSplit.PerType([]))
            && Postprocess(Obj(fields), extentLoads, keepGeometryLess, combine)
               == Dispatched(Success(true), Layers(answer))
  {
    var result := Obj(fields);
    assert Lookup(fields, "type").Some?;
    assert Truthy(result) && Len(result).Success?;
    assert In("extractRegion", result) == Success(false);
    assert IsFeatureCollection(fields) == Success(true);
    GeoJsonSplit.SplitOffAnswersList(result, keepGeometryLess, combine);
  }

  /** Otherwise the tables decide. */
  lemma TablesLast(fields: Fields, extentLoads: bool, keepGeometryLess: bool, combine: bool)
    requires |fields| > 0 && !HasKey(fields, "extractRegion")
    requires IsFeatureCollection(fields) == Success(false)
    ensures Postprocess(Obj(fields), extentLoads, keepGeometryLess, combine) == Tables(fields)
  {
  }

  /** Removing a key changes no other key's lookups or presence. */
  lemma RemoveKeepsOthers(fields: Fields, key: string, other: string)
    requires other != key
    ensures HasKey(RemoveField(fields, key), other) == HasKey(fields, other)
    ensures Index(Obj(RemoveField(fields, key)), other) == Index(Obj(fields), other)
    ensures Get(Obj(RemoveField(fields, key)), other) == Get(Obj(fields), other)
  {
    var r := RemoveField(fields, key);
    assert Lookup(r, other) == Lookup(fields, other);
    if HasKey(fields, other) {
      assert Lookup(fields, other).Some?;
    }
    if HasKey(r, other) {
      assert Lookup(r, other).Some?;
    }
  }

  /** The table branches read nothing of a removed key. */
  lemma RemoveKeepsTables(fields: Fields, key: string, other: string)
    requires other != key
    ensures NonEmptyUnder(RemoveField(fields, key), other) == NonEmptyUnder(fields, other)
    ensures HasKey(fields, other) ==> FlatTable(RemoveField(fields, key), other) == FlatTable(fields, other)
    ensures HasKey(fields, other) && other == "groupByResult" ==>
              GroupTables(RemoveField(fields, key)) == GroupTables(fields)
  {
    RemoveKeepsOthers(fields, key, other);
  }

  /**
   * An empty `result`, `groupByResult` or `ratioResult` does not match its
   * branch: the chain goes on exactly as if the key were absent.
   */
  lemma EmptyTableSkipped(fields: Fields, key: string)
    requires key == "result" || key == "groupByResult" || key == "ratioResult"
    requires HasKey(fields, key) && Len(Get(Obj(fields), key).value) == Success(0)
    ensures Tables(fields) == Tables(RemoveField(fields, key))
  {
    var r := RemoveField(fields, key);
    assert NonEmptyUnder(fields, key) == Success(false) == NonEmptyUnder(r, key);
    if key == "result" {
      RemoveKeepsTables(fields, key, "groupByResult");
      RemoveKeepsTables(fields, key, "ratioResult");
    } else if key == "groupByResult" {
      SkippedGroups(fields);
    } else {
      SkippedRatio(fields);
    }
  }

  lemma SkippedGroups(fields: Fields)
    requires NonEmptyUnder(fields, "groupByResult") == Success(false)
    ensures Tables(fields) == Tables(RemoveField(fields, "groupByResult"))
  {
    RemoveKeepsTables(fields, "groupByResult", "result");
    RemoveKeepsTables(fields, "groupByResult", "ratioResult");
  }

  lemma SkippedRatio(fields: Fields)
    requires NonEmptyUnder(fields, "ratioResult") == Success(false)
    ensures Tables(fields) == Tables(RemoveField(fields, "ratioResult"))
  {
    var r := RemoveField(fields, "ratioResult");
    RemoveKeepsTables(fields, "ratioResult", "result");
    RemoveKeepsTables(fields, "ratioResult", "groupByResult");
    assert NonEmptyUnder(r, "ratioResult") == Success(false);
  }

  /** A dict response with no branch's key answers False and creates nothing. */
  lemma NothingMatches(fields: Fields, extentLoads: bool, keepGeometryLess: bool, combine: bool)
    requires |fields| > 0
    requires !HasKey(fields, "extractRegion") && !HasKey(fields, "features")
    requires !HasKey(fields, "result") && !HasKey(fields, "groupByResult") && !HasKey(fields, "ratioResult")
    ensures Postprocess(Obj(fields), extentLoads, keepGeometryLess, combine) == Dispatched(Success(false), [])
  {
  }

  /** A table made for `group`: headed by the first group's first record, holding the group's `result`. */
  predicate GroupSink(sink: Sink, group: Json, results: Json)
  {
    && sink.GroupCsvLayer?
    && GroupHeader(results) == Success(sink.header)
    && Index(group, "result") == Success(sink.rows)
  }

  /** One turn of the loop over the groups: a table is added, or the loop raises with the sinks so far. */
  lemma GroupTablesStep(groups: seq<Json>, i: nat, results: Json, sinks: seq<Sink>)
    requires i <= |groups|
    ensures i == |groups| ==> GroupTablesFrom(groups, i, results, sinks) == Dispatched(Success(true), sinks)
    ensures i < |groups| ==>
            var name, header, rows := Index(groups[i], "groupByObject"), GroupHeader(results), Index(groups[i], "result");
            if name.Success? && header.Success? && rows.Success? then
              GroupTablesFrom(groups, i, results, sinks)
              == GroupTablesFrom(groups, i + 1, results, sinks + [GroupCsvLayer(name.value, rows.value, header.value)])
            else GroupTablesFrom(groups, i, results, sinks).sinks == sinks
                 && GroupTablesFrom(groups, i, results, sinks).answer.Failure?
  {
  }

  /** Every lookup the loop makes from group `i` on succeeds: the shared header, and each group's name and rows. */
  predicate GroupsReadable(groups: seq<Json>, i: nat, results: Json)
    requires i <= |groups|
  {
    i == |groups|
    || (GroupHeader(results).Success?
        && forall k :: i <= k < |groups| ==> Index(groups[k], "groupByObject").Success? && Index(groups[k], "result").Success?)
  }

  /** The tables `out[from..]` were made for the groups from `start` on, one each, in order. */
  predicate SinksFor(groups: seq<Json>, start: nat, results: Json, out: seq<Sink>, from: nat)
  {
    && from <= |out| && start <= |groups| && |out| - from <= |groups| - start
    && forall k :: from <= k < |out| ==> GroupSink(out[k], groups[start + k - from], results)
  }

  /** The tables from group `i + 1` on, preceded by group `i`'s, are the tables from group `i` on. */
  lemma GroupSinksShift(groups: seq<Json>, i: nat, results: Json, sinks: seq<Sink>, sinks': seq<Sink>, out: seq<Sink>)
    requires i < |groups| && |sinks'| == |sinks| + 1 && sinks' <= out
    requires GroupSink(sinks'[|sinks|], groups[i], results)
    requires SinksFor(groups, i + 1, results, out, |sinks'|)
    ensures SinksFor(groups, i, results, out, |sinks|)
  {
    forall k | |sinks| <= k < |out| ensures GroupSink(out[k], groups[i + k - |sinks|], results) {
      if k == |sinks| {
        assert out[k] == sinks'[k];
      } else {
        assert i + 1 + k - |sinks'| == i + k - |sinks|;
      }
    }
  }

  /**
   * Every group's table gets the header of the first group's first record,
   * and the tables are created in the groups' order. The loop answers True
   * exactly when every lookup succeeds, and then it has made one table per
   * group.
   */
  lemma {:induction false} GroupTablesHeader(groups: seq<Json>, i: nat, results: Json, sinks: seq<Sink>)
    requires i <= |groups|
    ensures var d := GroupTablesFrom(groups, i, results, sinks);
            sinks <= d.sinks && SinksFor(groups, i, results, d.sinks, |sinks|)
    ensures var d := GroupTablesFrom(groups, i, results, sinks);
            (d.answer.Success? <==> GroupsReadable(groups, i, results))
            && (d.answer.Success? ==> d.answer == Success(true) && |d.sinks| == |sinks| + |groups| - i)
    decreases |groups| - i
  {
    GroupTablesStep(groups, i, results, sinks);
    if i < |groups| {
      var name, header, rows := Index(groups[i], "groupByObject"), GroupHeader(results), Index(groups[i], "result");
      if name.Success? && header.Success? && rows.Success? {
        var sink := GroupCsvLayer(name.value, rows.value, header.value);
        var sinks' := sinks + [sink];
        GroupTablesHeader(groups, i + 1, results, sinks');
        assert sinks'[|sinks|] == sink && GroupSink(sink, groups[i], results);
        GroupSinksShift(groups, i, results, sinks, sinks', GroupTablesFrom(groups, i + 1, results, sinks').sinks);
      }
    }
  }

  // ---------------------------------------------------------------------
  // The extraction task

  /** The request `run` makes. */
  datatype Call = PostRequest(path: string, body: Json) | GetRequest(path: string)

  /** Which report `finished` gives (request_core.py:429, 487, 497, 518), or the processing error inside the first. */
  datatype Outcome = Succeeded | ProcessingFailed | Canceled | Failed | Unclear

  const Shortened := "Geometry shortened. For issue/debug copy from 'View'->'Panels'->'Log Messages'."

  /** Lines 416-423: the echoed geometry is shortened, `bpolys` if present, else `bcircles`. */
  function Elide(preferences: Fields): Fields
  {
    if HasKey(preferences, "bpolys") then SetField(preferences, "bpolys", Str(Shortened))
    else if HasKey(preferences, "bcircles") then SetField(preferences, "bcircles", Str(Shortened))
    else preferences
  }

  /** The metadata message box of lines 436-456 reads `extractRegion.temporalExtent`. */
  function MetadataBox(result: Json): Result<(), PyError>
  {
    match In("extractRegion", result)
    case Failure(e) => Failure(e)
    case Success(false) => Success(())
    case Success(true) =>
      match Get(result, "extractRegion")
      case Failure(e) => Failure(e)
      case Success(region) =>
        match Get(region, "temporalExtent")
        case Failure(e) => Failure(e)
        case Success(_) => Success(())
  }

  /** The report `finished` chooses and the layers it has created. */
  function FinishedSpec(validResult: bool, result: Json, canceled: bool, raised: bool,
                        extentLoads: bool, keepGeometryLess: bool, combine: bool): (Outcome, seq<Sink>)
  {
    if validResult && Truthy(result) then
      if MetadataBox(result).Failure? then (ProcessingFailed, [])
      else
        var d := Postprocess(result, extentLoads, keepGeometryLess, combine);
        (if d.answer.Failure? then ProcessingFailed else Succeeded, d.sinks)
    else if canceled then (Canceled, [])
    else if raised then (Failed, [])
    else (Unclear, [])
  }

  /**
   * Exactly one report, in the order of the checks: a non-empty result,
   * then cancellation, then an exception, else the unclear case.
   */
  lemma OutcomeOrder(validResult: bool, result: Json, canceled: bool, raised: bool,
                     extentLoads: bool, keepGeometryLess: bool, combine: bool)
    ensures var (outcome, sinks) := FinishedSpec(validResult, result, canceled, raised, extentLoads, keepGeometryLess, combine);
            && (outcome == Succeeded || outcome == ProcessingFailed <==> validResult && Truthy(result))
            && (outcome == Canceled <==> !(validResult && Truthy(result)) && canceled)
            && (outcome == Failed <==> !(validResult && Truthy(result)) && !canceled && raised)
            && (outcome == Unclear <==> !(validResult && Truthy(result)) && !canceled && !raised)
            && (outcome != Succeeded && outcome != ProcessingFailed ==> sinks == [])
  {
  }

  /** Only the first of `bpolys`, `bcircles` present is shortened; every other preference is kept. */
  lemma ElideShortensOne(preferences: Fields)
    ensures HasKey(preferences, "bpolys") ==>
              && Lookup(Elide(preferences), "bpolys") == Some(Str(Shortened))
              && forall k :: k != "bpolys" ==> Lookup(Elide(preferences), k) == Lookup(preferences, k)
    ensures !HasKey(preferences, "bpolys") && HasKey(preferences, "bcircles") ==>
              && Lookup(Elide(preferences), "bcircles") == Some(Str(Shortened))
              && forall k :: k != "bcircles" ==> Lookup(Elide(preferences), k) == Lookup(preferences, k)
    ensures !HasKey(preferences, "bpolys") && !HasKey(preferences, "bcircles") ==> Elide(preferences) == preferences
    ensures |Elide(preferences)| == |preferences|
  {
  }

  /** The extraction task: its preferences, the decoded result and whether the request raised. */
  class ExtractionTask {
    const requestUrl: string
    var preferences: Fields
    var result: Json
    var raised: bool

    constructor(requestUrl: string, preferences: Option<Fields>)
      ensures this.requestUrl == requestUrl
      ensures this.preferences == if preferences.Some? then preferences.value else []
      ensures result == Obj([]) && !raised
    {
      this.requestUrl := requestUrl;
      this.preferences := if preferences.Some? then preferences.value else [];
      result := Obj([]);
      raised := false;
    }

    /**
     * `run` (lines 377-399): a POST of the preferences to the request URL when
     * there are any, else a GET of `/metadata`; `response` is what the
     * client returned, or None when it raised.
     */
    method Run(response: Option<Json>) returns (call: Call, valid: bool)
      modifies this
      ensures call == if |preferences| > 0 then PostRequest("/" + requestUrl, Obj(preferences)) else GetRequest("/metadata")
      ensures valid
      ensures preferences == old(preferences)
      ensures response.Some? ==> result == response.value && raised == old(raised)
      ensures response.None? ==> result == Null && raised
    {
      if |preferences| > 0 {
        call := PostRequest("/" + requestUrl, Obj(preferences));
      } else {
        call := GetRequest("/metadata");
      }
      if response.Some? {
        result := response.value;
      } else {
        result := Null;
        raised := true;
      }
      valid := true;
    }

    /** `finished` (lines 401-531): shorten the echoed geometry, then pick the report. */
    method Finished(validResult: bool, canceled: bool, extentLoads: bool, keepGeometryLess: bool, combine: bool)
      returns (outcome: Outcome, sinks: seq<Sink>)
      modifies this
      ensures preferences == Elide(old(preferences))
      ensures result == old(result) && raised == old(raised)
      ensures (outcome, sinks) == FinishedSpec(validResult, result, canceled, raised, extentLoads, keepGeometryLess, combine)
    {
      if HasKey(preferences, "bpolys") {
        preferences := SetField(preferences, "bpolys", Str(Shortened));
      } else if HasKey(preferences, "bcircles") {
        preferences := SetField(preferences, "bcircles", Str(Shortened));
      }
      sinks := [];
      if validResult && Truthy(result) {
        if MetadataBox(result).Failure? {
          outcome := ProcessingFailed;
        } else {
          var d := Postprocess(result, extentLoads, keepGeometryLess, combine);
          sinks := d.sinks;
          outcome := if d.answer.Failure? then ProcessingFailed else Succeeded;
        }
      } else if canceled {
        outcome := Canceled;
      } else if raised {
        outcome := Failed;
      } else {
        outcome := Unclear;
      }
    }
  }

  // ---------------------------------------------------------------------
  // processing_request (ohsomeTools/proc/procRequest.py)

  /**
   * The call `processing_request` makes (lines 15-31): a POST to
   * `/<request url>` when the point-layer preference is non-empty, else a
   * GET of `/metadata`; None when `len` itself raises.
   */
  function ProcessingCall(requestUrl: string, pointLayerPreference: Json): (r: Option<Call>)
    ensures r.Some? <==> Len(pointLayerPreference).Success?
    ensures r.Some? ==> (r.value.PostRequest? <==> Truthy(pointLayerPreference))
  {
    match Len(pointLayerPreference)
    case Failure(_) => None
    case Success(n) => Some(if n > 0 then PostRequest("/" + requestUrl, pointLayerPreference) else GetRequest("/metadata"))
  }

  /** `processing_request`: the call, then the shared chain on what it returned (None when it raised). */
  function ProcessingRequest(requestUrl: string, pointLayerPreference: Json, response: Option<Json>,
                             extentLoads: bool, keepGeometryLess: bool, combine: bool): (Option<Call>, Dispatched)
  {
    var call := ProcessingCall(requestUrl, pointLayerPreference);
    var result := if call.Some? && response.Some? then response.value else Null;
    (call, Postprocess(result, extentLoads, keepGeometryLess, combine))
  }

  /** A request that raised leaves the result None, and the function returns False with no layer. */
  lemma FailedRequestIsFalse(requestUrl: string, pointLayerPreference: Json, extentLoads: bool,
                             keepGeometryLess: bool, combine: bool)
    ensures ProcessingRequest(requestUrl, pointLayerPreference, None, extentLoads, keepGeometryLess, combine).1
            == Dispatched(Success(false), [])
  {
  }
}
