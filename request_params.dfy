/**
 * The request-parameter logic the spec builders share, written once:
 * ohsomeTools/gui/ohsome_spec.py and OhsomeQgis/gui/ohsome_spec.py carry
 * the same code for the property groups, the centroid string, the `time`
 * parameter, the dialog checks of `is_valid` and the request dict; the
 * centroid string and the `time` parameter also appear in
 * OhsomeQgis/gui/ohsome_gui.py. Widget reads are plain inputs.
 */
module RequestParams {
  import opened Wrappers
  import opened Json
  import opened Strings
  import Dates

  // ---------------------------------------------------------------------
  // property groups

  /** The property groups ticked, in the order of the check boxes. */
  function Selected(tags: bool, metadata: bool): seq<string>
  {
    (if tags then ["tags"] else []) + (if metadata then ["metadata"] else [])
  }

  /** `_property_groups`: the ticked groups, comma-separated. */
  function PropertyGroups(tags: bool, metadata: bool): (r: string)
    ensures r == Join(",", Selected(tags, metadata))
  {
    var properties := if tags then "tags" else "";
    if metadata then (if properties == "tags" then properties + ",metadata" else "metadata") else properties
  }

  // ---------------------------------------------------------------------
  // the centroid list and the `bcircles` string

  const LabelSep := ": "
  const RadiusSep := " | Radius: "

  /** An entry of the centroid list as the dialog writes it: `<name>: <x>, <y> | Radius: <r>`. */
  function CentroidItem(name: string, coordinates: string, radius: string): string
  {
    name + LabelSep + coordinates + RadiusSep + radius
  }

  /**
   * `param_cords, radius = item.rsplit(" | Radius: ")` then
   * `_, coordinates = param_cords.split(": ")`: unpacking raises ValueError
   * unless each split gives exactly two parts.
   */
  function ParseCentroid(item: string): (r: Result<(string, string), PyError>)
    ensures r.Failure? ==> r.error == ValueError
  {
    var outer := RSplit(item, RadiusSep);
    if |outer| != 2 then Failure(ValueError)
    else
      var inner := Split(outer[0], LabelSep);
      if |inner| != 2 then Failure(ValueError) else Success((inner[1], outer[0 + 1]))
  }

  /** `rsplit(" | Radius: ")` of an entry gives the labelled coordinates and the radius. */
  lemma RadiusSplit(name: string, coordinates: string, radius: string)
    requires '|' !in name && '|' !in coordinates && '|' !in radius
    ensures RSplit(CentroidItem(name, coordinates, radius), RadiusSep) == [name + LabelSep + coordinates, radius]
  {
    var item := CentroidItem(name, coordinates, radius);
    var param := name + LabelSep + coordinates;
    var p := |param|;
    assert item == param + RadiusSep + radius;
    assert item[p..p + |RadiusSep|] == RadiusSep;
    forall i | 0 <= i < |item| && i != p + 1 ensures item[i] != RadiusSep[1] {
      if i < p {
        assert item[i] == param[i];
        assert param[i] in param;
      } else if i < p + |RadiusSep| {
        assert item[i] == RadiusSep[i - p];
      } else {
        assert item[i] == radius[i - p - |RadiusSep|];
      }
    }
    UniqueCharOnlyAt(item, RadiusSep, p, 1);
    RSplitOnlyAt(item, RadiusSep, p);
    assert item[..p] == param && item[p + |RadiusSep|..] == radius;
  }

  /** `split(": ")` of the labelled coordinates gives the label and the coordinates. */
  lemma LabelSplit(name: string, coordinates: string)
    requires ':' !in name && ':' !in coordinates
    ensures Split(name + LabelSep + coordinates, LabelSep) == [name, coordinates]
  {
    var param := name + LabelSep + coordinates;
    assert param[|name|..|name| + 2] == LabelSep;
    forall i | 0 <= i < |param| && i != |name| ensures param[i] != LabelSep[0] {
      if i < |name| {
        assert param[i] == name[i];
      } else if i == |name| + 1 {
        assert param[i] == ' ';
      } else {
        assert param[i] == coordinates[i - |name| - 2];
      }
    }
    UniqueCharOnlyAt(param, LabelSep, |name|, 0);
    SplitOnlyAt(param, LabelSep, |name|);
    assert param[..|name|] == name && param[|name| + 2..] == coordinates;
  }

  /** Reading an entry back gives its coordinates and radius, when neither separator occurs inside its parts. */
  lemma ParseCentroidItem(name: string, coordinates: string, radius: string)
    requires ':' !in name && ':' !in coordinates
    requires '|' !in name && '|' !in coordinates && '|' !in radius
    ensures ParseCentroid(CentroidItem(name, coordinates, radius)) == Success((coordinates, radius))
  {
    RadiusSplit(name, coordinates, radius);
    LabelSplit(name, coordinates);
  }

  /** One circle of the `bcircles` parameter: `id<idx>:<coordinates>,<radius>`. */
  function CircleEntry(idx: nat, coordinates: string, radius: string): string
  {
    "id" + NatToString(idx) + ":" + coordinates + "," + radius
  }

  /** The coordinate string once the loop of `_request_bcircles_coordinates` has read the first `n` items. */
  function BcirclesPrefix(items: seq<string>, n: nat): Result<string, PyError>
    requires n <= |items|
  {
    if n == 0 then Success("")
    else
      match BcirclesPrefix(items, n - 1)
      case Failure(e) => Failure(e)
      case Success(prefix) =>
        match ParseCentroid(items[n - 1])
        case Failure(e) => Failure(e)
        case Success((coordinates, radius)) =>
          var entry := CircleEntry(n - 1, coordinates, radius);
          Success(if |prefix| <= 0 then entry else prefix + "|" + entry)
  }

  /** `_request_bcircles_coordinates` (ohsomeTools/gui/ohsome_spec.py:104-119 and its copies). */
  method RequestBcircles(items: seq<string>) returns (r: Result<string, PyError>)
    ensures r == BcirclesPrefix(items, |items|)
  {
    var coordinateString := "";
    var idx := 0;
    while idx < |items|
      invariant idx <= |items|
      invariant BcirclesPrefix(items, idx) == Success(coordinateString)
    {
      var parsed := ParseCentroid(items[idx]);
      if parsed.Failure? {
        assert BcirclesPrefix(items, idx + 1) == Failure(parsed.error);
        r := Failure(parsed.error);
        FailureStays(items, idx + 1);
        return;
      }
      var (coordinates, radius) := parsed.value;
      if |coordinateString| <= 0 {
        coordinateString := CircleEntry(idx, coordinates, radius);
      } else {
        coordinateString := coordinateString + "|" + CircleEntry(idx, coordinates, radius);
      }
      idx := idx + 1;
    }
    r := Success(coordinateString);
  }

  /** Once an item fails to parse, the string fails for good. */
  lemma {:induction false} FailureStays(items: seq<string>, n: nat)
    requires n <= |items| && BcirclesPrefix(items, n).Failure?
    ensures BcirclesPrefix(items, |items|) == BcirclesPrefix(items, n)
    decreases |items| - n
  {
    if n < |items| {
      FailureStays(items, n + 1);
    }
  }

  /** The circle entry of an item that parses, numbered `idx`. */
  function Circle(item: string, idx: nat): (r: string)
    requires ParseCentroid(item).Success?
    ensures |r| > 0
  {
    CircleEntry(idx, ParseCentroid(item).value.0, ParseCentroid(item).value.1)
  }

  /** The circle entries of the first `n` items of a list whose every item parses. */
  function Circles(items: seq<string>, n: nat): (r: seq<string>)
    requires n <= |items|
    requires forall k :: 0 <= k < |items| ==> ParseCentroid(items[k]).Success?
    ensures |r| == n
  {
    if n == 0 then [] else Circles(items, n - 1) + [Circle(items[n - 1], n - 1)]
  }

  /** Entry `k` of the list is the circle of item `k`. */
  lemma {:induction false} CirclesAt(items: seq<string>, n: nat, k: nat)
    requires k < n <= |items|
    requires forall k :: 0 <= k < |items| ==> ParseCentroid(items[k]).Success?
    ensures Circles(items, n)[k] == Circle(items[k], k)
  {
    if k < n - 1 {
      CirclesAt(items, n - 1, k);
    }
  }

  /** Appending an entry as the loop does extends the join by one part. */
  lemma JoinStep(parts: seq<string>, entry: string)
    requires |parts| > 0 ==> |parts[0]| > 0
    ensures var prefix := Join("|", parts);
            (if |prefix| <= 0 then entry else prefix + "|" + entry) == Join("|", parts + [entry])
  {
    if |parts| > 0 {
      JoinAppend("|", parts, entry);
      JoinStartsWithFirst("|", parts);
    }
  }

  /** With every item parsed, the string is the entries, numbered by list position, joined by `|`. */
  lemma {:induction false} BcirclesJoin(items: seq<string>, n: nat)
    requires n <= |items|
    requires forall k :: 0 <= k < |items| ==> ParseCentroid(items[k]).Success?
    ensures BcirclesPrefix(items, n) == Success(Join("|", Circles(items, n)))
  {
    if n > 0 {
      BcirclesJoin(items, n - 1);
      var parts := Circles(items, n - 1);
      if n > 1 {
        CirclesAt(items, n - 1, 0);
      }
      JoinStep(parts, Circle(items[n - 1], n - 1));
    }
  }

  /** An entry holds `|` only where its coordinates or radius do. */
  lemma EntryFree(idx: nat, coordinates: string, radius: string)
    requires '|' !in coordinates && '|' !in radius
    ensures '|' !in CircleEntry(idx, coordinates, radius)
  {
    var digits := NatToString(idx);
    assert CircleEntry(idx, coordinates, radius) == "id" + digits + ":" + coordinates + "," + radius;
    assert forall i :: 0 <= i < |digits| ==> digits[i] != '|';
  }

  /**
   * With every item written as the dialog lists it and no `|` or `:` in its
   * parts, the whole string parses, and splitting it at `|` gives back each
   * circle, the i-th item as `id<i>`.
   */
  lemma BcirclesRoundTrip(names: seq<string>, coordinates: seq<string>, radii: seq<string>)
    requires |names| == |coordinates| == |radii| > 0
    requires forall k :: 0 <= k < |names| ==> ':' !in names[k] && ':' !in coordinates[k]
    requires forall k :: 0 <= k < |names| ==> '|' !in names[k] && '|' !in coordinates[k] && '|' !in radii[k]
    ensures var items := seq(|names|, k requires 0 <= k < |names| => CentroidItem(names[k], coordinates[k], radii[k]));
            && BcirclesPrefix(items, |items|).Success?
            && Split(BcirclesPrefix(items, |items|).value, "|")
               == seq(|names|, k requires 0 <= k < |names| => CircleEntry(k, coordinates[k], radii[k]))
  {
    var items := seq(|names|, k requires 0 <= k < |names| => CentroidItem(names[k], coordinates[k], radii[k]));
    forall k | 0 <= k < |items| ensures ParseCentroid(items[k]) == Success((coordinates[k], radii[k])) {
      ParseCentroidItem(names[k], coordinates[k], radii[k]);
    }
    var circles := Circles(items, |items|);
    var expected := seq(|names|, k requires 0 <= k < |names| => CircleEntry(k, coordinates[k], radii[k]));
    forall k | 0 <= k < |circles| ensures circles[k] == expected[k] {
      CirclesAt(items, |items|, k);
    }
    assert circles == expected;
    forall k | 0 <= k < |circles| ensures '|' !in circles[k] {
      EntryFree(k, coordinates[k], radii[k]);
    }
    BcirclesJoin(items, |items|);
    SplitJoin('|', circles);
  }

  // ---------------------------------------------------------------------
  // the `time` parameter

  /** One designator of the duration: the count and its unit, or nothing for a count that is not positive. */
  function Designator(count: int, unit: char): string
  {
    if count > 0 then IntToString(count) + [unit] else ""
  }

  /** The ISO 8601 duration suffix built by `intervals`: only positive counts, in Y, M, D order. */
  function Intervals(years: int, months: int, days: int): string
  {
    "/P" + Designator(years, 'Y') + Designator(months, 'M') + Designator(days, 'D')
  }

  const FirstSecond := "2007-10-08T00:00:01"

  /** The API rejects the first day of the history at midnight; its first second is asked for instead. */
  function ApiDate(date: string): string
  {
    if date == "2007-10-08" then FirstSecond else date
  }

  /** `start/end<intervals>` for an aggregation with a duration, `start,end` otherwise. */
  function TimeParameter(dateStart: string, dateEnd: string, intervals: string, aggregation: bool): string
  {
    if aggregation && |intervals| >= 3 then ApiDate(dateStart) + "/" + ApiDate(dateEnd) + intervals
    else ApiDate(dateStart) + "," + ApiDate(dateEnd)
  }

  /** The duration is non-empty exactly when some count is positive. */
  lemma IntervalsPositive(years: int, months: int, days: int)
    ensures |Intervals(years, months, days)| >= 3 <==> years > 0 || months > 0 || days > 0
  {
  }

  /** A dialog date's text in the parameter: its first second for 8 October 2007, itself otherwise. */
  function DateText(d: Dates.Date): string
  {
    if d == Dates.HistoryStart then FirstSecond else Dates.Iso(d)
  }

  /**
   * The `time` parameter of `_prepare_ohsome_time_parameter`: the slash form
   * with the duration exactly for an aggregation with some positive count,
   * and each date replaced independently when it is 8 October 2007.
   */
  lemma TimeShape(start: Dates.Date, end: Dates.Date, years: int, months: int, days: int, aggregation: bool)
    requires Dates.ValidDate(start) && Dates.ValidDate(end)
    ensures TimeParameter(Dates.Iso(start), Dates.Iso(end), Intervals(years, months, days), aggregation)
            == if aggregation && (years > 0 || months > 0 || days > 0)
               then DateText(start) + "/" + DateText(end) + Intervals(years, months, days)
               else DateText(start) + "," + DateText(end)
  {
    IntervalsPositive(years, months, days);
    Dates.HistoryStartText(start);
    Dates.HistoryStartText(end);
  }

  /**
   * `_prepare_ohsome_time_parameter` (ohsomeTools/gui/ohsome_spec.py:207-243,
   * OhsomeQgis/gui/ohsome_spec.py:208-244, OhsomeQgis/gui/ohsome_gui.py:196-232):
   * the duration is built up count by count, each date replaced by its first
   * second when it is 8 October 2007, and the slash form chosen for an
   * aggregation request with some positive count.
   */
  method PrepareOhsomeTimeParameter(start: Dates.Date, end: Dates.Date, years: int, months: int, days: int,
                                    apiSpec: string)
    returns (dates: string)
    requires Dates.ValidDate(start) && Dates.ValidDate(end)
    ensures dates == if Lower(apiSpec) == "data-aggregation" && (years > 0 || months > 0 || days > 0)
                     then DateText(start) + "/" + DateText(end) + Intervals(years, months, days)
                     else DateText(start) + "," + DateText(end)
  {
    var dateStart := Dates.Iso(start);
    var dateEnd := Dates.Iso(end);
    var intervals := "/P";
    if years > 0 {
      intervals := intervals + (IntToString(years) + "Y");
    }
    assert intervals == "/P" + Designator(years, 'Y');
    if months > 0 {
      intervals := intervals + (IntToString(months) + "M");
    }
    assert intervals == "/P" + Designator(years, 'Y') + Designator(months, 'M');
    if days > 0 {
      intervals := intervals + (IntToString(days) + "D");
    }
    assert intervals == Intervals(years, months, days);
    IntervalsPositive(years, months, days);
    Dates.HistoryStartText(start);
    Dates.HistoryStartText(end);
    if dateStart == "2007-10-08" {
      dateStart := FirstSecond;
    }
    assert dateStart == DateText(start);
    if dateEnd == "2007-10-08" {
      dateEnd := FirstSecond;
    }
    assert dateEnd == DateText(end);
    if Lower(apiSpec) == "data-aggregation" && |intervals| >= 3 {
      dates := dateStart + "/" + dateEnd + intervals;
    } else {
      dates := dateStart + "," + dateEnd;
    }
  }

  // ---------------------------------------------------------------------
  // is_valid

  const MissingCentroids := "> Missing Centroid locations, did you forget to set centroids?\nUse the green plus button to add centroids.\n"
  const MissingPointLayers := "> Missing point layers, did you forget to set one?\nUse the green plus button to add multiple layers.\n"
  const MissingPolygonLayers := "> Missing polygon layers, did you forget to set one?\nUse the green plus button to add multiple layers.\n"
  const MissingGroupByKey := "> For `groupBy/tag` and `groupBy/key` endpoints provide at least one `groupByKey` tag in the data aggregation settings.\n"
  const MissingFilter2 := "> For `ratio` endpoints provide the `Filter 2` under the data aggregation settings.\n"
  const MissingFilter := "> Request filter needs to be set.\n"
  const MissingUrl := "> Request url needs to be set.\n"
  const MissingDate := "> Request date needs to be set.\n"

  /** The endpoint groups by key or by tag. */
  predicate GroupsByKey(url: string)
  {
    Contains(Lower(url), "groupby/key") || Contains(Lower(url), "groupby/tag")
  }

  predicate IsRatio(url: string)
  {
    Contains(Lower(url), "ratio")
  }

  predicate GroupsByTag(url: string)
  {
    Contains(Lower(url), "groupby/tag")
  }

  /**
   * The dialog checks of `is_valid` (ohsomeTools/gui/ohsome_spec.py:159-205,
   * OhsomeQgis/gui/ohsome_spec.py:163-206): each failed check appends its
   * message, and the dialog is valid exactly when none failed.
   */
  method ValidateDialog(tabIndex: int, centroids: nat, pointLayers: nat, polygonLayers: nat, url: string,
                        groupByKey: string, filter2: string, filter: string, date: string)
    returns (valid: bool, msg: string)
    ensures valid <==> msg == ""
    ensures valid <==> !(tabIndex == 0 && centroids == 0) && !(tabIndex == 1 && pointLayers == 0)
                       && !(tabIndex == 2 && polygonLayers == 0)
                       && !(GroupsByKey(url) && |groupByKey| == 0) && !(IsRatio(url) && |filter2| == 0)
                       && |filter| > 0 && |url| > 3 && |date| > 0
  {
    msg := "";
    if tabIndex == 0 && centroids == 0 {
      msg := msg + MissingCentroids;
    }
    if tabIndex == 1 && pointLayers == 0 {
      msg := msg + MissingPointLayers;
    }
    if tabIndex == 2 && polygonLayers == 0 {
      msg := msg + MissingPolygonLayers;
    }
    if GroupsByKey(url) && |groupByKey| == 0 {
      msg := msg + MissingGroupByKey;
    }
    if IsRatio(url) && |filter2| == 0 {
      msg := msg + MissingFilter2;
    }
    if |filter| <= 0 {
      msg := msg + MissingFilter;
    }
    if |url| <= 3 {
      msg := msg + MissingUrl;
    }
    if |date| <= 0 {
      msg := msg + MissingDate;
    }
    valid := |msg| == 0;
  }

  // ---------------------------------------------------------------------
  // the request dict

  /** What the request dict is built from. */
  datatype Settings = Settings(apiSpec: string, url: string, clipGeometry: bool, propertyGroups: string,
                               format: string, groupByKey: string, groupByValues: string, filter2: string,
                               showMetadata: bool, filter: string, time: string, timeout: int)

  /** `str(b).lower()`. */
  function PyBool(b: bool): string
  {
    if b then "true" else "false"
  }

  /** The request parameters: a dict from parameter name to its value. */
  type Params = map<string, Json>

  const ExtractionKeys: set<string> := {"clipGeometry", "properties"}
  const AggregationKeys: set<string> := {"format", "groupByKey", "groupByValues", "filter2"}
  const CommonKeys: set<string> := {"showMetadata", "filter", "time", "timeout"}

  /** `m[key]` as an Option: None when the key is absent. */
  function At(m: Params, key: string): Option<Json>
  {
    if key in m then Some(m[key]) else None
  }

  /** The API a request goes to, from its lower-cased spec name. */
  datatype Api = MetadataApi | ExtractionApi | AggregationApi | OtherApi

  function ApiOf(apiSpec: string): (r: Api)
    ensures r == MetadataApi <==> Lower(apiSpec) == "metadata"
    ensures r == ExtractionApi <==> Lower(apiSpec) == "data-extraction"
    ensures r == AggregationApi <==> Lower(apiSpec) == "data-aggregation"
  {
    var api := Lower(apiSpec);
    if api == "metadata" then MetadataApi
    else if api == "data-extraction" then ExtractionApi
    else if api == "data-aggregation" then AggregationApi
    else OtherApi
  }

  /**
   * `__prepare_request_properties` (ohsomeTools/gui/ohsome_spec.py:302-339,
   * OhsomeQgis/gui/ohsome_spec.py:303-341): an empty dict for the metadata
   * endpoint; otherwise the keys of the chosen API (none for an API of
   * another name) and the keys every request carries, and no others.
   */
  method PrepareRequestProperties(s: Settings) returns (properties: Params)
    ensures ApiOf(s.apiSpec) == MetadataApi ==> properties == map[]
    ensures ApiOf(s.apiSpec) != MetadataApi ==>
              var extraction := ApiOf(s.apiSpec) == ExtractionApi;
              var aggregation := ApiOf(s.apiSpec) == AggregationApi;
              && At(properties, "clipGeometry") == (if extraction then Some(Str(PyBool(s.clipGeometry))) else None)
              && At(properties, "properties")
                 == (if extraction && |s.propertyGroups| > 0 then Some(Str(s.propertyGroups)) else None)
              && At(properties, "format") == (if aggregation then Some(Str(s.format)) else None)
              && At(properties, "groupByKey") == (if aggregation && GroupsByKey(s.url) then Some(Str(s.groupByKey)) else None)
              && At(properties, "groupByValues")
                 == (if aggregation && GroupsByTag(s.url) && |s.groupByValues| > 0 then Some(Str(s.groupByValues)) else None)
              && At(properties, "filter2")
                 == (if aggregation && IsRatio(s.url) && |s.filter2| > 0 then Some(Str(s.filter2)) else None)
              && At(properties, "showMetadata") == Some(Str(PyBool(s.showMetadata)))
              && At(properties, "filter") == Some(Str(s.filter))
              && At(properties, "time") == Some(Str(s.time))
              && At(properties, "timeout") == (if s.timeout > 0 then Some(Str(IntToString(s.timeout))) else None)
    ensures properties.Keys <= ExtractionKeys + AggregationKeys + CommonKeys
  {
    properties := map[];
    var api := ApiOf(s.apiSpec);
    if api == MetadataApi {
      return;
    } else if api == ExtractionApi {
      properties := properties["clipGeometry" := Str(PyBool(s.clipGeometry))];
      if |s.propertyGroups| > 0 {
        properties := properties["properties" := Str(s.propertyGroups)];
      }
    } else if api == AggregationApi {
      properties := properties["format" := Str(s.format)];
      if GroupsByKey(s.url) {
        properties := properties["groupByKey" := Str(s.groupByKey)];
      }
      if GroupsByTag(s.url) && |s.groupByValues| > 0 {
        properties := properties["groupByValues" := Str(s.groupByValues)];
      }
      if IsRatio(s.url) && |s.filter2| > 0 {
        properties := properties["filter2" := Str(s.filter2)];
      }
    }
    properties := properties["showMetadata" := Str(PyBool(s.showMetadata))];
    properties := properties["filter" := Str(s.filter)];
    properties := properties["time" := Str(s.time)];
    if s.timeout > 0 {
      properties := properties["timeout" := Str(IntToString(s.timeout))];
    }
  }

  /**
   * `get_point_layer_request_preferences` / `get_polygon_layer_request_preferences`
   * (ohsomeTools/gui/ohsome_spec.py:350-370): the shared dict gets `key`
   * (`bcircles` or `bpolys`) set to each geometry in turn, and a copy of it
   * is kept each time.
   */
  method LayerPreferences(base: Params, key: string, geometries: seq<Json>) returns (copies: seq<Params>)
    ensures |copies| == |geometries|
    ensures forall i :: 0 <= i < |copies| ==> copies[i] == base[key := geometries[i]]
  {
    var requestProperties := base;
    copies := [];
    var i := 0;
    while i < |geometries|
      invariant i <= |geometries| && |copies| == i
      invariant i > 0 ==> requestProperties == base[key := geometries[i - 1]]
      invariant i == 0 ==> requestProperties == base
      invariant forall j :: 0 <= j < i ==> copies[j] == base[key := geometries[j]]
    {
      requestProperties := requestProperties[key := geometries[i]];
      copies := copies + [requestProperties];
      i := i + 1;
    }
  }
}
