/**
 * The older `Spec` of OhsomeQgis/gui/ohsome_gui.py: a default timeout, a
 * property-group string that keeps its comma, a URL with a leading slash,
 * a bare validity check, a request dict without a metadata case, and the
 * checked-box list of `_get_avoid_options`. Its centroid string and time
 * parameter are the shared ones of RequestParams.
 */
module GuiSpec {
  import opened Wrappers
  import opened Json
  import opened Strings
  import RequestParams
  import QgisSpec

  /** GLOBAL_TIMEOUT of OhsomeQgis/common/__init__.py. */
  const GlobalTimeout := 10

  /** `_request_timeout`: the dialog value unless it is 0, the global default then. */
  function Timeout(value: int): (r: int)
    ensures r != 0
    ensures value != 0 ==> r == value
    ensures value == 0 ==> r == GlobalTimeout
  {
    if value != 0 then value else GlobalTimeout
  }

  /** `_property_groups`: `tags` when ticked, and `,metadata` appended when metadata is ticked. */
  function PropertyGroups(tags: bool, metadata: bool): string
  {
    var properties := if tags then "tags" else "";
    if metadata then properties + ",metadata" else properties
  }

  /**
   * The two property-group builders agree except for metadata alone, where
   * this one keeps a leading comma.
   */
  lemma PropertyGroupsCompared(tags: bool, metadata: bool)
    ensures PropertyGroups(tags, metadata) == RequestParams.PropertyGroups(tags, metadata) <==> tags || !metadata
    ensures !tags && metadata ==> PropertyGroups(tags, metadata) == "," + RequestParams.PropertyGroups(tags, metadata)
  {
    if !tags && metadata {
      assert |PropertyGroups(tags, metadata)| != |RequestParams.PropertyGroups(tags, metadata)|;
    }
  }

  /** `_request_url`: `/<preference>/<specification>`. */
  function RequestUrl(preference: string, specification: string): string
  {
    "/" + preference + "/" + specification
  }

  /**
   * The URL is the other spec's URL for a non-metadata selection with a
   * slash in front; it passes the length check of `is_valid` exactly when
   * the two combo texts have two characters between them.
   */
  lemma RequestUrlShape(selection: string, preference: string, specification: string)
    ensures Lower(selection) != "metadata" ==>
              RequestUrl(preference, specification) == "/" + QgisSpec.RequestUrl(selection, preference, specification)
    ensures |RequestUrl(preference, specification)| > 3 <==> |preference| + |specification| >= 2
  {
  }

  /** `is_valid`: False at the first empty value or a URL of three characters or fewer. */
  function IsValid(bcircles: string, filter: string, url: string, date: string): (r: bool)
  {
    if |bcircles| <= 0 then false
    else if |filter| <= 0 then false
    else if |url| <= 3 then false
    else if |date| <= 0 then false
    else true
  }

  /** With every centroid item well formed, the `bcircles` string is empty exactly for an empty list. */
  lemma {:induction false} BcirclesEmpty(items: seq<string>)
    requires forall k :: 0 <= k < |items| ==> RequestParams.ParseCentroid(items[k]).Success?
    ensures RequestParams.BcirclesPrefix(items, |items|).Success?
    ensures |RequestParams.BcirclesPrefix(items, |items|).value| > 0 <==> |items| > 0
  {
    RequestParams.BcirclesJoin(items, |items|);
    if |items| > 0 {
      var parts := RequestParams.Circles(items, |items|);
      RequestParams.CirclesAt(items, |items|, 0);
      JoinStartsWithFirst("|", parts);
    }
  }

  /**
   * For the dialog's own URL and a well-formed centroid list, `is_valid`
   * holds exactly when there are centroids, a filter, a date, and combo
   * texts of two characters between them.
   */
  lemma IsValidOfDialog(items: seq<string>, filter: string, preference: string, specification: string, date: string)
    requires forall k :: 0 <= k < |items| ==> RequestParams.ParseCentroid(items[k]).Success?
    ensures RequestParams.BcirclesPrefix(items, |items|).Success?
    ensures IsValid(RequestParams.BcirclesPrefix(items, |items|).value, filter, RequestUrl(preference, specification), date)
            <==> |items| > 0 && |filter| > 0 && |preference| + |specification| >= 2 && |date| > 0
  {
    BcirclesEmpty(items);
    RequestUrlShape("", preference, specification);
  }

  /**
   * `__prepare_request_properties` (OhsomeQgis/gui/ohsome_gui.py:234-255):
   * no metadata case; the extraction and aggregation keys by the lower-cased
   * API name, and `showMetadata`, `filter`, `time` and the timeout (a number,
   * defaulted) always.
   */
  method RequestProperties(s: RequestParams.Settings) returns (properties: RequestParams.Params)
    ensures var extraction := RequestParams.ApiOf(s.apiSpec) == RequestParams.ExtractionApi;
            var aggregation := RequestParams.ApiOf(s.apiSpec) == RequestParams.AggregationApi;
            && RequestParams.At(properties, "clipGeometry")
               == (if extraction then Some(Str(RequestParams.PyBool(s.clipGeometry))) else None)
            && RequestParams.At(properties, "properties")
               == (if extraction && |s.propertyGroups| > 0 then Some(Str(s.propertyGroups)) else None)
            && RequestParams.At(properties, "format") == (if aggregation then Some(Str(s.format)) else None)
            && RequestParams.At(properties, "showMetadata") == Some(Str(RequestParams.PyBool(s.showMetadata)))
            && RequestParams.At(properties, "filter") == Some(Str(s.filter))
            && RequestParams.At(properties, "time") == Some(Str(s.time))
            && RequestParams.At(properties, "timeout") == Some(Num(Timeout(s.timeout)))
    ensures properties.Keys <= {"clipGeometry", "properties", "format", "showMetadata", "filter", "time", "timeout"}
  {
    properties := map[];
    var api := RequestParams.ApiOf(s.apiSpec);
    if api == RequestParams.ExtractionApi {
      properties := properties["clipGeometry" := Str(RequestParams.PyBool(s.clipGeometry))];
      if |s.propertyGroups| > 0 {
        properties := properties["properties" := Str(s.propertyGroups)];
      }
    } else if api == RequestParams.AggregationApi {
      properties := properties["format" := Str(s.format)];
    }
    properties := properties["showMetadata" := Str(RequestParams.PyBool(s.showMetadata))];
    properties := properties["filter" := Str(s.filter)];
    properties := properties["time" := Str(s.time)];
    properties := properties["timeout" := Num(Timeout(s.timeout))];
  }

  // ---------------------------------------------------------------------
  // _get_avoid_options

  datatype CheckBox = CheckBox(text: string, checked: bool)

  /** The texts of the checked boxes, in the boxes' order. */
  function CheckedTexts(boxes: seq<CheckBox>): seq<string>
  {
    if boxes == [] then []
    else (if boxes[0].checked then [boxes[0].text] else []) + CheckedTexts(boxes[1..])
  }

  /** `_get_avoid_options` (OhsomeQgis/gui/ohsome_gui.py:66-81). */
  method AvoidOptions(boxes: seq<CheckBox>) returns (avoidFeatures: seq<string>)
    ensures avoidFeatures == CheckedTexts(boxes)
  {
    avoidFeatures := [];
    var i := 0;
    while i < |boxes|
      invariant i <= |boxes|
      invariant avoidFeatures + CheckedTexts(boxes[i..]) == CheckedTexts(boxes)
    {
      assert boxes[i..][1..] == boxes[i + 1..];
      if boxes[i].checked {
        avoidFeatures := avoidFeatures + [boxes[i].text];
      }
      i := i + 1;
    }
    assert boxes[i..] == [];
  }

  /**
   * A text is listed exactly when some checked box carries it, and no more
   * texts are listed than there are boxes; all checked gives every text.
   */
  lemma {:induction false} CheckedTextsMembers(boxes: seq<CheckBox>, t: string)
    ensures t in CheckedTexts(boxes) <==> exists i :: 0 <= i < |boxes| && boxes[i].checked && boxes[i].text == t
    ensures |CheckedTexts(boxes)| <= |boxes|
    ensures (forall i :: 0 <= i < |boxes| ==> boxes[i].checked) ==> |CheckedTexts(boxes)| == |boxes|
  {
    if boxes != [] {
      CheckedTextsMembers(boxes[1..], t);
      if exists i :: 0 <= i < |boxes| && boxes[i].checked && boxes[i].text == t {
        var i :| 0 <= i < |boxes| && boxes[i].checked && boxes[i].text == t;
        if i > 0 {
          assert boxes[1..][i - 1] == boxes[i];
        }
      }
      if exists i :: 0 <= i < |boxes| - 1 && boxes[1..][i].checked && boxes[1..][i].text == t {
        var i :| 0 <= i < |boxes| - 1 && boxes[1..][i].checked && boxes[1..][i].text == t;
        assert boxes[i + 1] == boxes[1..][i];
      }
    }
  }
}
