/**
 * The parameter getters of ohsomeTools/gui/ohsome_spec.py that the shared
 * builders of RequestParams do not cover: the dialog spec `OhsomeSpec`
 * (fixed API, measure-and-groupby URL, simple or advanced filter, fixed
 * aggregation time parameter) and the Processing spec
 * `ProcessingOhsomeSpec` (selection-driven URL, period text, timeout and
 * its own `is_valid`). Widget and Processing parameter reads are inputs.
 */
module ToolsSpec {
  import opened Wrappers
  import opened Strings
  import Dates
  import RequestParams

  // ---------------------------------------------------------------------
  // OhsomeSpec: the dialog

  /** The dialog always asks the data-aggregation API. */
  const GuiApiSpec := "data-aggregation"

  /** The fixed API name is already lower case, so the checks that lower it see it unchanged. */
  lemma GuiApiSpecLower()
    ensures Lower(GuiApiSpec) == GuiApiSpec
  {
    var s := GuiApiSpec;
    assert forall k :: 0 <= k < |s| ==> !('A' <= s[k] <= 'Z');
    LowerNoUpper(s);
  }

  /** `_request_url`: the lower-cased measure under `elements/`, then the lower-cased groupby unless it is `None`. */
  function GuiRequestUrl(measure: string, groupBy: string): string
  {
    var group := if groupBy != "None" then GroupbyPrefix + Lower(groupBy) else "";
    ElementsPrefix + Lower(measure) + group
  }

  const ElementsPrefix := "elements/"
  const GroupbyPrefix := "/groupby/"

  /** A lower-case literal is its own lower-case form. */
  lemma LowerLiteral(s: string)
    requires forall k :: 0 <= k < |s| ==> !('A' <= s[k] <= 'Z')
    ensures Lower(s) == s
  {
    LowerNoUpper(s);
  }

  /** Lowered text between two lower-case parts leaves the whole lower case. */
  lemma LowerBetween(a: string, b: string, c: string)
    requires Lower(a) == a && Lower(c) == c
    ensures Lower(a + Lower(b) + c) == a + Lower(b) + c
  {
    LowerAt(b);
    LowerConcat(a, Lower(b));
    LowerConcat(a + Lower(b), c);
  }

  /** The fixed parts of the dialog URL are lower case. */
  lemma ElementsPrefixLower()
    ensures Lower(ElementsPrefix) == ElementsPrefix
  {
    var s := ElementsPrefix;
    assert forall k :: 0 <= k < |s| ==> !('A' <= s[k] <= 'Z');
    LowerLiteral(s);
  }

  lemma GroupbyPrefixLower()
    ensures Lower(GroupbyPrefix) == GroupbyPrefix
  {
    var s := GroupbyPrefix;
    assert forall k :: 0 <= k < |s| ==> !('A' <= s[k] <= 'Z');
    LowerLiteral(s);
  }

  /** The dialog URL is lower case. */
  lemma GuiRequestUrlLower(measure: string, groupBy: string)
    ensures Lower(GuiRequestUrl(measure, groupBy)) == GuiRequestUrl(measure, groupBy)
  {
    ElementsPrefixLower();
    GroupbyPrefixLower();
    var group := "";
    if groupBy != "None" {
      LowerBetween(GroupbyPrefix, groupBy, "");
      assert GroupbyPrefix + Lower(groupBy) + "" == GroupbyPrefix + Lower(groupBy);
      group := GroupbyPrefix + Lower(groupBy);
    }
    LowerBetween(ElementsPrefix, measure, group);
  }

  /**
   * The dialog URL is always longer than three characters (so the URL check
   * of `is_valid` never fails for it); without a groupby it is the measure
   * endpoint, and with one it ends with that groupby endpoint.
   */
  lemma GuiRequestUrlShape(measure: string, groupBy: string)
    ensures var url := GuiRequestUrl(measure, groupBy);
            && |url| > 3 && url[..9] == "elements/"
            && (groupBy == "None" ==> url == "elements/" + Lower(measure))
            && (groupBy != "None" ==> url[|url| - |groupBy| - 9..] == "/groupby/" + Lower(groupBy))
  {
  }

  /** A key or tag groupby makes the dialog URL a groupby/key or groupby/tag endpoint. */
  lemma GuiRequestUrlGroups(measure: string, groupBy: string)
    requires Lower(groupBy) == "key" || Lower(groupBy) == "tag"
    ensures RequestParams.GroupsByKey(GuiRequestUrl(measure, groupBy))
    ensures Lower(groupBy) == "tag" ==> RequestParams.GroupsByTag(GuiRequestUrl(measure, groupBy))
  {
    var url := GuiRequestUrl(measure, groupBy);
    LowerAt(groupBy);
    assert groupBy[0] != 'N';
    GuiRequestUrlLower(measure, groupBy);
    var endpoint := "groupby/" + Lower(groupBy);
    assert GroupbyPrefix == "/" + "groupby/";
    assert url == ElementsPrefix + Lower(measure) + "/" + endpoint;
    assert url[|url| - 11..] == endpoint;
    EndsWithContains(url, endpoint);
    assert Contains(Lower(url), endpoint);
    if Lower(groupBy) == "key" {
      assert endpoint == "groupby/key";
    } else {
      assert endpoint == "groupby/tag";
    }
  }

  /**
   * `_request_filter`: the advanced tab (index 1) gives the plain query
   * text, the simple tab (index 0) the key/value pair and the lower-cased
   * OSM type; any other tab index gives None.
   */
  function GuiFilter(tabIndex: int, text: string, key: string, value: string, osmType: string): (r: Option<string>)
    ensures r.Some? <==> tabIndex == 0 || tabIndex == 1
    ensures tabIndex == 1 ==> r == Some(text)
  {
    if tabIndex == 1 then Some(text)
    else if tabIndex == 0 then Some(key + "=" + value + " and type:" + Lower(osmType))
    else None
  }

  /** The simple tab's filter reads `key=value and type:t` with `t` the OSM type in lower case. */
  lemma GuiSimpleFilter(text: string, key: string, value: string, osmType: string)
    ensures var f := GuiFilter(0, text, key, value, osmType).value;
            var head := key + "=" + value + " and type:";
            && |f| == |head| + |osmType| && f[..|head|] == head
            && Lower(f[|head|..]) == f[|head|..]
            && (forall k :: 0 <= k < |osmType| ==> f[|head| + k] == LowerChar(osmType[k]))
  {
    LowerAt(osmType);
  }

  /**
   * `_request_date_string` of the dialog: as the API is fixed to
   * data-aggregation, the slash form with the duration is used exactly when
   * some count is positive.
   */
  method GuiDateString(start: Dates.Date, end: Dates.Date, years: int, months: int, days: int)
    returns (dates: string)
    requires Dates.ValidDate(start) && Dates.ValidDate(end)
    ensures dates == if years > 0 || months > 0 || days > 0
                     then RequestParams.DateText(start) + "/" + RequestParams.DateText(end)
                          + RequestParams.Intervals(years, months, days)
                     else RequestParams.DateText(start) + "," + RequestParams.DateText(end)
  {
    var apiSpec := GuiApiSpec;
    GuiApiSpecLower();
    dates := RequestParams.PrepareOhsomeTimeParameter(start, end, years, months, days, apiSpec);
  }

  // ---------------------------------------------------------------------
  // ProcessingOhsomeSpec: the Processing algorithms

  /** `_request_url`: `metadata` for the metadata selection, `<preference>/<specification>` otherwise. */
  function ProcessingRequestUrl(selection: string, preference: string, specification: string): (r: string)
    ensures r == "metadata" <==> selection == "metadata"
    ensures selection != "metadata" ==> |r| > |preference| && r[|preference|] == '/'
  {
    if selection == "metadata" then selection
    else
      var r := preference + "/" + specification;
      assert r[|preference|] == '/';
      assert forall k :: 0 <= k < 8 ==> "metadata"[k] != '/';
      r
  }

  /** `_request_timeout`: the parameter when positive, 0 (the API's own timeout) otherwise. */
  function ProcessingTimeout(timeoutInput: int): (r: int)
    ensures r >= 0
    ensures r > 0 <==> timeoutInput > 0
    ensures r > 0 ==> r == timeoutInput
  {
    if timeoutInput > 0 then timeoutInput else 0
  }

  /**
   * `_prepare_ohsome_time_parameter` of the Processing spec
   * (ohsomeTools/gui/ohsome_spec.py:401-422): the period text comes as it
   * is and is appended for an aggregation selection when it has at least
   * three characters.
   */
  method ProcessingTimeParameter(start: Dates.Date, end: Dates.Date, period: string, selection: string)
    returns (dates: string)
    requires Dates.ValidDate(start) && Dates.ValidDate(end)
    ensures dates == if Lower(selection) == "data-aggregation" && |period| >= 3
                     then RequestParams.DateText(start) + "/" + RequestParams.DateText(end) + period
                     else RequestParams.DateText(start) + "," + RequestParams.DateText(end)
  {
    var dateStart := Dates.Iso(start);
    var dateEnd := Dates.Iso(end);
    var intervals := period;
    Dates.HistoryStartText(start);
    Dates.HistoryStartText(end);
    if dateStart == "2007-10-08" {
      dateStart := RequestParams.FirstSecond;
    }
    if dateEnd == "2007-10-08" {
      dateEnd := RequestParams.FirstSecond;
    }
    if Lower(selection) == "data-aggregation" && |intervals| >= 3 {
      dates := dateStart + "/" + dateEnd + intervals;
    } else {
      dates := dateStart + "," + dateEnd;
    }
  }

  /** The ratio message of the Processing spec, shorter than the dialog's. */
  const ProcessingMissingFilter2 := "> For `ratio` endpoints provide the `Filter 2`\n"

  /** `text` when the check failed, nothing otherwise. */
  function Note(failed: bool, text: string): string
  {
    if failed then text else ""
  }

  /**
   * `is_valid` of the Processing spec (ohsomeTools/gui/ohsome_spec.py:451-483),
   * as written: the metadata selection is valid outright; the layer checks
   * test a one-element list and never fail; a ratio endpoint without a
   * second filter reports both the missing `Filter 2` and a missing filter,
   * and the filter itself is not checked.
   */
  method ProcessingIsValid(selection: string, geom: int, layer: string, url: string, groupByKey: string,
                           filter2: string, date: string)
    returns (valid: bool, msg: string)
    ensures valid <==> msg == ""
    ensures selection == "metadata" ==> msg == ""
    ensures selection != "metadata" ==>
              msg == Note(RequestParams.GroupsByKey(url) && |groupByKey| == 0, RequestParams.MissingGroupByKey)
                     + Note(RequestParams.IsRatio(url) && |filter2| == 0, ProcessingMissingFilter2 + RequestParams.MissingFilter)
                     + Note(|url| <= 3, RequestParams.MissingUrl)
                     + Note(|date| <= 0, RequestParams.MissingDate)
    ensures valid <==> selection == "metadata"
                       || (!(RequestParams.GroupsByKey(url) && |groupByKey| == 0)
                           && !(RequestParams.IsRatio(url) && |filter2| == 0) && |url| > 3 && |date| > 0)
  {
    if selection == "metadata" {
      return true, "";
    }
    var missingKey := RequestParams.GroupsByKey(url) && |groupByKey| == 0;
    var missingFilter2 := RequestParams.IsRatio(url) && |filter2| == 0;
    msg := "";
    var layers := [layer];
    if geom == 1 && |layers| == 0 {
      msg := msg + RequestParams.MissingPointLayers;
    }
    if geom == 2 && |layers| == 0 {
      msg := msg + RequestParams.MissingPolygonLayers;
    }
    assert msg == "";
    if missingKey {
      msg := msg + RequestParams.MissingGroupByKey;
    }
    assert msg == Note(missingKey, RequestParams.MissingGroupByKey);
    var before := msg;
    if missingFilter2 {
      msg := msg + ProcessingMissingFilter2;
      msg := msg + RequestParams.MissingFilter;
    }
    assert msg == before + Note(missingFilter2, ProcessingMissingFilter2 + RequestParams.MissingFilter);
    before := msg;
    if |url| <= 3 {
      msg := msg + RequestParams.MissingUrl;
    }
    assert msg == before + Note(|url| <= 3, RequestParams.MissingUrl);
    before := msg;
    if |date| <= 0 {
      msg := msg + RequestParams.MissingDate;
    }
    assert msg == before + Note(|date| <= 0, RequestParams.MissingDate);
    valid := |msg| == 0;
  }
}
