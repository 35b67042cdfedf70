/**
 * What OhsomeQgis/gui/ohsome_spec.py's `OhsomeSpec` adds to the shared
 * builders of RequestParams: the API and the URL come from the spec
 * combo boxes, and the metadata spec short-circuits the URL and the
 * validity check. Its time parameter, property groups, centroid string,
 * request dict and per-layer copies are the shared ones, given the combo
 * text as the API name.
 */
module QgisSpec {
  import opened Strings
  import RequestParams

  /**
   * `_request_url`: the lower-cased selection when it lowers to `metadata`,
   * `<preference>/<specification>` otherwise.
   */
  function RequestUrl(selection: string, preference: string, specification: string): (r: string)
    ensures r == "metadata" <==> Lower(selection) == "metadata"
    ensures Lower(selection) != "metadata" ==> |r| > |preference| && r[|preference|] == '/'
  {
    if Lower(selection) == "metadata" then Lower(selection)
    else
      var r := preference + "/" + specification;
      assert r[|preference|] == '/';
      assert forall k :: 0 <= k < 8 ==> "metadata"[k] != '/';
      r
  }

  /**
   * `is_valid`: valid outright for the metadata spec; for any other spec the
   * dialog checks decide, and the dialog is valid exactly when none failed.
   */
  method IsValid(selection: string, tabIndex: int, centroids: nat, pointLayers: nat, polygonLayers: nat,
                 url: string, groupByKey: string, filter2: string, filter: string, date: string)
    returns (valid: bool, msg: string)
    ensures valid <==> msg == ""
    ensures RequestParams.ApiOf(selection) == RequestParams.MetadataApi ==> valid
    ensures RequestParams.ApiOf(selection) != RequestParams.MetadataApi ==>
              (valid <==> !(tabIndex == 0 && centroids == 0) && !(tabIndex == 1 && pointLayers == 0)
                          && !(tabIndex == 2 && polygonLayers == 0)
                          && !(RequestParams.GroupsByKey(url) && |groupByKey| == 0)
                          && !(RequestParams.IsRatio(url) && |filter2| == 0)
                          && |filter| > 0 && |url| > 3 && |date| > 0)
  {
    if Lower(selection) == "metadata" {
      return true, "";
    }
    valid, msg := RequestParams.ValidateDialog(tabIndex, centroids, pointLayers, polygonLayers, url,
                                               groupByKey, filter2, filter, date);
  }
}
