# ohsome QGIS plugin — a verified model of its request and response logic

The ohsome QGIS plugin sends queries to the ohsome API (OpenStreetMap
history analytics) and turns the answers into QGIS layers. This project
models the logic between the dialog and the map in Dafny:

- the HTTP client's status classification, retry, back-off and URL building,
  and the exception taxonomy it raises;
- the request-parameter builders: the `time` parameter, the `bcircles`
  string, property groups, the endpoint-specific parameter dict, `is_valid`
  and the per-layer preference copies, in their four variants (the two
  `OhsomeSpec` classes, the older `Spec` and the dialog's `ProcessManager`
  and `QGISHelper`);
- the response post-processing: the dispatch over the answer's keys, the
  GeoJSON splitter and its simpler copies, the temporal-interval stitching
  of OSM element versions, and the extraction task's `run`/`finished`;
- the polyline decoder (integer part) and the small list and string
  utilities of `common/utils.py` and `OhsomeQgis/utils/datamanager.py`.

Each modelled file is a Dafny module. Where the source loops, mutates a
list or dict, or updates fields, the model does too (methods with loop
invariants, classes with `modifies` frames), and each such method is
proved equal to a specification function. The properties are proved about
those functions as lemmas.

Modules: `Wrappers` (Option/Result), `Strings` (Python `str` operations),
`Json` (decoded JSON and Python dict, `len`, `in`, truthiness), `Sorting`
(a stable sort), `Buckets` (an insertion-ordered dict of lists), `Dates`,
`Exceptions`, `UrlEncoding`, `Client`, `Polyline`, `Temporal`,
`GeoJsonSplit`, `Dispatch`, `ExtractionsCore`, `RequestParams` (what the
three parameter builders share), `ToolsSpec`, `QgisSpec`, `GuiSpec`,
`DialogUi`, `CommonUtils` and `FeatureChains`.

Where the code differs from what its names and docstrings suggest, the
model follows the code:

- `request` raises `exceptions.Timeout()` with no argument
  (ohsomeTools/common/client.py:113). The exception constructor requires a
  `status` (ohsomeTools/utils/exceptions.py:33-35), so the call raises
  Python's TypeError, not Timeout. `Client.AttemptStep` yields that
  constructor failure.
- Every exception kind subclasses the base class directly, so
  `except GenericClientError` catches only that class
  (`Exceptions.Catches`).
- The two `postprocess_qgsvectorlayer` copies differ at the last record.
  Both are modelled as written; see "## Findings".

## Model

| member | source | states |
|---|---|---|
| Exceptions.New | ohsomeTools/utils/exceptions.py:33-35 | no argument fails (status is required), more than two fail; otherwise the kind, the status, and the message exactly when a second argument is given |
| Exceptions.Describe | ohsomeTools/utils/exceptions.py:37-41 | the text starts with the status; it is the bare status without a message, else the status, ` (`, the message and `)` |
| Exceptions.Catches | ohsomeTools/utils/exceptions.py:44-131 | a handler for one class catches exactly that class (no kind is nested under another); `except OhsomeBaseException`/`Exception` catch every kind |
| Client.StatusKind | ohsomeTools/common/client.py:228-296 | no error exactly for 200; any code in [400,500) gives a client kind, [500,600) a server kind, any other non-200 code GenericServerError; a specific kind is only given for its own code; GenericClientError exactly for the unlisted 4xx codes |
| Client.SpecificStatusRoundTrip | ohsomeTools/common/client.py:228-282 | 400/401/404/405/413/500/501/503 map back to their own kinds: BadRequest, Unauthorized, NotFound, MethodNotAllowed, PayloadTooLarge, InternalServerError, NotImplemented, ServiceUnavailable |
| Client.CheckStatus | ohsomeTools/common/client.py:196-296 | the message is the body text or the reason phrase; "Network error: Connection refused" yields ServiceUnavailable before the code is looked at; otherwise no error exactly for 200, and the error has the kind of the code, the code as status and the message |
| Client.BackoffDelay | ohsomeTools/common/client.py:114-120 | no pause exactly on the first attempt; on retry n the pause lies in [0.5·1.5^(n−1), 1.5·1.5^(n−1)) for a draw in [0,1) |
| Client.GenerateAuthUrl | ohsomeTools/common/client.py:318-340 | the path, `?`, and the urlencoded parameter items sorted by key; `unquote_unreserved` never fails on that query |
| Client.AttemptStep | ohsomeTools/common/client.py:108-194 | one pass of `request`: past the retry timeout, `Timeout()` is raised before any pause, URL or call; otherwise exactly one call, the same GET/POST to the same URL, recorded as the last URL; at most one pause, only on a retry; a delivered body is returned; a transport timeout raises `Timeout`; a retry happens exactly on an Unauthorized answer; any other classified error propagates unchanged; an unclassified failure re-raises the transport error |
| Client.RequestSpecDone | ohsomeTools/common/client.py:79-194 | an attempt that returns or raises ends `request` with its own trace |
| Client.RequestSpecRetry | ohsomeTools/common/client.py:172-183 | a retried attempt is followed by `request` with the same first-request time and retry counter + 1, and its call and pause come first in the trace |
| Client.RetriesResendSameCall | ohsomeTools/common/client.py:122-183 | every call of one `request`, retries included, has the same method, URL and body |
| Client.UnauthorizedIsRetried | ohsomeTools/common/client.py:167-192 | Unauthorized never escapes `request`; each retry emits one overQueryLimit signal and sends one call; a returned body means overQueryLimit + 1 calls |
| Client.SleepsFollowBackoff | ohsomeTools/common/client.py:114-183 | from retry n on, the i-th pause lies in [0.5·1.5^(n−1+i), 1.5·1.5^(n−1+i)) |
| Client.SleepsOfRetry | ohsomeTools/common/client.py:114-183 | the same bound when the first attempt is retried |
| Client.SleepsOfFinalAttempt | ohsomeTools/common/client.py:114-120 | the same bound when the first attempt is the last |
| Client.FreshRequestDelivered | ohsomeTools/common/client.py:108-194 | a fresh `request` whose first answer delivers a body returns that body after one call and no pause |
| Client.TimedOutRaises | ohsomeTools/common/client.py:108-113 | past the retry timeout, `request` raises `Timeout()` (a TypeError, the status being missing) and sends nothing |
| Client.ReturnedBodyWasDelivered | ohsomeTools/common/client.py:167-194 | the body `request` returns, retries included, is the body one of its attempts delivered |
| Client.FreshRequestBackoff | ohsomeTools/common/client.py:108-120 | a fresh `request` (no first time, counter 0) pauses 0.5·1.5^i ≤ p < 1.5·1.5^i before its (i+1)-th retry |
| Client.MetadataAnswerOf | ohsomeTools/common/client.py:298-316 | the returned body exactly when `request` returned; the not-available answer exactly for ServiceUnavailable; the not-healthy answer for every other exception |
| Client.OhsomeClient.constructor | ohsomeTools/common/client.py:48-75 | `url` unset and `canceled` False at creation |
| Client.OhsomeClient.Cancel | ohsomeTools/common/client.py:342-344 | `canceled` is True afterwards |
| Client.OhsomeClient.AttemptOnce | ohsomeTools/common/client.py:108-192 | the attempt is `AttemptStep`; `self.url` becomes the URL of the call it sends, and the calls and pauses are appended to the client's record |
| Client.OhsomeClient.Request | ohsomeTools/common/client.py:79-194 | the outcome, the calls, the pauses, the overQueryLimit signals and the final `self.url` are those of the specification `RequestSpec` over the environment's answers |
| Client.OhsomeClient.CheckApiMetadata | ohsomeTools/common/client.py:298-316 | a GET of `/metadata` with no parameters, answered as `MetadataAnswerOf` its outcome |
| UrlEncoding.EscapeByte | ohsomeTools/common/client.py:318-340 | `quote_plus` of one byte: space is `+`, an unreserved byte is itself, any other byte a three-character `%XX` escape |
| UrlEncoding.QuotePlusRoundTrip | ohsomeTools/common/client.py:318-340 | unquoting `quote_plus(s)` gives back the UTF-8 bytes of `s` |
| UrlEncoding.SortedItems | ohsomeTools/common/client.py:332-333 | the items sorted by key are a permutation of the input, in key order |
| UrlEncoding.UrlencodeWellEscaped | ohsomeTools/common/client.py:318-340 | every `%` of the urlencoded query starts a well-formed upper-case escape |
| UrlEncoding.UnquoteUnreservedOfUrlencode | ohsomeTools/common/client.py:340 | `unquote_unreserved` returns the urlencoded query unchanged: `urlencode` never leaves an unreserved character escaped |
| Polyline.ReadLoop | OhsomeQgis/utils/convert.py:46-52 | a value read advances the index and stays within the text; running out of text raises IndexError |
| Polyline.ReadChunks | OhsomeQgis/utils/convert.py:44-52 | the inner `while True` loop computes the value read `ReadValue` |
| Polyline.DecodePolyline | OhsomeQgis/utils/convert.py:28-88 | the loop computes `Decode`: the points, or IndexError on a truncated value |
| Polyline.LatLngDeltaAgree | OhsomeQgis/utils/convert.py:53-64 | the lat form `~result >> 1` and the lng form `~(result >> 1)` agree on every result |
| Polyline.ReadValueIsStandard | OhsomeQgis/utils/convert.py:44-52 | on the format's characters, the `ord − 64` accumulation from 1 equals the standard `(ord − 63) & 0x1F` five-bit reading |
| Polyline.UnzigZig | OhsomeQgis/utils/convert.py:53-64 | zig-zag decoding inverts the format's sign encoding |
| Polyline.StandardReadOfEncoded | OhsomeQgis/utils/convert.py:44-64 | reading an encoded value gives its zig-zag form and consumes all of it |
| Polyline.DecodeFromShape | OhsomeQgis/utils/convert.py:81-86 | every point has two coordinates, or three in 3D; failures are IndexError |
| Polyline.ReadPoint | OhsomeQgis/utils/convert.py:44-79 | a point read advances the index; in 2D z does not change |
| Polyline.Outputs | OhsomeQgis/utils/convert.py:81-86 | each point comes out as `[lng, lat]` or `[lng, lat, z]` |
| Polyline.DecodeEncode | OhsomeQgis/utils/convert.py:28-88 | decoding the encoding of points (running sums from 0) gives back those points as `[lng, lat(, z)]` |
| Polyline.EncodeFrom2DIgnoresZ | OhsomeQgis/utils/convert.py:66-86 | in 2D the z values play no part |
| Polyline.DecodeFromEndsOnStop | OhsomeQgis/utils/convert.py:43-88 | a successful decode ends exactly at the end of the text, on a stop chunk |
| Polyline.TruncatedRaises | OhsomeQgis/utils/convert.py:47-70 | a text whose last chunk is a continuation chunk raises IndexError |
| Temporal.TemporalFields | OhsomeQgis/common/request_core.py:190-203 | the start/end pair in priority order `@validFrom`/`@validTo`, `@snapshotTimestamp`/`endDate`, `@timestamp`/`endDate`; none exactly when no start field exists |
| Temporal.WithField | OhsomeQgis/common/request_core.py:208-211 | the end field is present afterwards; the fields are unchanged if it already was |
| Temporal.GroupedOrder | OhsomeQgis/common/request_core.py:219-233 | after both sorts the records are a permutation of the layer, ordered by id, and chronological within one id |
| Temporal.GroupedContiguous | OhsomeQgis/common/request_core.py:233 | the versions of one element are adjacent after the sorts |
| Temporal.YoungestIsLatestStart | OhsomeQgis/common/request_core.py:219-232 | for a layer sorted by its start field, the youngest timestamp is one day after the latest start of the layer |
| Temporal.YoungestOfEndKeyed | OhsomeQgis/common/request_core.py:219-232 | for a `@validTo` layer, sorted by its end field, the youngest timestamp is one day after the start of a record whose end is greatest |
| Temporal.StitchEnds | OhsomeQgis/common/request_core.py:235-248 | the loop's in-place updates give `Stitched` of the sorted list |
| Temporal.StitchedChains | OhsomeQgis/common/request_core.py:235-248 | within an element an unset end becomes the next version's start, a set end is kept, and every visited record gets an end |
| Temporal.StitchedIdempotent | OhsomeQgis/common/request_core.py:235-248 | stitching again changes nothing |
| Temporal.PostprocessCore | OhsomeQgis/common/request_core.py:179-253 | the error raised and the layer afterwards are `PostprocessCoreSpec` of the layer before |
| Temporal.PostprocessExtraction | OhsomeQgis/common/data_extractions_core.py:175-238 | the same for the copy in data_extractions_core.py, with the TypeError of the `@validTo` sort and its KeyError when `@osmId` is missing |
| Temporal.PostprocessCoreNoOp | OhsomeQgis/common/request_core.py:180-203 | an empty layer, one without `@osmId` or one without a start field is left unchanged, and nothing is raised |
| Temporal.NullValidToRaises | OhsomeQgis/common/request_core.py:219-223 | sorting a `@validTo` layer of two or more records with a NULL end raises TypeError in both copies, after the end field is added and before any record changes |
| Temporal.PostprocessSucceeds | OhsomeQgis/common/request_core.py:204-253 | with `@osmId`, a start field and a sort that cannot raise, neither copy raises |
| Temporal.PostprocessCoreResult | OhsomeQgis/common/request_core.py:204-253 | when the sort does not raise, the records are kept (same id and start, reordered), the end field is added, the records are in id order, and every record but the last has an end |
| Temporal.CoreLeavesLastOpen | OhsomeQgis/common/request_core.py:235 | as written, a last record with an unset end keeps it |
| Temporal.ExtractionOverwritesLastEnd | OhsomeQgis/common/data_extractions_core.py:220-233 | as written, the last record always gets the youngest timestamp, even over a set end |
| Temporal.IntendedStitchCloses | OhsomeQgis/common/request_core.py:235-248 | with every record visited, every version ends, set ends survive, versions of one element chain start to end, and an element's last version ends at the youngest timestamp |
| Temporal.IntendedAgreesWithCore | OhsomeQgis/common/request_core.py:235-248 | the intended stitching differs from request_core.py only at an open last record |
| Buckets.ExtendMembers | OhsomeQgis/common/request_core.py:138-143 | extending a bucket keeps keys distinct and appends the items to that key's list only |
| Buckets.PopMembers | OhsomeQgis/common/request_core.py:155-169 | `pop` removes one key's list and leaves every other list as it was |
| Buckets.GroupByGroups | OhsomeQgis/common/data_extractions_core.py:159-166 | grouping puts each classified feature under its key, each bucket holding exactly its key's features in input order |
| GeoJsonSplit.Select | OhsomeQgis/common/request_core.py:114-121 | the features come from `features`, else `geometry.geometries`, else `geometries`; none is the `return {}` case; a non-dict input raises AttributeError |
| GeoJsonSplit.BucketKeyRule | OhsomeQgis/common/request_core.py:124-129 | a present, non-null geometry decides by its `type`; otherwise the feature's own `type`; otherwise the feature is skipped |
| GeoJsonSplit.Step | OhsomeQgis/common/request_core.py:123-152 | any lookup error inside the loop becomes GeometryError |
| GeoJsonSplit.SplitKeys | OhsomeQgis/common/request_core.py:130-144 | the bucket dict never has a "GeometryCollection" key, at any nesting |
| GeoJsonSplit.AbsorbMembers | OhsomeQgis/common/request_core.py:135-143 | a GeometryCollection's buckets are only appended, and every member carries the parent's `properties` |
| GeoJsonSplit.DropGeometryLessMembers | OhsomeQgis/common/request_core.py:155-156 | unless geometry-less features are kept, the "Feature" bucket is emptied away; nothing else changes |
| GeoJsonSplit.MergeMembers | OhsomeQgis/common/request_core.py:157-169 | the single-type bucket moves to the end of its Multi bucket only when both exist; a lone bucket stays |
| GeoJsonSplit.Regrouped | OhsomeQgis/common/request_core.py:122-173 | without GeometryCollections or unusable features, the output features are the input's features regrouped by type |
| GeoJsonSplit.FeaturesPopped | OhsomeQgis/common/request_core.py:115 | a truthy `features` member is removed from the input |
| GeoJsonSplit.NothingToSplit | OhsomeQgis/common/request_core.py:120-121 | without features or geometries the answer is `{}` and the input is untouched |
| GeoJsonSplit.CollectionsShape | OhsomeQgis/common/request_core.py:170-176 | one collection per bucket, each a copy of the input's other members with that bucket's `features` |
| GeoJsonSplit.SplitOffAnswersList | OhsomeQgis/common/request_core.py:153-176 | called as the dispatcher calls it, the answer is a list exactly when features were found |
| GeoJsonSplit.Split | OhsomeQgis/common/request_core.py:148-152 | failures are GeometryError, or the AttributeError/TypeError raised outside the `try` |
| GeoJsonSplit.SplitGeoJsonByGeometry | OhsomeQgis/common/request_core.py:106-176 | the loop over the features computes `Split` |
| GeoJsonSplit.ProcessFeature | OhsomeQgis/common/request_core.py:123-152 | the loop body for one feature computes `Step` |
| GeoJsonSplit.SetProperties | OhsomeQgis/common/request_core.py:136-137 | each member of a bucket gets the parent's `properties` |
| GeoJsonSplit.AbsorbCollection | OhsomeQgis/common/request_core.py:135-143 | the outer loop over a collection's buckets computes `Absorb` |
| GeoJsonSplit.GroupFeatures | OhsomeQgis/common/data_extractions_core.py:159-166 | the simple loop computes the grouping by `geometry.type`, dropping features whose lookup fails |
| GeoJsonSplit.SplitGeoJsonSimple | OhsomeQgis/common/data_extractions_core.py:155-172 | the simple splitter computes `SplitSimple` |
| GeoJsonSplit.CopyPerBucket | OhsomeQgis/common/data_extractions_core.py:167-171 | one shallow copy of the input per bucket, holding that bucket's list |
| GeoJsonSplit.SimpleKeeps | OhsomeQgis/common/data_extractions_core.py:158-171 | a feature is kept exactly when its geometry type can be read, and lands in that type's collection; features without a readable geometry type are dropped, not bucketed |
| GeoJsonSplit.ConvertMixedCollection | common/utils.py:338-353 | the loop computes `ConvertMixed`: None without `features` |
| GeoJsonSplit.CopyPerGroup | common/utils.py:350-352 | each stored entry is a copy of the collection with that group's features; the input keeps the last group's list |
| GeoJsonSplit.ConvertMixedGroups | common/utils.py:342-353 | each entry holds exactly that type's features; features without a geometry type are dropped |
| Dispatch.FalsyIsFalse | OhsomeQgis/common/request_core.py:287-288 | an empty or missing result answers False and creates nothing |
| Dispatch.ExtractRegionFirst | OhsomeQgis/common/request_core.py:289-298 | `extractRegion` wins: the extent layer is created and the answer is whether it loaded |
| Dispatch.FeatureCollectionSecond | OhsomeQgis/common/request_core.py:299-318 | next a FeatureCollection (`type` compared case-insensitively): one vector layer per collection the splitter returns |
| Dispatch.TablesLast | OhsomeQgis/common/request_core.py:319-375 | otherwise the `result`, `groupByResult`, `ratioResult` tables decide, in that order |
| Dispatch.EmptyTableSkipped | OhsomeQgis/common/request_core.py:319-374 | an empty table array does not match its branch: the chain goes on as if the key were absent |
| Dispatch.NothingMatches | OhsomeQgis/common/request_core.py:375 | a response with no branch's key answers False and creates nothing |
| Dispatch.GroupTablesHeader | ohsomeTools/proc/procRequest.py:98-113 | the tables are made in the groups' order, each holding its group's `result` under the first group's first-record header; the loop answers True exactly when every group has `groupByObject` and `result` and that header can be read, and then there is exactly one table per group |
| Dispatch.Layers | OhsomeQgis/common/request_core.py:309-317 | one vector layer per returned collection |
| Dispatch.ExtractionTask.constructor | OhsomeQgis/common/request_core.py:262-284 | preferences default to `{}`, the result starts empty and no exception is recorded |
| Dispatch.ExtractionTask.Run | OhsomeQgis/common/request_core.py:377-399 | a POST of the preferences to `/<request url>` when there are any, else a GET of `/metadata`; an exception leaves the result None and is recorded; `run` returns True |
| Dispatch.ElideShortensOne | OhsomeQgis/common/request_core.py:416-423 | `bpolys`, or else `bcircles`, is shortened in the echoed preferences; every other preference is kept |
| Dispatch.OutcomeOrder | OhsomeQgis/common/request_core.py:429-518 | exactly one report: success/processing failure for a valid non-empty result, then canceled, then exception, else unclear |
| Dispatch.ExtractionTask.Finished | OhsomeQgis/common/request_core.py:401-531 | the preferences are elided and the report is `FinishedSpec`'s |
| Dispatch.ProcessingCall | ohsomeTools/proc/procRequest.py:15-26 | a POST to `/<request url>` exactly for a non-empty point-layer preference, else a GET of `/metadata` |
| Dispatch.FailedRequestIsFalse | ohsomeTools/proc/procRequest.py:27-35 | a request that raised answers False and creates no layer |
| ExtractionsCore.Zip | OhsomeQgis/common/data_extractions_core.py:80-90 | pairs by position, as long as the shorter list |
| ExtractionsCore.ProductAt | OhsomeQgis/common/data_extractions_core.py:70-77 | position i·\|ys\|+j of the product holds (xs[i], ys[j]) |
| ExtractionsCore.RoutesMembers | OhsomeQgis/common/data_extractions_core.py:92-100 | a route is yielded exactly for the pairs whose first and last locations differ |
| ExtractionsCore.RoutesProper | OhsomeQgis/common/data_extractions_core.py:92-95 | no yielded route starts where it ends |
| ExtractionsCore.RowByRow | OhsomeQgis/common/data_extractions_core.py:80-100 | "Row-by-Row" pairs the i-th start with the i-th end, truncated to the shorter list |
| ExtractionsCore.AllByAll | OhsomeQgis/common/data_extractions_core.py:70-100 | any other mode pairs every start with every end |
| ExtractionsCore.GetFields | OhsomeQgis/common/data_extractions_core.py:103-142 | the appends build `FieldList` |
| ExtractionsCore.FieldListShape | OhsomeQgis/common/data_extractions_core.py:132-142 | DIST_KM, DURATION_H, PROFILE, PREF, OPTIONS, the from-field, and the to-field unless `line`: seven fields or six |
| RequestParams.PropertyGroups | ohsomeTools/gui/ohsome_spec.py:81-89 | the ticked groups joined by commas: "", "tags", "metadata" or "tags,metadata" |
| RequestParams.ParseCentroid | ohsomeTools/gui/ohsome_spec.py:108-110 | an item that does not unpack raises ValueError |
| RequestParams.ParseCentroidItem | ohsomeTools/gui/ohsome_spec.py:108-110 | reading an item `Point k: <x>, <y> \| Radius: r` gives back its coordinates and radius |
| RequestParams.RequestBcircles | ohsomeTools/gui/ohsome_spec.py:104-119 | the loop computes the `bcircles` string |
| RequestParams.BcirclesJoin | ohsomeTools/gui/ohsome_spec.py:104-119 | with every item parsed, the string is `id<idx>:<coords>,<radius>` entries, numbered by list position, joined by `\|` |
| RequestParams.BcirclesRoundTrip | ohsomeTools/gui/ohsome_spec.py:104-119 | splitting the string at `\|` gives back one entry per item with its own coordinates and radius |
| RequestParams.FailureStays | ohsomeTools/gui/ohsome_spec.py:107-117 | once an item fails to parse, the whole string fails |
| RequestParams.IntervalsPositive | ohsomeTools/gui/ohsome_spec.py:223-230 | the duration is non-empty (≥ 3 characters) exactly when some count is positive, with Y, M, D only for positive counts |
| RequestParams.TimeShape | ohsomeTools/gui/ohsome_spec.py:223-242 | `start/end/P…` exactly for an aggregation with a positive count, else `start,end`; `2007-10-08` becomes `2007-10-08T00:00:01` for each date on its own |
| RequestParams.PrepareOhsomeTimeParameter | ohsomeTools/gui/ohsome_spec.py:207-243 | the same for the method, whose API name is compared lower-cased (also OhsomeQgis/gui/ohsome_spec.py:208-244 and OhsomeQgis/gui/ohsome_gui.py:196-232) |
| RequestParams.ValidateDialog | ohsomeTools/gui/ohsome_spec.py:159-205 | valid exactly when no check appends to the message: a centroid, point layer or polygon layer for the tab, a groupBy key, a second filter for ratio, a filter, a URL and a date |
| RequestParams.ApiOf | ohsomeTools/gui/ohsome_spec.py:302-339 | metadata, data-extraction and data-aggregation are recognised by their lower-cased names |
| RequestParams.PrepareRequestProperties | ohsomeTools/gui/ohsome_spec.py:302-339 | `{}` for metadata; `timeout` only when positive, `groupByKey` only for groupby/key or groupby/tag, `groupByValues` only for groupby/tag when non-empty, `filter2` only for ratio when non-empty; `showMetadata`, `filter` and `time` always otherwise |
| RequestParams.LayerPreferences | ohsomeTools/gui/ohsome_spec.py:350-370 | one dict per geometry string, each the same base with only `bcircles`/`bpolys` set |
| ToolsSpec.GuiRequestUrlShape | ohsomeTools/gui/ohsome_spec.py:137-146 | the dialog URL is `elements/<measure lower>`, plus `/groupby/<choice lower>` unless the choice is `None`; it is always longer than three characters |
| ToolsSpec.GuiRequestUrlLower | ohsomeTools/gui/ohsome_spec.py:137-146 | the dialog URL is lower case |
| ToolsSpec.GuiRequestUrlGroups | ohsomeTools/gui/ohsome_spec.py:137-329 | a key or tag choice makes the URL a groupby/key or groupby/tag endpoint for the properties |
| ToolsSpec.GuiFilter | ohsomeTools/gui/ohsome_spec.py:121-131 | a filter for the simple and advanced tabs only; the advanced tab gives the query text |
| ToolsSpec.GuiSimpleFilter | ohsomeTools/gui/ohsome_spec.py:121-131 | the simple tab gives `key=value and type:t` with the OSM type lower-cased |
| ToolsSpec.GuiApiSpecLower | ohsomeTools/gui/ohsome_spec.py:51-52 | the fixed API name `data-aggregation` is lower case, so the lower-cased checks see it |
| ToolsSpec.GuiDateString | ohsomeTools/gui/ohsome_spec.py:149-243 | as the API is fixed to data-aggregation, `start/end/P…` exactly when a count is positive, else `start,end` |
| ToolsSpec.ProcessingRequestUrl | ohsomeTools/gui/ohsome_spec.py:594-603 | `metadata` exactly for the metadata selection, else `<preference>/<specification>` |
| ToolsSpec.ProcessingTimeout | ohsomeTools/gui/ohsome_spec.py:571-577 | the parameter when positive, else 0 |
| ToolsSpec.ProcessingTimeParameter | ohsomeTools/gui/ohsome_spec.py:401-422 | the period text is appended as given, only for data-aggregation with a period of three or more characters |
| ToolsSpec.ProcessingIsValid | ohsomeTools/gui/ohsome_spec.py:451-483 | the metadata selection is valid outright; otherwise valid exactly when no check appends to the message |
| QgisSpec.RequestUrl | OhsomeQgis/gui/ohsome_spec.py:131-144 | `metadata` exactly when the selection lowers to it, else `<preference>/<specification>` |
| QgisSpec.IsValid | OhsomeQgis/gui/ohsome_spec.py:157-206 | valid outright for metadata; otherwise valid exactly when no dialog check fails |
| GuiSpec.Timeout | OhsomeQgis/gui/ohsome_gui.py:112-115 | the dialog value when non-zero, else GLOBAL_TIMEOUT 10 |
| GuiSpec.PropertyGroupsCompared | OhsomeQgis/gui/ohsome_gui.py:124-130 | the same groups as the other builders except metadata alone, which keeps a leading comma: `,metadata` |
| GuiSpec.RequestUrlShape | OhsomeQgis/gui/ohsome_gui.py:163-169 | `/<preference>/<specification>`, the other URL with a leading slash; longer than three characters exactly when the two texts have two characters between them |
| GuiSpec.IsValidOfDialog | OhsomeQgis/gui/ohsome_gui.py:182-194 | for the dialog's own URL, valid exactly when there are centroids, a filter, a date, and combo texts of two characters between them (so the URL is longer than three) |
| GuiSpec.BcirclesEmpty | OhsomeQgis/gui/ohsome_gui.py:137-151 | the `bcircles` string is empty exactly for an empty list |
| GuiSpec.RequestProperties | OhsomeQgis/gui/ohsome_gui.py:234-255 | `showMetadata`, `filter`, `time` and the defaulted `timeout` always; `clipGeometry` and non-empty `properties` only for data-extraction; `format` only for data-aggregation |
| GuiSpec.AvoidOptions | OhsomeQgis/gui/ohsome_gui.py:66-81 | the loop computes the checked boxes' texts in order |
| GuiSpec.CheckedTextsMembers | OhsomeQgis/gui/ohsome_gui.py:76-81 | a text is listed exactly when a checked box carries it; all boxes checked lists every text |
| Dates.IsoLayout | Ohsome/gui/OhsomeDialogUI.py:164-191 | a date renders as `YYYY-MM-DD`, zero-padded, ten characters |
| Dates.IsoInjective | Ohsome/gui/OhsomeDialogUI.py:164-191 | different dates render differently |
| Dates.HistoryStartText | Ohsome/gui/OhsomeDialogUI.py:200-203 | only 8 October 2007 renders as `2007-10-08` |
| DialogUi.QgisHelper.GetSettings | Ohsome/gui/OhsomeDialogUI.py:52-53 | the entry's text and whether the key exists |
| DialogUi.QgisHelper.AddToSettings | Ohsome/gui/OhsomeDialogUI.py:55-67 | appending to an entry that already holds the value changes nothing; appending otherwise writes `"<entry trimmed>, value"`; without append or entry the value overwrites |
| DialogUi.QgisHelper.RemoveKeyFromSettings | Ohsome/gui/OhsomeDialogUI.py:69-71 | the key is gone and every other entry is kept |
| DialogUi.QgisHelper.RemoveValueFromSettings | Ohsome/gui/OhsomeDialogUI.py:73-83 | every occurrence of the value is removed and outer commas and whitespace trimmed; nothing changes when the entry is absent or lacks the value |
| DialogUi.TrimmedKeeps | Ohsome/gui/OhsomeDialogUI.py:64-82 | an entry already without outer commas or whitespace is kept by the trim |
| DialogUi.FormatDate | Ohsome/gui/OhsomeDialogUI.py:164-191 | the date text built piece by piece is `DatePart` |
| DialogUi.DatePartIso | Ohsome/gui/OhsomeDialogUI.py:164-191 | for a four-digit year, that text is the ISO 8601 calendar date (month and day padded) |
| DialogUi.DateTextInjective | Ohsome/gui/OhsomeDialogUI.py:164-203 | two dialog dates read the same exactly when they are the same date |
| DialogUi.FormatIntervals | Ohsome/gui/OhsomeDialogUI.py:192-198 | the duration built piece by piece is `DialogIntervals` |
| DialogUi.DialogIntervalsPositive | Ohsome/gui/OhsomeDialogUI.py:192-210 | the duration is appended exactly when some count is positive |
| DialogUi.DialogIntervalsShared | Ohsome/gui/OhsomeDialogUI.py:192-198 | with its slash it is the shared `/P…Y…M…D` duration |
| DialogUi.TimeTextShared | Ohsome/gui/OhsomeDialogUI.py:159-210 | `start/end`, or `/start` for equal dates, then the shared duration when some count is positive |
| DialogUi.ProcessManager.Time | Ohsome/gui/OhsomeDialogUI.py:159-210 | `time` computes `TimeText` of the fields |
| DialogUi.ProcessManager.OsmTypes | Ohsome/gui/OhsomeDialogUI.py:246-264 | `_get_osm_types` computes the collapsed concatenation of the ticked types and combinators |
| DialogUi.OsmTypesJoined | Ohsome/gui/OhsomeDialogUI.py:246-264 | with one-word combinators the filter is the ticked `type:node`, `type:way`, `type:relation` in that order with combinators between, single-spaced |
| DialogUi.ProcessManager.IntervalUnit | Ohsome/gui/OhsomeDialogUI.py:275-284 | days before months before years, the first with a positive count; days when none is |
| DialogUi.ProcessManager.IntervalValue | Ohsome/gui/OhsomeDialogUI.py:286-296 | always positive: the count of the unit `interval_unit` picks, or 1 when no count is positive |
| DialogUi.ProcessManager.SetIntervalDays | Ohsome/gui/OhsomeDialogUI.py:266-267 | the setter slot stores the dialog value |
| CommonUtils.FindGroupByNames | common/utils.py:65-70 | one name per `groupBy` occurrence; none exactly when the URL has none |
| CommonUtils.GroupByNamesClean | common/utils.py:70 | no name contains `groupBy` or starts or ends with `/` |
| CommonUtils.GroupByNamesOfUrl | common/utils.py:70 | a URL ending in `groupBy/<name>` gives back exactly `[name]` |
| CommonUtils.CheckListDuplicates | common/utils.py:88-92 | True exactly when some item's text equals the name; False for an empty list; the copy in OhsomeQgis/utils/datamanager.py:4-8 is the same function |
| CommonUtils.AddUnlistedKeepsDistinct | OhsomeQgis/utils/datamanager.py:4-8 | adding a name only when the check says it is absent keeps a list free of duplicates |
| CommonUtils.RingText | common/utils.py:51-57 | a ring renders exactly when every position has two coordinates, else IndexError |
| CommonUtils.GeometryStrings | common/utils.py:48-60 | a Polygon gives its outer ring, a MultiPolygon every ring of its first polygon, other types nothing; a null geometry raises TypeError |
| CommonUtils.FormatCoordinates | common/utils.py:37-62 | the loop computes `FormatCoordinatesSpec`: the pieces joined by `\|` |
| CommonUtils.RingTextRoundTrip | common/utils.py:51-57 | splitting a ring's text at `,` gives its coordinates in order |
| CommonUtils.FormatRoundTrip | common/utils.py:62 | splitting the result at `\|` gives back one piece per rendered ring |
| CommonUtils.FeatureStringsCount | common/utils.py:46-60 | the number of pieces is one per Polygon plus the ring count of each MultiPolygon's first polygon |
| FeatureChains.TypeAndId | common/utils.py:147-160 | a string naming `node`, `way` or `relation`, tested in that order; the id is the text stripped of that prefix's characters |
| FeatureChains.ScanAttributes | common/utils.py:144-168 | no identity exactly when no attribute names a type; the identity's type is among the types met |
| FeatureChains.ScanFeature | common/utils.py:144-168 | the attribute loop computes `ScanAttributes` and adds an empty dict for each type met |
| FeatureChains.LaterTagOverrides | common/utils.py:147-160 | a later attribute naming a type, such as a tag value, overrides the `@osmId` identity |
| FeatureChains.NodeReference | common/utils.py:152-154 | `node/<digits>` gives type node and the digits as id |
| FeatureChains.WithTypes | common/utils.py:161-162 | the existing dicts are kept and each new type gets an empty one |
| FeatureChains.FileRecord | common/utils.py:177-190 | filing fails (TypeError) exactly when the list is re-sorted with a missing start date |
| FeatureChains.RechainedCloses | common/utils.py:179-187 | after re-sorting, the second-to-last version ends one hour before the last one starts, and the last starts latest |
| FeatureChains.RechainedSorted | common/utils.py:179-181 | the re-sorted list is ordered by start date and holds the same versions: with the second-to-last version's former end date restored it is a permutation of the list |
| FeatureChains.StepFiles | common/utils.py:177-190 | a new id gets a one-version list; a repeated id's list grows by one; every other list is unchanged |
| FeatureChains.RepeatCloses | common/utils.py:177-187 | for a repeated id, the re-sorted list's second-to-last end is the last start minus 3600 s |
| FeatureChains.StepKeyError | common/utils.py:161-177 | KeyError exactly when no attribute names a type |
| FeatureChains.StepTypeError | common/utils.py:179-181 | TypeError exactly for a repeated id whose list holds a version without a start date |
| FeatureChains.StepWellformed | common/utils.py:134-191 | each feature keeps every list non-empty, sorted by start, and holding only its own type and id |
| FeatureChains.ProcessAll | common/utils.py:134-191 | a successful result is well formed in that sense |
| FeatureChains.ProcessFeatures | common/utils.py:134-191 | the loop computes `ProcessAll` |
| FeatureChains.ProcessFailureSticks | common/utils.py:137-190 | once one feature fails, the whole call fails with that error |

## Left out

- Network transport, JSON decoding, sleeping and `random`: the client's environment is a script of attempts (clock reading, jitter draw, transport outcome).
- The clock is read twice on a first attempt. The model takes both readings equal, so the elapsed time is 0.
- Client.OhsomeClient.Request: the environment's answers are a finite script, so `NoMoreAttempts` is an outcome of the model only. The source retries an Unauthorized answer until the retry timeout passes.
- QGIS layers, features, fields, temporal properties, message boxes, logging and file writes are abstract sinks or records.
- Floating point is not modelled. The polyline scaling (`* 1e-5`, `* 1e-2`, `round`) is left out; coordinates in `format_coordinates` are opaque strings; `round(x, 6)` in `get_request_point_features` is left out.
- QDate/QDateTime: dates are (year, month, day) triples, timestamps are integer seconds, and `addDays(1)` is 86400 s.
- Strings.Lower: case folding is ASCII only.
- ExtractionsCore.GetFields: `QgsFields.append` refuses a name that is already present; the model appends every field. The count of ExtractionsCore.FieldListShape therefore holds as QGIS builds it only for distinct names, as with the default `FROM_ID`/`TO_ID` the one caller uses (OhsomeQgis/gui/OhsomeQgisDialog.py:235).
- UrlEncoding.UnquoteUnreserved: the letter-or-digit test after a `%` is ASCII only, where Python's `isalnum` also accepts other Unicode letters and digits. The two agree on the queries `urlencode` produces, which are ASCII; the model does not cover other queries.
- Python `dict` order is modelled for decoded JSON objects and the splitter's buckets. The request-parameter dicts are maps, so their key order is not modelled.
- `get_bcircles_request_preferences` and the widget reads behind the geometry lists are not modelled. The lists are inputs.
- `_get_selected_*_layers_geometries` is left out: it relies on the QGIS geometry engine.
- `_get_avoid_polygons` and `_get_layer_polygons` are left out for the same reason.
- The OhsomeQgis `_request_filter` message box is left out.
- ToolsSpec.GuiFilter: for a tab other than 0 and 1 the property returns None. The request properties take the filter as a string input, so that None is not carried into them.
- CommonUtils.GeometryStrings: a feature is assumed to be a dict with `geometry`, `type` and `coordinates`. Only a null geometry is modelled as its TypeError.
- FeatureChains.ProcessFeatures: the model does not capture the aliasing of the QgsFeature objects that are updated in place.
- FeatureChains.ProcessFeatures: the two `currentDateTime()` reads are one `now`.
- FeatureChains.ProcessFeatures: `new_fields.field(...)` is taken as always truthy.
- FeatureChains.ProcessFeatures: Python's sort is modelled by a stable insertion sort.
- Temporal.PostprocessCore: a NULL attribute is taken to read as Python `None`, as the `is None` tests of the stitching loop expect. Sorting a `@validTo` layer with a NULL end then raises TypeError, which the model returns as the error. The same holds for Temporal.PostprocessExtraction.
- Temporal.PostprocessExtraction: the same reading of NULL as `None`; its TypeError comes before the KeyError of a missing `@osmId`.
- GeoJsonSplit.Split: request_core.py:47-48 import `exceptions` from OhsomeQgis/utils/exceptions.py, which defines only ApiError, InvalidKey, OverQueryLimit, Timeout and GenericServerError. As written, the import of `OhsomeBaseException` fails with ImportError, and `exceptions.GeometryError` (request_core.py:149) would raise AttributeError. The model raises GeometryError from ohsomeTools/utils/exceptions.py instead.
- Dispatch.ExtractionTask: the recorded exception is typed `OhsomeBaseException` (request_core.py:282), which OhsomeQgis/utils/exceptions.py does not define. The model uses the base class of ohsomeTools/utils/exceptions.py, so the ImportError that importing request_core raises as written is not modelled.
- Temporal.PostprocessCore: deleting and re-adding the features is a rewrite of the record list.
- Background-task scheduling, cancellation and the task registry are left out; `finished` gets `canceled` and the recorded exception as inputs.
- The dialog and GUI wiring files, the processing-algorithm wrappers, configuration, logging and bootstrap code are not part of this model.
- `get_output_feature_extraction` and `get_output_features_optimization` are not part of this model (floating point, and undefined names in the source).

## Findings

| source | as written | input that shows it | evidently intended | confidence | as-written member | corrected member |
|---|---|---|---|---|---|---|
| OhsomeQgis/common/request_core.py:235 | `for i in range(len(features) - 1)` never visits the last record, though the body's `i < len(features) - 1` guards and the youngest-timestamp branch are written for it | a layer with one version of one element and an unset end keeps a NULL end | every record is visited; the last version of each element ends at the youngest timestamp | not executed | Temporal.CoreLeavesLastOpen | Temporal.IntendedStitchCloses |
| OhsomeQgis/common/data_extractions_core.py:230-233 | the `elif i < len(features) - 1` keeps set ends only before the last index, so the last record's set end is replaced | a last record with end 5 and youngest 100 ends at 100 | an end that is set is kept | not executed | Temporal.ExtractionOverwritesLastEnd | Temporal.IntendedStitchCloses |
