/**
 * `process_features` of common/utils.py: features are filed under their
 * OSM type and id, read off string attributes that mention `node`, `way`
 * or `relation`; a feature whose (type, id) is already filed joins that
 * list, the list is re-sorted by start date, and the second-to-last
 * version is closed one hour before the last one starts.
 *
 * Timestamps are integers in seconds. The clock read that fills in
 * `endDate` is the parameter `now`.
 */
module FeatureChains {
  import opened Wrappers
  import opened Strings
  import opened Json
  import Sorting

  /** An attribute value as `process_features` tells them apart. */
  datatype Value = Text(s: string) | DateTime(t: int) | OtherValue

  /** A field name with the feature's value for it. */
  datatype Attribute = Attribute(field: string, value: Value)

  /** A processed feature: its own attributes, then `startDate` and `endDate`. */
  datatype Processed = Processed(attributes: seq<Attribute>, startDate: Option<int>, endDate: int)

  /** The result: type, then id, then the versions filed under them. */
  type Chains = map<string, map<string, seq<Processed>>>

  const Node := "node"
  const Way := "way"
  const Relation := "relation"
  const SnapshotTimestamp := "@snapshotTimestamp"

  /** The characters `strip("node/")`, `strip("way/")` and `strip("relation/")` remove. */
  const NodeChars := {'n', 'o', 'd', 'e', '/'}
  const WayChars := {'w', 'a', 'y', '/'}
  const RelationChars := {'r', 'e', 'l', 'a', 't', 'i', 'o', 'n', '/'}

  /** One hour, the gap left between a version's end and the next version's start. */
  const HourSeconds := 3600

  predicate NamesType(v: Value)
  {
    v.Text? && (Contains(v.s, Node) || Contains(v.s, Way) || Contains(v.s, Relation))
  }

  /** The type and id one attribute names, testing `node`, `way`, `relation` in that order. */
  function TypeAndId(v: Value): (r: Option<(string, string)>)
    ensures r.Some? <==> NamesType(v)
    ensures r.Some? ==> r.value.0 in {Node, Way, Relation}
    ensures r.Some? && r.value.0 == Way ==> !Contains(v.s, Node)
    ensures r.Some? && r.value.0 == Relation ==> !Contains(v.s, Node) && !Contains(v.s, Way)
  {
    if !NamesType(v) then None
    else if Contains(v.s, Node) then Some((Node, StripWith(v.s, Given(NodeChars))))
    else if Contains(v.s, Way) then Some((Way, StripWith(v.s, Given(WayChars))))
    else Some((Relation, StripWith(v.s, Given(RelationChars))))
  }

  /** What the attribute loop leaves behind: the types it filed, the last identity and start it saw. */
  datatype Scan = Scan(types: set<string>, identity: Option<(string, string)>, startDate: Option<int>)

  /** One pass of the attribute loop. */
  function ScanStep(s: Scan, a: Attribute): Scan
  {
    match TypeAndId(a.value)
    case Some(named) => Scan(s.types + {named.0}, Some(named), s.startDate)
    case None =>
      if a.value.DateTime? && Contains(a.field, SnapshotTimestamp) then s.(startDate := Some(a.value.t))
      else s
  }

  function ScanAttributes(attributes: seq<Attribute>): (r: Scan)
    ensures r.identity.None? <==> forall k :: 0 <= k < |attributes| ==> !NamesType(attributes[k].value)
    ensures r.identity.Some? ==> r.identity.value.0 in r.types
    ensures r.types == {} <==> r.identity.None?
  {
    if attributes == [] then Scan({}, None, None)
    else
      var init := attributes[..|attributes| - 1];
      assert forall k :: 0 <= k < |init| ==> init[k] == attributes[k];
      ScanStep(ScanAttributes(init), attributes[|attributes| - 1])
  }

  lemma ScanAttributesStep(attributes: seq<Attribute>, i: nat)
    requires i < |attributes|
    ensures ScanAttributes(attributes[..i + 1]) == ScanStep(ScanAttributes(attributes[..i]), attributes[i])
  {
    assert attributes[..i + 1][..i] == attributes[..i];
    assert attributes[..i + 1][i] == attributes[i];
  }

  /** The chains with an empty dict filed under each type not yet present. */
  function WithTypes(chains: Chains, types: set<string>): (r: Chains)
    ensures r.Keys == chains.Keys + types
    ensures forall t :: t in chains ==> r[t] == chains[t]
    ensures forall t :: t in types && t !in chains ==> r[t] == map[]
  {
    map t | t in chains.Keys + types :: if t in chains then chains[t] else map[]
  }

  /** Filing one more type. */
  lemma WithTypesAdd(processed: Chains, types: set<string>, t: string)
    ensures var c := WithTypes(processed, types);
            (if t in c then c else c[t := map[]]) == WithTypes(processed, types + {t})
  {
  }

  // ---------------------------------------------------------------------
  // One feature

  /** The start-date order of `sort(key=lambda x: x.attribute("startDate"))` on set dates. */
  function StartKey(p: Processed): int
  {
    if p.startDate.Some? then p.startDate.value else 0
  }

  predicate StartLe(a: Processed, b: Processed)
  {
    StartKey(a) <= StartKey(b)
  }

  lemma StartLeTotalPreorder()
    ensures Sorting.TotalPreorder(StartLe)
  {
  }

  predicate AllStarted(list: seq<Processed>)
  {
    forall k :: 0 <= k < |list| ==> list[k].startDate.Some?
  }

  lemma AllStartedAppend(list: seq<Processed>, p: Processed)
    ensures AllStarted(list + [p]) <==> AllStarted(list) && p.startDate.Some?
  {
    assert (list + [p])[|list|] == p;
    assert forall k :: 0 <= k < |list| ==> (list + [p])[k] == list[k];
  }

  /** The identity a processed feature's attributes name. */
  function Identity(p: Processed): Option<(string, string)>
  {
    ScanAttributes(p.attributes).identity
  }

  /**
   * A filed list: non-empty, every version names the list's type and id,
   * and a list of two or more has every start date set and is sorted by it.
   */
  predicate GroupOk(t: string, id: string, list: seq<Processed>)
  {
    && |list| > 0
    && (forall k :: 0 <= k < |list| ==> Identity(list[k]) == Some((t, id)))
    && (|list| >= 2 ==> AllStarted(list) && Sorting.SortedBy(list, StartLe))
  }

  predicate Wellformed(chains: Chains)
  {
    forall t, id :: t in chains && id in chains[t] ==> GroupOk(t, id, chains[t][id])
  }

  /** The versions after a repeat joins: sorted by start, the second-to-last closed an hour before the last starts. */
  function Rechained(list: seq<Processed>): (r: seq<Processed>)
    requires |list| >= 2 && AllStarted(list)
    ensures |r| == |list|
  {
    var sorted := Sorting.SortBy(list, StartLe);
    assert multiset(sorted) == multiset(list);
    assert sorted[|sorted| - 1] in multiset(list);
    var last := sorted[|sorted| - 1];
    sorted[|sorted| - 2 := sorted[|sorted| - 2].(endDate := last.startDate.value - HourSeconds)]
  }

  /**
   * Filing a processed feature under a type already present: a new id opens
   * a one-version list; a repeat joins its list, and sorting a list in
   * which a version has no start date raises TypeError.
   */
  function FileRecord(filed: Chains, t: string, id: string, record: Processed): (r: Result<Chains, PyError>)
    requires t in filed && (id in filed[t] ==> |filed[t][id]| > 0)
    ensures r.Failure? <==> id in filed[t] && !AllStarted(filed[t][id] + [record])
    ensures r.Failure? ==> r.error == TypeError
  {
    var group := filed[t];
    if id in group then
      var list := group[id] + [record];
      if !AllStarted(list) then Failure(TypeError)
      else Success(filed[t := group[id := Rechained(list)]])
    else Success(filed[t := group[id := [record]]])
  }

  /**
   * One pass of the feature loop. With no attribute naming a type, the
   * lookup under `None` raises KeyError.
   */
  function Step(chains: Chains, attributes: seq<Attribute>, now: int): (r: Result<Chains, PyError>)
    requires Wellformed(chains)
  {
    var scan := ScanAttributes(attributes);
    var filed := WithTypes(chains, scan.types);
    match scan.identity
    case None => Failure(KeyError)
    case Some(named) =>
      assert named.1 in filed[named.0] ==> GroupOk(named.0, named.1, chains[named.0][named.1]);
      FileRecord(filed, named.0, named.1, Processed(attributes, scan.startDate, now))
  }

  /** `process_features` over a whole feature list, failing at the first feature that raises. */
  function ProcessAll(features: seq<seq<Attribute>>, now: int): (r: Result<Chains, PyError>)
    ensures r.Success? ==> Wellformed(r.value)
  {
    if features == [] then Success(map[])
    else
      match ProcessAll(features[..|features| - 1], now)
      case Failure(e) => Failure(e)
      case Success(chains) =>
        var r := Step(chains, features[|features| - 1], now);
        StepWellformed(chains, features[|features| - 1], now);
        r
  }

  // ---------------------------------------------------------------------
  // What one step does

  /** `r` with the end date of its second-to-last version set to `e`. */
  function WithPenultimateEnd(r: seq<Processed>, e: int): seq<Processed>
    requires |r| >= 2
  {
    r[|r| - 2 := r[|r| - 2].(endDate := e)]
  }

  /**
   * Re-chaining sorts the versions, and they are the same versions: giving
   * back the second-to-last one its former end date leaves a permutation
   * of the list.
   */
  lemma RechainedSorted(list: seq<Processed>)
    requires |list| >= 2 && AllStarted(list)
    ensures AllStarted(Rechained(list)) && Sorting.SortedBy(Rechained(list), StartLe)
    ensures forall k :: 0 <= k < |Rechained(list)| ==> Rechained(list)[k].attributes in AttributesOf(list)
    ensures exists e :: multiset(WithPenultimateEnd(Rechained(list), e)) == multiset(list)
  {
    var sorted := Sorting.SortBy(list, StartLe);
    StartLeTotalPreorder();
    Sorting.SortBySorted(list, StartLe);
    var r := Rechained(list);
    forall k | 0 <= k < |r| ensures r[k].startDate == sorted[k].startDate && sorted[k] in list {
      assert sorted[k] in multiset(list);
    }
    forall i, j | 0 <= i < j < |r| ensures StartLe(r[i], r[j]) {
      assert StartLe(sorted[i], sorted[j]);
    }
    forall k | 0 <= k < |r| ensures r[k].attributes in AttributesOf(list) {
      var m :| 0 <= m < |list| && list[m] == sorted[k];
      assert r[k].attributes == AttributesOf(list)[m];
    }
    var e := sorted[|sorted| - 2].endDate;
    assert WithPenultimateEnd(r, e) == sorted;
  }

  function AttributesOf(list: seq<Processed>): (r: seq<seq<Attribute>>)
    ensures |r| == |list|
    ensures forall k :: 0 <= k < |list| ==> r[k] == list[k].attributes
  {
    seq(|list|, k requires 0 <= k < |list| => list[k].attributes)
  }

  /** Filing the types keeps the chains well formed: the new dicts are empty. */
  lemma WithTypesWellformed(chains: Chains, types: set<string>)
    requires Wellformed(chains)
    ensures Wellformed(WithTypes(chains, types))
  {
    var filed := WithTypes(chains, types);
    forall t, id | t in filed && id in filed[t] ensures GroupOk(t, id, filed[t][id]) {
      assert t in chains;
    }
  }

  /** A repeat's list, re-chained, is a well-formed list for its identity. */
  lemma RechainedGroupOk(t: string, id: string, list: seq<Processed>)
    requires |list| >= 2 && AllStarted(list)
    requires forall k :: 0 <= k < |list| ==> Identity(list[k]) == Some((t, id))
    ensures GroupOk(t, id, Rechained(list))
  {
    RechainedSorted(list);
    var r := Rechained(list);
    forall k | 0 <= k < |r| ensures Identity(r[k]) == Some((t, id)) {
      var m :| 0 <= m < |list| && AttributesOf(list)[m] == r[k].attributes;
      assert Identity(list[m]) == Some((t, id));
    }
  }

  lemma FileRecordWellformed(filed: Chains, t: string, id: string, record: Processed)
    requires Wellformed(filed) && t in filed && Identity(record) == Some((t, id))
    ensures FileRecord(filed, t, id, record).Success? ==> Wellformed(FileRecord(filed, t, id, record).value)
  {
    var group := filed[t];
    if id in group {
      var list := group[id] + [record];
      assert GroupOk(t, id, group[id]);
      if AllStarted(list) {
        assert forall k :: 0 <= k < |list| - 1 ==> list[k] == group[id][k];
        RechainedGroupOk(t, id, list);
      }
    }
  }

  /** A step keeps every filed list well formed. */
  lemma StepWellformed(chains: Chains, attributes: seq<Attribute>, now: int)
    requires Wellformed(chains)
    ensures Step(chains, attributes, now).Success? ==> Wellformed(Step(chains, attributes, now).value)
  {
    var scan := ScanAttributes(attributes);
    WithTypesWellformed(chains, scan.types);
    if scan.identity.Some? {
      var record := Processed(attributes, scan.startDate, now);
      FileRecordWellformed(WithTypes(chains, scan.types), scan.identity.value.0, scan.identity.value.1, record);
    }
  }

  /**
   * A feature whose identity is new opens a one-version list under it; a
   * repeat lengthens its list by one, and that list ends with its latest
   * start, the version before it closed an hour earlier. Every other list
   * is left as it was.
   */
  lemma StepFiles(chains: Chains, attributes: seq<Attribute>, now: int)
    requires Wellformed(chains)
    requires Step(chains, attributes, now).Success?
    ensures var scan := ScanAttributes(attributes);
            var r := Step(chains, attributes, now).value;
            && scan.identity.Some?
            && var (t, id) := scan.identity.value;
            && t in r && id in r[t]
            && (t in chains && id in chains[t] ==> |r[t][id]| == |chains[t][id]| + 1)
            && (t !in chains || id !in chains[t] ==> r[t][id] == [Processed(attributes, scan.startDate, now)])
            && (forall t', id' :: t' in chains && id' in chains[t'] && (t', id') != (t, id) ==>
                  t' in r && id' in r[t'] && r[t'][id'] == chains[t'][id'])
  {
  }

  /** Re-chaining ends with the latest start, and the version before it closes an hour earlier. */
  lemma RechainedCloses(list: seq<Processed>)
    requires |list| >= 2 && AllStarted(list)
    ensures var r := Rechained(list);
            && AllStarted(r)
            && r[|r| - 2].endDate == r[|r| - 1].startDate.value - HourSeconds
            && forall k :: 0 <= k < |r| ==> StartKey(r[k]) <= r[|r| - 1].startDate.value
  {
    RechainedSorted(list);
    var r := Rechained(list);
    forall k | 0 <= k < |r| ensures StartKey(r[k]) <= r[|r| - 1].startDate.value {
      if k < |r| - 1 {
        assert StartLe(r[k], r[|r| - 1]);
      }
    }
  }

  /** After a repeat the second-to-last version ends one hour before the last one starts. */
  lemma RepeatCloses(chains: Chains, attributes: seq<Attribute>, now: int)
    requires Wellformed(chains)
    requires Step(chains, attributes, now).Success?
    requires var named := ScanAttributes(attributes).identity;
             named.Some? && named.value.0 in chains && named.value.1 in chains[named.value.0]
    ensures var (t, id) := ScanAttributes(attributes).identity.value;
            var list := Step(chains, attributes, now).value[t][id];
            && |list| >= 2 && AllStarted(list)
            && list[|list| - 2].endDate == list[|list| - 1].startDate.value - HourSeconds
            && forall k :: 0 <= k < |list| ==> StartKey(list[k]) <= list[|list| - 1].startDate.value
  {
    var scan := ScanAttributes(attributes);
    var (t, id) := scan.identity.value;
    var list := chains[t][id] + [Processed(attributes, scan.startDate, now)];
    assert Step(chains, attributes, now).value[t][id] == Rechained(list);
    RechainedCloses(list);
  }

  /** A step fails with KeyError exactly when no attribute names a type. */
  lemma StepKeyError(chains: Chains, attributes: seq<Attribute>, now: int)
    requires Wellformed(chains)
    ensures Step(chains, attributes, now) == Failure(KeyError)
            <==> forall k :: 0 <= k < |attributes| ==> !NamesType(attributes[k].value)
  {
  }

  /**
   * A step fails with TypeError exactly for a repeat where the feature or
   * one of the versions filed before it has no start date.
   */
  lemma StepTypeError(chains: Chains, attributes: seq<Attribute>, now: int)
    requires Wellformed(chains)
    ensures var scan := ScanAttributes(attributes);
            Step(chains, attributes, now) == Failure(TypeError)
            <==> && scan.identity.Some? && scan.identity.value.0 in chains
                 && scan.identity.value.1 in chains[scan.identity.value.0]
                 && (scan.startDate.None? || !AllStarted(chains[scan.identity.value.0][scan.identity.value.1]))
  {
    var scan := ScanAttributes(attributes);
    if scan.identity.Some? {
      var (t, id) := scan.identity.value;
      var filed := WithTypes(chains, scan.types);
      var record := Processed(attributes, scan.startDate, now);
      assert Step(chains, attributes, now) == FileRecord(filed, t, id, record);
      if t in chains && id in chains[t] {
        AllStartedAppend(chains[t][id], record);
      }
    }
  }

  // ---------------------------------------------------------------------
  // The loops

  /** The `if`/`elif` chain over one string attribute. */
  method ReadAttribute(v: Value) returns (named: Option<(string, string)>)
    ensures named == TypeAndId(v)
  {
    if v.Text? && (Contains(v.s, Node) || Contains(v.s, Way) || Contains(v.s, Relation)) {
      if Contains(v.s, Node) {
        named := Some((Node, StripWith(v.s, Given(NodeChars))));
      } else if Contains(v.s, Way) {
        named := Some((Way, StripWith(v.s, Given(WayChars))));
      } else {
        named := Some((Relation, StripWith(v.s, Given(RelationChars))));
      }
    } else {
      named := None;
    }
  }

  /**
   * The attribute loop of one feature: every attribute naming a type files
   * an empty dict under that type and becomes the identity; a date-time
   * under a `@snapshotTimestamp` field becomes the start date.
   */
  method ScanFeature(processed: Chains, attributes: seq<Attribute>)
    returns (chains: Chains, identity: Option<(string, string)>, startDate: Option<int>)
    ensures chains == WithTypes(processed, ScanAttributes(attributes).types)
    ensures identity == ScanAttributes(attributes).identity
    ensures startDate == ScanAttributes(attributes).startDate
  {
    chains, identity, startDate := processed, None, None;
    ghost var scan := Scan({}, None, None);
    var i := 0;
    while i < |attributes|
      invariant i <= |attributes|
      invariant scan == ScanAttributes(attributes[..i])
      invariant chains == WithTypes(processed, scan.types)
      invariant identity == scan.identity && startDate == scan.startDate
    {
      var a := attributes[i];
      ScanAttributesStep(attributes, i);
      var named := ReadAttribute(a.value);
      if named.Some? {
        identity := named;
        WithTypesAdd(processed, scan.types, named.value.0);
        if named.value.0 !in chains {
          chains := chains[named.value.0 := map[]];
        }
      } else if a.value.DateTime? && Contains(a.field, SnapshotTimestamp) {
        startDate := Some(a.value.t);
      }
      scan := ScanStep(scan, a);
      i := i + 1;
    }
    assert attributes[..i] == attributes;
  }

  /** Filing one processed feature under its type and id. */
  method AddRecord(filed: Chains, featureType: string, featureId: string, record: Processed)
    returns (r: Result<Chains, PyError>)
    requires featureType in filed && (featureId in filed[featureType] ==> |filed[featureType][featureId]| > 0)
    ensures r == FileRecord(filed, featureType, featureId, record)
  {
    var group := filed[featureType];
    if featureId in group {
      var list := group[featureId] + [record];
      if !AllStarted(list) {
        return Failure(TypeError);
      }
      var sorted := Sorting.SortBy(list, StartLe);
      assert sorted[|sorted| - 1] in multiset(list);
      var last := sorted[|sorted| - 1];
      sorted := sorted[|sorted| - 2 := sorted[|sorted| - 2].(endDate := last.startDate.value - HourSeconds)];
      return Success(filed[featureType := group[featureId := sorted]]);
    }
    return Success(filed[featureType := group[featureId := [record]]]);
  }

  /** One pass of the feature loop: scan, then file the processed feature. */
  method FileFeature(processed: Chains, attributes: seq<Attribute>, now: int) returns (r: Result<Chains, PyError>)
    requires Wellformed(processed)
    ensures r == Step(processed, attributes, now)
  {
    var filed, identity, startDate := ScanFeature(processed, attributes);
    if identity.None? {
      return Failure(KeyError);
    }
    var (featureType, featureId) := identity.value;
    assert featureId in filed[featureType] ==> GroupOk(featureType, featureId, processed[featureType][featureId]);
    r := AddRecord(filed, featureType, featureId, Processed(attributes, startDate, now));
  }

  lemma ProcessAllStep(features: seq<seq<Attribute>>, i: nat, now: int)
    requires i < |features| && ProcessAll(features[..i], now).Success?
    ensures ProcessAll(features[..i + 1], now) == Step(ProcessAll(features[..i], now).value, features[i], now)
  {
    assert features[..i + 1][..i] == features[..i];
    assert features[..i + 1][i] == features[i];
  }

  /**
   * `process_features` (common/utils.py:134-191): the feature loop, each
   * feature scanned, given its start date and the clock's end date, and
   * filed; a repeat re-sorts its list and closes the version before the
   * last.
   */
  method ProcessFeatures(features: seq<seq<Attribute>>, now: int) returns (r: Result<Chains, PyError>)
    ensures r == ProcessAll(features, now)
  {
    var processed: Chains := map[];
    var i := 0;
    while i < |features|
      invariant i <= |features|
      invariant ProcessAll(features[..i], now) == Success(processed)
    {
      ProcessAllStep(features, i, now);
      var step := FileFeature(processed, features[i], now);
      if step.Failure? {
        ProcessFailureSticks(features, i + 1, now);
        return step;
      }
      processed := step.value;
      i := i + 1;
    }
    assert features[..i] == features;
    return Success(processed);
  }

  /** A failure in a prefix is the failure of the whole list. */
  lemma {:induction false} ProcessFailureSticks(features: seq<seq<Attribute>>, n: nat, now: int)
    requires n <= |features| && ProcessAll(features[..n], now).Failure?
    ensures ProcessAll(features, now) == ProcessAll(features[..n], now)
    decreases |features| - n
  {
    if n < |features| {
      assert features[..n + 1][..n] == features[..n];
      assert ProcessAll(features[..n + 1], now).Failure?;
      ProcessFailureSticks(features, n + 1, now);
    } else {
      assert features[..n] == features;
    }
  }

  // ---------------------------------------------------------------------
  // Reading the identity

  /** An `@osmId` value `node/<digits>` names the node with those digits. */
  lemma NodeReference(digits: string)
    requires forall k :: 0 <= k < |digits| ==> '0' <= digits[k] <= '9'
    ensures TypeAndId(Text(Node + "/" + digits)) == Some((Node, digits))
  {
    NodeReferenceContains(digits);
    NodeReferenceStrip(digits);
  }

  lemma NodeReferenceContains(digits: string)
    ensures Contains(Node + "/" + digits, Node)
  {
    assert OccursAt(Node + "/" + digits, Node, 0);
  }

  lemma NodeReferenceStrip(digits: string)
    requires forall k :: 0 <= k < |digits| ==> '0' <= digits[k] <= '9'
    ensures StripWith(Node + "/" + digits, Given(NodeChars)) == digits
  {
    var pre := Node + "/";
    assert forall k :: 0 <= k < |pre| ==> Drops(Given(NodeChars), pre[k]);
    StripExact(pre, digits, "", Given(NodeChars));
    assert pre + digits + "" == Node + "/" + digits;
  }

  /**
   * The last attribute naming a type decides the identity, so a tag value
   * after `@osmId` that contains `way`, such as `motorway`, replaces it:
   * `way/4` followed by `motorway` files the feature as way `motor`.
   */
  lemma LaterTagOverrides(osmId: string, tag: string)
    requires NamesType(Text(tag))
    ensures ScanAttributes([Attribute("@osmId", Text(osmId)), Attribute("highway", Text(tag))]).identity
            == TypeAndId(Text(tag))
  {
    var attributes := [Attribute("@osmId", Text(osmId)), Attribute("highway", Text(tag))];
    assert attributes[..1] == [Attribute("@osmId", Text(osmId))];
  }
}
